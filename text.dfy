/**
 * The Python string operations the scraper and the connector rely on:
 * `strip`, `rstrip(c)`, `lower`, `in`, `split(sep)`, and `sep.join(parts)`.
 */
module Text {

  /** Python's `str.isspace` for one character: the characters `str.strip()` removes. */
  predicate IsSpace(c: char)
  {
    || c == ' '
    || ('\t' <= c <= '\r')
    || ('\U{1C}' <= c <= '\U{1F}')
    || c == '\U{85}' || c == '\U{A0}' || c == '\U{1680}'
    || ('\U{2000}' <= c <= '\U{200A}')
    || c == '\U{2028}' || c == '\U{2029}' || c == '\U{202F}' || c == '\U{205F}' || c == '\U{3000}'
  }

  /** `s.lstrip()`: drops the leading whitespace and nothing else. */
  function TrimStart(s: string): (r: string)
    ensures |r| <= |s| && r == s[|s| - |r|..]
    ensures r == [] || !IsSpace(r[0])
    ensures forall i :: 0 <= i < |s| - |r| ==> IsSpace(s[i])
  {
    if s == [] || !IsSpace(s[0]) then s else TrimStart(s[1..])
  }

  /** `s.rstrip()`: drops the trailing whitespace and nothing else. */
  function TrimEnd(s: string): (r: string)
    ensures |r| <= |s| && r == s[..|r|]
    ensures r == [] || !IsSpace(r[|r| - 1])
    ensures forall i :: |r| <= i < |s| ==> IsSpace(s[i])
  {
    if s == [] || !IsSpace(s[|s| - 1]) then s else TrimEnd(s[..|s| - 1])
  }

  /** `s.strip()`: drops the whitespace at both ends. */
  function Strip(s: string): (r: string)
    ensures |r| <= |s|
  {
    TrimEnd(TrimStart(s))
  }

  /** `s.strip()` neither starts nor ends with whitespace. */
  lemma StripEnds(s: string)
    ensures Strip(s) == [] || (!IsSpace(Strip(s)[0]) && !IsSpace(Strip(s)[|Strip(s)| - 1]))
  {
    var t := TrimStart(s);
    var r := TrimEnd(t);
    if r != [] {
      assert r[0] == t[0];
    }
  }

  /** `s.strip()` is empty exactly when `s` is all whitespace. */
  lemma StripEmptyIffBlank(s: string)
    ensures Strip(s) == [] <==> forall i :: 0 <= i < |s| ==> IsSpace(s[i])
  {
    var t := TrimStart(s);
    var r := TrimEnd(t);
    if r == [] {
      assert t == [];
    } else {
      assert r[0] == t[0] == s[|s| - |t|];
    }
  }

  /** A string with no whitespace at either end is its own `strip()`. */
  lemma {:induction false} StripKeeps(s: string)
    requires s == [] || (!IsSpace(s[0]) && !IsSpace(s[|s| - 1]))
    ensures Strip(s) == s
  {
    assert TrimStart(s) == s;
    assert TrimEnd(s) == s;
  }

  /** `strip()` is idempotent. */
  lemma StripIdempotent(s: string)
    ensures Strip(Strip(s)) == Strip(s)
  {
    StripEnds(s);
    StripKeeps(Strip(s));
  }

  /** `s.rstrip(c)`: drops every trailing `c`, and only those. */
  function TrimEndChar(s: string, c: char): (r: string)
    ensures |r| <= |s| && r == s[..|r|]
    ensures r == [] || r[|r| - 1] != c
    ensures forall i :: |r| <= i < |s| ==> s[i] == c
  {
    if s == [] || s[|s| - 1] != c then s else TrimEndChar(s[..|s| - 1], c)
  }

  /** Python's `lower()` restricted to ASCII letters. */
  function LowerChar(c: char): char
  {
    if 'A' <= c <= 'Z' then (c as int + 32) as char else c
  }

  function Lower(s: string): (r: string)
    ensures |r| == |s|
  {
    seq(|s|, i requires 0 <= i < |s| => LowerChar(s[i]))
  }

  /** `sub` occurs in `s` starting at index `i`. */
  predicate OccursAt(s: string, sub: string, i: nat)
  {
    i + |sub| <= |s| && s[i..i + |sub|] == sub
  }

  /** Python's `sub in s`. */
  predicate Contains(s: string, sub: string)
  {
    exists i :: 0 <= i <= |s| - |sub| && OccursAt(s, sub, i)
  }

  /**
   * `s.split(sep)[0]`: the text before the first occurrence of `sep`, or all of
   * `s` when `sep` does not occur.
   */
  function BeforeFirst(s: string, sep: string): (r: string)
    requires sep != []
    ensures |r| <= |s| && r == s[..|r|]
    ensures forall j :: 0 <= j < |r| ==> !OccursAt(s, sep, j)
    ensures r == s || OccursAt(s, sep, |r|)
    decreases |s|
  {
    if |s| < |sep| then s
    else if s[..|sep|] == sep then []
    else
      var rest := BeforeFirst(s[1..], sep);
      OccursShift(s, sep);
      var r := [s[0]] + rest;
      assert s[..|r|] == [s[0]] + s[1..][..|rest|];
      assert s[0..0 + |sep|] == s[..|sep|];
      forall j | 1 <= j < |r| ensures !OccursAt(s, sep, j) {
        assert !OccursAt(s[1..], sep, j - 1);
      }
      assert r == s || OccursAt(s, sep, |r|);
      r
  }

  /** An occurrence one position further into `s` is an occurrence in `s[1..]`. */
  lemma OccursShift(s: string, sep: string)
    requires s != []
    ensures forall j :: 0 <= j < |s| - 1 ==> (OccursAt(s, sep, j + 1) <==> OccursAt(s[1..], sep, j))
  {
    forall j | 0 <= j < |s| - 1
      ensures OccursAt(s, sep, j + 1) <==> OccursAt(s[1..], sep, j)
    {
      if j + 1 + |sep| <= |s| {
        var a, b := s[j + 1..j + 1 + |sep|], s[1..][j..j + |sep|];
        assert |a| == |b| && forall i :: 0 <= i < |a| ==> a[i] == s[j + 1 + i] == b[i];
      }
    }
  }

  /** Whether `sep` occurs at `j` does not depend on what follows the occurrence. */
  lemma OccursInPrefix(a: string, b: string, sep: string, j: nat)
    requires j + |sep| <= |a|
    ensures OccursAt(a + b, sep, j) <==> OccursAt(a, sep, j)
  {
    var x, y := (a + b)[j..j + |sep|], a[j..j + |sep|];
    assert |x| == |y| && forall i :: 0 <= i < |x| ==> x[i] == a[j + i] == y[i];
  }

  /** `BeforeFirst` is pinned down by where the first occurrence of `sep` is. */
  lemma BeforeFirstAt(s: string, sep: string, k: nat)
    requires sep != [] && k <= |s|
    requires forall j :: 0 <= j < k ==> !OccursAt(s, sep, j)
    requires k == |s| || OccursAt(s, sep, k)
    ensures BeforeFirst(s, sep) == s[..k]
  {
  }

  /** A string in which `c` does not occur has no occurrence of `[c]` anywhere. */
  lemma NoOccurrence(s: string, c: char)
    requires c !in s
    ensures forall j :: 0 <= j <= |s| ==> !OccursAt(s, [c], j)
  {
    forall j | 0 <= j <= |s| ensures !OccursAt(s, [c], j) {
      OccursAtChar(s, c, j);
    }
  }

  /** A one-character pattern occurs exactly where that character stands. */
  lemma OccursAtChar(s: string, c: char, j: nat)
    ensures OccursAt(s, [c], j) <==> j < |s| && s[j] == c
  {
    if j < |s| { assert s[j..j + 1] == [s[j]]; }
  }

  /** `sep.join(parts)`. */
  function Join(parts: seq<string>, sep: string): string
  {
    if |parts| == 0 then ""
    else if |parts| == 1 then parts[0]
    else parts[0] + sep + Join(parts[1..], sep)
  }

  /** `s.split(c)`: the pieces between occurrences of `c`; never empty. */
  function Split(s: string, c: char): (r: seq<string>)
    ensures |r| >= 1
    decreases |s|
  {
    var head := BeforeFirst(s, [c]);
    if head == s then [s] else [head] + Split(s[|head| + 1..], c)
  }

  /** Joining pieces that do not contain `c` with `c` and splitting on `c` gives the pieces back. */
  lemma {:induction false} SplitJoin(parts: seq<string>, c: char)
    requires parts != []
    requires forall p :: p in parts ==> c !in p
    ensures Split(Join(parts, [c]), c) == parts
  {
    if |parts| == 1 {
      NoOccurrence(parts[0], c);
      BeforeFirstAt(parts[0], [c], |parts[0]|);
    } else {
      JoinHead(parts, c);
      SplitJoin(parts[1..], c);
      assert parts == [parts[0]] + parts[1..];
    }
  }

  /** Splitting a join on `c` cuts the first part off at the first `c`, the one the join put after it. */
  lemma JoinHead(parts: seq<string>, c: char)
    requires |parts| > 1 && c !in parts[0]
    ensures var s := Join(parts, [c]);
            && BeforeFirst(s, [c]) == parts[0] && |parts[0]| < |s|
            && s[|parts[0]| + 1..] == Join(parts[1..], [c])
  {
    var s := Join(parts, [c]);
    var p0 := parts[0];
    var tail := Join(parts[1..], [c]);
    NoOccurrence(p0, c);
    assert s == p0 + [c] + tail;
    forall j | 0 <= j < |p0| ensures !OccursAt(s, [c], j) {
      assert s[j] == p0[j];
      OccursAtChar(s, c, j);
    }
    assert s[|p0|..|p0| + 1] == [c];
    BeforeFirstAt(s, [c], |p0|);
    assert s[..|p0|] == p0;
    assert s[|p0| + 1..] == tail;
  }

  /**
   * With separator `", "`, the text before the first comma of a join is the
   * first part, provided no part contains a comma.
   */
  lemma FirstOfJoin(parts: seq<string>, sep: string)
    requires parts != [] && sep != [] && sep[0] == ','
    requires forall p :: p in parts ==> ',' !in p
    ensures BeforeFirst(Join(parts, sep), ",") == parts[0]
  {
    var s := Join(parts, sep);
    var p0 := parts[0];
    NoOccurrence(p0, ',');
    forall j | 0 <= j < |p0| ensures !OccursAt(s, ",", j) {
      assert s[j] == p0[j];
      OccursAtChar(s, ',', j);
    }
    if |parts| == 1 {
      BeforeFirstAt(s, ",", |p0|);
    } else {
      assert s == p0 + sep + Join(parts[1..], sep);
      assert s[|p0|..|p0| + 1] == ",";
      BeforeFirstAt(s, ",", |p0|);
    }
  }
}
