/** The JavaScript string operations the core relies on: `toLowerCase`,
    `toUpperCase`, `includes`, `trim`, `split` on one character and
    `Array.prototype.join`. Case mapping covers the ASCII letters only. */
module Text {

  function LowerChar(c: char): char
  {
    if 'A' <= c <= 'Z' then (c as int + 32) as char else c
  }

  function UpperChar(c: char): char
  {
    if 'a' <= c <= 'z' then (c as int - 32) as char else c
  }

  /** `s.toLowerCase()` */
  function Lower(s: string): (r: string)
    ensures |r| == |s|
    ensures forall i :: 0 <= i < |s| ==> r[i] == LowerChar(s[i])
  {
    seq(|s|, i requires 0 <= i < |s| => LowerChar(s[i]))
  }

  /** `s.toUpperCase()` */
  function Upper(s: string): (r: string)
    ensures |r| == |s|
    ensures forall i :: 0 <= i < |s| ==> r[i] == UpperChar(s[i])
  {
    seq(|s|, i requires 0 <= i < |s| => UpperChar(s[i]))
  }

  lemma LowerIdempotent(s: string)
    ensures Lower(Lower(s)) == Lower(s)
  {
    assert forall i :: 0 <= i < |s| ==> Lower(Lower(s))[i] == Lower(s)[i];
  }

  /** `hay.includes(needle)`: `needle` occurs in `hay` at some position. */
  predicate Contains(hay: string, needle: string)
  {
    exists i :: 0 <= i <= |hay| && needle <= hay[i..]
  }

  /** The empty string occurs in every string. */
  lemma ContainsEmpty(hay: string)
    ensures Contains(hay, "")
  {
    assert "" <= hay[0..];
  }

  /** Occurrence is transitive: a piece of a piece of `c` is a piece of `c`. */
  lemma ContainsTransitive(a: string, b: string, c: string)
    requires Contains(b, a) && Contains(c, b)
    ensures Contains(c, a)
  {
    var i :| 0 <= i <= |b| && a <= b[i..];
    var j :| 0 <= j <= |c| && b <= c[j..];
    assert a <= c[j + i..] by {
      forall k | 0 <= k < |a|
        ensures a[k] == c[j + i..][k]
      {
        assert a[k] == b[i + k] == c[j..][i + k];
      }
    }
  }

  /** A string occurs in any string built around it. */
  lemma ContainsMiddle(front: string, needle: string, back: string)
    ensures Contains(front + needle + back, needle)
  {
    assert needle <= (front + needle + back)[|front|..];
  }

  /** The characters `String.prototype.trim` removes: white space and line
      terminators of ECMAScript (the Unicode space separators included). */
  predicate IsWhitespace(c: char)
  {
    || c == ' ' || c == '\t' || c == '\n' || c == '\r' || c == '\U{B}' || c == '\U{C}'
    || c == '\U{A0}' || c == '\U{1680}' || '\U{2000}' <= c <= '\U{200A}'
    || c == '\U{2028}' || c == '\U{2029}' || c == '\U{202F}' || c == '\U{205F}'
    || c == '\U{3000}' || c == '\U{FEFF}'
  }

  /** No whitespace at either end. */
  predicate IsTrimmed(s: string)
  {
    s == [] || (!IsWhitespace(s[0]) && !IsWhitespace(s[|s| - 1]))
  }

  function TrimStart(s: string): (r: string)
    ensures r == [] || !IsWhitespace(r[0])
    ensures exists i :: 0 <= i <= |s| && r == s[i..]
    decreases |s|
  {
    if s != [] && IsWhitespace(s[0]) then
      var r := TrimStart(s[1..]);
      var i :| 0 <= i <= |s[1..]| && r == s[1..][i..];
      assert r == s[i + 1..];
      r
    else
      assert s == s[0..];
      s
  }

  function TrimEnd(s: string): (r: string)
    ensures r == [] || !IsWhitespace(r[|r| - 1])
    ensures exists j :: 0 <= j <= |s| && r == s[..j]
    decreases |s|
  {
    if s != [] && IsWhitespace(s[|s| - 1]) then
      var r := TrimEnd(s[..|s| - 1]);
      var j :| 0 <= j <= |s| - 1 && r == s[..|s| - 1][..j];
      assert r == s[..j];
      r
    else
      assert s == s[..|s|];
      s
  }

  /** `s.trim()`: the longest slice of `s` without whitespace at either end. */
  function Trim(s: string): (r: string)
    ensures IsTrimmed(r)
    ensures exists i, j :: 0 <= i <= j <= |s| && r == s[i..j]
    ensures IsTrimmed(s) ==> r == s
  {
    var t := TrimStart(s);
    var r := TrimEnd(t);
    var i :| 0 <= i <= |s| && t == s[i..];
    var j :| 0 <= j <= |t| && r == t[..j];
    assert r == s[i..i + j] by {
      assert s[i..][..j] == s[i..i + j];
    }
    assert r != [] ==> r[0] == t[0];
    assert IsTrimmed(s) ==> t == s && r == t;
    r
  }

  /** Whitespace in front of a string does not survive `trim`. */
  lemma {:induction false} TrimAfterWhitespace(w: char, s: string)
    requires IsWhitespace(w)
    ensures Trim([w] + s) == Trim(s)
  {
    assert ([w] + s)[1..] == s;
  }

  /** `xs.join(sep)`; the empty list joins to `""`. */
  function Join(xs: seq<string>, sep: string): (r: string)
    decreases |xs|
  {
    if |xs| == 0 then ""
    else if |xs| == 1 then xs[0]
    else xs[0] + sep + Join(xs[1..], sep)
  }

  /** `xs.map(x => p + x)`: every item with the same prefix. */
  function Prefixed(p: string, xs: seq<string>): (r: seq<string>)
    ensures |r| == |xs| && forall i :: 0 <= i < |xs| ==> r[i] == p + xs[i]
  {
    seq(|xs|, i requires 0 <= i < |xs| => p + xs[i])
  }

  /** A join starts with its first item. */
  lemma JoinHead(xs: seq<string>, sep: string)
    requires |xs| >= 1
    ensures xs[0] <= Join(xs, sep)
  {
    if |xs| >= 2 {
      assert Join(xs, sep) == xs[0] + (sep + Join(xs[1..], sep));
    }
  }

  function TotalLength(xs: seq<string>): nat
    decreases |xs|
  {
    if xs == [] then 0 else |xs[0]| + TotalLength(xs[1..])
  }

  /** Joining n >= 1 strings inserts exactly n - 1 separators. */
  lemma {:induction false} JoinLength(xs: seq<string>, sep: string)
    requires |xs| >= 1
    ensures |Join(xs, sep)| == TotalLength(xs) + (|xs| - 1) * |sep|
    decreases |xs|
  {
    if |xs| > 1 {
      JoinLength(xs[1..], sep);
    }
  }

  /** Joining two non-empty lists is joining each and putting one separator
      between the two results. */
  lemma {:induction false} JoinAppend(a: seq<string>, b: seq<string>, sep: string)
    requires |a| >= 1 && |b| >= 1
    ensures Join(a + b, sep) == Join(a, sep) + sep + Join(b, sep)
    decreases |a|
  {
    assert (a + b)[0] == a[0];
    assert (a + b)[1..] == a[1..] + b;
    if |a| >= 2 {
      JoinAppend(a[1..], b, sep);
      var x, l, r := a[0], Join(a[1..], sep), Join(b, sep);
      assert x + sep + (l + sep + r) == (x + sep + l) + sep + r;
    }
  }

  function Count(s: string, d: char): nat
    decreases |s|
  {
    if s == [] then 0 else (if s[0] == d then 1 else 0) + Count(s[1..], d)
  }

  /** `s.split(d)` for a one-character separator: the pieces between the
      occurrences of `d`; `"".split(d)` is `[""]`. */
  function Split(s: string, d: char): (r: seq<string>)
    ensures |r| >= 1
    decreases |s|
  {
    if s == [] then [""]
    else
      var rest := Split(s[1..], d);
      if s[0] == d then [""] + rest
      else [[s[0]] + rest[0]] + rest[1..]
  }

  /** There is one more piece than there are separators, and no piece
      contains the separator. */
  lemma {:induction false} SplitShape(s: string, d: char)
    ensures |Split(s, d)| == Count(s, d) + 1
    ensures forall k :: 0 <= k < |Split(s, d)| ==> d !in Split(s, d)[k]
    decreases |s|
  {
    if s != [] {
      SplitShape(s[1..], d);
    }
  }

  /** Splitting a string that starts with a separator-free piece `x`. */
  lemma {:induction false} SplitPrefix(x: string, t: string, d: char)
    requires d !in x
    ensures Split(x + t, d) == [x + Split(t, d)[0]] + Split(t, d)[1..]
    decreases |x|
  {
    if x == [] {
      assert x + t == t && x + Split(t, d)[0] == Split(t, d)[0];
      assert Split(t, d) == [Split(t, d)[0]] + Split(t, d)[1..];
    } else {
      assert (x + t)[1..] == x[1..] + t;
      SplitPrefix(x[1..], t, d);
      assert [x[0]] + (x[1..] + Split(t, d)[0]) == x + Split(t, d)[0];
    }
  }

  /** Splitting undoes joining with the same single character. */
  lemma {:induction false} SplitJoin(xs: seq<string>, d: char)
    requires |xs| >= 1
    requires forall k :: 0 <= k < |xs| ==> d !in xs[k]
    ensures Split(Join(xs, [d]), d) == xs
    decreases |xs|
  {
    if |xs| == 1 {
      SplitPrefix(xs[0], "", d);
      assert xs[0] + "" == xs[0];
    } else {
      var rest := Join(xs[1..], [d]);
      SplitJoin(xs[1..], d);
      assert Join(xs, [d]) == xs[0] + ([d] + rest);
      SplitPrefix(xs[0], [d] + rest, d);
      assert ([d] + rest)[1..] == rest;
      assert Split([d] + rest, d) == [""] + xs[1..];
      assert xs[0] + "" == xs[0];
    }
  }

  /** Joining the pieces back with the separator restores the string. */
  lemma {:induction false} JoinSplit(s: string, d: char)
    ensures Join(Split(s, d), [d]) == s
    decreases |s|
  {
    if s != [] {
      JoinSplit(s[1..], d);
      var rest := Split(s[1..], d);
      if s[0] == d {
        assert Join([""] + rest, [d]) == "" + [d] + Join(rest, [d]);
        assert s == [s[0]] + s[1..];
      } else {
        var r := [[s[0]] + rest[0]] + rest[1..];
        if |rest| == 1 {
          assert Join(r, [d]) == [s[0]] + rest[0];
          assert s == [s[0]] + s[1..];
        } else {
          assert Join(rest, [d]) == rest[0] + [d] + Join(rest[1..], [d]);
          assert r[1..] == rest[1..];
          assert Join(r, [d]) == [s[0]] + rest[0] + [d] + Join(rest[1..], [d]);
          assert s == [s[0]] + s[1..];
        }
      }
    }
  }
}
