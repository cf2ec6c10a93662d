/**
 * The handful of Python `str` operations the agent relies on, defined on
 * `seq<char>`.  Character classes (`isspace`, regex `\w`) and case mapping
 * are those of ASCII: other characters are neither word characters nor
 * whitespace and keep their case.
 */
module Text {
  import opened Wrappers

  /** `str.isspace` restricted to ASCII: tab, line feed, vertical tab, form
      feed, carriage return, the four separators 0x1C-0x1F, and space. */
  predicate IsSpace(c: char) {
    c == ' ' || ('\t' <= c <= '\r') || ('\U{1C}' <= c <= '\U{1F}')
  }

  /** The regex class `\w` restricted to ASCII. */
  predicate IsWordChar(c: char) {
    ('a' <= c <= 'z') || ('A' <= c <= 'Z') || ('0' <= c <= '9') || c == '_'
  }

  function LowerChar(c: char): (r: char)
    ensures IsSpace(r) <==> IsSpace(c)
    ensures !('A' <= r <= 'Z')
  {
    if 'A' <= c <= 'Z' then (c as int + 32) as char else c
  }

  function UpperChar(c: char): (r: char)
    ensures IsSpace(r) <==> IsSpace(c)
    ensures !('a' <= r <= 'z')
  {
    if 'a' <= c <= 'z' then (c as int - 32) as char else c
  }

  /** `str.lower()`: no capital is left, every character keeps its letter
      (it agrees with the original up to case), and every character that
      was not a capital is kept as it was. */
  function Lower(s: string): (r: string)
    ensures |r| == |s|
    ensures forall i :: 0 <= i < |r| ==> !('A' <= r[i] <= 'Z')
    ensures forall i :: 0 <= i < |s| ==> UpperChar(r[i]) == UpperChar(s[i])
    ensures forall i :: 0 <= i < |s| && !('A' <= s[i] <= 'Z') ==> r[i] == s[i]
  {
    seq(|s|, i requires 0 <= i < |s| => LowerChar(s[i]))
  }

  lemma LowerIdempotent(s: string)
    ensures Lower(Lower(s)) == Lower(s)
  {
  }

  /** `s[k:].startswith(w)`. */
  predicate StartsAt(s: string, k: nat, w: string) {
    k + |w| <= |s| && s[k..k + |w|] == w
  }

  /** `w in s`: `w` occurs in `s` at some position. */
  predicate Contains(s: string, w: string) {
    IsInfix(w, s)
  }

  /** `any(w in s for w in ws)`. */
  predicate ContainsAny(s: string, ws: seq<string>) {
    exists k :: 0 <= k < |ws| && Contains(s, ws[k])
  }

  /** `r` is a substring of `s`. */
  predicate IsInfix(r: string, s: string) {
    exists i: nat :: i <= |s| && StartsAt(s, i, r)
  }

  /** `str.find` for a non-empty needle: the first position of `w` in `s`. */
  function Find(s: string, w: string): (r: Option<nat>)
    requires |w| > 0
    ensures r.Some? ==> StartsAt(s, r.value, w)
    ensures r.Some? ==> forall j: nat :: j < r.value ==> !StartsAt(s, j, w)
    ensures r.None? <==> !Contains(s, w)
    decreases |s|
  {
    if |s| < |w| then None
    else if s[..|w|] == w then Some(0)
    else
      var r := Find(s[1..], w);
      forall j: nat | 1 <= j
        ensures StartsAt(s, j, w) <==> StartsAt(s[1..], j - 1, w)
      {
        StartsAtShift(s, 1, j - 1, w);
      }
      assert !StartsAt(s, 0, w);
      match r
      case None => None
      case Some(k) => Some(k + 1)
  }

  /** An occurrence in a suffix is an occurrence in the whole, shifted. */
  lemma StartsAtShift(s: string, d: nat, j: nat, w: string)
    requires d <= |s|
    ensures StartsAt(s, d + j, w) <==> StartsAt(s[d..], j, w)
  {
    if d + j + |w| <= |s| {
      assert s[d..][j..j + |w|] == s[d + j..d + j + |w|];
    }
  }

  /** `s.split(sep)` for a non-empty separator. */
  function Split(s: string, sep: string): (parts: seq<string>)
    requires |sep| > 0
    ensures |parts| >= 1
    ensures Contains(s, sep) ==> |parts| >= 2
    decreases |s|
  {
    match Find(s, sep)
    case None => [s]
    case Some(i) => [s[..i]] + Split(s[i + |sep|..], sep)
  }

  /** `sep.join(parts)`: the first part opens the result, and the separator
      follows it when there is more than one part. */
  function Join(sep: string, parts: seq<string>): (r: string)
    ensures |parts| > 0 ==> StartsAt(r, 0, parts[0])
    ensures |parts| > 1 ==> StartsAt(r, |parts[0]|, sep)
  {
    if |parts| == 0 then ""
    else if |parts| == 1 then parts[0]
    else
      var r := parts[0] + sep + Join(sep, parts[1..]);
      assert r[..|parts[0]|] == parts[0];
      assert r[|parts[0]|..|parts[0]| + |sep|] == sep;
      r
  }

  /** `s.replace(target, with)` for a non-empty `target`: Python's own
      definition, all non-overlapping occurrences from the left. A text
      without the target, or a target replaced by itself, is left as it is. */
  function Replace(s: string, target: string, with: string): (r: string)
    requires |target| > 0
    ensures !Contains(s, target) ==> r == s
    ensures with == target ==> r == s
  {
    JoinSplit(s, target);
    Join(with, Split(s, target))
  }

  /** Joining the pieces of a split with the same separator gives back the
      original string. */
  lemma {:induction false} JoinSplit(s: string, sep: string)
    requires |sep| > 0
    ensures Join(sep, Split(s, sep)) == s
    decreases |s|
  {
    match Find(s, sep)
    case None =>
    case Some(i) =>
      var rest := s[i + |sep|..];
      var parts := Split(s, sep);
      JoinSplit(rest, sep);
      assert parts == [s[..i]] + Split(rest, sep);
      assert parts[1..] == Split(rest, sep);
      assert Join(sep, parts) == s[..i] + sep + Join(sep, Split(rest, sep));
      assert s == s[..i] + s[i..i + |sep|] + rest;
  }

  /** The text before the first occurrence of `sep` does not contain it. */
  lemma PrefixBeforeFirst(s: string, sep: string, i: nat)
    requires |sep| > 0 && Find(s, sep) == Some(i)
    ensures !Contains(s[..i], sep)
  {
    var p := s[..i];
    if Contains(p, sep) {
      var j: nat :| j <= |p| && StartsAt(p, j, sep);
      assert s[j..j + |sep|] == p[j..j + |sep|];
      assert StartsAt(s, j, sep);
    }
  }

  /** No piece of a split contains the separator. */
  lemma {:induction false} SplitPiecesFree(s: string, sep: string, k: nat)
    requires |sep| > 0 && k < |Split(s, sep)|
    ensures !Contains(Split(s, sep)[k], sep)
    decreases |s|
  {
    if Find(s, sep).Some? {
      var i := Find(s, sep).value;
      var rest := s[i + |sep|..];
      assert Split(s, sep) == [s[..i]] + Split(rest, sep);
      if k == 0 {
        PrefixBeforeFirst(s, sep, i);
      } else {
        assert Split(s, sep)[k] == Split(rest, sep)[k - 1];
        SplitPiecesFree(rest, sep, k - 1);
      }
    }
  }

  /** Every piece of a split is a substring of the split string. */
  lemma {:induction false} SplitPiecesInfix(s: string, sep: string, k: nat)
    requires |sep| > 0 && k < |Split(s, sep)|
    ensures IsInfix(Split(s, sep)[k], s)
    decreases |s|
  {
    match Find(s, sep)
    case None =>
      assert StartsAt(s, 0, s);
    case Some(i) =>
      if k == 0 {
        assert StartsAt(s, 0, s[..i]);
      } else {
        assert StartsAt(s, i + |sep|, s[i + |sep|..]);
        var rest := s[i + |sep|..];
        SplitPiecesInfix(rest, sep, k - 1);
        InfixTrans(Split(rest, sep)[k - 1], rest, s);
      }
  }

  /** A text occurs in itself. */
  lemma InfixSelf(u: string)
    ensures IsInfix(u, u)
  {
    assert StartsAt(u, 0, u);
  }

  /** A text occurring in `p` still occurs once text is added on either side. */
  lemma InfixExtend(u: string, p: string, q: string)
    requires IsInfix(u, p)
    ensures IsInfix(u, p + q) && IsInfix(u, q + p)
  {
    var i: nat :| i <= |p| && StartsAt(p, i, u);
    assert (p + q)[i..i + |u|] == p[i..i + |u|];
    assert StartsAt(p + q, i, u);
    assert (q + p)[|q| + i..|q| + i + |u|] == p[i..i + |u|];
    assert StartsAt(q + p, |q| + i, u);
  }

  lemma InfixTrans(a: string, b: string, c: string)
    requires IsInfix(a, b)
    requires IsInfix(b, c)
    ensures IsInfix(a, c)
  {
    var i: nat :| i <= |b| && StartsAt(b, i, a);
    var j: nat :| j <= |c| && StartsAt(c, j, b);
    assert i + |a| <= |b| && j + |b| <= |c|;
    forall k | 0 <= k < |a| ensures c[j + i + k] == a[k] {
      assert a[k] == b[i..i + |a|][k] == b[i + k];
      assert b[i + k] == c[j..j + |b|][i + k] == c[j + i + k];
    }
    assert c[j + i..j + i + |a|] == a;
    assert StartsAt(c, j + i, a);
  }

  predicate AllSpace(s: string) {
    forall i :: 0 <= i < |s| ==> IsSpace(s[i])
  }

  predicate NoSpace(s: string) {
    forall i :: 0 <= i < |s| ==> !IsSpace(s[i])
  }

  /** `s.lstrip()`. */
  function TrimLeft(s: string): (r: string)
    ensures r == [] || !IsSpace(r[0])
    ensures |r| <= |s| && r == s[|s| - |r|..]
    ensures AllSpace(s[..|s| - |r|])
    decreases |s|
  {
    if |s| > 0 && IsSpace(s[0]) then TrimLeft(s[1..]) else s
  }

  /** `s.rstrip()`. */
  function TrimRight(s: string): (r: string)
    ensures r == [] || !IsSpace(r[|r| - 1])
    ensures |r| <= |s| && r == s[..|r|]
    ensures AllSpace(s[|r|..])
    decreases |s|
  {
    if |s| > 0 && IsSpace(s[|s| - 1]) then TrimRight(s[..|s| - 1]) else s
  }

  /** `s.strip()`: no longer than `s`, and with no whitespace at either end. */
  function Strip(s: string): (r: string)
    ensures |r| <= |s|
    ensures r != [] ==> !IsSpace(r[0]) && !IsSpace(r[|r| - 1])
  {
    var l := TrimLeft(s);
    var r := TrimRight(l);
    assert r != [] ==> r[0] == l[0];
    r
  }

  /** `strip()` leaves nothing exactly when the string is all whitespace,
      and otherwise a substring of it. */
  lemma StripShape(s: string)
    ensures Strip(s) == [] <==> AllSpace(s)
    ensures IsInfix(Strip(s), s)
  {
    var l := TrimLeft(s);
    var r := TrimRight(l);
    var d := |s| - |l|;
    if r == [] {
      assert l == [] by {
        assert l[|r|..] == l;
      }
      forall i | 0 <= i < |s| ensures IsSpace(s[i]) {
        assert s[..d][i] == s[i];
      }
    } else {
      assert !IsSpace(l[0]);
      assert r[0] == l[0];
      assert !AllSpace(s) by { assert s[d] == l[0]; }
    }
    assert s[d..d + |r|] == l[..|r|];
    assert StartsAt(s, d, r);
  }

  /** Length of the leading run of non-space characters. */
  function WordEnd(t: string): (n: nat)
    ensures n <= |t|
    ensures forall j :: 0 <= j < n ==> !IsSpace(t[j])
    ensures n == |t| || IsSpace(t[n])
    decreases |t|
  {
    if |t| == 0 || IsSpace(t[0]) then 0 else 1 + WordEnd(t[1..])
  }

  /** `s.split()`: the maximal runs of non-whitespace characters. */
  function Words(s: string): seq<string>
    decreases |s|
  {
    if s == [] then []
    else if IsSpace(s[0]) then Words(s[1..])
    else
      var n := WordEnd(s);
      [s[..n]] + Words(s[n..])
  }

  /** Every word is non-empty and free of whitespace, and there are none
      exactly when the text is all whitespace. */
  lemma {:induction false} WordsShape(s: string)
    ensures forall k :: 0 <= k < |Words(s)| ==> Words(s)[k] != [] && NoSpace(Words(s)[k])
    ensures Words(s) == [] <==> AllSpace(s)
    decreases |s|
  {
    if s != [] && IsSpace(s[0]) {
      WordsShape(s[1..]);
      assert AllSpace(s) <==> AllSpace(s[1..]) by {
        if AllSpace(s[1..]) {
          forall i | 1 <= i < |s| ensures IsSpace(s[i]) { assert s[i] == s[1..][i - 1]; }
        }
      }
    } else if s != [] {
      var n := WordEnd(s);
      var w := s[..n];
      var rest := Words(s[n..]);
      assert Words(s) == [w] + rest;
      WordsShape(s[n..]);
      assert NoSpace(w) by {
        forall j | 0 <= j < |w| ensures !IsSpace(w[j]) {
          assert w[j] == s[j];
        }
      }
      forall k | 0 <= k < |Words(s)| ensures Words(s)[k] != [] && NoSpace(Words(s)[k]) {
        if k > 0 {
          assert Words(s)[k] == rest[k - 1];
        }
      }
    }
  }

  /** `w.capitalize()`: first character upper case, the rest lower case. */
  function Capitalize(w: string): (r: string)
    ensures |r| == |w|
  {
    if w == [] then [] else [UpperChar(w[0])] + Lower(w[1..])
  }

  predicate Capitalized(w: string) {
    w != [] && UpperChar(w[0]) == w[0] &&
    forall j :: 1 <= j < |w| ==> LowerChar(w[j]) == w[j]
  }

  /** `' '.join(w.capitalize() for w in s.split())`: empty exactly when `s`
      is all whitespace. */
  function Normalize(s: string): (r: string)
    ensures r == [] <==> AllSpace(s)
  {
    var ws := Words(s);
    WordsShape(s);
    Join(" ", CapitalizeAll(ws))
  }

  function CapitalizeAll(ws: seq<string>): (r: seq<string>)
    ensures |r| == |ws|
    ensures forall k :: 0 <= k < |ws| ==> r[k] == Capitalize(ws[k])
  {
    seq(|ws|, k requires 0 <= k < |ws| => Capitalize(ws[k]))
  }
}
