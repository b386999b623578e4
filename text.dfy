/**
 * The handful of Python `str` operations the application uses: `lower`
 * (over ASCII letters), `strip`, `startswith`, `in`, `split`, `join` and
 * `replace`.
 */
module Text {
  import opened Wrappers

  /**
   * Python's whitespace (`str.isspace()`): what `str.strip()` removes and the
   * pattern `\s` matches.  Tab to carriage return, the four separators
   * U+001C to U+001F, space, and the Unicode spaces and line separators.
   */
  predicate IsSpace(c: char) {
    || '\t' <= c <= '\r'
    || '\U{001C}' <= c <= ' '
    || c == '\U{0085}' || c == '\U{00A0}' || c == '\U{1680}'
    || '\U{2000}' <= c <= '\U{200A}'
    || c == '\U{2028}' || c == '\U{2029}' || c == '\U{202F}' || c == '\U{205F}' || c == '\U{3000}'
  }

  predicate IsUpper(c: char) {
    'A' <= c <= 'Z'
  }

  function LowerChar(c: char): (r: char)
    ensures !IsUpper(r)
    ensures IsUpper(c) ==> r as int == c as int + 32
    ensures !IsUpper(c) ==> r == c
  {
    if IsUpper(c) then (c as int + 32) as char else c
  }

  /** `s.lower()` restricted to ASCII letters. */
  function Lower(s: string): (r: string)
    ensures |r| == |s|
    ensures forall i :: 0 <= i < |s| ==> r[i] == LowerChar(s[i])
  {
    seq(|s|, i requires 0 <= i < |s| => LowerChar(s[i]))
  }

  /** Lower-casing twice is lower-casing once: case-insensitive comparison is an equivalence. */
  lemma LowerIdempotent(s: string)
    ensures Lower(Lower(s)) == Lower(s)
  {
  }

  /** `s.startswith(p)`. */
  predicate StartsWith(s: string, p: string) {
    |p| <= |s| && s[..|p|] == p
  }

  /** `p` occurs in `s` starting at index `i`. */
  predicate OccursAt(s: string, p: string, i: nat) {
    i + |p| <= |s| && s[i..i + |p|] == p
  }

  /** The first occurrence of `p` in `s` at or after `from` (`s.find(p, from)`). */
  function FindFrom(s: string, p: string, from: nat): (r: Option<nat>)
    requires from <= |s|
    ensures r.Some? ==> from <= r.value && OccursAt(s, p, r.value)
    ensures r.Some? ==> forall j :: from <= j < r.value ==> !OccursAt(s, p, j)
    ensures r.None? ==> forall j :: from <= j ==> !OccursAt(s, p, j)
    decreases |s| - from
  {
    if OccursAt(s, p, from) then Some(from)
    else if from == |s| then None
    else FindFrom(s, p, from + 1)
  }

  /** The first occurrence of `p` in `s` (`s.find(p)`, with `None` for `-1`). */
  function Find(s: string, p: string): (r: Option<nat>)
    ensures r.Some? ==> OccursAt(s, p, r.value)
    ensures r.Some? ==> forall j :: 0 <= j < r.value ==> !OccursAt(s, p, j)
    ensures r.None? ==> forall j :: 0 <= j ==> !OccursAt(s, p, j)
  {
    FindFrom(s, p, 0)
  }

  /** `p in s`. */
  predicate Contains(s: string, p: string) {
    Find(s, p).Some?
  }

  /** A string in which `p` occurs nowhere. */
  lemma NotContains(s: string, p: string)
    requires forall j :: 0 <= j ==> !OccursAt(s, p, j)
    ensures !Contains(s, p)
  {
  }

  /** `s.split(p)[0]`: the text before the first occurrence of `p`, or all of `s`. */
  function Before(s: string, p: string): (r: string)
    ensures StartsWith(s, r)
    ensures Contains(s, p) <==> |r| < |s| || OccursAt(s, p, |r|)
  {
    match Find(s, p)
    case Some(k) => s[..k]
    case None => s
  }

  /** The text before the first occurrence is cut at `k` when `p` occurs at `k` and nowhere before. */
  lemma BeforeAt(s: string, p: string, k: nat)
    requires OccursAt(s, p, k) || k == |s|
    requires forall j :: 0 <= j < k ==> !OccursAt(s, p, j)
    requires k == |s| ==> forall j :: 0 <= j ==> !OccursAt(s, p, j)
    ensures Before(s, p) == s[..k]
  {
  }

  /** `s.split(p, 1)` when `p in s`: the text before and after the first occurrence. */
  function SplitOnce(s: string, p: string): (r: (string, string))
    requires Contains(s, p)
    ensures s == r.0 + p + r.1
    ensures forall j :: 0 <= j < |r.0| ==> !OccursAt(s, p, j)
  {
    var k := Find(s, p).value;
    assert s == s[..k] + s[k..k + |p|] + s[k + |p|..];
    (s[..k], s[k + |p|..])
  }

  /** `k` is where `p` first occurs in `s`. */
  predicate FirstOccurrence(s: string, p: string, k: nat) {
    OccursAt(s, p, k) && forall j :: 0 <= j < k ==> !OccursAt(s, p, j)
  }

  /** `s.split(p, 1)` cuts at the first occurrence of `p`, wherever that is. */
  lemma SplitOnceAt(s: string, p: string, k: nat)
    requires FirstOccurrence(s, p, k)
    ensures Contains(s, p) && SplitOnce(s, p) == (s[..k], s[k + |p|..])
  {
    var f := Find(s, p);
    assert f.Some? && f.value == k by {
      if f.None? || f.value < k {
        assert false;
      }
      assert !(f.value > k);
    }
  }

  /** Python's `sep.join(xs)`. */
  function Join(xs: seq<string>, sep: string): (r: string)
    decreases |xs|
  {
    if |xs| == 0 then ""
    else if |xs| == 1 then xs[0]
    else xs[0] + sep + Join(xs[1..], sep)
  }

  /**
   * `s.split(c)` for a one-character separator: the pieces between the
   * separators, at least one, none containing `c`; joining them back with
   * `c` gives `s` again.
   */
  function Split(s: string, c: char): (r: seq<string>)
    ensures |r| >= 1
    ensures forall i :: 0 <= i < |r| ==> c !in r[i]
    ensures Join(r, [c]) == s
    decreases |s|
  {
    if s == [] then [""]
    else if s[0] == c then [""] + Split(s[1..], c)
    else
      var rest := Split(s[1..], c);
      var r := [[s[0]] + rest[0]] + rest[1..];
      assert r[1..] == rest[1..];
      r
  }

  /** Splitting a joined list of separator-free pieces gives the pieces back. */
  lemma {:induction false} SplitJoin(xs: seq<string>, c: char)
    requires |xs| >= 1
    requires forall i :: 0 <= i < |xs| ==> c !in xs[i]
    ensures Split(Join(xs, [c]), c) == xs
    decreases |xs|, |xs[0]|
  {
    if |xs[0]| == 0 {
      if |xs| == 1 {
      } else {
        assert Join(xs, [c]) == [c] + Join(xs[1..], [c]);
        SplitJoin(xs[1..], c);
        assert Join(xs, [c])[1..] == Join(xs[1..], [c]);
      }
    } else {
      var ys := [xs[0][1..]] + xs[1..];
      assert ys[1..] == xs[1..];
      assert Join(xs, [c]) == [xs[0][0]] + Join(ys, [c]);
      SplitJoin(ys, c);
      assert Join(xs, [c])[1..] == Join(ys, [c]);
      assert [xs[0][0]] + ys[0] == xs[0];
      assert xs == [xs[0]] + xs[1..];
    }
  }

  /** `s.lstrip()`. */
  function TrimStart(s: string): (r: string)
    ensures r == [] || !IsSpace(r[0])
    ensures |r| <= |s| && r == s[|s| - |r|..]
    ensures forall i :: 0 <= i < |s| - |r| ==> IsSpace(s[i])
    decreases |s|
  {
    if s != [] && IsSpace(s[0]) then TrimStart(s[1..]) else s
  }

  /** `s.rstrip()`. */
  function TrimEnd(s: string): (r: string)
    ensures r == [] || !IsSpace(r[|r| - 1])
    ensures |r| <= |s| && r == s[..|r|]
    ensures forall i :: |r| <= i < |s| ==> IsSpace(s[i])
    decreases |s|
  {
    if s != [] && IsSpace(s[|s| - 1]) then TrimEnd(s[..|s| - 1]) else s
  }

  /** `s.strip()`. */
  function Strip(s: string): string {
    TrimEnd(TrimStart(s))
  }

  /** Neither end of `s` is whitespace. */
  predicate IsStripped(s: string) {
    s == [] || (!IsSpace(s[0]) && !IsSpace(s[|s| - 1]))
  }

  /** `strip()` removes exactly the surrounding whitespace: it keeps a stripped string and yields one. */
  lemma StripSpec(s: string)
    ensures IsStripped(Strip(s))
    ensures IsStripped(s) ==> Strip(s) == s
    ensures Strip(s) == [] <==> forall i :: 0 <= i < |s| ==> IsSpace(s[i])
  {
    var t := TrimStart(s);
    var r := TrimEnd(t);
    if r != [] {
      assert r[0] == t[0];
    }
  }

  lemma StripIsStripped(s: string)
    ensures IsStripped(Strip(s))
  {
    StripSpec(s);
  }

  /** `s.replace(c, rep)` for a one-character pattern. */
  function ReplaceChar(s: string, c: char, rep: string): (r: string)
    ensures c !in rep ==> c !in r
    decreases |s|
  {
    if s == [] then ""
    else (if s[0] == c then rep else [s[0]]) + ReplaceChar(s[1..], c, rep)
  }

  /** Replacing a character distributes over concatenation. */
  lemma {:induction false} ReplaceCharAppend(a: string, b: string, c: char, rep: string)
    ensures ReplaceChar(a + b, c, rep) == ReplaceChar(a, c, rep) + ReplaceChar(b, c, rep)
    decreases |a|
  {
    if a != [] {
      assert (a + b)[1..] == a[1..] + b;
      ReplaceCharAppend(a[1..], b, c, rep);
    } else {
      assert a + b == b;
    }
  }

  /** A character a text does not hold is not in any slice of it. */
  lemma NotInSlice(s: string, c: char, lo: nat, hi: nat)
    requires c !in s && lo <= hi <= |s|
    ensures c !in s[lo..hi]
  {
  }

  lemma ReplaceCharOne(c: char, d: char, rep: string)
    ensures ReplaceChar([c], d, rep) == if c == d then rep else [c]
  {
    assert [c][1..] == [];
  }

  /** Replacing a character the text does not hold changes nothing. */
  lemma {:induction false} ReplaceCharAbsent(s: string, c: char, rep: string)
    requires c !in s
    ensures ReplaceChar(s, c, rep) == s
    decreases |s|
  {
    if s != [] {
      assert s[0] != c;
      ReplaceCharAbsent(s[1..], c, rep);
      assert s == [s[0]] + s[1..];
    }
  }

  /** `s.replace(p, rep)` for a non-empty pattern: every non-overlapping occurrence, left to right. */
  function ReplaceAll(s: string, p: string, rep: string): (r: string)
    requires p != []
    decreases |s|
  {
    if s == [] then ""
    else if StartsWith(s, p) then rep + ReplaceAll(s[|p|..], p, rep)
    else [s[0]] + ReplaceAll(s[1..], p, rep)
  }

  /** A string that does not hold the pattern's first character is left alone by `replace`. */
  lemma {:induction false} ReplaceAllNoop(s: string, p: string, rep: string)
    requires p != [] && p[0] !in s
    ensures ReplaceAll(s, p, rep) == s
    decreases |s|
  {
    if s != [] {
      assert !StartsWith(s, p) by { assert s[0] != p[0]; }
      ReplaceAllNoop(s[1..], p, rep);
    }
  }
}
