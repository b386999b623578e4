/**
 * The parts of `markdown_to_html` that are plain text processing: the HTML
 * escape done first, the two list-wrapping passes over the lines, and the
 * final line-break replacement.  The header, emphasis and code rewrites in
 * between are regular-expression substitutions and are a parameter here.
 */
module Markdown {
  import opened Text
  import opened Decimal

  // ---------------------------------------------------------------------------
  // HTML escaping

  /** The escape of one character. */
  function EscapeChar(c: char): string {
    if c == '&' then "&amp;"
    else if c == '<' then "&lt;"
    else if c == '>' then "&gt;"
    else [c]
  }

  /** Every character escaped exactly once, left to right; no raw angle bracket remains. */
  function EscapeEach(s: string): (r: string)
    ensures '<' !in r && '>' !in r
    decreases |s|
  {
    if s == [] then ""
    else EscapeChar(s[0]) + EscapeEach(s[1..])
  }

  /** The source's three chained `replace` calls, ampersand first. */
  function Escape(s: string): string {
    ReplaceChar(ReplaceChar(ReplaceChar(s, '&', "&amp;"), '<', "&lt;"), '>', "&gt;")
  }

  lemma EscapeAppend(a: string, b: string)
    ensures Escape(a + b) == Escape(a) + Escape(b)
  {
    ReplaceCharAppend(a, b, '&', "&amp;");
    var a1, b1 := ReplaceChar(a, '&', "&amp;"), ReplaceChar(b, '&', "&amp;");
    ReplaceCharAppend(a1, b1, '<', "&lt;");
    var a2, b2 := ReplaceChar(a1, '<', "&lt;"), ReplaceChar(b1, '<', "&lt;");
    ReplaceCharAppend(a2, b2, '>', "&gt;");
  }

  /**
   * Because '&' is replaced before '<' and '>', the chained replacements
   * escape each character of the input exactly once.
   */
  lemma EscapeOneChar(c: char)
    ensures Escape([c]) == EscapeChar(c)
  {
    if c == '&' {
      EscapeAmpersand();
    } else if c == '<' {
      EscapeLess();
    } else if c == '>' {
      EscapeGreater();
    } else {
      EscapeOther(c);
    }
  }

  /** The '&' becomes "&amp;", which the two later replacements leave alone. */
  lemma EscapeAmpersand()
    ensures Escape("&") == "&amp;"
  {
    ReplaceCharOne('&', '&', "&amp;");
    assert '<' !in "&amp;" && '>' !in "&amp;";
    ReplaceCharAbsent("&amp;", '<', "&lt;");
    ReplaceCharAbsent("&amp;", '>', "&gt;");
  }

  lemma EscapeLess()
    ensures Escape("<") == "&lt;"
  {
    assert ReplaceChar("<", '&', "&amp;") == "<" by { ReplaceCharOne('<', '&', "&amp;"); }
    assert ReplaceChar("<", '<', "&lt;") == "&lt;" by { ReplaceCharOne('<', '<', "&lt;"); }
    assert ReplaceChar("&lt;", '>', "&gt;") == "&lt;" by { ReplaceCharAbsent("&lt;", '>', "&gt;"); }
  }

  lemma EscapeGreater()
    ensures Escape(">") == "&gt;"
  {
    assert ReplaceChar(">", '&', "&amp;") == ">" by { ReplaceCharOne('>', '&', "&amp;"); }
    assert ReplaceChar(">", '<', "&lt;") == ">" by { ReplaceCharOne('>', '<', "&lt;"); }
    assert ReplaceChar(">", '>', "&gt;") == "&gt;" by { ReplaceCharOne('>', '>', "&gt;"); }
  }

  lemma EscapeOther(c: char)
    requires c != '&' && c != '<' && c != '>'
    ensures Escape([c]) == [c]
  {
    ReplaceCharOne(c, '&', "&amp;");
    ReplaceCharOne(c, '<', "&lt;");
    ReplaceCharOne(c, '>', "&gt;");
  }

  lemma {:induction false} EscapeEscapesOnce(s: string)
    ensures Escape(s) == EscapeEach(s)
    ensures '<' !in Escape(s) && '>' !in Escape(s)
    decreases |s|
  {
    if s != [] {
      assert s == [s[0]] + s[1..];
      EscapeAppend([s[0]], s[1..]);
      EscapeOneChar(s[0]);
      EscapeEscapesOnce(s[1..]);
    }
  }

  /** The inverse of the escape, reading the three entities back. */
  function Unescape(s: string): string
    decreases |s|
  {
    if s == [] then ""
    else if StartsWith(s, "&amp;") then "&" + Unescape(s[5..])
    else if StartsWith(s, "&lt;") then "<" + Unescape(s[4..])
    else if StartsWith(s, "&gt;") then ">" + Unescape(s[4..])
    else [s[0]] + Unescape(s[1..])
  }

  /** The escape loses nothing: unescaping gives the original text back. */
  lemma {:induction false} UnescapeEscape(s: string)
    ensures Unescape(Escape(s)) == s
    decreases |s|
  {
    EscapeEscapesOnce(s);
    UnescapeEach(s);
  }

  /** Unescaping reads an escaped character back and goes on with the rest. */
  lemma UnescapeOne(c: char, rest: string)
    ensures Unescape(EscapeChar(c) + rest) == [c] + Unescape(rest)
  {
    if c == '&' {
      UnescapeAmp(rest);
    } else if c == '<' {
      UnescapeLt(rest);
    } else if c == '>' {
      UnescapeGt(rest);
    } else {
      UnescapePlain(c, rest);
    }
  }

  lemma UnescapeAmp(rest: string)
    ensures Unescape("&amp;" + rest) == "&" + Unescape(rest)
  {
    var t := "&amp;" + rest;
    assert t[..5] == "&amp;" && t[5..] == rest;
  }

  lemma UnescapePlain(c: char, rest: string)
    requires c != '&'
    ensures Unescape([c] + rest) == [c] + Unescape(rest)
  {
    var t := [c] + rest;
    assert t[0] == c && t[1..] == rest;
  }

  lemma UnescapeLt(rest: string)
    ensures Unescape("&lt;" + rest) == "<" + Unescape(rest)
  {
    var t := "&lt;" + rest;
    assert t[..4] == "&lt;" && t[4..] == rest;
    assert !StartsWith(t, "&amp;") by { assert t[1] == 'l'; }
  }

  lemma UnescapeGt(rest: string)
    ensures Unescape("&gt;" + rest) == ">" + Unescape(rest)
  {
    var t := "&gt;" + rest;
    assert t[..4] == "&gt;" && t[4..] == rest;
    assert !StartsWith(t, "&amp;") && !StartsWith(t, "&lt;") by { assert t[1] == 'g'; }
  }

  lemma {:induction false} UnescapeEach(s: string)
    ensures Unescape(EscapeEach(s)) == s
    decreases |s|
  {
    if s != [] {
      assert EscapeEach(s) == EscapeChar(s[0]) + EscapeEach(s[1..]);
      UnescapeOne(s[0], EscapeEach(s[1..]));
      UnescapeEach(s[1..]);
      assert s == [s[0]] + s[1..];
    }
  }

  // ---------------------------------------------------------------------------
  // List item lines

  datatype ListKind = Unordered | Ordered

  const ListStyle := "style=\"" + "margin: 10px 0; " + "padding-left: 20px;\""

  /** The line opening a list of each kind. */
  function Open(kind: ListKind): string {
    match kind
    case Unordered => "<ul " + ListStyle + ">"
    case Ordered => "<ol " + ListStyle + ">"
  }

  function Close(kind: ListKind): string {
    match kind
    case Unordered => "</ul>"
    case Ordered => "</ol>"
  }

  const ItemOpen := "<li style=\"margin: 5px 0;\">"
  const ItemClose := "</li>"

  /** The number of leading decimal digits of `s`. */
  function LeadingDigits(s: string): (n: nat)
    ensures n <= |s|
    ensures forall i :: 0 <= i < n ==> IsDigit(s[i])
    ensures n < |s| ==> !IsDigit(s[n])
    decreases |s|
  {
    if s != [] && IsDigit(s[0]) then 1 + LeadingDigits(s[1..]) else 0
  }

  /**
   * The length of the list marker a line starts with, 0 when none: one of
   * `-`, `*`, `+` for an unordered item, one or more digits and a '.' for an
   * ordered one.
   */
  function MarkerLength(kind: ListKind, line: string): (n: nat)
    ensures n <= |line|
  {
    match kind
    case Unordered =>
      if |line| >= 1 && line[0] in "-*+" then 1 else 0
    case Ordered =>
      var k := LeadingDigits(line);
      if 1 <= k < |line| && line[k] == '.' then k + 1 else 0
  }

  /** The marker, then at least one whitespace character, then at least one more character. */
  predicate IsItem(kind: ListKind, line: string) {
    var m := MarkerLength(kind, line);
    m > 0 && |line| >= m + 2 && IsSpace(line[m])
  }

  /**
   * What a greedy `\s*(.+)` captures of a non-empty text: the text without
   * its leading whitespace, but never less than its last character.
   */
  function Captured(t: string): (r: string)
    requires |t| >= 1
    ensures 1 <= |r| <= |t| && r == t[|t| - |r|..]
    ensures |r| == 1 || !IsSpace(r[0])
    ensures forall i :: 0 <= i < |t| - |r| ==> IsSpace(t[i])
    decreases |t|
  {
    if |t| >= 2 && IsSpace(t[0]) then Captured(t[1..]) else t
  }

  /** An item line as a list element; any other line is left as it is, as `re.sub` does. */
  function RenderItem(kind: ListKind, line: string): string {
    if IsItem(kind, line) then
      var m := MarkerLength(kind, line);
      ItemOpen + Captured(line[m + 1..]) + ItemClose
    else line
  }

  /**
   * One wrapping pass: which lines are items, how an item line is
   * rendered, and the lines that open and close a list.
   */
  datatype Pass = Pass(isItem: string -> bool, render: string -> string, open: string, close: string)

  function PassOf(kind: ListKind): Pass {
    Pass(line => IsItem(kind, line), line => RenderItem(kind, line), Open(kind), Close(kind))
  }

  function RenderItems(p: Pass, lines: seq<string>): (r: seq<string>)
    ensures |r| == |lines|
    ensures forall i :: 0 <= i < |lines| ==> r[i] == p.render(lines[i])
  {
    seq(|lines|, i requires 0 <= i < |lines| => p.render(lines[i]))
  }

  /** The length of the run of item lines at the front of `lines`. */
  function LeadingItems(p: Pass, lines: seq<string>): (n: nat)
    ensures n <= |lines|
    ensures forall i :: 0 <= i < n ==> p.isItem(lines[i])
    ensures n < |lines| ==> !p.isItem(lines[n])
    decreases |lines|
  {
    if lines != [] && p.isItem(lines[0]) then 1 + LeadingItems(p, lines[1..]) else 0
  }

  /**
   * The intended result of one wrapping pass, run by run: a line that is not
   * an item stays as it is; every maximal run of item lines is rendered and
   * enclosed in exactly one opening and one closing line.
   */
  function Wrap(p: Pass, lines: seq<string>): seq<string>
    decreases |lines|
  {
    if lines == [] then []
    else if !p.isItem(lines[0]) then [lines[0]] + Wrap(p, lines[1..])
    else
      var n := LeadingItems(p, lines);
      [p.open] + RenderItems(p, lines[..n]) + [p.close] + Wrap(p, lines[n..])
  }

  /**
   * What the rest of a pass appends from `lines` on, when a list is already
   * open (`inList`) or not: the line-by-line view the loop takes.
   */
  function WrapFrom(p: Pass, lines: seq<string>, inList: bool): seq<string>
    decreases |lines|
  {
    if lines == [] then (if inList then [p.close] else [])
    else if p.isItem(lines[0]) then
      (if inList then [] else [p.open]) + [p.render(lines[0])] + WrapFrom(p, lines[1..], true)
    else
      (if inList then [p.close] else []) + [lines[0]] + WrapFrom(p, lines[1..], false)
  }

  /** A run that starts with an item is that item followed by the run of the rest. */
  lemma RunStep(p: Pass, lines: seq<string>)
    requires lines != [] && p.isItem(lines[0])
    ensures var n, m := LeadingItems(p, lines), LeadingItems(p, lines[1..]);
      && n == m + 1
      && lines[n..] == lines[1..][m..]
      && RenderItems(p, lines[..n]) == [p.render(lines[0])] + RenderItems(p, lines[1..][..m])
  {
  }

  /** Both views of `lines`, as `WrapFromRuns` states them. */
  predicate ViewsAgree(p: Pass, lines: seq<string>) {
    && WrapFrom(p, lines, false) == Wrap(p, lines)
    && var n := LeadingItems(p, lines);
      WrapFrom(p, lines, true) == RenderItems(p, lines[..n]) + [p.close] + Wrap(p, lines[n..])
  }

  /** The views agree on a text starting with an item when they agree on the rest. */
  lemma ViewsAgreeItem(p: Pass, lines: seq<string>)
    requires lines != [] && p.isItem(lines[0])
    requires ViewsAgree(p, lines[1..])
    ensures ViewsAgree(p, lines)
  {
    ItemInsideList(p, lines);
    ItemOutsideList(p, lines);
  }

  /** Inside an open list, an item adds its rendering in front of the rest of the run. */
  lemma ItemInsideList(p: Pass, lines: seq<string>)
    requires lines != [] && p.isItem(lines[0])
    requires var m := LeadingItems(p, lines[1..]);
      WrapFrom(p, lines[1..], true) == RenderItems(p, lines[1..][..m]) + [p.close] + Wrap(p, lines[1..][m..])
    ensures var n := LeadingItems(p, lines);
      WrapFrom(p, lines, true) == RenderItems(p, lines[..n]) + [p.close] + Wrap(p, lines[n..])
  {
    RunStep(p, lines);
    InListItemStep(p, lines);
    var m := LeadingItems(p, lines[1..]);
    PrependToRun(p.render(lines[0]), RenderItems(p, lines[1..][..m]), p.close, Wrap(p, lines[1..][m..]));
  }

  /** One step of the line-by-line view on an item while a list is open. */
  lemma InListItemStep(p: Pass, lines: seq<string>)
    requires lines != [] && p.isItem(lines[0])
    ensures WrapFrom(p, lines, true) == [p.render(lines[0])] + WrapFrom(p, lines[1..], true)
  {
  }

  /** Putting one element in front of a run regroups the concatenation. */
  lemma PrependToRun<T>(x: T, a: seq<T>, c: T, w: seq<T>)
    ensures [x] + (a + [c] + w) == ([x] + a) + [c] + w
  {
  }

  /** Outside a list, an item opens one and then continues as inside it. */
  lemma ItemOutsideList(p: Pass, lines: seq<string>)
    requires lines != [] && p.isItem(lines[0])
    requires var n := LeadingItems(p, lines);
      WrapFrom(p, lines, true) == RenderItems(p, lines[..n]) + [p.close] + Wrap(p, lines[n..])
    ensures WrapFrom(p, lines, false) == Wrap(p, lines)
  {
    OutOfListItemStep(p, lines);
    RunOfItems(p, lines);
    var n := LeadingItems(p, lines);
    PrependToRun(p.open, RenderItems(p, lines[..n]), p.close, Wrap(p, lines[n..]));
  }

  /** On an item with no list open, the line-by-line view opens one first. */
  lemma OutOfListItemStep(p: Pass, lines: seq<string>)
    requires lines != [] && p.isItem(lines[0])
    ensures WrapFrom(p, lines, false) == [p.open] + WrapFrom(p, lines, true)
  {
    var x, y := [p.render(lines[0])], WrapFrom(p, lines[1..], true);
    assert WrapFrom(p, lines, false) == [p.open] + x + y;
    assert WrapFrom(p, lines, true) == x + y;
  }

  /** The run-by-run view on a text that starts with an item. */
  lemma RunOfItems(p: Pass, lines: seq<string>)
    requires lines != [] && p.isItem(lines[0])
    ensures var n := LeadingItems(p, lines);
      Wrap(p, lines) == [p.open] + RenderItems(p, lines[..n]) + [p.close] + Wrap(p, lines[n..])
  {
  }

  /** The views agree on a text starting with a plain line when they agree on the rest. */
  lemma ViewsAgreePlain(p: Pass, lines: seq<string>)
    requires lines != [] && !p.isItem(lines[0])
    requires ViewsAgree(p, lines[1..])
    ensures ViewsAgree(p, lines)
  {
    assert lines[..0] == [] && lines[0..] == lines;
  }

  /** The line-by-line view agrees with the run-by-run one. */
  lemma {:induction false} WrapFromRuns(p: Pass, lines: seq<string>)
    ensures WrapFrom(p, lines, false) == Wrap(p, lines)
    ensures var n := LeadingItems(p, lines);
      WrapFrom(p, lines, true) == RenderItems(p, lines[..n]) + [p.close] + Wrap(p, lines[n..])
    decreases |lines|
  {
    if lines == [] {
      assert ViewsAgree(p, lines);
    } else {
      WrapFromRuns(p, lines[1..]);
      if p.isItem(lines[0]) {
        ViewsAgreeItem(p, lines);
      } else {
        ViewsAgreePlain(p, lines);
      }
    }
  }

  /** What the loop appends for one line, given whether a list is open. */
  function StepLines(p: Pass, line: string, inList: bool): seq<string> {
    if p.isItem(line) then (if inList then [] else [p.open]) + [p.render(line)]
    else (if inList then [p.close] else []) + [line]
  }

  /** One turn of the loop keeps its invariant: what is appended is the front of what remains. */
  lemma WrapFromStep(p: Pass, lines: seq<string>, i: nat, inList: bool, done: seq<string>)
    requires i < |lines|
    requires done + WrapFrom(p, lines[i..], inList) == Wrap(p, lines)
    ensures (done + StepLines(p, lines[i], inList)) + WrapFrom(p, lines[i + 1..], p.isItem(lines[i])) == Wrap(p, lines)
  {
    assert lines[i..][0] == lines[i] && lines[i..][1..] == lines[i + 1..];
    assert WrapFrom(p, lines[i..], inList)
      == StepLines(p, lines[i], inList) + WrapFrom(p, lines[i + 1..], p.isItem(lines[i]));
  }

  /** One wrapping pass as the source runs it, with an `in_list` flag. */
  method WrapLists(p: Pass, lines: seq<string>) returns (result: seq<string>)
    ensures result == Wrap(p, lines)
  {
    assert WrapFrom(p, lines[0..], false) == Wrap(p, lines) by {
      WrapFromRuns(p, lines);
      assert lines[0..] == lines;
    }
    var inList := false;
    result := [];
    var i := 0;
    while i < |lines|
      invariant 0 <= i <= |lines|
      invariant result + WrapFrom(p, lines[i..], inList) == Wrap(p, lines)
    {
      var line := lines[i];
      WrapFromStep(p, lines, i, inList, result);
      ghost var expected := result + StepLines(p, line, inList);
      if p.isItem(line) {
        if !inList {
          result := result + [p.open];
          inList := true;
        }
        result := result + [p.render(line)];
      } else {
        if inList {
          result := result + [p.close];
          inList := false;
        }
        result := result + [line];
      }
      assert result == expected;
      i := i + 1;
    }
    assert lines[i..] == [];
    if inList {
      result := result + [p.close];
    }
  }

  // ---------------------------------------------------------------------------
  // Properties of a pass

  /** Text without list items passes through unchanged. */
  lemma {:induction false} WrapKeepsPlainText(p: Pass, lines: seq<string>)
    requires forall i :: 0 <= i < |lines| ==> !p.isItem(lines[i])
    ensures Wrap(p, lines) == lines
    decreases |lines|
  {
    if lines != [] {
      WrapKeepsPlainText(p, lines[1..]);
      assert lines == [lines[0]] + lines[1..];
    }
  }

  /** A text made of one run of items, at the end of the text or not, gets one opening and one closing line. */
  lemma WrapSingleRun(p: Pass, lines: seq<string>)
    requires lines != []
    requires forall i :: 0 <= i < |lines| ==> p.isItem(lines[i])
    ensures Wrap(p, lines) == [p.open] + RenderItems(p, lines) + [p.close]
  {
    var n := LeadingItems(p, lines);
    assert n == |lines|;
    assert lines[..n] == lines;
    assert lines[n..] == [];
  }

  lemma {:induction false} LeadingItemsAppend(p: Pass, xs: seq<string>, ys: seq<string>)
    requires ys != [] && !p.isItem(ys[0])
    ensures LeadingItems(p, xs + ys) == LeadingItems(p, xs)
    decreases |xs|
  {
    if xs == [] {
      assert xs + ys == ys;
    } else {
      assert (xs + ys)[0] == xs[0];
      assert (xs + ys)[1..] == xs[1..] + ys;
      LeadingItemsAppend(p, xs[1..], ys);
    }
  }

  /**
   * A non-item line ends any run before it and stays in place: the pass on
   * text split in front of such a line is the two passes on the parts.
   */
  lemma {:induction false} WrapSplitsAtPlainLine(p: Pass, xs: seq<string>, ys: seq<string>)
    requires ys != [] && !p.isItem(ys[0])
    ensures Wrap(p, xs + ys) == Wrap(p, xs) + Wrap(p, ys)
    decreases |xs|
  {
    var zs := xs + ys;
    if xs == [] {
      assert zs == ys;
    } else if !p.isItem(xs[0]) {
      assert zs[0] == xs[0];
      assert zs[1..] == xs[1..] + ys;
      WrapSplitsAtPlainLine(p, xs[1..], ys);
    } else {
      assert zs[0] == xs[0];
      var n := LeadingItems(p, xs);
      LeadingItemsAppend(p, xs, ys);
      assert zs[..n] == xs[..n];
      assert zs[n..] == xs[n..] + ys;
      WrapSplitsAtPlainLine(p, xs[n..], ys);
    }
  }

  predicate NoLineHolds(lines: seq<string>, c: char) {
    forall i :: 0 <= i < |lines| ==> c !in lines[i]
  }

  /** The pass's own lines hold no line break, and rendering adds none. */
  ghost predicate KeepsLinesWhole(p: Pass) {
    '\n' !in p.open && '\n' !in p.close &&
    forall line :: '\n' !in line ==> '\n' !in p.render(line)
  }

  /** A pass adds no line break inside a line. */
  lemma {:induction false} WrapKeepsLinesWhole(p: Pass, lines: seq<string>)
    requires KeepsLinesWhole(p)
    requires NoLineHolds(lines, '\n')
    ensures NoLineHolds(Wrap(p, lines), '\n')
    decreases |lines|
  {
    if lines != [] {
      if !p.isItem(lines[0]) {
        WrapKeepsLinesWhole(p, lines[1..]);
      } else {
        var n := LeadingItems(p, lines);
        WrapKeepsLinesWhole(p, lines[n..]);
        var r := RenderItems(p, lines[..n]);
        assert NoLineHolds(r, '\n');
        assert Wrap(p, lines) == [p.open] + r + [p.close] + Wrap(p, lines[n..]);
      }
    }
  }

  lemma WrapNonEmpty(p: Pass, lines: seq<string>)
    requires lines != []
    ensures Wrap(p, lines) != []
  {
  }

  lemma ItemTagsHoldNoBreak()
    ensures '\n' !in ItemOpen && '\n' !in ItemClose
  {
    assert ItemOpen == "<li style=\"" + "margin: 5px 0;\">";
    assert '\n' !in "<li style=\"" && '\n' !in "margin: 5px 0;\">";
  }

  /** What an item captures is a piece of its text, so it holds no line break the text lacks. */
  lemma CapturedHoldsNoBreak(t: string)
    requires |t| >= 1 && '\n' !in t
    ensures '\n' !in Captured(t)
  {
    var body := Captured(t);
    NotInSlice(t, '\n', |t| - |body|, |t|);
  }

  /** Rendering an item line adds no line break: the item's text is a piece of the line. */
  lemma RenderKeepsLineWhole(kind: ListKind, line: string)
    requires '\n' !in line
    ensures '\n' !in RenderItem(kind, line)
  {
    if IsItem(kind, line) {
      var m := MarkerLength(kind, line);
      NotInSlice(line, '\n', m + 1, |line|);
      CapturedHoldsNoBreak(line[m + 1..]);
      ItemTagsHoldNoBreak();
    }
  }

  lemma ListStyleHoldsNoBreak()
    ensures '\n' !in ListStyle
  {
    // The literal is written in short pieces so that each piece is checked on its own.
    assert '\n' !in "style=\"";
    assert '\n' !in "margin: 10px 0; ";
    assert '\n' !in "padding-left: 20px;\"";
  }

  lemma ListLinesHoldNoBreak(kind: ListKind)
    ensures '\n' !in Open(kind) && '\n' !in Close(kind)
  {
    ListStyleHoldsNoBreak();
    assert '\n' !in "<ul " && '\n' !in "<ol " && '\n' !in ">";
  }

  lemma ListPassesKeepLinesWhole(kind: ListKind)
    ensures KeepsLinesWhole(PassOf(kind))
  {
    ListLinesHoldNoBreak(kind);
    forall line | '\n' !in line
      ensures '\n' !in PassOf(kind).render(line)
    {
      RenderKeepsLineWhole(kind, line);
    }
  }

  // ---------------------------------------------------------------------------
  // The whole conversion

  /**
   * `markdown_to_html` on a string.  `inline` stands for the header, bold,
   * italic and code substitutions applied between the escape and the list
   * passes.
   */
  method MarkdownToHtml(text: string, inline: string -> string) returns (html: string)
    ensures '\n' !in html
    ensures html == ReplaceChar(Join(Wrap(PassOf(Ordered), Wrap(PassOf(Unordered), Split(inline(Escape(text)), '\n'))), "\n"), '\n', "<br>")
  {
    var escaped := Escape(text);
    var lines := Split(inline(escaped), '\n');
    var unordered := WrapLists(PassOf(Unordered), lines);
    ListPassesKeepLinesWhole(Unordered);
    WrapKeepsLinesWhole(PassOf(Unordered), lines);
    WrapNonEmpty(PassOf(Unordered), lines);
    SplitJoin(unordered, '\n');
    var relines := Split(Join(unordered, "\n"), '\n');
    var ordered := WrapLists(PassOf(Ordered), relines);
    html := ReplaceChar(Join(ordered, "\n"), '\n', "<br>");
  }
}
