/** Leading white space of a line: its width, and indenting and unindenting it in three tab modes. */
module LineIndents {
  import opened Basics

  datatype Settings = Settings(
    indentLength: nat, tabLength: nat, useTabs: bool, forceTab: bool, emptyLineFill: bool)

  /** Indents are tabs of another width than the indentation. */
  predicate ForceX(s: Settings) {
    s.forceTab && s.indentLength != s.tabLength
  }

  /** Tabs of no width cannot hold an indent. */
  predicate Sound(s: Settings) {
    ForceX(s) ==> s.tabLength > 0
  }

  function Repeat(c: char, n: nat): (r: string)
    ensures |r| == n && forall i :: 0 <= i < n ==> r[i] == c
  {
    if n == 0 then [] else Repeat(c, n - 1) + [c]
  }

  lemma RepeatIs(r: string, c: char, n: nat)
    requires |r| == n && forall i :: 0 <= i < n ==> r[i] == c
    ensures r == Repeat(c, n)
  {
  }

  predicate HasText(line: string) {
    FirstText(line) < |line|
  }

  function Text(line: string): string {
    line[FirstText(line)..]
  }

  /** The width of the leading white space when a tab is tab columns wide. */
  function Width(line: string, tab: nat): nat {
    if line == [] || !IsBlank(line[0]) then 0
    else (if line[0] == '\t' then tab else 1) + Width(line[1..], tab)
  }

  /** The tabs that fit into a width, and the columns left over. */
  function FullTabs(width: nat, tab: nat): nat
    requires tab > 0
  {
    if width < tab then 0 else 1 + FullTabs(width - tab, tab)
  }

  function Rest(width: nat, tab: nat): (r: nat)
    requires tab > 0
    ensures r < tab
  {
    if width < tab then width else Rest(width - tab, tab)
  }

  /** As many tabs as fit into the width, then spaces, then the text. */
  function Layout(width: nat, text: string, tab: nat): string
    requires tab > 0
  {
    Repeat('\t', FullTabs(width, tab)) + Repeat(' ', Rest(width, tab)) + text
  }

  /** Tabs, then fewer spaces than a tab is wide, then the text. */
  ghost predicate Canonical(line: string, tab: nat) {
    exists a: nat, b: nat :: b < tab && line == Repeat('\t', a) + Repeat(' ', b) + Text(line)
  }

  // ---------------------------------------------------------------- white space

  predicate StartsText(text: string) {
    text == [] || !IsBlank(text[0])
  }

  lemma FirstTextIs(line: string, k: nat)
    requires k <= |line| && (k < |line| ==> !IsBlank(line[k]))
    requires forall j :: 0 <= j < k ==> IsBlank(line[j])
    ensures FirstText(line) == k
  {
  }

  lemma RepeatFirst(c: char, n: nat, rest: string)
    requires n > 0
    ensures Repeat(c, n) + rest == [c] + (Repeat(c, n - 1) + rest)
  {
  }

  lemma WidthCons(c: char, line: string, tab: nat)
    requires IsBlank(c)
    ensures Width([c] + line, tab) == (if c == '\t' then tab else 1) + Width(line, tab)
  {
    assert ([c] + line)[1..] == line;
  }

  lemma OneMore(n: nat, unit: nat)
    requires n > 0
    ensures unit + (n - 1) * unit == n * unit
  {
  }

  lemma {:induction false} WidthOfRepeat(c: char, n: nat, rest: string, tab: nat)
    requires IsBlank(c)
    ensures Width(Repeat(c, n) + rest, tab) == n * (if c == '\t' then tab else 1) + Width(rest, tab)
  {
    if n == 0 {
      assert Repeat(c, n) + rest == rest;
    } else {
      RepeatFirst(c, n, rest);
      WidthCons(c, Repeat(c, n - 1) + rest, tab);
      WidthOfRepeat(c, n - 1, rest, tab);
      OneMore(n, if c == '\t' then tab else 1);
    }
  }

  /** Tabs and spaces before a text. */
  lemma PaddedFacts(a: nat, b: nat, text: string, tab: nat)
    requires StartsText(text)
    ensures var line := Repeat('\t', a) + Repeat(' ', b) + text;
      FirstText(line) == a + b && Text(line) == text && Width(line, tab) == a * tab + b
  {
    var line := Repeat('\t', a) + Repeat(' ', b) + text;
    FirstTextIs(line, a + b);
    ConcatAssoc(Repeat('\t', a), Repeat(' ', b), text);
    WidthOfRepeat('\t', a, Repeat(' ', b) + text, tab);
    WidthOfRepeat(' ', b, text, tab);
  }

  lemma {:induction false} FullTabsOf(a: nat, b: nat, tab: nat)
    requires b < tab
    ensures FullTabs(a * tab + b, tab) == a && Rest(a * tab + b, tab) == b
  {
    if a > 0 {
      assert a * tab + b - tab == (a - 1) * tab + b;
      assert (a - 1) * tab >= 0;
      FullTabsOf(a - 1, b, tab);
    }
  }

  lemma {:induction false} TabsFit(width: nat, tab: nat)
    requires tab > 0
    ensures FullTabs(width, tab) * tab + Rest(width, tab) == width
  {
    if width >= tab {
      TabsFit(width - tab, tab);
      var q := FullTabs(width - tab, tab);
      assert (q + 1) * tab == q * tab + tab;
    }
  }

  lemma QuotientOf(q: nat, r: nat, tab: nat)
    requires r < tab
    ensures (q * tab + r) / tab == q && (q * tab + r) % tab == r
  {
    var x := q * tab + r;
    UniqueQuotient(q, r, x / tab, x % tab, tab);
  }

  lemma UniqueQuotient(q: int, r: nat, p: int, t: nat, tab: nat)
    requires r < tab && t < tab && q * tab + r == p * tab + t
    ensures q == p && r == t
  {
    assert (q - p) * tab == t - r;
    Multiple(q - p, tab);
  }

  lemma Multiple(d: int, tab: nat)
    ensures d >= 1 ==> d * tab >= tab
    ensures d <= -1 ==> d * tab <= 0 - tab
  {
    if d >= 1 {
      assert (d - 1) * tab >= 0;
    } else if d <= -1 {
      assert (-1 - d) * tab >= 0;
    }
  }

  lemma FullTabsIsQuotient(width: nat, tab: nat)
    requires tab > 0
    ensures FullTabs(width, tab) == width / tab && Rest(width, tab) == width % tab
  {
    TabsFit(width, tab);
    QuotientOf(FullTabs(width, tab), Rest(width, tab), tab);
  }

  method TabsIn(width: nat, tab: nat) returns (q: nat, columns: nat)
    requires tab > 0
    ensures q == FullTabs(width, tab) && columns == q * tab <= width
  {
    FullTabsIsQuotient(width, tab);
    q := width / tab;
    TabsFit(width, tab);
    columns := q * tab;
  }

  lemma LayoutFacts(width: nat, text: string, tab: nat)
    requires tab > 0 && StartsText(text)
    ensures var line := Layout(width, text, tab);
      Width(line, tab) == width && Text(line) == text && (FirstText(line) == 0 <==> width == 0)
  {
    PaddedFacts(FullTabs(width, tab), Rest(width, tab), text, tab);
    TabsFit(width, tab);
  }

  lemma TextStarts(line: string)
    ensures StartsText(Text(line))
    ensures HasText(line) <==> Text(line) != []
  {
  }

  /** The canonical lines are exactly those that a layout of their own width gives back. */
  lemma CanonicalIsLayout(line: string, tab: nat)
    requires tab > 0
    ensures Canonical(line, tab) <==> line == Layout(Width(line, tab), Text(line), tab)
  {
    TextStarts(line);
    if Canonical(line, tab) {
      var a: nat, b: nat :| b < tab && line == Repeat('\t', a) + Repeat(' ', b) + Text(line);
      PaddedFacts(a, b, Text(line), tab);
      FullTabsOf(a, b, tab);
    }
  }

  // ----------------------------------------------------------------- converting

  /** Every tab of the leading white space as spaces. */
  function Expanded(line: string, tab: nat): string {
    Repeat(' ', Width(line, tab)) + Text(line)
  }

  lemma WidthOfSpaces(line: string, i: nat, tab: nat)
    requires i <= |line| && forall j :: 0 <= j < i ==> line[j] == ' '
    ensures Width(line, tab) == i + Width(line[i..], tab)
    ensures Text(line) == Text(line[i..])
  {
    WidthOfRepeat(' ', i, line[i..], tab);
    assert line == Repeat(' ', i) + line[i..];
    FirstTextIs(line, i + FirstText(line[i..]));
  }

  /** The first i characters of r are spaces, and r is as wide as the line and has its text. */
  predicate Expanding(r: string, i: nat, line: string, tab: nat) {
    && i <= |r| && (forall j :: 0 <= j < i ==> r[j] == ' ')
    && Width(r, tab) == Width(line, tab) && Text(r) == Text(line)
  }

  lemma TabExpands(r: string, i: nat, line: string, tab: nat)
    requires Expanding(r, i, line, tab) && i < |r| && r[i] == '\t'
    ensures var next := r[..i] + Repeat(' ', tab) + r[i + 1..];
      Expanding(next, i + tab, line, tab) && next[i + tab..] == r[i + 1..]
  {
    var next := r[..i] + Repeat(' ', tab) + r[i + 1..];
    WidthOfSpaces(r, i, tab);
    assert r[i..][1..] == r[i + 1..];
    WidthOfSpaces(next, i + tab, tab);
    assert next[i + tab..] == r[i + 1..];
    FirstTextIs(r[i..], 1 + FirstText(r[i + 1..]));
  }

  lemma ExpandedAtEnd(r: string, i: nat, line: string, tab: nat)
    requires Expanding(r, i, line, tab) && StartsText(r[i..])
    ensures r == Expanded(line, tab)
  {
    WidthOfSpaces(r, i, tab);
    FirstTextIs(r, i);
    assert r == Repeat(' ', i) + r[i..];
  }

  method ConvertForceTabIndentToSpaces(line: string, tabLength: nat) returns (r: string)
    requires tabLength > 0
    ensures r == Expanded(line, tabLength)
  {
    r := line;
    var i := 0;
    while i < |r| && IsBlank(r[i])
      invariant i <= |r| && Expanding(r, i, line, tabLength)
      decreases |r| - i
    {
      if r[i] == '\t' {
        TabExpands(r, i, line, tabLength);
        r := r[..i] + Repeat(' ', tabLength) + r[i + 1..];
        i := i + tabLength - 1;
      }
      i := i + 1;
    }
    ExpandedAtEnd(r, i, line, tabLength);
  }

  lemma SpacesFold(line: string, tab: nat, taken: nat)
    requires tab > 0 && taken == FullTabs(FirstText(line), tab) * tab
    requires forall j :: 0 <= j < FirstText(line) ==> line[j] == ' '
    ensures taken <= FirstText(line)
    ensures Repeat('\t', FullTabs(FirstText(line), tab)) + line[taken..] == Layout(FirstText(line), Text(line), tab)
  {
    var width := FirstText(line);
    TabsFit(width, tab);
    assert line[taken..] == Repeat(' ', width - taken) + Text(line);
    ConcatAssoc(Repeat('\t', FullTabs(width, tab)), Repeat(' ', width - taken), Text(line));
  }

  /** None for a line without text, where the search for the first text finds nothing. */
  method ConvertSpaceIndentToForceTab(line: string, tabLength: nat) returns (r: Option<string>)
    requires tabLength > 0
    requires forall j :: 0 <= j < FirstText(line) ==> line[j] == ' '
    ensures r == if HasText(line) then Some(Layout(FirstText(line), Text(line), tabLength)) else None
  {
    var newSpaceIndentLength := FirstText(line);
    if newSpaceIndentLength == |line| {
      return None;
    }
    var tabCount, columns := TabsIn(newSpaceIndentLength, tabLength);
    SpacesFold(line, tabLength, columns);
    r := Some(Repeat('\t', tabCount) + line[columns..]);
  }

  // ------------------------------------------------------------ indent, unindent

  /** The number of characters that one call inserts or takes away when it can. */
  function Amount(s: Settings, n: nat): nat {
    if !ForceX(s) && s.useTabs then n else n * s.indentLength
  }

  /** What indenting makes of a line; None where a line without text meets the tab conversion. */
  function Indented(s: Settings, line: string, n: nat): Option<string>
    requires Sound(s)
  {
    if line == [] && !s.emptyLineFill then Some(line)
    else if ForceX(s) then
      if HasText(line) then Some(Layout(Width(line, s.tabLength) + Amount(s, n), Text(line), s.tabLength))
      else None
    else Some(Repeat(if s.useTabs then '\t' else ' ', Amount(s, n)) + line)
  }

  /** The characters that unindenting takes away: all that were asked for, or none. */
  function Erased(s: Settings, line: string, n: nat): nat {
    var available := if ForceX(s) then Width(line, s.tabLength) else FirstText(line);
    if Amount(s, n) <= available then Amount(s, n) else 0
  }

  function Unindented(s: Settings, line: string, n: nat): Option<string>
    requires Sound(s)
  {
    if FirstText(line) == 0 then Some(line)
    else if !ForceX(s) then Some(line[Erased(s, line, n)..])
    else if HasText(line) then
      Some(Layout(Width(line, s.tabLength) - Erased(s, line, n), Text(line), s.tabLength))
    else None
  }

  method IndentLine(s: Settings, line: string, indent: nat) returns (r: Option<string>, inserted: nat)
    requires Sound(s)
    ensures r == Indented(s, line, indent)
    ensures inserted == if line == [] && !s.emptyLineFill then 0 else Amount(s, indent)
  {
    if |line| == 0 && !s.emptyLineFill {
      return Some(line), 0;
    }
    if s.forceTab && s.indentLength != s.tabLength {
      var spaces := ConvertForceTabIndentToSpaces(line, s.tabLength);
      inserted := indent * s.indentLength;
      spaces := Repeat(' ', inserted) + spaces;
      MoreSpaces(inserted, Width(line, s.tabLength), Text(line));
      r := ConvertSpaceIndentToForceTab(spaces, s.tabLength);
    } else if s.useTabs {
      inserted := indent;
      r := Some(Repeat('\t', inserted) + line);
    } else {
      inserted := indent * s.indentLength;
      r := Some(Repeat(' ', inserted) + line);
    }
  }

  lemma MoreSpaces(n: nat, width: nat, text: string)
    requires StartsText(text)
    ensures Repeat(' ', n) + (Repeat(' ', width) + text) == Repeat(' ', width + n) + text
    ensures FirstText(Repeat(' ', width + n) + text) == width + n
  {
    FirstTextIs(Repeat(' ', width + n) + text, width + n);
  }

  /** Unindenting by way of spaces. */
  method UnindentForceX(s: Settings, line: string, unindent: nat) returns (r: Option<string>, erased: nat)
    requires ForceX(s) && s.tabLength > 0 && FirstText(line) > 0
    ensures r == Unindented(s, line, unindent) && erased == Erased(s, line, unindent)
  {
    var spaces := ConvertForceTabIndentToSpaces(line, s.tabLength);
    spaces, erased := EraseSpaces(spaces, unindent * s.indentLength, Width(line, s.tabLength), Text(line));
    r := ConvertSpaceIndentToForceTab(spaces, s.tabLength);
  }

  /** Take spaces off the front: all that are asked for, or none. */
  method EraseSpaces(line: string, amount: nat, ghost width: nat, ghost text: string)
      returns (r: string, erased: nat)
    requires StartsText(text) && line == Repeat(' ', width) + text
    ensures erased == if amount <= width then amount else 0
    ensures r == Repeat(' ', width - erased) + text && FirstText(r) == width - erased
  {
    SpacesFirst(width, text);
    var spaceIndentLength := FirstText(line);
    erased := amount;
    if erased <= spaceIndentLength {
      FewerSpaces(erased, width, text);
      r := line[erased..];
    } else {
      erased := 0;
      r := line;
    }
  }

  method UnindentLine(s: Settings, line: string, unindent: nat) returns (r: Option<string>, erased: nat)
    requires Sound(s)
    ensures r == Unindented(s, line, unindent)
    ensures erased == if FirstText(line) == 0 then 0 else Erased(s, line, unindent)
  {
    var whitespace := FirstText(line);
    if whitespace == 0 {
      return Some(line), 0;
    }
    if s.forceTab && s.indentLength != s.tabLength {
      r, erased := UnindentForceX(s, line, unindent);
      return;
    } else if s.useTabs {
      erased := unindent;
    } else {
      erased := unindent * s.indentLength;
    }
    if erased > whitespace {
      erased := 0;
    }
    r := Some(line[erased..]);
  }

  lemma SpacesFirst(width: nat, text: string)
    requires StartsText(text)
    ensures FirstText(Repeat(' ', width) + text) == width
  {
    FirstTextIs(Repeat(' ', width) + text, width);
  }

  lemma FewerSpaces(n: nat, width: nat, text: string)
    requires StartsText(text) && n <= width
    ensures (Repeat(' ', width) + text)[n..] == Repeat(' ', width - n) + text
    ensures FirstText(Repeat(' ', width - n) + text) == width - n
  {
    SpacesFirst(width - n, text);
    var spaces := Repeat(' ', width);
    RepeatIs(spaces[n..], ' ', width - n);
    DropConcat(spaces, text, n);
  }

  lemma DropConcat(a: string, b: string, n: nat)
    requires n <= |a|
    ensures (a + b)[n..] == a[n..] + b
  {
  }

  // --------------------------------------------------------------------- laws

  lemma RepeatedStart(c: char, n: nat, line: string)
    requires IsBlank(c)
    ensures FirstText(Repeat(c, n) + line) == n + FirstText(line)
    ensures Text(Repeat(c, n) + line) == Text(line)
  {
    FirstTextIs(Repeat(c, n) + line, n + FirstText(line));
  }

  /**
   * Unindenting undoes indenting on every line with text, except that with
   * force-tab the line comes back in canonical form; so the line itself comes
   * back exactly when it was canonical.
   */
  lemma UnindentUndoesIndent(s: Settings, line: string, n: nat)
    requires Sound(s) && HasText(line)
    ensures Indented(s, line, n).Some?
    ensures Unindented(s, Indented(s, line, n).value, n) == Some(line) <==> !ForceX(s) || Canonical(line, s.tabLength)
  {
    var more := Indented(s, line, n).value;
    if ForceX(s) {
      UndoneLayout(s, line, more, Width(line, s.tabLength), Text(line), Amount(s, n), n);
    } else {
      UndoneRepeat(s, line, more, Amount(s, n), n);
    }
  }

  lemma UndoneRepeat(s: Settings, line: string, more: string, amount: nat, n: nat)
    requires !ForceX(s) && HasText(line) && amount == Amount(s, n)
    requires more == Repeat(if s.useTabs then '\t' else ' ', amount) + line
    ensures Unindented(s, more, n) == Some(line)
  {
    RepeatedStart(if s.useTabs then '\t' else ' ', amount, line);
    assert more[amount..] == line;
  }

  lemma UndoneLayout(s: Settings, line: string, more: string, width: nat, text: string, columns: nat, n: nat)
    requires ForceX(s) && s.tabLength > 0 && columns == Amount(s, n) && HasText(line)
    requires width == Width(line, s.tabLength) && text == Text(line)
    requires more == Layout(width + columns, text, s.tabLength)
    ensures Unindented(s, more, n) == Some(line) <==> Canonical(line, s.tabLength)
  {
    LayoutComesBack(s, line, more, width, text, columns, n);
    CanonicalIsLayout(line, s.tabLength);
  }

  /** In force-tab-x mode a line comes back laid out. */
  lemma LayoutComesBack(s: Settings, line: string, more: string, width: nat, text: string, columns: nat, n: nat)
    requires ForceX(s) && s.tabLength > 0 && columns == Amount(s, n) && HasText(line)
    requires width == Width(line, s.tabLength) && text == Text(line)
    requires more == Layout(width + columns, text, s.tabLength)
    ensures Unindented(s, more, n) == Some(Layout(width, text, s.tabLength))
  {
    TextStarts(line);
    LayoutFacts(width + columns, text, s.tabLength);
    Undone(s, more, width, text, columns, n);
  }

  lemma Undone(s: Settings, more: string, width: nat, text: string, columns: nat, n: nat)
    requires ForceX(s) && s.tabLength > 0 && text != [] && columns == Amount(s, n)
    requires Width(more, s.tabLength) == width + columns && Text(more) == text
    requires FirstText(more) == 0 ==> width + columns == 0 && more == Layout(width + columns, text, s.tabLength)
    ensures Unindented(s, more, n) == Some(Layout(width, text, s.tabLength))
  {
  }

  /** Indenting changes the width by whole indents and leaves the text alone. */
  lemma IndentAddsWidth(s: Settings, line: string, n: nat)
    requires Sound(s) && HasText(line)
    ensures var tab := if ForceX(s) then s.tabLength else s.indentLength;
            var more := Indented(s, line, n);
      more.Some? && Text(more.value) == Text(line)
      && Width(more.value, tab) == Width(line, tab) + n * s.indentLength
  {
    TextStarts(line);
    if ForceX(s) {
      LayoutFacts(Width(line, s.tabLength) + Amount(s, n), Text(line), s.tabLength);
    } else {
      var c := if s.useTabs then '\t' else ' ';
      RepeatedStart(c, Amount(s, n), line);
      WidthOfRepeat(c, Amount(s, n), line, s.indentLength);
    }
  }

  lemma AmountsAdd(s: Settings, n: nat, m: nat)
    ensures Amount(s, n + m) == Amount(s, n) + Amount(s, m)
  {
    assert (n + m) * s.indentLength == n * s.indentLength + m * s.indentLength;
  }

  /** Indenting twice is indenting once by the sum. */
  lemma IndentsAdd(s: Settings, line: string, n: nat, m: nat)
    requires Sound(s) && HasText(line)
    ensures Indented(s, line, n).Some?
    ensures Indented(s, Indented(s, line, n).value, m) == Indented(s, line, n + m)
  {
    var more := Indented(s, line, n).value;
    AmountsAdd(s, n, m);
    if ForceX(s) {
      TextStarts(line);
      LaidOutMore(s, more, Width(line, s.tabLength) + Amount(s, n), Text(line), m);
    } else {
      RepeatsAdd(if s.useTabs then '\t' else ' ', Amount(s, n), Amount(s, m), line);
    }
  }

  lemma LaidOutMore(s: Settings, line: string, width: nat, text: string, m: nat)
    requires ForceX(s) && s.tabLength > 0 && text != [] && StartsText(text)
    requires line == Layout(width, text, s.tabLength)
    ensures Indented(s, line, m) == Some(Layout(width + Amount(s, m), text, s.tabLength))
  {
    LayoutFacts(width, text, s.tabLength);
    TextStarts(line);
  }

  lemma RepeatsAdd(c: char, n: nat, m: nat, line: string)
    ensures Repeat(c, m) + (Repeat(c, n) + line) == Repeat(c, n + m) + line
  {
  }

  // ------------------------------------------------------- the indent of a line

  function IndentString(s: Settings): string {
    if s.useTabs then "\t" else Repeat(' ', s.indentLength)
  }

  /** Division and remainder that truncate toward zero. */
  function Quotient(x: int, y: nat): int
    requires y > 0
  {
    if x >= 0 then FullTabs(x, y) else 0 - FullTabs(-x, y)
  }

  function Remainder(x: int, y: nat): int
    requires y > 0
  {
    if x >= 0 then Rest(x, y) else 0 - Rest(-x, y)
  }

  function Times(text: string, n: int): string
    decreases n
  {
    if n <= 0 then [] else Times(text, n - 1) + text
  }

  /** The indents and the single spaces that are written. */
  function Counts(s: Settings, indentCount: int, spaceIndentCount: int): (int, int)
    requires s.forceTab ==> s.tabLength > 0 && s.indentLength > 0
  {
    if !s.forceTab then (indentCount, spaceIndentCount)
    else if s.tabLength != s.indentLength then
      var columns := indentCount * s.indentLength + spaceIndentCount;
      (Quotient(columns, s.tabLength), Remainder(columns, s.tabLength))
    else (indentCount + Quotient(spaceIndentCount, s.indentLength), Remainder(spaceIndentCount, s.indentLength))
  }

  function Indent(s: Settings, indentCount: int, spaceIndentCount: int): string
    requires s.forceTab ==> s.tabLength > 0 && s.indentLength > 0
  {
    var (indents, spaces) := Counts(s, indentCount, spaceIndentCount);
    Times(IndentString(s), indents) + Times(" ", spaces)
  }

  method PreLineWS(s: Settings, indentCount: int, spaceIndentCount: int) returns (ws: string)
    requires s.forceTab ==> s.tabLength > 0 && s.indentLength > 0
    ensures ws == Indent(s, indentCount, spaceIndentCount)
  {
    var lineIndentCount, lineSpaceIndentCount := indentCount, spaceIndentCount;
    if s.forceTab {
      if s.tabLength != s.indentLength {
        lineIndentCount := Quotient(indentCount * s.indentLength + spaceIndentCount, s.tabLength);
        lineSpaceIndentCount := Remainder(indentCount * s.indentLength + spaceIndentCount, s.tabLength);
      } else {
        lineIndentCount := lineIndentCount + Quotient(lineSpaceIndentCount, s.indentLength);
        lineSpaceIndentCount := Remainder(lineSpaceIndentCount, s.indentLength);
      }
    }
    ws := "";
    var i := 0;
    while i < lineIndentCount
      invariant 0 <= i && (i <= lineIndentCount || i == 0)
      invariant ws == Times(IndentString(s), i)
    {
      ws := ws + IndentString(s);
      i := i + 1;
    }
    assert ws == Times(IndentString(s), lineIndentCount);
    ghost var indents := ws;
    ghost var written := 0;
    while lineSpaceIndentCount > 0
      invariant written == 0 || lineSpaceIndentCount >= 0
      invariant written + lineSpaceIndentCount == Counts(s, indentCount, spaceIndentCount).1
      invariant written >= 0 && ws == indents + Times(" ", written)
    {
      ws := ws + " ";
      lineSpaceIndentCount := lineSpaceIndentCount - 1;
      written := written + 1;
    }
  }

  lemma {:induction false} TimesRepeats(text: string, c: char, n: nat)
    requires forall i :: 0 <= i < |text| ==> text[i] == c
    ensures Times(text, n) == Repeat(c, n * |text|)
  {
    if n > 0 {
      TimesRepeats(text, c, n - 1);
      assert n * |text| == (n - 1) * |text| + |text|;
      RepeatIs(Times(text, n), c, n * |text|);
    }
  }

  lemma CountsAreNatural(s: Settings, indentCount: nat, spaceIndentCount: nat)
    requires s.forceTab ==> s.tabLength > 0 && s.indentLength > 0
    ensures var (indents, spaces) := Counts(s, indentCount, spaceIndentCount); indents >= 0 && spaces >= 0
  {
  }

  /** The indent is written as one block of the indent string's character, then spaces. */
  lemma IndentIs(s: Settings, indentCount: nat, spaceIndentCount: nat)
    requires s.forceTab ==> s.tabLength > 0 && s.indentLength > 0
    ensures var (indents, spaces) := Counts(s, indentCount, spaceIndentCount);
      indents >= 0 && spaces >= 0
      && Indent(s, indentCount, spaceIndentCount)
         == (if s.useTabs then Repeat('\t', indents) else Repeat(' ', indents * s.indentLength)) + Repeat(' ', spaces)
  {
    var (indents, spaces) := Counts(s, indentCount, spaceIndentCount);
    CountsAreNatural(s, indentCount, spaceIndentCount);
    TimesRepeats(IndentString(s), if s.useTabs then '\t' else ' ', indents);
    TimesRepeats(" ", ' ', spaces);
  }

  /** The width of a tab in the indents that are written. */
  function TabWidth(s: Settings): nat {
    if ForceX(s) then s.tabLength else s.indentLength
  }

  /**
   * The indent is as wide as the counts say, except that with force-tab and an
   * indent string of spaces, which setting one indentation after the other
   * leaves, it is so exactly when not even one tab fits.
   */
  lemma IndentWidth(s: Settings, indentCount: nat, spaceIndentCount: nat, text: string)
    requires s.forceTab ==> s.tabLength > 0 && s.indentLength > 0
    requires StartsText(text)
    ensures var line := Indent(s, indentCount, spaceIndentCount) + text;
            var columns := indentCount * s.indentLength + spaceIndentCount;
      && Text(line) == text
      && (Width(line, TabWidth(s)) == columns <==> s.useTabs || !ForceX(s) || columns < s.tabLength)
  {
    var (indents, spaces) := Counts(s, indentCount, spaceIndentCount);
    IndentIs(s, indentCount, spaceIndentCount);
    CountsAddUp(s, indentCount, spaceIndentCount);
    if s.useTabs {
      PaddedFacts(indents, spaces, text, TabWidth(s));
    } else {
      SpacesOnly(indents * s.indentLength, spaces, text, TabWidth(s));
      if ForceX(s) {
        Spread(indents, s.indentLength, s.tabLength);
      }
    }
  }

  lemma SpacesOnly(a: nat, b: nat, text: string, tab: nat)
    requires StartsText(text)
    ensures var line := Repeat(' ', a) + Repeat(' ', b) + text;
      Text(line) == text && Width(line, tab) == a + b
  {
    SpacesJoin(a, b, text);
    WidthOfRepeat(' ', a + b, text, tab);
    FirstTextIs(Repeat(' ', a) + Repeat(' ', b) + text, a + b);
  }

  lemma Spread(n: nat, a: nat, b: nat)
    requires a != b
    ensures n * a == n * b <==> n == 0
  {
    if a < b {
      assert n * b == n * a + n * (b - a);
      Multiple(b - a, n);
    } else {
      assert n * a == n * b + n * (a - b);
      Multiple(a - b, n);
    }
  }

  lemma CountsAddUp(s: Settings, indentCount: nat, spaceIndentCount: nat)
    requires s.forceTab ==> s.tabLength > 0 && s.indentLength > 0
    ensures var (indents, spaces) := Counts(s, indentCount, spaceIndentCount);
            var columns := indentCount * s.indentLength + spaceIndentCount;
      && indents * TabWidth(s) + spaces == columns
      && (ForceX(s) ==> spaces < s.tabLength && (indents == 0 <==> columns < s.tabLength))
  {
    if ForceX(s) {
      TabsFit(indentCount * s.indentLength + spaceIndentCount, s.tabLength);
    } else if s.forceTab {
      TabsFit(spaceIndentCount, s.indentLength);
      var q := FullTabs(spaceIndentCount, s.indentLength);
      assert (indentCount + q) * s.indentLength == indentCount * s.indentLength + q * s.indentLength;
    }
  }

  lemma NoTabInSpaces(n: nat, text: string, tab: nat)
    requires tab > 0 && text != [] && StartsText(text)
    ensures Canonical(Repeat(' ', n) + text, tab) <==> n < tab
  {
    var line := Repeat(' ', n) + text;
    SpacesFirst(n, text);
    CanonicalIsLayout(line, tab);
    WidthOfRepeat(' ', n, text, tab);
    if n < tab {
      assert line == Repeat('\t', 0) + Repeat(' ', n) + Text(line);
    } else {
      var layout := Layout(n, text, tab);
      assert layout[0] == '\t' && line[0] == ' ';
    }
  }

  /**
   * On a line that the beautifier writes, unindenting undoes indenting if and
   * only if its indent string is a tab, force-tab-x is off, or the blanks it
   * writes are fewer than a tab is wide.
   */
  lemma BeautifiedLineComesBack(s: Settings, indentCount: nat, spaceIndentCount: nat, text: string, n: nat)
    requires s.forceTab ==> s.tabLength > 0 && s.indentLength > 0
    requires text != [] && StartsText(text)
    ensures var line := Indent(s, indentCount, spaceIndentCount) + text;
            var (indents, spaces) := Counts(s, indentCount, spaceIndentCount);
      && HasText(line) && Indented(s, line, n).Some?
      && (Unindented(s, Indented(s, line, n).value, n) == Some(line)
          <==> s.useTabs || !ForceX(s) || indents * s.indentLength + spaces < s.tabLength)
  {
    var line := Indent(s, indentCount, spaceIndentCount) + text;
    var (indents, spaces) := Counts(s, indentCount, spaceIndentCount);
    IndentWidth(s, indentCount, spaceIndentCount, text);
    TextStarts(line);
    IndentIs(s, indentCount, spaceIndentCount);
    if ForceX(s) && s.useTabs {
      CountsAddUp(s, indentCount, spaceIndentCount);
      assert line == Repeat('\t', indents) + Repeat(' ', spaces) + Text(line);
    } else if ForceX(s) {
      SpacesJoin(indents * s.indentLength, spaces, text);
      NoTabInSpaces(indents * s.indentLength + spaces, text, s.tabLength);
    }
    UnindentUndoesIndent(s, line, n);
  }

  lemma SpacesJoin(a: nat, b: nat, text: string)
    ensures Repeat(' ', a) + Repeat(' ', b) + text == Repeat(' ', a + b) + text
  {
    ConcatAssoc(Repeat(' ', a), Repeat(' ', b), text);
    RepeatsAdd(' ', b, a, text);
  }

  /** A line that does not come back: force-tab with tabs of 8, then indents of 4 spaces. */
  lemma BeautifiedLineChanges(n: nat)
    ensures var s := Settings(4, 8, false, true, false);
            var line := Indent(s, 4, 0) + "x";
      && line == Repeat(' ', 8) + "x" && Indented(s, line, n).Some?
      && Unindented(s, Indented(s, line, n).value, n) == Some(Repeat('\t', 1) + "x")
  {
    var s := Settings(4, 8, false, true, false);
    IndentIs(s, 4, 0);
    FullTabsOf(2, 0, 8);
    SpacesJoin(8, 0, "x");
    assert Repeat(' ', 8) + Repeat(' ', 0) + "x" == Indent(s, 4, 0) + "x";
    var line := Repeat(' ', 8) + "x";
    WidthOfRepeat(' ', 8, "x", 8);
    SpacesFirst(8, "x");
    LayoutComesBack(s, line, Layout(8 + Amount(s, n), "x", 8), 8, "x", Amount(s, n), n);
    FullTabsOf(1, 0, 8);
    assert Layout(8, "x", 8) == Repeat('\t', 1) + "x";
  }
}
