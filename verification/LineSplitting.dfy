/**
 * The line-splitting machine of the formatter: a growing line, ten points where
 * it may be split, and a finished line that waits to be collected.
 */
module LineSplitting {
  import opened Basics

  datatype Kind = Semi | AndOr | Comma | Paren | White

  /** The ten split points; those beyond the code length are pending. */
  datatype Points = Points(
    semi: nat, andOr: nat, comma: nat, paren: nat, white: nat,
    semiPending: nat, andOrPending: nat, commaPending: nat, parenPending: nat, whitePending: nat)

  datatype Line = Line(
    text: string,                 // formattedLine
    ready: string,                // readyFormattedLine
    isReady: bool,                // isLineReady
    isInLineBreak: bool,
    keepUnbroken: bool,           // shouldKeepLineUnbroken
    points: Points)

  /** The type of the innermost brace, as far as splitting looks at it. */
  datatype BraceType = BraceType(
    isArray: bool, isArrayNis: bool, singleLine: bool, command: bool, emptyBlock: bool, breakBlock: bool)

  /** What the formatter sees around the text it appends. */
  datatype Around = Around(
    inUnsplittable: bool,         // in a comment, quote, case, directive, SQL, assembler or template
    brace: BraceType,
    breakOneLineBlocks: bool,
    nextChar: char,
    previousNonBlank: char,
    currentChar: char,
    afterOperator: bool,          // the previous character may be part of an operator
    arrowFollows: bool,
    alignedPointer: bool,         // the next `*` is aligned to its type
    alignedReference: bool,       // the next `&` is aligned to its type
    breakAfterLogical: bool,
    inExponent: bool,
    charBefore: Option<char>,     // the character before the operator
    legalBefore: bool,            // it may be part of a name
    endsLine: bool)               // the current line ends after the next word

  const NONE := Points(0, 0, 0, 0, 0, 0, 0, 0, 0, 0)

  /** No point lies beyond the end of the text. */
  predicate Within(p: Points, n: nat) {
    && p.semi <= n && p.andOr <= n && p.comma <= n && p.paren <= n && p.white <= n
    && p.semiPending <= n && p.andOrPending <= n && p.commaPending <= n && p.parenPending <= n && p.whitePending <= n
  }

  predicate Valid(l: Line) {
    Within(l.points, |l.text|)
  }

  // -------------------------------------------------------- recording points

  /** A place to split: it is recorded as it is when `reach` is within the code
      length, and as pending otherwise. */
  datatype Candidate = Candidate(kind: Kind, position: nat, reach: nat)

  function Record(p: Points, c: Candidate, maxCodeLength: nat): Points {
    var within := c.reach <= maxCodeLength;
    match c.kind
    case Semi => if within then p.(semi := c.position) else p.(semiPending := c.position)
    case AndOr => if within then p.(andOr := c.position) else p.(andOrPending := c.position)
    case Comma => if within then p.(comma := c.position) else p.(commaPending := c.position)
    case Paren => if within then p.(paren := c.position) else p.(parenPending := c.position)
    case White => if within then p.(white := c.position) else p.(whitePending := c.position)
  }

  predicate NearBrace(appended: char, a: Around) {
    || appended in {'{', '}'} || a.previousNonBlank in {'{', '}'}
    || a.nextChar in {'{', '}'} || a.currentChar in {'{', '}'}
  }

  predicate NearBracket(appended: char, a: Around) {
    appended in {'[', ']'} || a.previousNonBlank == '[' || a.nextChar in {'[', ']'}
  }

  /** The place to split that an appended character offers in a line of length n. */
  function CharCandidate(c: char, n: nat, a: Around): (r: Option<Candidate>)
    requires n > 0
    ensures r.Some? ==> r.value.position <= n
  {
    if a.nextChar == '/' || NearBrace(c, a) || NearBracket(c, a) then None
    else if IsBlank(c) then
      if a.nextChar in {')', '(', '/', ':'} || a.currentChar in {')', '('} || a.previousNonBlank == '('
         || (a.nextChar == '*' && a.alignedPointer) || (a.nextChar == '&' && a.alignedReference)
      then None else Some(Candidate(White, n - 1, n - 1))
    else if c == ')' then
      if a.nextChar in {')', ' ', ';', ',', '.'} || (a.nextChar == '-' && a.arrowFollows)
      then None else Some(Candidate(White, n, n))
    else if c == ',' then Some(Candidate(Comma, n, n))
    else if c == '(' then
      if a.nextChar in {')', '(', '"', '\''} then None
      else Some(Candidate(Paren, if a.previousNonBlank != ' ' && a.afterOperator then n - 1 else n, n))
    else if c == ';' then
      if a.nextChar in {' ', '}', '/'} then None else Some(Candidate(Semi, n, n))
    else None
  }

  /** The place to split that an appended operator offers; text ends with it. */
  function OperatorCandidate(op: string, text: string, a: Around, maxCodeLength: nat): (r: Option<Candidate>)
    requires 0 < |op| <= |text|
    ensures r.Some? ==> r.value.position <= |text|
  {
    var n := |text|;
    if a.nextChar == '/' then None
    else if op in {"||", "&&", "or", "and"} then
      if a.breakAfterLogical then Some(Candidate(AndOr, n, n))
      else
        var k := if n > |op| && IsBlank(text[n - |op| - 1]) then |op| + 1 else |op|;
        Some(Candidate(AndOr, n - k, n - k))
    else if op in {"==", "!=", ">=", "<="} then Some(Candidate(White, n, n))
    else if op in {"+", "-", "?"} then
      if a.charBefore.Some? && !(op != "?" && a.inExponent)
         && (a.legalBefore || a.charBefore.value in {')', ']', '"'})
      then Some(Candidate(White, n - 1, n - 1)) else None
    else if op in {"=", ":"} then
      var position := if n < maxCodeLength then n else n - 1;
      if a.previousNonBlank == ']' then Some(Candidate(White, position, n - 1))
      else if a.charBefore.Some? && (a.legalBefore || a.charBefore.value in {')', ']'})
      then Some(Candidate(White, position, n)) else None
    else None
  }

  // ------------------------------------------------ whether to split at all

  predicate IsOkToBreakBlock(b: BraceType, breakOneLineBlocks: bool) {
    && !(b.isArray && b.singleLine)
    && !(b.command && b.emptyBlock)
    && (!b.singleLine || b.breakBlock || breakOneLineBlocks)
  }

  /** The text belongs to a block that must stay on its line. */
  predicate InWholeBlock(a: Around) {
    !IsOkToBreakBlock(a.brace, a.breakOneLineBlocks) && a.currentChar != '{'
  }

  predicate IsOkToSplit(l: Line, a: Around) {
    !l.keepUnbroken && !a.inUnsplittable && !InWholeBlock(a) && !a.brace.isArray
  }

  /** A refusal for a block or an array holds until the flag is reset, and
      except in an array inside a statement the points are given up. */
  function Checked(l: Line, a: Around): Line {
    if l.keepUnbroken || a.inUnsplittable then l
    else if InWholeBlock(a) || (a.brace.isArray && !a.brace.isArrayNis) then l.(keepUnbroken := true, points := NONE)
    else if a.brace.isArray then l.(keepUnbroken := true)
    else l
  }

  /** Recording a candidate, if the line may be split. */
  function Noted(l: Line, c: Option<Candidate>, a: Around, maxCodeLength: nat): Line {
    if !IsOkToSplit(l, a) then Checked(l, a)
    else if c.Some? then l.(points := Record(l.points, c.value, maxCodeLength))
    else l
  }

  // --------------------------------------------------------------- splitting

  /** Where a line that is too long is split; 0 or a place past the end means not at all. */
  function SplitPoint(p: Points, n: nat, maxCodeLength: nat, endsLine: bool): nat {
    var first :=
      if p.andOr >= 10 then p.andOr else p.semi;
    var second :=
      if first >= 10 then first
      else
        var white := p.white;
        var paren := if p.paren > white || 10 * p.paren >= 7 * maxCodeLength then p.paren else white;
        if p.comma > paren || 10 * p.comma >= 3 * maxCodeLength then p.comma else paren;
    if second < 10 then FirstPending([p.semiPending, p.andOrPending, p.commaPending, p.parenPending, p.whitePending])
    else if n > second && n - second > maxCodeLength && endsLine then
      var later := if p.white > second + 3 then p.white else second;
      if p.paren > later then p.paren else later
    else second
  }

  /** The smallest of the pending points that are set, or 0. */
  function FirstPending(ps: seq<nat>): (r: nat)
    ensures r == 0 || r in ps
    ensures forall p :: p in ps && p > 0 ==> 0 < r <= p
  {
    if ps == [] then 0
    else
      var rest := FirstPending(ps[1..]);
      assert ps == [ps[0]] + ps[1..];
      if ps[0] > 0 && (rest == 0 || ps[0] < rest) then ps[0] else rest
  }

  function Back(p: nat, n: nat): nat {
    if p > n then p - n else 0
  }

  /** The points after n characters have been cut off the front: pending points take over. */
  function Shifted(p: Points, n: nat): Points {
    Points(Back(if p.semiPending > 0 then p.semiPending else p.semi, n),
           Back(if p.andOrPending > 0 then p.andOrPending else p.andOr, n),
           Back(if p.commaPending > 0 then p.commaPending else p.comma, n),
           Back(if p.parenPending > 0 then p.parenPending else p.paren, n),
           Back(if p.whitePending > 0 then p.whitePending else p.white, n), 0, 0, 0, 0, 0)
  }

  /** Split at n: the front waits to be collected, the rest starts with its first text. */
  function SplitAt(l: Line, n: nat): Line
    requires 0 < n < |l.text|
  {
    var rest := l.text[n..];
    var k := FirstText(rest);
    l.(text := rest[k..], ready := l.text[..n], isReady := true, isInLineBreak := false,
       points := if k == |rest| then NONE else Shifted(Shifted(l.points, n), k))
  }

  function Split(l: Line, maxCodeLength: nat, endsLine: bool): Line {
    if |l.text| > maxCodeLength && !l.isReady then
      var n := SplitPoint(l.points, |l.text|, maxCodeLength, endsLine);
      if 0 < n < |l.text| then SplitAt(l, n) else l
    else l
  }

  function Break(l: Line): Line {
    l.(text := [], ready := l.text, isReady := true, isInLineBreak := false, points := NONE)
  }

  function BrokenIf(l: Line, canBreakLine: bool): Line {
    if canBreakLine && l.isInLineBreak then Break(l) else l
  }

  // --------------------------------------------------------------- appending

  function AppendChar(l: Line, c: char, canBreakLine: bool, a: Around, limit: Option<nat>): Line {
    var b := BrokenIf(l, canBreakLine);
    var grown := b.(text := b.text + [c]);
    if limit.None? then grown
    else
      Split(Noted(grown, CharCandidate(c, |grown.text|, a), a, limit.value), limit.value, a.endsLine)
  }

  function AppendSequence(l: Line, s: string, canBreakLine: bool, endsLine: bool, limit: Option<nat>): Line {
    var b := BrokenIf(l, canBreakLine);
    var grown := b.(text := b.text + s);
    if limit.None? then grown else Split(grown, limit.value, endsLine)
  }

  function AppendOperator(l: Line, op: string, canBreakLine: bool, a: Around, limit: Option<nat>): Line
    requires op != []
  {
    var b := BrokenIf(l, canBreakLine);
    var grown := b.(text := b.text + op);
    if limit.None? then grown
    else
      Split(Noted(grown, OperatorCandidate(op, grown.text, a, limit.value), a, limit.value), limit.value, a.endsLine)
  }

  function AppendSpacePad(l: Line, a: Around, limit: Option<nat>): Line {
    if l.text != [] && !IsBlank(Last(l.text)) then AppendChar(l, ' ', false, a, limit) else l
  }

  /** A pointer or reference has been formatted; index is its last blank. */
  function NotePointer(l: Line, index: nat, a: Around, maxCodeLength: nat): Line {
    Noted(l, if index < l.points.white then None else Some(Candidate(White, index, index)), a, maxCodeLength)
  }
}
