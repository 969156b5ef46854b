/** Split points stay inside the line, waiting lines stay, and no text is lost. */
module LineSplittingProofs {
  import opened Basics
  import opened LineSplitting

  // ------------------------------------------------------- points stay inside

  lemma SplitIsValid(l: Line, maxCodeLength: nat, endsLine: bool)
    requires Valid(l)
    ensures Valid(Split(l, maxCodeLength, endsLine))
  {
  }

  lemma NotedIsValid(l: Line, c: Option<Candidate>, a: Around, maxCodeLength: nat)
    requires Valid(l) && (c.Some? ==> c.value.position <= |l.text|)
    ensures Valid(Noted(l, c, a, maxCodeLength))
  {
  }

  lemma GrownIsValid(l: Line, more: string)
    requires Valid(l)
    ensures Valid(l.(text := l.text + more))
  {
  }

  lemma AppendCharIsValid(l: Line, c: char, canBreakLine: bool, a: Around, limit: Option<nat>)
    requires Valid(l)
    ensures Valid(AppendChar(l, c, canBreakLine, a, limit))
  {
    var b := BrokenIf(l, canBreakLine);
    if limit.Some? {
      var grown := b.(text := b.text + [c]);
      var candidate := CharCandidate(c, |grown.text|, a);
      GrownIsValid(b, [c]);
      NotedIsValid(grown, candidate, a, limit.value);
      SplitIsValid(Noted(grown, candidate, a, limit.value), limit.value, a.endsLine);
    }
  }

  lemma AppendSequenceIsValid(l: Line, s: string, canBreakLine: bool, endsLine: bool, limit: Option<nat>)
    requires Valid(l)
    ensures Valid(AppendSequence(l, s, canBreakLine, endsLine, limit))
  {
    var b := BrokenIf(l, canBreakLine);
    if limit.Some? {
      SplitIsValid(b.(text := b.text + s), limit.value, endsLine);
    }
  }

  lemma AppendOperatorIsValid(l: Line, op: string, canBreakLine: bool, a: Around, limit: Option<nat>)
    requires Valid(l) && op != []
    ensures Valid(AppendOperator(l, op, canBreakLine, a, limit))
  {
    var b := BrokenIf(l, canBreakLine);
    if limit.Some? {
      var grown := b.(text := b.text + op);
      var candidate := OperatorCandidate(op, grown.text, a, limit.value);
      GrownIsValid(b, op);
      NotedIsValid(grown, candidate, a, limit.value);
      SplitIsValid(Noted(grown, candidate, a, limit.value), limit.value, a.endsLine);
    }
  }

  lemma NotePointerIsValid(l: Line, index: nat, a: Around, maxCodeLength: nat)
    requires Valid(l) && index < |l.text|
    ensures Valid(NotePointer(l, index, a, maxCodeLength))
  {
  }

  // ------------------------------------------------------------ one split

  predicate AllBlank(s: string) {
    forall i :: 0 <= i < |s| ==> IsBlank(s[i])
  }

  /**
   * A split emits a non-empty front and keeps the rest: together they are the
   * old line with only blanks dropped at the cut, and the rest starts with text.
   * A line still waiting to be collected makes every split a no-op.
   */
  lemma SplitKeepsText(l: Line, maxCodeLength: nat, endsLine: bool) returns (dropped: string)
    ensures var r := Split(l, maxCodeLength, endsLine);
            if l.isReady || r == l then r == l && dropped == []
            else
              && l.text == r.ready + dropped + r.text && AllBlank(dropped)
              && r.isReady && 0 < |r.ready| && |r.text| < |l.text|
              && (r.text == [] || !IsBlank(r.text[0]))
  {
    var r := Split(l, maxCodeLength, endsLine);
    if r == l || l.isReady {
      dropped := [];
    } else {
      var n := SplitPoint(l.points, |l.text|, maxCodeLength, endsLine);
      var rest := l.text[n..];
      var k := FirstText(rest);
      dropped := rest[..k];
      assert rest == rest[..k] + rest[k..];
    }
  }

  /** One of the five points within the code length leaves a front of at least ten characters. */
  predicate HasNearPoint(p: Points) {
    p.semi >= 10 || p.andOr >= 10 || p.comma >= 10 || p.paren >= 10 || p.white >= 10
  }

  /**
   * Where a line is split: at a recorded point, and at a pending one, then the
   * first of them, exactly when no point within the code length leaves ten
   * characters. The options allow code lengths from 50; from 34 on this holds.
   */
  lemma SplitPointChoice(p: Points, n: nat, maxCodeLength: nat, endsLine: bool)
    requires maxCodeLength >= 34
    ensures var r := SplitPoint(p, n, maxCodeLength, endsLine);
      if HasNearPoint(p) then r >= 10 && r in {p.semi, p.andOr, p.comma, p.paren, p.white}
      else r == FirstPending([p.semiPending, p.andOrPending, p.commaPending, p.parenPending, p.whitePending])
    ensures var r := SplitPoint(p, n, maxCodeLength, endsLine);
      p.andOr >= 10 && r != p.andOr ==>
        n - p.andOr > maxCodeLength && endsLine && r > p.andOr && r in {p.paren, p.white}
  {
  }

  // ------------------------------------------------------------- whole runs

  datatype Operation =
    | PutChar(c: char, canBreak: bool, around: Around)
    | PutSequence(s: string, canBreak: bool, endsLine: bool)
    | PutOperator(op: string, canBreak: bool, around: Around)
    | PadSpace(around: Around)
    | RegisterBreak
    | BreakNow
    | Pointer(index: nat, around: Around)
    | Collect
    | Release      // a new source line, or a brace that opens or closes a block

  /** The line under construction and the lines already collected. */
  datatype Job = Job(line: Line, collected: seq<string>)

  predicate BreaksLine(l: Line, o: Operation) {
    match o
    case PutChar(_, b, _) => b && l.isInLineBreak
    case PutSequence(_, b, _) => b && l.isInLineBreak
    case PutOperator(_, b, _) => b && l.isInLineBreak
    case BreakNow => true
    case _ => false
  }

  /** What the callers see to: operators have text, and a pointer's blank is in the line. */
  predicate Permitted(l: Line, o: Operation) {
    (o.PutOperator? ==> o.op != []) && (o.Pointer? ==> o.index < |l.text|)
  }

  function Perform(j: Job, o: Operation, limit: Option<nat>): Job
    requires Permitted(j.line, o)
  {
    match o
    case PutChar(c, b, a) => j.(line := AppendChar(j.line, c, b, a, limit))
    case PutSequence(s, b, e) => j.(line := AppendSequence(j.line, s, b, e, limit))
    case PutOperator(op, b, a) => j.(line := AppendOperator(j.line, op, b, a, limit))
    case PadSpace(a) => j.(line := AppendSpacePad(j.line, a, limit))
    case RegisterBreak => j.(line := j.line.(isInLineBreak := true))
    case BreakNow => j.(line := Break(j.line))
    case Pointer(i, a) => if limit.None? then j else j.(line := NotePointer(j.line, i, a, limit.value))
    case Collect =>
      if j.line.isReady then Job(j.line.(isReady := false), j.collected + [j.line.ready]) else j
    case Release => j.(line := j.line.(keepUnbroken := false))
  }

  /** The text an operation is given, without the blanks of padding. */
  function Given(o: Operation): string {
    match o
    case PutChar(c, _, _) => [c]
    case PutSequence(s, _, _) => s
    case PutOperator(op, _, _) => op
    case _ => []
  }

  function NonBlank(s: string): string {
    if s == [] then [] else (if IsBlank(s[0]) then [] else [s[0]]) + NonBlank(s[1..])
  }

  /** All text in the job, collected or waiting or growing, without blanks. */
  function Content(j: Job): string {
    NonBlank(Flat(j.collected)) + Held(j.line)
  }

  lemma {:induction false} NonBlankConcat(a: string, b: string)
    ensures NonBlank(a + b) == NonBlank(a) + NonBlank(b)
  {
    if a == [] {
      assert a + b == b;
    } else {
      assert (a + b)[1..] == a[1..] + b;
      NonBlankConcat(a[1..], b);
    }
  }

  lemma {:induction false} BlankIsNothing(s: string)
    requires AllBlank(s)
    ensures NonBlank(s) == []
  {
    if s != [] {
      BlankIsNothing(s[1..]);
    }
  }

  /** The waiting and the growing part of a line, without blanks. */
  function Held(l: Line): string {
    NonBlank(if l.isReady then l.ready else []) + NonBlank(l.text)
  }

  lemma SplitHolds(l: Line, maxCodeLength: nat, endsLine: bool)
    ensures Held(Split(l, maxCodeLength, endsLine)) == Held(l)
  {
    var r := Split(l, maxCodeLength, endsLine);
    var dropped := SplitKeepsText(l, maxCodeLength, endsLine);
    if !l.isReady && r != l {
      NonBlankConcat(r.ready + dropped, r.text);
      NonBlankConcat(r.ready, dropped);
      BlankIsNothing(dropped);
    }
  }

  /** A break while a line waits replaces the waiting line. */
  predicate Overwrites(l: Line, o: Operation) {
    BreaksLine(l, o) && l.isReady && NonBlank(l.ready) != []
  }

  lemma BreakHolds(l: Line)
    ensures var lost := if l.isReady then NonBlank(l.ready) else [];
      Held(l) == lost + Held(Break(l))
  {
  }

  lemma GrowHolds(l: Line, s: string)
    ensures Held(l.(text := l.text + s)) == Held(l) + NonBlank(s)
  {
    NonBlankConcat(l.text, s);
  }

  lemma NotedHolds(l: Line, c: Option<Candidate>, a: Around, maxCodeLength: nat)
    ensures Held(Noted(l, c, a, maxCodeLength)) == Held(l)
  {
  }

  lemma AppendCharHolds(l: Line, c: char, canBreakLine: bool, a: Around, limit: Option<nat>)
    ensures Held(AppendChar(l, c, canBreakLine, a, limit)) == Held(BrokenIf(l, canBreakLine)) + NonBlank([c])
  {
    var b := BrokenIf(l, canBreakLine);
    GrowHolds(b, [c]);
    if limit.Some? {
      var grown := b.(text := b.text + [c]);
      var candidate := CharCandidate(c, |grown.text|, a);
      NotedHolds(grown, candidate, a, limit.value);
      SplitHolds(Noted(grown, candidate, a, limit.value), limit.value, a.endsLine);
    }
  }

  lemma AppendSequenceHolds(l: Line, s: string, canBreakLine: bool, endsLine: bool, limit: Option<nat>)
    ensures Held(AppendSequence(l, s, canBreakLine, endsLine, limit)) == Held(BrokenIf(l, canBreakLine)) + NonBlank(s)
  {
    var b := BrokenIf(l, canBreakLine);
    GrowHolds(b, s);
    if limit.Some? {
      SplitHolds(b.(text := b.text + s), limit.value, endsLine);
    }
  }

  lemma AppendOperatorHolds(l: Line, op: string, canBreakLine: bool, a: Around, limit: Option<nat>)
    requires op != []
    ensures Held(AppendOperator(l, op, canBreakLine, a, limit)) == Held(BrokenIf(l, canBreakLine)) + NonBlank(op)
  {
    var b := BrokenIf(l, canBreakLine);
    GrowHolds(b, op);
    if limit.Some? {
      var grown := b.(text := b.text + op);
      var candidate := OperatorCandidate(op, grown.text, a, limit.value);
      NotedHolds(grown, candidate, a, limit.value);
      SplitHolds(Noted(grown, candidate, a, limit.value), limit.value, a.endsLine);
    }
  }

  /** Every operation keeps the points inside the line. */
  lemma PerformIsValid(j: Job, o: Operation, limit: Option<nat>)
    requires Valid(j.line) && Permitted(j.line, o)
    ensures Valid(Perform(j, o, limit).line)
  {
    match o {
      case PutChar(c, b, a) => AppendCharIsValid(j.line, c, b, a, limit);
      case PutSequence(s, b, e) => AppendSequenceIsValid(j.line, s, b, e, limit);
      case PutOperator(op, b, a) => AppendOperatorIsValid(j.line, op, b, a, limit);
      case PadSpace(a) => AppendCharIsValid(j.line, ' ', false, a, limit);
      case RegisterBreak =>
      case BreakNow =>
      case Pointer(i, a) => if limit.Some? { NotePointerIsValid(j.line, i, a, limit.value); }
      case Collect =>
      case Release =>
    }
  }

  /** The line an operation appends to: an empty one if it breaks first. */
  function Broken(l: Line, o: Operation): Line {
    if BreaksLine(l, o) then Break(l) else l
  }

  /** What PerformHolds says of one operation on a line. */
  predicate Holds(l: Line, o: Operation, after: Line) {
    Held(after) == Held(Broken(l, o)) + NonBlank(Given(o))
  }

  lemma PutCharHolds(l: Line, o: Operation, limit: Option<nat>)
    requires o.PutChar?
    ensures Holds(l, o, AppendChar(l, o.c, o.canBreak, o.around, limit))
  {
    AppendCharHolds(l, o.c, o.canBreak, o.around, limit);
  }

  lemma PutSequenceHolds(l: Line, o: Operation, limit: Option<nat>)
    requires o.PutSequence?
    ensures Holds(l, o, AppendSequence(l, o.s, o.canBreak, o.endsLine, limit))
  {
    AppendSequenceHolds(l, o.s, o.canBreak, o.endsLine, limit);
  }

  lemma PutOperatorHolds(l: Line, o: Operation, limit: Option<nat>)
    requires o.PutOperator? && o.op != []
    ensures Holds(l, o, AppendOperator(l, o.op, o.canBreak, o.around, limit))
  {
    AppendOperatorHolds(l, o.op, o.canBreak, o.around, limit);
  }

  lemma PadSpaceHolds(l: Line, o: Operation, limit: Option<nat>)
    requires o.PadSpace?
    ensures Holds(l, o, AppendSpacePad(l, o.around, limit))
  {
    AppendCharHolds(l, ' ', false, o.around, limit);
    BlankIsNothing(" ");
  }

  lemma PerformHolds(j: Job, o: Operation, limit: Option<nat>)
    requires Permitted(j.line, o) && !o.Collect?
    ensures Holds(j.line, o, Perform(j, o, limit).line)
  {
    if o.PutChar? {
      PutCharHolds(j.line, o, limit);
    } else if o.PutSequence? {
      PutSequenceHolds(j.line, o, limit);
    } else if o.PutOperator? {
      PutOperatorHolds(j.line, o, limit);
    } else if o.PadSpace? {
      PadSpaceHolds(j.line, o, limit);
    } else {
      QuietHolds(j, o, limit);
    }
  }

  lemma QuietHolds(j: Job, o: Operation, limit: Option<nat>)
    requires Permitted(j.line, o) && (o.RegisterBreak? || o.BreakNow? || o.Pointer? || o.Release?)
    ensures Holds(j.line, o, Perform(j, o, limit).line)
  {
    assert NonBlank(Given(o)) == [];
    assert Held(Broken(j.line, o)) + [] == Held(Broken(j.line, o));
    if o.Pointer? && limit.Some? {
      NotePointerHolds(j.line, o.index, o.around, limit.value);
    }
  }

  lemma NotePointerHolds(l: Line, index: nat, a: Around, maxCodeLength: nat)
    ensures Held(NotePointer(l, index, a, maxCodeLength)) == Held(l)
  {
  }

  /**
   * An operation adds exactly its text, with nothing lost, doubled or moved, if
   * and only if it does not break the line while one with text waits.
   */
  lemma PerformAddsText(j: Job, o: Operation, limit: Option<nat>)
    requires Permitted(j.line, o)
    ensures Content(Perform(j, o, limit)) == Content(j) + NonBlank(Given(o)) <==> !Overwrites(j.line, o)
    ensures |Content(Perform(j, o, limit))| <= |Content(j)| + |NonBlank(Given(o))|
    ensures Overwrites(j.line, o) ==> |Content(Perform(j, o, limit))| < |Content(j)| + |NonBlank(Given(o))|
  {
    if o.Collect? {
      CollectKeepsText(j);
    } else {
      PerformHolds(j, o, limit);
      PerformLeavesCollected(j, o, limit);
      var lost := Lost(j.line, o);
      LossShows(NonBlank(Flat(j.collected)), lost, Held(Broken(j.line, o)), NonBlank(Given(o)));
      BreakHolds(j.line);
      assert lost == [] ==> [] + Held(Broken(j.line, o)) == Held(Broken(j.line, o));
    }
  }

  /** The text that an operation overwrites. */
  function Lost(l: Line, o: Operation): string {
    if Overwrites(l, o) then NonBlank(l.ready) else []
  }

  lemma PerformLeavesCollected(j: Job, o: Operation, limit: Option<nat>)
    requires Permitted(j.line, o) && !o.Collect?
    ensures Perform(j, o, limit).collected == j.collected
  {
  }

  lemma LossShows(before: string, lost: string, kept: string, more: string)
    ensures before + (kept + more) == before + (lost + kept) + more <==> lost == []
    ensures |before + (kept + more)| + |lost| == |before + (lost + kept)| + |more|
  {
    if lost == [] {
      ConcatAssoc(before, kept, more);
      assert lost + kept == kept;
    }
  }

  lemma CollectKeepsText(j: Job)
    ensures Content(Perform(j, Collect, None)) == Content(j)
  {
    var l := j.line;
    if l.isReady {
      FlatPush(j.collected, l.ready);
      NonBlankConcat(Flat(j.collected), l.ready);
      ConcatAssoc(NonBlank(Flat(j.collected)), NonBlank(l.ready), NonBlank(l.text));
      assert Held(l.(isReady := false)) == NonBlank(l.text);
    }
  }

  lemma FlatPush(ss: seq<string>, s: string)
    ensures Flat(ss + [s]) == Flat(ss) + s
  {
    assert DropLast(ss + [s]) == ss;
  }

  /** All operations are permitted when their turn comes. */
  predicate AllPermitted(j: Job, os: seq<Operation>, limit: Option<nat>)
    decreases |os|
  {
    os == [] || (Permitted(j.line, os[0]) && AllPermitted(Perform(j, os[0], limit), os[1..], limit))
  }

  function PerformAll(j: Job, os: seq<Operation>, limit: Option<nat>): Job
    requires AllPermitted(j, os, limit)
    decreases |os|
  {
    if os == [] then j else PerformAll(Perform(j, os[0], limit), os[1..], limit)
  }

  function AllGiven(os: seq<Operation>): string {
    if os == [] then [] else NonBlank(Given(os[0])) + AllGiven(os[1..])
  }

  /** No line with text is overwritten while it waits. */
  predicate NothingOverwritten(j: Job, os: seq<Operation>, limit: Option<nat>)
    requires AllPermitted(j, os, limit)
    decreases |os|
  {
    os == [] || (!Overwrites(j.line, os[0]) && NothingOverwritten(Perform(j, os[0], limit), os[1..], limit))
  }

  /**
   * Over whole runs, with any code length or none: no split point ever leaves
   * the line, and the lines collected, the line waiting and the line growing
   * hold the given text in order, blanks aside, if and only if no break came
   * while a line with text was waiting.
   */
  lemma {:induction false} RunKeepsText(j: Job, os: seq<Operation>, limit: Option<nat>)
    requires Valid(j.line) && AllPermitted(j, os, limit)
    ensures Valid(PerformAll(j, os, limit).line)
    ensures Content(PerformAll(j, os, limit)) == Content(j) + AllGiven(os) <==> NothingOverwritten(j, os, limit)
    ensures |Content(PerformAll(j, os, limit))| <= |Content(j)| + |AllGiven(os)|
    decreases |os|
  {
    if os != [] {
      PerformIsValid(j, os[0], limit);
      PerformAddsText(j, os[0], limit);
      RunKeepsText(Perform(j, os[0], limit), os[1..], limit);
      ConcatAssoc(Content(j), NonBlank(Given(os[0])), AllGiven(os[1..]));
    }
  }

  /** From an empty line, two breaks without a collection in between lose the first line. */
  lemma TextCanBeLost(limit: Option<nat>)
    ensures var j := Job(Line([], [], false, false, false, NONE), []);
            var os := [PutSequence("a", true, false), BreakNow, PutSequence("b", true, false), BreakNow];
      && AllPermitted(j, os, limit) && !NothingOverwritten(j, os, limit)
      && Content(PerformAll(j, os, limit)) == "b"
  {
    var j := Job(Line([], [], false, false, false, NONE), []);
    var a, b := PutSequence("a", true, false), PutSequence("b", true, false);
    var j1 := Job(Line("a", [], false, false, false, NONE), []);
    var j2 := Job(Line([], "a", true, false, false, NONE), []);
    var j3 := Job(Line("b", "a", true, false, false, NONE), []);
    var j4 := Job(Line([], "b", true, false, false, NONE), []);
    assert Perform(j, a, limit) == j1 && Perform(j1, BreakNow, limit) == j2;
    assert Perform(j2, b, limit) == j3 && Perform(j3, BreakNow, limit) == j4;
    assert Overwrites(j3.line, BreakNow);
    RunCons(j3, BreakNow, [], limit);
    RunCons(j2, b, [BreakNow], limit);
    RunCons(j1, BreakNow, [b] + [BreakNow], limit);
    RunCons(j, a, [BreakNow] + ([b] + [BreakNow]), limit);
    assert [a] + ([BreakNow] + ([b] + [BreakNow])) == [a, BreakNow, b, BreakNow];
    assert [BreakNow] + [] == [BreakNow];
    assert PerformAll(j4, [], limit) == j4 && AllPermitted(j4, [], limit);
  }

  /** Text after which a comma offers a place to split. */
  predicate OffersComma(a: Around) {
    && !a.inUnsplittable && !InWholeBlock(a) && !a.brace.isArray
    && a.nextChar != '/' && !NearBrace(',', a) && !NearBracket(',', a)
  }

  lemma OnlyCommaPends(p: nat)
    requires p > 0
    ensures FirstPending([0, 0, p, 0, 0]) == p
  {
    var ps: seq<nat> := [0, 0, p, 0, 0];
    assert ps[2] == p && p in ps;
    var r := FirstPending(ps);
    assert 0 < r <= p;
    var i :| 0 <= i < |ps| && ps[i] == r;
  }

  lemma CommaPends(l: Line, a: Around, limit: nat)
    requires OffersComma(a) && limit > 0 && |l.text| == limit && l.points == NONE
    requires !l.isReady && !l.isInLineBreak && !l.keepUnbroken
    ensures AppendChar(l, ',', true, a, Some(limit))
      == l.(text := l.text + [','], points := NONE.(commaPending := limit + 1))
  {
    assert CharCandidate(',', limit + 1, a) == Some(Candidate(Comma, limit + 1, limit + 1));
    OnlyCommaPends(limit + 1);
  }

  lemma SplitsAtComma(l: Line, limit: nat)
    requires limit > 0 && |l.text| == limit + 1 && l.points == NONE.(commaPending := limit + 1)
    requires !l.isReady && !l.isInLineBreak
    ensures var r := AppendSequence(l, "b", true, false, Some(limit));
      r.ready == l.text && r.isReady && r.text == "b"
  {
    OnlyCommaPends(limit + 1);
    assert (l.text + "b")[limit + 1..] == "b" && (l.text + "b")[..limit + 1] == l.text;
    assert FirstText("b") == 0;
  }

  /** The same with a split: for every code length, a line of that length, a
      comma and one more character are split, and a break then loses the line. */
  lemma SplitThenBreakLoses(text: string, a: Around)
    requires |text| > 0 && OffersComma(a)
    ensures var j := Job(Line([], [], false, false, false, NONE), []);
            var os := [PutSequence(text, true, false)] + ([PutChar(',', true, a)]
                      + ([PutSequence("b", true, false)] + [BreakNow]));
      AllPermitted(j, os, Some(|text|)) && !NothingOverwritten(j, os, Some(|text|))
  {
    var limit, l0 := |text|, Line([], [], false, false, false, NONE);
    var l1 := l0.(text := text);
    assert [] + text == text;
    CommaPends(l1, a, limit);
    var l2 := AppendChar(l1, ',', true, a, Some(limit));
    SplitsAtComma(l2, limit);
    var l3 := AppendSequence(l2, "b", true, false, Some(limit));
    NonBlankConcat(text, [',']);
    assert NonBlank([',']) == [','];
    FourOperations(Job(l0, []), Job(l1, []), Job(l2, []), Job(l3, []), PutSequence(text, true, false),
                   PutChar(',', true, a), PutSequence("b", true, false), BreakNow, Some(limit));
  }

  /** A run of four operations of which the last overwrites a line. */
  lemma FourOperations(j0: Job, j1: Job, j2: Job, j3: Job, o0: Operation, o1: Operation, o2: Operation,
                       o3: Operation, limit: Option<nat>)
    requires Permitted(j0.line, o0) && Perform(j0, o0, limit) == j1
    requires Permitted(j1.line, o1) && Perform(j1, o1, limit) == j2
    requires Permitted(j2.line, o2) && Perform(j2, o2, limit) == j3
    requires Permitted(j3.line, o3) && Overwrites(j3.line, o3)
    ensures var os := [o0] + ([o1] + ([o2] + [o3]));
      AllPermitted(j0, os, limit) && !NothingOverwritten(j0, os, limit)
  {
    RunCons(j3, o3, [], limit);
    assert [o3] + [] == [o3];
    RunCons(j2, o2, [o3], limit);
    RunCons(j1, o1, [o2] + [o3], limit);
    RunCons(j0, o0, [o1] + ([o2] + [o3]), limit);
  }

  lemma RunCons(j: Job, o: Operation, os: seq<Operation>, limit: Option<nat>)
    ensures AllPermitted(j, [o] + os, limit)
       <==> Permitted(j.line, o) && AllPermitted(Perform(j, o, limit), os, limit)
    ensures AllPermitted(j, [o] + os, limit) ==>
              && PerformAll(j, [o] + os, limit) == PerformAll(Perform(j, o, limit), os, limit)
              && (NothingOverwritten(j, [o] + os, limit)
                  <==> !Overwrites(j.line, o) && NothingOverwritten(Perform(j, o, limit), os, limit))
  {
    assert ([o] + os)[1..] == os;
  }

  // ------------------------------------------------ blocks that stay on a line

  /** No point is left, and none is recorded until the flag is reset. */
  predicate Unbroken(l: Line) {
    l.keepUnbroken && l.points == NONE
  }

  /** Refused for its block or array, the line is refused wherever it goes on; and
      except in an array inside a statement it is unbroken. */
  lemma RefusalLasts(l: Line, a: Around, later: Around)
    requires !IsOkToSplit(l, a) && !a.inUnsplittable
    ensures !IsOkToSplit(Checked(l, a), later)
    ensures !l.keepUnbroken && (InWholeBlock(a) || !a.brace.isArrayNis) ==> Unbroken(Checked(l, a))
  {
  }

  lemma NoPointNoSplit(l: Line, maxCodeLength: nat, endsLine: bool)
    requires l.points == NONE
    ensures Split(l, maxCodeLength, endsLine) == l
  {
  }

  /** An operation that looks at the text around it, where a block must stay whole. */
  predicate EntersWholeBlock(l: Line, o: Operation) {
    && (o.PutChar? || o.PutOperator?) && !l.keepUnbroken && !o.around.inUnsplittable
    && (InWholeBlock(o.around) || (o.around.brace.isArray && !o.around.brace.isArrayNis))
  }

  lemma WholeBlockStarts(j: Job, o: Operation, limit: nat)
    requires Permitted(j.line, o) && EntersWholeBlock(j.line, o)
    ensures Unbroken(Perform(j, o, Some(limit)).line)
  {
    var b := BrokenIf(j.line, o.canBreak);
    var grown := b.(text := b.text + if o.PutChar? then [o.c] else o.op);
    RefusalLasts(grown, o.around, o.around);
    NoPointNoSplit(Checked(grown, o.around), limit, o.around.endsLine);
  }

  lemma UnbrokenStep(j: Job, o: Operation, limit: Option<nat>)
    requires Unbroken(j.line) && Permitted(j.line, o) && o != Release
    ensures Perform(j, o, limit) == Perform(j, o, None) && Unbroken(Perform(j, o, limit).line)
  {
    if o.PutChar? || o.PadSpace? {
      var c, canBreak := if o.PutChar? then o.c else ' ', o.PutChar? && o.canBreak;
      var b := BrokenIf(j.line, canBreak);
      UnbrokenGrows(b.(text := b.text + [c]), CharCandidate(c, |b.text + [c]|, o.around), o.around, limit);
    } else if o.PutOperator? && limit.Some? {
      var b := BrokenIf(j.line, o.canBreak);
      var grown := b.(text := b.text + o.op);
      UnbrokenGrows(grown, OperatorCandidate(o.op, grown.text, o.around, limit.value), o.around, limit);
    } else if o.PutSequence? && limit.Some? {
      var b := BrokenIf(j.line, o.canBreak);
      NoPointNoSplit(b.(text := b.text + o.s), limit.value, o.endsLine);
    }
  }

  lemma UnbrokenGrows(l: Line, c: Option<Candidate>, a: Around, limit: Option<nat>)
    requires Unbroken(l)
    ensures limit.Some? ==> Split(Noted(l, c, a, limit.value), limit.value, a.endsLine) == l
  {
    if limit.Some? {
      NoPointNoSplit(l, limit.value, a.endsLine);
    }
  }

  /**
   * A block that must stay on its line is never split: until the flag is reset,
   * every run gives exactly what it gives without a code length.
   */
  lemma {:induction false} UnbrokenIsUnlimited(j: Job, os: seq<Operation>, limit: Option<nat>)
    requires Unbroken(j.line) && AllPermitted(j, os, limit) && Release !in os
    ensures AllPermitted(j, os, None) && PerformAll(j, os, limit) == PerformAll(j, os, None)
    ensures Unbroken(PerformAll(j, os, limit).line)
    decreases |os|
  {
    if os != [] {
      UnbrokenStep(j, os[0], limit);
      UnbrokenIsUnlimited(Perform(j, os[0], limit), os[1..], limit);
    }
  }

  // ------------------------------------------------- what the points mark

  /** A split leaves the point p of the old text marking the same place of the new text, or drops it. */
  predicate SamePlace(before: string, p: nat, after: string, q: nat)
    requires |after| <= |before|
  {
    q == Back(p, |before| - |after|)
  }

  /** All places are kept, and where a point was pending, the pending one. */
  predicate SamePlaces(before: string, p: Points, after: string, q: Points)
    requires |after| <= |before|
  {
    && SamePlace(before, if p.semiPending > 0 then p.semiPending else p.semi, after, q.semi)
    && SamePlace(before, if p.andOrPending > 0 then p.andOrPending else p.andOr, after, q.andOr)
    && SamePlace(before, if p.commaPending > 0 then p.commaPending else p.comma, after, q.comma)
    && SamePlace(before, if p.parenPending > 0 then p.parenPending else p.paren, after, q.paren)
    && SamePlace(before, if p.whitePending > 0 then p.whitePending else p.white, after, q.white)
    && q.semiPending == q.andOrPending == q.commaPending == q.parenPending == q.whitePending == 0
  }

  lemma SplitKeepsPlaces(l: Line, maxCodeLength: nat, endsLine: bool)
    requires Valid(l)
    ensures var r := Split(l, maxCodeLength, endsLine);
            r != l ==>
              && |r.text| < |l.text| && r.text == l.text[|l.text| - |r.text|..]
              && SamePlaces(l.text, l.points, r.text, r.points)
  {
    var r := Split(l, maxCodeLength, endsLine);
    if r != l {
      var n := SplitPoint(l.points, |l.text|, maxCodeLength, endsLine);
      var k := FirstText(l.text[n..]);
      assert r == SplitAt(l, n);
      CutKeepsPlaces(l.points, |l.text|, n, k);
    }
  }

  /** Moving points back by a cut and again by the blanks after it is moving them back by both. */
  lemma CutKeepsPlaces(p: Points, length: nat, n: nat, k: nat)
    requires Within(p, length) && n + k <= length
    ensures Shifted(Shifted(p, n), k) == Shifted(p, n + k)
    ensures n + k == length ==> Shifted(p, n + k) == NONE
  {
  }

  predicate Follows(text: string, p: nat, c: char) {
    p == 0 || (p <= |text| && text[p - 1] == c)
  }

  predicate AtParen(text: string, p: nat) {
    Follows(text, p, '(') || (p < |text| && text[p] == '(')
  }

  /** Semicolon and comma points stand behind their character, paren points beside one. */
  predicate Marked(p: Points, text: string) {
    && Follows(text, p.semi, ';') && Follows(text, p.semiPending, ';')
    && Follows(text, p.comma, ',') && Follows(text, p.commaPending, ',')
    && AtParen(text, p.paren) && AtParen(text, p.parenPending)
  }

  lemma GrowKeepsMarks(p: Points, text: string, more: string)
    requires Marked(p, text)
    ensures Marked(p, text + more)
  {
  }

  /** A candidate stands where its kind of point is to stand. */
  predicate MarksCandidate(c: Candidate, text: string) {
    match c.kind
    case Semi => Follows(text, c.position, ';')
    case Comma => Follows(text, c.position, ',')
    case Paren => AtParen(text, c.position)
    case AndOr => true
    case White => true
  }

  lemma NotedMarks(l: Line, c: Option<Candidate>, a: Around, maxCodeLength: nat)
    requires Marked(l.points, l.text) && (c.Some? ==> MarksCandidate(c.value, l.text))
    ensures var r := Noted(l, c, a, maxCodeLength); r.text == l.text && Marked(r.points, r.text)
  {
    if IsOkToSplit(l, a) {
      if c.Some? {
        RecordMarks(l.points, c.value, l.text, maxCodeLength);
      }
    }
  }

  lemma RecordMarks(p: Points, c: Candidate, text: string, maxCodeLength: nat)
    requires Marked(p, text) && MarksCandidate(c, text)
    ensures Marked(Record(p, c, maxCodeLength), text)
  {
  }

  lemma CharMarks(c: char, text: string, a: Around)
    ensures var r := CharCandidate(c, |text + [c]|, a); r.Some? ==> MarksCandidate(r.value, text + [c])
  {
  }

  lemma OperatorMarks(op: string, text: string, a: Around, maxCodeLength: nat)
    requires 0 < |op| <= |text|
    ensures var r := OperatorCandidate(op, text, a, maxCodeLength); r.Some? ==> MarksCandidate(r.value, text)
  {
  }

  lemma BackFollows(before: string, p: nat, after: string, c: char)
    requires |after| <= |before| && after == before[|before| - |after|..]
    requires Follows(before, p, c)
    ensures Follows(after, Back(p, |before| - |after|), c)
  {
  }

  lemma BackAtParen(before: string, p: nat, after: string)
    requires |after| <= |before| && after == before[|before| - |after|..]
    requires AtParen(before, p)
    ensures AtParen(after, Back(p, |before| - |after|))
  {
  }

  lemma PlacesKeepMarks(before: string, p: Points, after: string, q: Points)
    requires |after| <= |before| && after == before[|before| - |after|..]
    requires SamePlaces(before, p, after, q) && Marked(p, before)
    ensures Marked(q, after)
  {
    BackFollows(before, if p.semiPending > 0 then p.semiPending else p.semi, after, ';');
    BackFollows(before, if p.commaPending > 0 then p.commaPending else p.comma, after, ',');
    BackAtParen(before, if p.parenPending > 0 then p.parenPending else p.paren, after);
  }

  lemma SplitKeepsMarks(l: Line, maxCodeLength: nat, endsLine: bool)
    requires Valid(l) && Marked(l.points, l.text)
    ensures var r := Split(l, maxCodeLength, endsLine); Marked(r.points, r.text)
  {
    var r := Split(l, maxCodeLength, endsLine);
    if r != l {
      SplitKeepsPlaces(l, maxCodeLength, endsLine);
      PlacesKeepMarks(l.text, l.points, r.text, r.points);
    }
  }

  lemma SequenceKeepsMarks(l: Line, s: string, canBreakLine: bool, endsLine: bool, limit: Option<nat>)
    requires Valid(l) && Marked(l.points, l.text)
    ensures var r := AppendSequence(l, s, canBreakLine, endsLine, limit); Marked(r.points, r.text)
  {
    var b := BrokenIf(l, canBreakLine);
    GrowKeepsMarks(b.points, b.text, s);
    if limit.Some? {
      SplitKeepsMarks(b.(text := b.text + s), limit.value, endsLine);
    }
  }

  /** Over every operation the points keep marking what they were recorded for. */
  lemma PerformKeepsMarks(j: Job, o: Operation, limit: Option<nat>)
    requires Valid(j.line) && Permitted(j.line, o) && Marked(j.line.points, j.line.text)
    ensures var r := Perform(j, o, limit).line; Marked(r.points, r.text)
  {
    match o {
      case PutChar(c, b, a) => CharKeepsMarks(j.line, c, b, a, limit);
      case PutSequence(s, b, e) => SequenceKeepsMarks(j.line, s, b, e, limit);
      case PutOperator(op, b, a) => OperatorKeepsMarks(j.line, op, b, a, limit);
      case PadSpace(a) => CharKeepsMarks(j.line, ' ', false, a, limit);
      case RegisterBreak =>
      case BreakNow =>
      case Pointer(i, a) => if limit.Some? { PointerKeepsMarks(j.line, i, a, limit.value); }
      case Collect =>
      case Release =>
    }
  }

  lemma PointerKeepsMarks(l: Line, index: nat, a: Around, maxCodeLength: nat)
    requires Marked(l.points, l.text)
    ensures var r := NotePointer(l, index, a, maxCodeLength); Marked(r.points, r.text)
  {
  }

  lemma CharKeepsMarks(l: Line, c: char, canBreakLine: bool, a: Around, limit: Option<nat>)
    requires Valid(l) && Marked(l.points, l.text)
    ensures var r := AppendChar(l, c, canBreakLine, a, limit); Marked(r.points, r.text)
  {
    var b := BrokenIf(l, canBreakLine);
    GrowKeepsMarks(b.points, b.text, [c]);
    if limit.Some? {
      var grown := b.(text := b.text + [c]);
      var candidate := CharCandidate(c, |grown.text|, a);
      CharMarks(c, b.text, a);
      NotedMarks(grown, candidate, a, limit.value);
      GrownIsValid(b, [c]);
      NotedIsValid(grown, candidate, a, limit.value);
      SplitKeepsMarks(Noted(grown, candidate, a, limit.value), limit.value, a.endsLine);
    }
  }

  lemma OperatorKeepsMarks(l: Line, op: string, canBreakLine: bool, a: Around, limit: Option<nat>)
    requires Valid(l) && Marked(l.points, l.text) && op != []
    ensures var r := AppendOperator(l, op, canBreakLine, a, limit); Marked(r.points, r.text)
  {
    var b := BrokenIf(l, canBreakLine);
    GrowKeepsMarks(b.points, b.text, op);
    if limit.Some? {
      var grown := b.(text := b.text + op);
      var candidate := OperatorCandidate(op, grown.text, a, limit.value);
      OperatorMarks(op, grown.text, a, limit.value);
      NotedMarks(grown, candidate, a, limit.value);
      GrownIsValid(b, op);
      NotedIsValid(grown, candidate, a, limit.value);
      SplitKeepsMarks(Noted(grown, candidate, a, limit.value), limit.value, a.endsLine);
    }
  }

  /** Over whole runs the points keep marking what they were recorded for. */
  lemma {:induction false} RunKeepsMarks(j: Job, os: seq<Operation>, limit: Option<nat>)
    requires Valid(j.line) && Marked(j.line.points, j.line.text) && AllPermitted(j, os, limit)
    ensures var r := PerformAll(j, os, limit).line; Valid(r) && Marked(r.points, r.text)
    decreases |os|
  {
    if os != [] {
      PerformIsValid(j, os[0], limit);
      PerformKeepsMarks(j, os[0], limit);
      RunKeepsMarks(Perform(j, os[0], limit), os[1..], limit);
    }
  }
}
