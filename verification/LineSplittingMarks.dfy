/** What the logical and the white points of a line stand beside, and that no split cuts a name. */
module LineSplittingMarks {
  import opened Basics
  import opened LineSplitting
  import opened LineSplittingProofs

  /** The point is not set, or the character before it or at it is one of these. */
  predicate Beside(text: string, p: nat, before: set<char>, at: set<char>) {
    || p == 0
    || (p <= |text| && text[p - 1] in before)
    || (p < |text| && text[p] in at)
  }

  /** Behind or before `||`, `&&`, `or` or `and`, or before the blank in front of it. */
  predicate LogicalMark(text: string, p: nat) {
    Beside(text, p, {'|', '&', 'r', 'd'}, {'|', '&', 'o', 'a', ' ', '\t'})
  }

  /** Before a blank, behind a parenthesis, or at an operator. */
  predicate WhiteMark(text: string, p: nat) {
    Beside(text, p, {')', '=', ':'}, {' ', '\t', '+', '-', '?', '=', ':'})
  }

  predicate SpaceMarked(p: Points, text: string) {
    && LogicalMark(text, p.andOr) && LogicalMark(text, p.andOrPending)
    && WhiteMark(text, p.white) && WhiteMark(text, p.whitePending)
  }

  predicate SpaceCandidate(c: Candidate, text: string) {
    match c.kind
    case AndOr => LogicalMark(text, c.position)
    case White => WhiteMark(text, c.position)
    case Semi => true
    case Comma => true
    case Paren => true
  }

  lemma GrowKeepsSpace(p: Points, text: string, more: string)
    requires SpaceMarked(p, text)
    ensures SpaceMarked(p, text + more)
  {
  }

  lemma RecordSpace(p: Points, c: Candidate, text: string, maxCodeLength: nat)
    requires SpaceMarked(p, text) && SpaceCandidate(c, text)
    ensures SpaceMarked(Record(p, c, maxCodeLength), text)
  {
  }

  lemma NotedSpace(l: Line, c: Option<Candidate>, a: Around, maxCodeLength: nat)
    requires SpaceMarked(l.points, l.text) && (c.Some? ==> SpaceCandidate(c.value, l.text))
    ensures var r := Noted(l, c, a, maxCodeLength); r.text == l.text && SpaceMarked(r.points, r.text)
  {
    if IsOkToSplit(l, a) {
      if c.Some? {
        RecordSpace(l.points, c.value, l.text, maxCodeLength);
      }
    }
  }

  lemma CharSpace(c: char, text: string, a: Around)
    ensures var r := CharCandidate(c, |text + [c]|, a); r.Some? ==> SpaceCandidate(r.value, text + [c])
  {
    var grown := text + [c];
    assert grown[|grown| - 1] == c;
  }

  lemma OperatorSpace(op: string, text: string, a: Around, maxCodeLength: nat)
    requires op != []
    ensures var grown := text + op;
            var r := OperatorCandidate(op, grown, a, maxCodeLength);
      r.Some? ==> SpaceCandidate(r.value, grown)
  {
    var grown := text + op;
    var n := |grown|;
    assert grown[n - 1] == op[|op| - 1] && grown[n - |op|] == op[0];
  }

  lemma BesideBack(before: string, p: nat, after: string, b: set<char>, at: set<char>)
    requires |after| <= |before| && after == before[|before| - |after|..]
    requires Beside(before, p, b, at)
    ensures Beside(after, Back(p, |before| - |after|), b, at)
  {
  }

  lemma SplitKeepsSpace(l: Line, maxCodeLength: nat, endsLine: bool)
    requires Valid(l) && SpaceMarked(l.points, l.text)
    ensures var r := Split(l, maxCodeLength, endsLine); SpaceMarked(r.points, r.text)
  {
    var r := Split(l, maxCodeLength, endsLine);
    if r != l {
      SplitKeepsPlaces(l, maxCodeLength, endsLine);
      PlacesKeepSpace(l.text, l.points, r.text, r.points);
    }
  }

  lemma PlacesKeepSpace(before: string, p: Points, after: string, q: Points)
    requires |after| <= |before| && after == before[|before| - |after|..]
    requires SamePlaces(before, p, after, q) && SpaceMarked(p, before)
    ensures SpaceMarked(q, after)
  {
    BesideBack(before, if p.andOrPending > 0 then p.andOrPending else p.andOr, after,
               {'|', '&', 'r', 'd'}, {'|', '&', 'o', 'a', ' ', '\t'});
    BesideBack(before, if p.whitePending > 0 then p.whitePending else p.white, after,
               {')', '=', ':'}, {' ', '\t', '+', '-', '?', '=', ':'});
  }

  /** A candidate is noted on a grown line, which is then tested for a split. */
  lemma GrownKeepsSpace(b: Line, more: string, c: Option<Candidate>, a: Around, maxCodeLength: nat)
    requires Valid(b) && SpaceMarked(b.points, b.text)
    requires c.Some? ==> c.value.position <= |b.text + more| && SpaceCandidate(c.value, b.text + more)
    ensures var grown := Noted(b.(text := b.text + more), c, a, maxCodeLength);
            var r := Split(grown, maxCodeLength, a.endsLine);
      SpaceMarked(r.points, r.text)
  {
    var grown := b.(text := b.text + more);
    GrowKeepsSpace(b.points, b.text, more);
    NotedSpace(grown, c, a, maxCodeLength);
    GrownIsValid(b, more);
    NotedIsValid(grown, c, a, maxCodeLength);
    SplitKeepsSpace(Noted(grown, c, a, maxCodeLength), maxCodeLength, a.endsLine);
  }

  lemma CharKeepsSpace(l: Line, c: char, canBreakLine: bool, a: Around, limit: Option<nat>)
    requires Valid(l) && SpaceMarked(l.points, l.text)
    ensures var r := AppendChar(l, c, canBreakLine, a, limit); SpaceMarked(r.points, r.text)
  {
    var b := BrokenIf(l, canBreakLine);
    GrowKeepsSpace(b.points, b.text, [c]);
    if limit.Some? {
      CharSpace(c, b.text, a);
      GrownKeepsSpace(b, [c], CharCandidate(c, |b.text + [c]|, a), a, limit.value);
    }
  }

  lemma OperatorKeepsSpace(l: Line, op: string, canBreakLine: bool, a: Around, limit: Option<nat>)
    requires Valid(l) && SpaceMarked(l.points, l.text) && op != []
    ensures var r := AppendOperator(l, op, canBreakLine, a, limit); SpaceMarked(r.points, r.text)
  {
    var b := BrokenIf(l, canBreakLine);
    GrowKeepsSpace(b.points, b.text, op);
    if limit.Some? {
      OperatorSpace(op, b.text, a, limit.value);
      GrownKeepsSpace(b, op, OperatorCandidate(op, b.text + op, a, limit.value), a, limit.value);
    }
  }

  lemma SequenceKeepsSpace(l: Line, s: string, canBreakLine: bool, endsLine: bool, limit: Option<nat>)
    requires Valid(l) && SpaceMarked(l.points, l.text)
    ensures var r := AppendSequence(l, s, canBreakLine, endsLine, limit); SpaceMarked(r.points, r.text)
  {
    var b := BrokenIf(l, canBreakLine);
    GrowKeepsSpace(b.points, b.text, s);
    if limit.Some? {
      GrownIsValid(b, s);
      SplitKeepsSpace(b.(text := b.text + s), limit.value, endsLine);
    }
  }

  /** A pointer is noted at a blank, as all callers do. */
  predicate AtBlank(l: Line, o: Operation) {
    o.Pointer? ==> o.index < |l.text| && IsBlank(l.text[o.index])
  }

  lemma PointerKeepsSpace(l: Line, index: nat, a: Around, maxCodeLength: nat)
    requires SpaceMarked(l.points, l.text) && index < |l.text| && IsBlank(l.text[index])
    ensures var r := NotePointer(l, index, a, maxCodeLength); SpaceMarked(r.points, r.text)
  {
    NotedSpace(l, if index < l.points.white then None else Some(Candidate(White, index, index)), a, maxCodeLength);
  }

  lemma PerformKeepsSpace(j: Job, o: Operation, limit: Option<nat>)
    requires Valid(j.line) && Permitted(j.line, o) && AtBlank(j.line, o) && SpaceMarked(j.line.points, j.line.text)
    ensures var r := Perform(j, o, limit).line; SpaceMarked(r.points, r.text)
  {
    var l := j.line;
    if o.PutChar? {
      CharKeepsSpace(l, o.c, o.canBreak, o.around, limit);
    } else if o.PadSpace? {
      CharKeepsSpace(l, ' ', false, o.around, limit);
    } else if o.PutOperator? {
      OperatorKeepsSpace(l, o.op, o.canBreak, o.around, limit);
    } else if o.PutSequence? {
      SequenceKeepsSpace(l, o.s, o.canBreak, o.endsLine, limit);
    } else if o.Pointer? && limit.Some? {
      PointerKeepsSpace(l, o.index, o.around, limit.value);
    }
  }

  /** Every pointer of the run is noted at a blank. */
  predicate PointersAtBlanks(j: Job, os: seq<Operation>, limit: Option<nat>)
    requires AllPermitted(j, os, limit)
    decreases |os|
  {
    os == [] || (AtBlank(j.line, os[0]) && PointersAtBlanks(Perform(j, os[0], limit), os[1..], limit))
  }

  /** Over whole runs the logical and the white points stand beside what they were recorded for. */
  lemma {:induction false} RunKeepsSpace(j: Job, os: seq<Operation>, limit: Option<nat>)
    requires Valid(j.line) && AllPermitted(j, os, limit) && PointersAtBlanks(j, os, limit)
    requires SpaceMarked(j.line.points, j.line.text)
    ensures var r := PerformAll(j, os, limit).line; Valid(r) && SpaceMarked(r.points, r.text)
    decreases |os|
  {
    if os != [] {
      PerformIsValid(j, os[0], limit);
      PerformKeepsSpace(j, os[0], limit);
      RunKeepsSpace(Perform(j, os[0], limit), os[1..], limit);
    }
  }

  // ------------------------------------------------------------ names are whole

  predicate IsNameChar(c: char) {
    'a' <= c <= 'z' || 'A' <= c <= 'Z' || '0' <= c <= '9' || c == '_'
  }

  /** At n the text goes on with the name that it ends with. */
  predicate InName(text: string, n: nat) {
    0 < n < |text| && IsNameChar(text[n - 1]) && IsNameChar(text[n])
  }

  lemma SplitPointIsRecorded(p: Points, n: nat, maxCodeLength: nat, endsLine: bool)
    ensures var r := SplitPoint(p, n, maxCodeLength, endsLine);
      || r == 0 || r in {p.semi, p.andOr, p.comma, p.paren, p.white}
      || r in {p.semiPending, p.andOrPending, p.commaPending, p.parenPending, p.whitePending}
  {
    var pending := [p.semiPending, p.andOrPending, p.commaPending, p.parenPending, p.whitePending];
    var first := FirstPending(pending);
    assert first == 0 || first in pending;
  }

  lemma MarkedCutsNoName(p: Points, text: string, n: nat)
    requires Marked(p, text) && SpaceMarked(p, text) && 0 < n < |text|
    requires || n in {p.semi, p.comma, p.paren, p.white}
             || n in {p.semiPending, p.commaPending, p.parenPending, p.whitePending}
    ensures !InName(text, n)
  {
  }

  lemma LogicalCutsNoName(text: string, n: nat)
    requires LogicalMark(text, n) && InName(text, n)
    ensures text[n - 1] in {'r', 'd'} || text[n] in {'o', 'a'}
  {
  }

  /** No split cuts a name, except possibly at a logical point beside a letter of `or` or `and`. */
  lemma SplitCutsNoName(l: Line, maxCodeLength: nat, endsLine: bool)
    requires Valid(l) && Marked(l.points, l.text) && SpaceMarked(l.points, l.text)
    ensures var r := Split(l, maxCodeLength, endsLine);
      r != l && InName(l.text, |r.ready|) ==>
        && |r.ready| in {l.points.andOr, l.points.andOrPending}
        && (l.text[|r.ready| - 1] in {'r', 'd'} || l.text[|r.ready|] in {'o', 'a'})
  {
    var r := Split(l, maxCodeLength, endsLine);
    if r != l {
      var n := SplitPoint(l.points, |l.text|, maxCodeLength, endsLine);
      SplitPointIsRecorded(l.points, |l.text|, maxCodeLength, endsLine);
      assert r == SplitAt(l, n) && |r.ready| == n;
      if n in {l.points.andOr, l.points.andOrPending} {
        if InName(l.text, n) {
          LogicalCutsNoName(l.text, n);
        }
      } else {
        MarkedCutsNoName(l.points, l.text, n);
      }
    }
  }
}
