/** The formatter's line fields, with the appends, breaks and splits that change them in place. */
module LineSplitterObject {
  import opened Basics
  import opened LineSplitting
  import opened LineSplittingProofs

  class LineSplitter {
    const maxCodeLength: Option<nat>
    var formattedLine: string
    var readyFormattedLine: string
    var isLineReady: bool
    var isInLineBreak: bool
    var shouldKeepLineUnbroken: bool
    var maxSemi: nat
    var maxAndOr: nat
    var maxComma: nat
    var maxParen: nat
    var maxWhiteSpace: nat
    var maxSemiPending: nat
    var maxAndOrPending: nat
    var maxCommaPending: nat
    var maxParenPending: nat
    var maxWhiteSpacePending: nat

    ghost function SplitPoints(): Points
      reads this
    {
      Points(maxSemi, maxAndOr, maxComma, maxParen, maxWhiteSpace,
             maxSemiPending, maxAndOrPending, maxCommaPending, maxParenPending, maxWhiteSpacePending)
    }

    ghost function State(): Line
      reads this
    {
      Line(formattedLine, readyFormattedLine, isLineReady, isInLineBreak, shouldKeepLineUnbroken, SplitPoints())
    }

    constructor (limit: Option<nat>)
      ensures State() == Line([], [], false, false, false, NONE) && maxCodeLength == limit
    {
      maxCodeLength := limit;
      formattedLine, readyFormattedLine, isLineReady, isInLineBreak := [], [], false, false;
      shouldKeepLineUnbroken := false;
      maxSemi, maxAndOr, maxComma, maxParen, maxWhiteSpace := 0, 0, 0, 0, 0;
      maxSemiPending, maxAndOrPending, maxCommaPending, maxParenPending, maxWhiteSpacePending := 0, 0, 0, 0, 0;
    }

    method ClearFormattedLineSplitPoints()
      modifies `maxSemi, `maxAndOr, `maxComma, `maxParen, `maxWhiteSpace
      modifies `maxSemiPending, `maxAndOrPending, `maxCommaPending, `maxParenPending, `maxWhiteSpacePending
      ensures SplitPoints() == NONE
    {
      maxSemi, maxAndOr, maxComma, maxParen, maxWhiteSpace := 0, 0, 0, 0, 0;
      maxSemiPending, maxAndOrPending, maxCommaPending, maxParenPending, maxWhiteSpacePending := 0, 0, 0, 0, 0;
    }

    method BreakLine(isSplitLine: bool)
      modifies this
      ensures State() == if isSplitLine then Break(old(State())).(points := old(SplitPoints())) else Break(old(State()))
    {
      isLineReady := true;
      isInLineBreak := false;
      readyFormattedLine := formattedLine;
      formattedLine := [];
      if !isSplitLine {
        ClearFormattedLineSplitPoints();
      }
    }

    /** Record a place within the code length, or as pending beyond it. */
    method RecordPoint(kind: Kind, position: nat, reach: nat, limit: nat)
      modifies `maxSemi, `maxAndOr, `maxComma, `maxParen, `maxWhiteSpace
      modifies `maxSemiPending, `maxAndOrPending, `maxCommaPending, `maxParenPending, `maxWhiteSpacePending
      ensures SplitPoints() == Record(old(SplitPoints()), Candidate(kind, position, reach), limit)
    {
      var within := reach <= limit;
      match kind {
        case Semi => if within { maxSemi := position; } else { maxSemiPending := position; }
        case AndOr => if within { maxAndOr := position; } else { maxAndOrPending := position; }
        case Comma => if within { maxComma := position; } else { maxCommaPending := position; }
        case Paren => if within { maxParen := position; } else { maxParenPending := position; }
        case White => if within { maxWhiteSpace := position; } else { maxWhiteSpacePending := position; }
      }
    }

    /** A new source line, or a brace that opens or closes a block, ends the refusal. */
    method ReleaseLine()
      modifies `shouldKeepLineUnbroken
      ensures State() == old(State()).(keepUnbroken := false)
    {
      shouldKeepLineUnbroken := false;
    }

    /** Once it refuses for a block or an array, it refuses until the line is released. */
    method IsOkToSplitFormattedLine(a: Around) returns (ok: bool)
      modifies `shouldKeepLineUnbroken
      modifies `maxSemi, `maxAndOr, `maxComma, `maxParen, `maxWhiteSpace
      modifies `maxSemiPending, `maxAndOrPending, `maxCommaPending, `maxParenPending, `maxWhiteSpacePending
      ensures ok <==> IsOkToSplit(old(State()), a)
      ensures State() == Checked(old(State()), a) && (ok ==> State() == old(State()))
      ensures !ok ==> a.inUnsplittable || forall later :: !IsOkToSplit(State(), later)
    {
      if shouldKeepLineUnbroken || a.inUnsplittable {
        return false;
      }
      if !IsOkToBreakBlock(a.brace, a.breakOneLineBlocks) && a.currentChar != '{' {
        shouldKeepLineUnbroken := true;
        ClearFormattedLineSplitPoints();
        return false;
      }
      if a.brace.isArray {
        shouldKeepLineUnbroken := true;
        if !a.brace.isArrayNis {
          ClearFormattedLineSplitPoints();
        }
        return false;
      }
      return true;
    }

    method UpdateFormattedLineSplitPoints(c: char, a: Around, limit: nat)
      requires |formattedLine| > 0
      modifies `shouldKeepLineUnbroken
      modifies `maxSemi, `maxAndOr, `maxComma, `maxParen, `maxWhiteSpace
      modifies `maxSemiPending, `maxAndOrPending, `maxCommaPending, `maxParenPending, `maxWhiteSpacePending
      ensures State() == Noted(old(State()), CharCandidate(c, |formattedLine|, a), a, limit)
    {
      var ok := IsOkToSplitFormattedLine(a);
      if !ok {
        return;
      }
      var n := |formattedLine|;
      if a.nextChar == '/' || NearBrace(c, a) || NearBracket(c, a) {
        return;
      }
      if IsBlank(c) {
        if a.nextChar != ')' && a.nextChar != '(' && a.nextChar != '/' && a.nextChar != ':'
           && a.currentChar != ')' && a.currentChar != '(' && a.previousNonBlank != '('
           && !(a.nextChar == '*' && a.alignedPointer) && !(a.nextChar == '&' && a.alignedReference) {
          RecordPoint(White, n - 1, n - 1, limit);
        }
      } else if c == ')' {
        if a.nextChar != ')' && a.nextChar != ' ' && a.nextChar != ';' && a.nextChar != ',' && a.nextChar != '.'
           && !(a.nextChar == '-' && a.arrowFollows) {
          RecordPoint(White, n, n, limit);
        }
      } else if c == ',' {
        RecordPoint(Comma, n, n, limit);
      } else if c == '(' {
        if a.nextChar != ')' && a.nextChar != '(' && a.nextChar != '"' && a.nextChar != '\'' {
          var parenNum := n;
          if a.previousNonBlank != ' ' && a.afterOperator {
            parenNum := n - 1;
          }
          RecordPoint(Paren, parenNum, n, limit);
        }
      } else if c == ';' {
        if a.nextChar != ' ' && a.nextChar != '}' && a.nextChar != '/' {
          RecordPoint(Semi, n, n, limit);
        }
      }
    }

    method UpdateFormattedLineSplitPointsOperator(op: string, a: Around, limit: nat)
      requires 0 < |op| <= |formattedLine|
      modifies `shouldKeepLineUnbroken
      modifies `maxSemi, `maxAndOr, `maxComma, `maxParen, `maxWhiteSpace
      modifies `maxSemiPending, `maxAndOrPending, `maxCommaPending, `maxParenPending, `maxWhiteSpacePending
      ensures State() == Noted(old(State()), OperatorCandidate(op, formattedLine, a, limit), a, limit)
    {
      var ok := IsOkToSplitFormattedLine(a);
      if !ok {
        return;
      }
      var n := |formattedLine|;
      if a.nextChar == '/' {
        return;
      }
      if op in {"||", "&&", "or", "and"} {
        if a.breakAfterLogical {
          RecordPoint(AndOr, n, n, limit);
        } else {
          var sequenceLength := |op|;
          if n > sequenceLength && IsBlank(formattedLine[n - sequenceLength - 1]) {
            sequenceLength := sequenceLength + 1;
          }
          RecordPoint(AndOr, n - sequenceLength, n - sequenceLength, limit);
        }
      } else if op in {"==", "!=", ">=", "<="} {
        RecordPoint(White, n, n, limit);
      } else if op in {"+", "-", "?"} {
        if a.charBefore.Some? && !(op != "?" && a.inExponent)
           && (a.legalBefore || a.charBefore.value in {')', ']', '"'}) {
          RecordPoint(White, n - 1, n - 1, limit);
        }
      } else if op in {"=", ":"} {
        var splitPoint := n - 1;
        if n < limit {
          splitPoint := n;
        }
        if a.previousNonBlank == ']' {
          RecordPoint(White, splitPoint, n - 1, limit);
        } else if a.charBefore.Some? && (a.legalBefore || a.charBefore.value in {')', ']'}) {
          RecordPoint(White, splitPoint, n, limit);
        }
      }
    }

    method UpdateFormattedLineSplitPointsPointerOrReference(index: nat, a: Around, limit: nat)
      requires index < |formattedLine|
      modifies this
      ensures State() == NotePointer(old(State()), index, a, limit)
    {
      var ok := IsOkToSplitFormattedLine(a);
      if !ok || index < maxWhiteSpace {
        return;
      }
      RecordPoint(White, index, index, limit);
    }

    method FindFormattedLineSplitPoint(limit: nat, endsLine: bool) returns (splitPoint: nat)
      ensures splitPoint == SplitPoint(SplitPoints(), |formattedLine|, limit, endsLine)
    {
      splitPoint := maxSemi;
      if maxAndOr >= 10 {
        splitPoint := maxAndOr;
      }
      if splitPoint < 10 {
        splitPoint := maxWhiteSpace;
        if maxParen > splitPoint || 10 * maxParen >= 7 * limit {
          splitPoint := maxParen;
        }
        if maxComma > splitPoint || 10 * maxComma >= 3 * limit {
          splitPoint := maxComma;
        }
      }
      if splitPoint < 10 {
        splitPoint := FindPending();
      } else if |formattedLine| > splitPoint && |formattedLine| - splitPoint > limit {
        if endsLine {
          if maxWhiteSpace > splitPoint + 3 {
            splitPoint := maxWhiteSpace;
          }
          if maxParen > splitPoint {
            splitPoint := maxParen;
          }
        }
      }
    }

    /** The first pending point, or 0. */
    method FindPending() returns (splitPoint: nat)
      ensures splitPoint == FirstPending(
        [maxSemiPending, maxAndOrPending, maxCommaPending, maxParenPending, maxWhiteSpacePending])
    {
      var found := false;
      splitPoint := 0;
      if maxSemiPending > 0 {
        found, splitPoint := true, maxSemiPending;
      }
      if maxAndOrPending > 0 && (!found || maxAndOrPending < splitPoint) {
        found, splitPoint := true, maxAndOrPending;
      }
      if maxCommaPending > 0 && (!found || maxCommaPending < splitPoint) {
        found, splitPoint := true, maxCommaPending;
      }
      if maxParenPending > 0 && (!found || maxParenPending < splitPoint) {
        found, splitPoint := true, maxParenPending;
      }
      if maxWhiteSpacePending > 0 && (!found || maxWhiteSpacePending < splitPoint) {
        found, splitPoint := true, maxWhiteSpacePending;
      }
      SmallestIsFirstPending(
        [maxSemiPending, maxAndOrPending, maxCommaPending, maxParenPending, maxWhiteSpacePending], splitPoint);
    }

    /** Move the points that are not pending back by a cut. */
    method MovePointsBack(n: nat)
      modifies `maxSemi, `maxAndOr, `maxComma, `maxParen, `maxWhiteSpace
      ensures maxSemi == Back(old(maxSemi), n) && maxAndOr == Back(old(maxAndOr), n)
      ensures maxComma == Back(old(maxComma), n) && maxParen == Back(old(maxParen), n)
      ensures maxWhiteSpace == Back(old(maxWhiteSpace), n)
    {
      maxAndOr := if maxAndOr > n then maxAndOr - n else 0;
      maxSemi := if maxSemi > n then maxSemi - n else 0;
      maxComma := if maxComma > n then maxComma - n else 0;
      maxParen := if maxParen > n then maxParen - n else 0;
      maxWhiteSpace := if maxWhiteSpace > n then maxWhiteSpace - n else 0;
    }

    /** Move the points back by a cut; pending points take over. */
    method AdjustSplitPoints(n: nat)
      modifies `maxSemi, `maxAndOr, `maxComma, `maxParen, `maxWhiteSpace
      modifies `maxSemiPending, `maxAndOrPending, `maxCommaPending, `maxParenPending, `maxWhiteSpacePending
      ensures SplitPoints() == Shifted(old(SplitPoints()), n)
    {
      MovePointsBack(n);
      maxSemi, maxAndOr := Adopted(maxSemi, maxSemiPending, n), Adopted(maxAndOr, maxAndOrPending, n);
      maxComma, maxParen := Adopted(maxComma, maxCommaPending, n), Adopted(maxParen, maxParenPending, n);
      maxWhiteSpace := Adopted(maxWhiteSpace, maxWhiteSpacePending, n);
      maxSemiPending, maxAndOrPending, maxCommaPending, maxParenPending, maxWhiteSpacePending := 0, 0, 0, 0, 0;
    }

    /** A pending point, moved back, if there is one. */
    static function Adopted(current: nat, pending: nat, n: nat): nat {
      if pending > 0 then Back(pending, n) else current
    }

    /** Erase the blanks at the front of the rest of a split line. */
    method DropLeadingBlanks()
      requires maxSemiPending == maxAndOrPending == maxCommaPending == maxParenPending == maxWhiteSpacePending == 0
      requires |formattedLine| > 0
      modifies this
      ensures var k := FirstText(old(formattedLine));
              State() == old(State()).(text := old(formattedLine)[k..],
                points := if k == |old(formattedLine)| then NONE else Shifted(old(SplitPoints()), k))
    {
      var firstText := FirstText(formattedLine);
      if firstText == |formattedLine| {
        formattedLine := [];
        ClearFormattedLineSplitPoints();
      } else if firstText > 0 {
        formattedLine := formattedLine[firstText..];
        MovePointsBack(firstText);
      }
    }

    method TestForTimeToSplitFormattedLine(limit: nat, endsLine: bool)
      modifies this
      ensures State() == Split(old(State()), limit, endsLine)
    {
      if |formattedLine| > limit && !isLineReady {
        var splitPoint := FindFormattedLineSplitPoint(limit, endsLine);
        if splitPoint > 0 && splitPoint < |formattedLine| {
          var splitLine := formattedLine[splitPoint..];
          formattedLine := formattedLine[..splitPoint];
          BreakLine(true);
          formattedLine := splitLine;
          AdjustSplitPoints(splitPoint);
          DropLeadingBlanks();
        }
      }
    }

    method AppendCharacter(c: char, canBreakLine: bool, a: Around)
      modifies this
      ensures State() == AppendChar(old(State()), c, canBreakLine, a, maxCodeLength)
    {
      if canBreakLine && isInLineBreak {
        BreakLine(false);
      }
      formattedLine := formattedLine + [c];
      if maxCodeLength.Some? {
        var ok := IsOkToSplitFormattedLine(a);
        if ok {
          UpdateFormattedLineSplitPoints(c, a, maxCodeLength.value);
        }
        TestForTimeToSplitFormattedLine(maxCodeLength.value, a.endsLine);
      }
    }

    method AppendText(s: string, canBreakLine: bool, endsLine: bool)
      modifies this
      ensures State() == AppendSequence(old(State()), s, canBreakLine, endsLine, maxCodeLength)
    {
      if canBreakLine && isInLineBreak {
        BreakLine(false);
      }
      formattedLine := formattedLine + s;
      if maxCodeLength.Some? {
        TestForTimeToSplitFormattedLine(maxCodeLength.value, endsLine);
      }
    }

    method AppendOperatorText(op: string, canBreakLine: bool, a: Around)
      requires op != []
      modifies this
      ensures State() == AppendOperator(old(State()), op, canBreakLine, a, maxCodeLength)
    {
      if canBreakLine && isInLineBreak {
        BreakLine(false);
      }
      formattedLine := formattedLine + op;
      if maxCodeLength.Some? {
        var ok := IsOkToSplitFormattedLine(a);
        if ok {
          UpdateFormattedLineSplitPointsOperator(op, a, maxCodeLength.value);
        }
        TestForTimeToSplitFormattedLine(maxCodeLength.value, a.endsLine);
      }
    }

    method AppendPad(a: Around)
      modifies this
      ensures State() == AppendSpacePad(old(State()), a, maxCodeLength)
    {
      if formattedLine != [] && !IsBlank(Last(formattedLine)) {
        formattedLine := formattedLine + [' '];
        if maxCodeLength.Some? {
          var ok := IsOkToSplitFormattedLine(a);
          if ok {
            UpdateFormattedLineSplitPoints(' ', a, maxCodeLength.value);
          }
          TestForTimeToSplitFormattedLine(maxCodeLength.value, a.endsLine);
        }
      }
    }

    /** The next append that may break the line does so. */
    method RegisterLineBreak()
      modifies `isInLineBreak
      ensures State() == old(State()).(isInLineBreak := true)
    {
      isInLineBreak := true;
    }

    /** Hand out the line that waits; then the line may be split again. */
    method Collect() returns (line: Option<string>)
      modifies `isLineReady
      ensures line == if old(isLineReady) then Some(old(readyFormattedLine)) else None
      ensures State() == old(State()).(isReady := false)
    {
      line := if isLineReady then Some(readyFormattedLine) else None;
      isLineReady := false;
    }

    /** One operation; a line that is collected is added to the lines. */
    method Do(o: Operation, lines: seq<string>) returns (collected: seq<string>)
      requires Permitted(State(), o)
      modifies this
      ensures Job(State(), collected) == Perform(Job(old(State()), lines), o, maxCodeLength)
    {
      collected := lines;
      match o {
        case PutChar(c, b, a) => AppendCharacter(c, b, a);
        case PutSequence(t, b, e) => AppendText(t, b, e);
        case PutOperator(op, b, a) => AppendOperatorText(op, b, a);
        case PadSpace(a) => AppendPad(a);
        case RegisterBreak => RegisterLineBreak();
        case BreakNow => BreakLine(false);
        case Pointer(i, a) =>
          if maxCodeLength.Some? {
            UpdateFormattedLineSplitPointsPointerOrReference(i, a, maxCodeLength.value);
          }
        case Collect =>
          var line := Collect();
          if line.Some? {
            collected := lines + [line.value];
          }
        case Release => ReleaseLine();
      }
    }

    /** Any run of operations, with the lines it hands out. */
    method Run(os: seq<Operation>) returns (lines: seq<string>)
      requires AllPermitted(Job(State(), []), os, maxCodeLength)
      modifies this
      ensures Job(State(), lines) == PerformAll(Job(old(State()), []), os, maxCodeLength)
    {
      lines := [];
      var i := 0;
      while i < |os|
        invariant 0 <= i <= |os| && AllPermitted(Job(State(), lines), os[i..], maxCodeLength)
        invariant PerformAll(Job(State(), lines), os[i..], maxCodeLength)
               == PerformAll(Job(old(State()), []), os, maxCodeLength)
      {
        assert os[i..][0] == os[i] && os[i..][1..] == os[i + 1..];
        lines := Do(os[i], lines);
        i := i + 1;
      }
    }
  }

  lemma {:induction false} SmallestIsFirstPending(ps: seq<nat>, r: nat)
    requires r == 0 || r in ps
    requires forall p :: p in ps && p > 0 ==> 0 < r <= p
    ensures r == FirstPending(ps)
  {
    var f := FirstPending(ps);
    if f > 0 {
      assert f in ps;
    }
  }
}
