/** The outer beautifier with its stacks of clones, as objects that are moved and copied. */
module SourceBeautifierObject {
  import opened Basics
  import opened HeaderStacks
  import opened Preprocessor
  import opened BeautifierObject

  /** The objects hold these states, one for one. */
  ghost predicate Holds(bs: seq<Beautifier>, states: seq<State>)
    reads bs
  {
    |bs| == |states| && forall i :: 0 <= i < |bs| ==> bs[i].Contents() == states[i]
  }

  /** No clone is on a stack twice, and the outer beautifier is on none. */
  ghost predicate Distinct(own: Beautifier, waiting: seq<Beautifier>, active: seq<Beautifier>) {
    && own !in waiting && own !in active
    && (forall i, j :: 0 <= i < j < |waiting| ==> waiting[i] != waiting[j])
    && (forall i, j :: 0 <= i < j < |active| ==> active[i] != active[j])
    && (forall i, j :: 0 <= i < |waiting| && 0 <= j < |active| ==> waiting[i] != active[j])
  }

  lemma HoldsPush(bs: seq<Beautifier>, states: seq<State>, b: Beautifier, s: State)
    requires Holds(bs, states) && b.Contents() == s
    ensures Holds(bs + [b], states + [s])
  {
  }

  lemma DistinctPush(own: Beautifier, waiting: seq<Beautifier>, active: seq<Beautifier>, b: Beautifier)
    requires Distinct(own, waiting, active) && b != own && b !in waiting && b !in active
    ensures Distinct(own, waiting + [b], active)
    ensures Distinct(own, waiting, active + [b])
  {
  }

  lemma DistinctTruncate(own: Beautifier, waiting: seq<Beautifier>, active: seq<Beautifier>, n: nat)
    requires Distinct(own, waiting, active)
    ensures Distinct(own, Truncate(waiting, n), active)
    ensures Distinct(own, waiting, Truncate(active, n))
  {
  }

  lemma DistinctMove(own: Beautifier, waiting: seq<Beautifier>, active: seq<Beautifier>)
    requires Distinct(own, waiting, active) && waiting != []
    ensures Distinct(own, DropLast(waiting), active + [Last(waiting)])
  {
    DistinctTruncate(own, waiting, active, |waiting| - 1);
    DistinctPush(own, DropLast(waiting), active, Last(waiting));
  }

  method PopTo(stack: seq<Beautifier>, stackLength: nat) returns (rest: seq<Beautifier>)
    ensures rest == Truncate(stack, stackLength)
  {
    rest := stack;
    while |rest| > stackLength
      invariant rest <= stack
      invariant |rest| >= stackLength || rest == stack
    {
      rest := DropLast(rest);
    }
  }

  class SourceBeautifier {
    var own: Beautifier
    var waitingBeautifierStack: seq<Beautifier>
    var activeBeautifierStack: seq<Beautifier>
    var waitingBeautifierStackLengthStack: seq<nat>
    var activeBeautifierStackLengthStack: seq<nat>
    ghost var model: Clones     // the states of all these objects

    ghost predicate Valid()
      reads this, own, waitingBeautifierStack, activeBeautifierStack
    {
      && Distinct(own, waitingBeautifierStack, activeBeautifierStack)
      && own.Contents() == model.own
      && Holds(waitingBeautifierStack, model.waiting)
      && Holds(activeBeautifierStack, model.active)
      && waitingBeautifierStackLengthStack == model.waitingLengths
      && activeBeautifierStackLengthStack == model.activeLengths
    }

    /** This object and all the beautifiers it holds. */
    ghost function Objects(): set<object>
      reads this
    {
      {this, own} + (set b | b in waitingBeautifierStack) + (set b | b in activeBeautifierStack)
    }

    constructor ()
      ensures Valid() && fresh(Objects())
      ensures model == Clones(Initial(), [], [], [], [])
    {
      own := new Beautifier();
      waitingBeautifierStack, activeBeautifierStack := [], [];
      waitingBeautifierStackLengthStack, activeBeautifierStackLengthStack := [], [];
      model := Clones(InitialState(), [], [], [], []);
    }

    /** Format a line of code with the clone in charge, or with this beautifier. */
    method BeautifyCode(tokens: seq<Token>) returns (indent: nat)
      requires Valid()
      modifies `model, own, activeBeautifierStack
      ensures Valid() && Objects() == old(Objects())
      ensures model == Process(old(model), Code(tokens))
      ensures Some(indent) == Output(old(model), Code(tokens))
    {
      if activeBeautifierStack != [] {
        indent := BeautifyWithClone(tokens);
      } else {
        indent := own.BeautifyLine(tokens);
        model := Process(model, Code(tokens));
      }
    }

    /** Delegate the line to the last active clone. */
    method BeautifyWithClone(tokens: seq<Token>) returns (indent: nat)
      requires Valid() && activeBeautifierStack != []
      modifies `model, activeBeautifierStack
      ensures Valid() && Objects() == old(Objects())
      ensures model == Process(old(model), Code(tokens))
      ensures Some(indent) == Output(old(model), Code(tokens))
    {
      var clone := Last(activeBeautifierStack);
      assert clone in activeBeautifierStack;
      indent := clone.BeautifyLine(tokens);
      model := Process(model, Code(tokens));
    }

    method OpenConditional()
      requires Valid()
      modifies this
      ensures Valid() && own == old(own)
      ensures fresh(Objects() - old(Objects()))
      ensures activeBeautifierStack == old(activeBeautifierStack)
      ensures exists clone: Beautifier ::
                fresh(clone) && waitingBeautifierStack == old(waitingBeautifierStack) + [clone]
      ensures model == Process(old(model), IfLine)
    {
      waitingBeautifierStackLengthStack := waitingBeautifierStackLengthStack + [|waitingBeautifierStack|];
      activeBeautifierStackLengthStack := activeBeautifierStackLengthStack + [|activeBeautifierStack|];
      var source := if Last(activeBeautifierStackLengthStack) == 0 then own else Last(activeBeautifierStack);
      var clone := new Beautifier.Copy(source);
      DistinctPush(own, waitingBeautifierStack, activeBeautifierStack, clone);
      HoldsPush(waitingBeautifierStack, model.waiting, clone, Current(model));
      waitingBeautifierStack := waitingBeautifierStack + [clone];
      model := Process(model, IfLine);
    }

    /** Move the waiting clone to the active stack. */
    method TakeLastBranch()
      requires Valid()
      modifies this
      ensures Valid() && own == old(own)
      ensures fresh(Objects() - old(Objects()))
      ensures if old(waitingBeautifierStack) == []
              then waitingBeautifierStack == [] && activeBeautifierStack == old(activeBeautifierStack)
              else waitingBeautifierStack == DropLast(old(waitingBeautifierStack))
                   && activeBeautifierStack == old(activeBeautifierStack) + [Last(old(waitingBeautifierStack))]
      ensures model == Process(old(model), ElseLine)
    {
      if waitingBeautifierStack != [] {
        DistinctMove(own, waitingBeautifierStack, activeBeautifierStack);
        activeBeautifierStack := activeBeautifierStack + [Last(waitingBeautifierStack)];
        waitingBeautifierStack := DropLast(waitingBeautifierStack);
        model := Process(model, ElseLine);
      }
    }

    /** Put a copy of the waiting clone on the active stack. */
    method TakeBranch()
      requires Valid()
      modifies this
      ensures Valid() && own == old(own)
      ensures fresh(Objects() - old(Objects()))
      ensures waitingBeautifierStack == old(waitingBeautifierStack)
      ensures if waitingBeautifierStack == [] then activeBeautifierStack == old(activeBeautifierStack)
              else exists clone: Beautifier ::
                     fresh(clone) && activeBeautifierStack == old(activeBeautifierStack) + [clone]
      ensures model == Process(old(model), ElifLine)
    {
      if waitingBeautifierStack != [] {
        var clone := new Beautifier.Copy(Last(waitingBeautifierStack));
        DistinctPush(own, waitingBeautifierStack, activeBeautifierStack, clone);
        activeBeautifierStack := activeBeautifierStack + [clone];
        model := Process(model, ElifLine);
      }
    }

    /** Pop the waiting clones to their size at the matching `#if`. */
    method CloseWaiting()
      requires Valid()
      modifies `model, `waitingBeautifierStack, `waitingBeautifierStackLengthStack
      ensures Valid() && model == EndWaiting(old(model))
      ensures waitingBeautifierStack <= old(waitingBeautifierStack)
    {
      if waitingBeautifierStackLengthStack != [] {
        DistinctTruncate(own, waitingBeautifierStack, activeBeautifierStack, Last(waitingBeautifierStackLengthStack));
        waitingBeautifierStack := PopTo(waitingBeautifierStack, Last(waitingBeautifierStackLengthStack));
        waitingBeautifierStackLengthStack := DropLast(waitingBeautifierStackLengthStack);
        model := EndWaiting(model);
      }
    }

    /** Pop the active clones to their size at the matching `#if`. */
    method CloseActive()
      requires Valid()
      modifies `model, `activeBeautifierStack, `activeBeautifierStackLengthStack
      ensures Valid() && model == EndActive(old(model))
      ensures activeBeautifierStack <= old(activeBeautifierStack)
    {
      if activeBeautifierStackLengthStack != [] {
        DistinctTruncate(own, waitingBeautifierStack, activeBeautifierStack, Last(activeBeautifierStackLengthStack));
        activeBeautifierStack := PopTo(activeBeautifierStack, Last(activeBeautifierStackLengthStack));
        activeBeautifierStackLengthStack := DropLast(activeBeautifierStackLengthStack);
        model := EndActive(model);
      }
    }

    /** Pop both stacks to their sizes at the matching `#if`. */
    method CloseConditional()
      requires Valid()
      modifies this
      ensures Valid() && own == old(own)
      ensures fresh(Objects() - old(Objects()))
      ensures waitingBeautifierStack <= old(waitingBeautifierStack)
      ensures activeBeautifierStack <= old(activeBeautifierStack)
      ensures model == Process(old(model), EndifLine)
    {
      CloseWaiting();
      CloseActive();
    }

    /** One line of a file: code is formatted, a directive is printed as it stands. */
    method ProcessLine(line: Line) returns (out: Option<nat>)
      requires Valid()
      modifies Objects()
      ensures Valid() && fresh(Objects() - old(Objects()))
      ensures model == Process(old(model), line) && out == Output(old(model), line)
    {
      if line.Code? {
        var indent := BeautifyCode(line.tokens);
        return Some(indent);
      }
      if line.IfLine? {
        OpenConditional();
      } else if line.ElseLine? {
        TakeLastBranch();
      } else if line.ElifLine? {
        TakeBranch();
      } else {
        CloseConditional();
      }
      out := None;
    }

    /** All lines of a file, one after the other. */
    method ProcessFile(lines: seq<Line>) returns (outs: seq<Option<nat>>)
      requires Valid()
      modifies Objects()
      ensures Valid() && fresh(Objects() - old(Objects()))
      ensures model == ProcessAll(old(model), lines) && outs == Outputs(old(model), lines)
    {
      outs := [];
      var i := 0;
      while i < |lines|
        invariant 0 <= i <= |lines| && Valid() && fresh(Objects() - old(Objects()))
        invariant ProcessAll(model, lines[i..]) == ProcessAll(old(model), lines)
        invariant outs + Outputs(model, lines[i..]) == Outputs(old(model), lines)
      {
        assert lines[i..][0] == lines[i] && lines[i..][1..] == lines[i + 1..];
        ghost var before, rest := outs, Outputs(Process(model, lines[i]), lines[i + 1..]);
        var out := ProcessLine(lines[i]);
        outs := outs + [out];
        ConcatAssoc(before, [out], rest);
        i := i + 1;
      }
      assert outs + [] == outs;
    }

    /** A whole well-nested text, from a new object: what the recursive semantics prints. */
    static method FormatText(t: Text) returns (outs: seq<Option<nat>>)
      ensures outs == Printout(t, Initial())
    {
      FileRefines(t);
      var formatter := new SourceBeautifier();
      outs := formatter.ProcessFile(Lines(t));
    }
  }
}
