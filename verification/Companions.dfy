/** Which earlier header an `else`, a closing `while` or a `catch` belongs to. */
module Companions {
  import opened Basics
  import opened HeaderStacks

  lemma SnapshotAt(s: Stacks, base: seq<Header>, pending: seq<Header>)
    requires |s.temps| > 0 && s.heads == base + pending
    requires IsBase(base) && OpenBrace !in pending
    ensures Snapshot(s) == Stacks(base, DropLast(s.temps) + [Reverse(pending)])
  {
    BaseLengthIs(base, pending);
  }

  lemma PopAt(s: Stacks, base: seq<Header>, pending: seq<Header>)
    requires |s.temps| > 0 && s.heads == base + [OpenBrace] + pending
    requires OpenBrace !in pending
    ensures Pop(s) == Stacks(base, DropLast(s.temps))
  {
    BaseLengthIs(base + [OpenBrace], pending);
    assert s.heads[|base|] == OpenBrace;
    assert s.heads[..|base|] == base;
  }

  lemma {:induction false} FirstIndexAt(a: seq<Header>, x: Header, b: seq<Header>)
    requires x !in a
    ensures x in a + [x] + b && FirstIndex(a + [x] + b, x) == |a|
    ensures (a + [x] + b)[..|a| + 1] == a + [x] && (a + [x] + b)[|a| + 1..] == b
  {
    var s := a + [x] + b;
    assert s[|a|] == x;
    assert forall j :: 0 <= j < |a| ==> s[j] == a[j] && a[j] in a;
  }

  lemma ReverseAround(pre: seq<Header>, key: Header, post: seq<Header>)
    ensures Reverse(pre + [key] + post) == Reverse(post) + [key] + Reverse(pre)
    ensures Reverse([key] + post) == Reverse(post) + [key]
    ensures key in Reverse(post) <==> key in post
    ensures |Reverse(pre)| == |pre|
  {
    ReverseConcat(pre + [key], post);
    ReverseConcat(pre, [key]);
    ReverseConcat([key], post);
    assert Reverse([key]) == [key];
    assert Reverse(post) + ([key] + Reverse(pre)) == Reverse(post) + [key] + Reverse(pre);
    ReverseMembers(post, key);
    ReverseMembers(pre, key);
  }

  /** The snapshot is searched innermost first, so the innermost key is found,
      and what lies outside it comes back in its old order. */
  lemma RestackAt(s: Stacks, pre: seq<Header>, key: Header, post: seq<Header>)
    requires |s.temps| > 0 && Last(s.temps) == Reverse(pre + [key] + post)
    requires key !in post
    ensures Restack(s, key) == Stacks(s.heads + pre, DropLast(s.temps) + [Reverse([key] + post)])
    ensures RestackSize(s, key) == |pre|
  {
    ReverseAround(pre, key, post);
    FirstIndexAt(Reverse(post), key, Reverse(pre));
    ReverseTwice(pre);
  }

  /** The stacks once the statement under way has ended: by its `;`, or by the
      `}` of its body when `braced` says the body is the block being closed. */
  function Ended(m: Machine, braced: bool): Stacks
    requires Safe(m.stacks)
  {
    Step(m, if braced then Close else Semi).stacks
  }

  lemma EndedAt(m: Machine, braced: bool, base: seq<Header>, pending: seq<Header>, inner: seq<Header>)
    requires Safe(m.stacks)
    requires IsBase(base) && OpenBrace !in pending && OpenBrace !in inner
    requires m.stacks.heads == if braced then base + pending + [OpenBrace] + inner else base + pending
    ensures Ended(m, braced).heads == base
    ensures |Ended(m, braced).temps| > 0 && Last(Ended(m, braced).temps) == Reverse(pending)
  {
    if braced {
      PopIsSafe(m.stacks);
      PopAt(m.stacks, base + pending, inner);
      SnapshotAt(Pop(m.stacks), base, pending);
    } else {
      SnapshotAt(m.stacks, base, pending);
    }
  }

  lemma CompanionAt(m: Machine, h: Keyword, key: Header, base: seq<Header>, pre: seq<Header>, post: seq<Header>)
    requires Safe(m.stacks) && m.stacks.heads == base && Last(m.stacks.temps) == Reverse(pre + [key] + post)
    requires (h == Else && key == If) || (h == While && key == Do)
    requires key !in post
    ensures Step(m, Head(h)).stacks.heads == base + pre + [h]
    ensures Step(m, Head(h)).indent == m.indent + if m.closing then 0 else |pre|
  {
    RestackAt(m.stacks, pre, key, post);
  }

  /**
   * An `else` binds to the innermost `if` that is still open: everything from
   * that `if` inwards is replaced by the `else`, everything outside it returns,
   * whatever the nesting and however the statement before it ended. The `else`
   * may stand on the same line or on a later one: `later` is any machine whose
   * stacks are those after the end of the statement.
   */
  lemma ElseBindsToInnermostIf(m: Machine, braced: bool, later: Machine,
                               base: seq<Header>, pre: seq<Header>, post: seq<Header>, inner: seq<Header>)
    requires Safe(m.stacks)
    requires IsBase(base) && OpenBrace !in pre && OpenBrace !in post && OpenBrace !in inner
    requires If !in post
    requires m.stacks.heads == if braced then base + (pre + [If] + post) + [OpenBrace] + inner
                                         else base + (pre + [If] + post)
    requires later.stacks == Ended(m, braced)
    ensures Safe(later.stacks)
    ensures Step(later, Head(Else)).stacks.heads == base + pre + [Else]
    ensures Step(later, Head(Else)).indent == later.indent + if later.closing then 0 else |pre|
  {
    StepIsSafe(m, if braced then Close else Semi);
    EndedAt(m, braced, base, pre + [If] + post, inner);
    CompanionAt(later, Else, If, base, pre, post);
  }

  /** With no open `if` the `else` is pushed as it is and the rest stays forgotten. */
  lemma ElseWithoutIf(m: Machine, braced: bool, later: Machine,
                      base: seq<Header>, pending: seq<Header>, inner: seq<Header>)
    requires Safe(m.stacks)
    requires IsBase(base) && OpenBrace !in pending && OpenBrace !in inner
    requires If !in pending
    requires m.stacks.heads == if braced then base + pending + [OpenBrace] + inner else base + pending
    requires later.stacks == Ended(m, braced)
    ensures Safe(later.stacks)
    ensures Step(later, Head(Else)).stacks.heads == base + [Else]
    ensures Step(later, Head(Else)).indent == later.indent
  {
    StepIsSafe(m, if braced then Close else Semi);
    EndedAt(m, braced, base, pending, inner);
    ReverseMembers(pending, If);
  }

  /** A `while` after the body of a `do` closes the innermost open `do`. */
  lemma WhileClosesInnermostDo(m: Machine, braced: bool, later: Machine,
                               base: seq<Header>, pre: seq<Header>, post: seq<Header>, inner: seq<Header>)
    requires Safe(m.stacks)
    requires IsBase(base) && OpenBrace !in pre && OpenBrace !in post && OpenBrace !in inner
    requires Do !in post
    requires m.stacks.heads == if braced then base + (pre + [Do] + post) + [OpenBrace] + inner
                                         else base + (pre + [Do] + post)
    requires later.stacks == Ended(m, braced)
    ensures Safe(later.stacks)
    ensures Step(later, Head(While)).stacks.heads == base + pre + [While]
    ensures Step(later, Head(While)).indent == later.indent + if later.closing then 0 else |pre|
  {
    StepIsSafe(m, if braced then Close else Semi);
    EndedAt(m, braced, base, pre + [Do] + post, inner);
    CompanionAt(later, While, Do, base, pre, post);
  }

  // ------------------------------------------------- statements and the stacks

  /** Where a statement starts: the headers hs of the current block, on top of base. */
  predicate Frame(base: seq<Header>, hs: seq<Header>) {
    IsBase(base) && OpenBrace !in hs && Try !in hs
  }

  predicate NoDo(s: Stacks)
    requires |s.temps| > 0
  {
    Do !in Last(s.temps)
  }

  /** The stacks after a statement that leaves the headers `pending`. */
  function Finished(base: seq<Header>, pending: seq<Header>, prefix: seq<seq<Header>>): Stacks {
    Stacks(base, prefix + [Reverse(pending)])
  }

  lemma ParseOne(m: Machine, t: Token)
    requires Safe(m.stacks)
    ensures Parse(m, [t]) == Step(m, t)
  {
    StepIsSafe(m, t);
    assert [t][1..] == [];
  }

  lemma CompanionStep(p: Machine, h: Keyword, key: Header, post: seq<Header>, base: seq<Header>, hs: seq<Header>,
                      prefix: seq<seq<Header>>)
    requires Safe(p.stacks) && p.stacks == Finished(base, hs + ([key] + post), prefix)
    requires h != If && Companion(p.stacks, h) == Some(key) && key !in post
    ensures var q := Step(p, Head(h));
            && Safe(q.stacks) && q.stacks == Stacks(base + hs + [h], prefix + [Reverse([key] + post)])
            && q == p.(stacks := q.stacks, indent := p.indent + if p.closing then 0 else |hs|, last := Some(h))
  {
    StepIsSafe(p, Head(h));
    ConcatAssoc(hs, [key], post);
    RestackAt(p.stacks, hs, key, post);
    assert DropLast(p.stacks.temps) == prefix;
  }
}
