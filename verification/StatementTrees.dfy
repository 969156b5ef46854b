/**
 * Statement trees, the lines they are laid out on, and the theorem that the
 * two-stack machine indents every line by the nesting depth of what it prints.
 *
 * A tree carries its layout: whether a brace is attached to its header line,
 * whether a block is one line, whether an `else`, `while`
 * or `catch` follows the closing brace on the same line, whether `else if` is
 * one line, and whether a simple body follows its header on the same line.
 */
module StatementTrees {
  import opened HeaderStacks

  type LoopWord = h: Header | h == For || h == While || h == Switch witness For

  datatype Stmt =
    | Simple(inline: bool)
    | Label(isDefault: bool)
    | Block(attached: bool, items: Stmts)
    | OneLiner(attached: bool, items: Stmts)    // a block on one line
    | Cond(thn: Stmt)
    | CondElse(thn: Stmt, cuddled: bool, chained: bool, els: Stmt)
    | Loop(head: LoopWord, body: Stmt)
    | DoLoop(body: Stmt, cuddled: bool)
    | Guarded(body: Stmt, handlers: Handlers)   // try

  datatype Stmts = Nil | Cons(first: Stmt, rest: Stmts)

  datatype Handlers = NoHandler | Handler(cuddled: bool, body: Stmt, rest: Handlers)

  /** One line of output: its tokens and the nesting depth of its node. */
  datatype Printed = Printed(tokens: seq<Token>, depth: int)

  /** The statement ends in an `if` that a following `else` would bind to. */
  predicate EndsInOpenIf(x: Stmt) {
    match x
    case Cond(_) => true
    case CondElse(_, _, _, e) => EndsInOpenIf(e)
    case Loop(_, b) => EndsInOpenIf(b)
    case _ => false
  }

  /** The trees of the C grammar: labels stand between statements of a block,
      `try` and `catch` guard blocks, and no `else` follows an open `if`. */
  predicate WellFormed(x: Stmt) {
    match x
    case Simple(_) => true
    case Label(_) => true
    case Block(_, b) => AllWellFormed(b)
    case OneLiner(_, b) => AllInlinable(b) && FitsAll(b, false) && GainAll(b, false) == 0
    case Cond(t) => IsBody(t) && WellFormed(t)
    case CondElse(t, _, _, e) => IsBody(t) && IsBody(e) && WellFormed(t) && WellFormed(e) && !EndsInOpenIf(t)
    case Loop(_, b) => IsBody(b) && WellFormed(b)
    case DoLoop(b, _) => IsBody(b) && WellFormed(b)
    case Guarded(b, hs) => IsBraced(b) && WellFormed(b) && hs.Handler? && HandlersWellFormed(hs)
  }

  predicate IsBody(x: Stmt) { !x.Label? }

  predicate IsBraced(x: Stmt) { x.Block? || x.OneLiner? }

  predicate AllWellFormed(xs: Stmts) {
    match xs
    case Nil => true
    case Cons(x, rest) => WellFormed(x) && AllWellFormed(rest)
  }

  predicate HandlersWellFormed(hs: Handlers) {
    match hs
    case NoHandler => true
    case Handler(_, b, rest) => IsBraced(b) && WellFormed(b) && HandlersWellFormed(rest)
  }

  // ------------------------------------------------- statements on one line

  /** Statements of the grammar without labels. */
  predicate Inlinable(x: Stmt) {
    match x
    case Simple(_) => true
    case Label(_) => false
    case Block(_, b) => AllInlinable(b)
    case OneLiner(_, _) => false
    case Cond(t) => Inlinable(t)
    case CondElse(t, _, _, e) => Inlinable(t) && Inlinable(e) && !EndsInOpenIf(t)
    case Loop(_, b) => Inlinable(b)
    case DoLoop(b, _) => Inlinable(b)
    case Guarded(b, hs) => b.Block? && Inlinable(b) && hs.Handler? && HandlersInlinable(hs)
  }

  predicate AllInlinable(xs: Stmts) {
    xs.Cons? ==> Inlinable(xs.first) && AllInlinable(xs.rest)
  }

  predicate HandlersInlinable(hs: Handlers) {
    hs.Handler? ==> hs.body.Block? && Inlinable(hs.body) && HandlersInlinable(hs.rest)
  }

  /** The tokens of a statement on one line. */
  function Inline(x: Stmt): seq<Token>
    decreases x, 1
  {
    match x
    case Simple(_) => [Semi]
    case Label(isDefault) => [if isDefault then DefaultLabel else CaseLabel]
    case Block(_, b) => [Open] + InlineAll(b) + [Close]
    case OneLiner(_, b) => [Open] + InlineAll(b) + [Close]
    case Cond(_) => [Head(If)] + InlineIf(x)
    case CondElse(_, _, _, _) => [Head(If)] + InlineIf(x)
    case Loop(h, b) => [Head(h)] + Inline(b)
    case DoLoop(b, _) => [Head(Do)] + (Inline(b) + ([Head(While)] + [Semi]))
    case Guarded(b, hs) => [Head(Try)] + (Inline(b) + InlineHandlers(hs))
  }

  /** What follows the `if`. */
  function InlineIf(x: Stmt): seq<Token>
    requires StartsWithIf(x)
    decreases x, 0
  {
    if x.Cond? then Inline(x.thn) else Inline(x.thn) + ([Head(Else)] + Inline(x.els))
  }

  function InlineAll(xs: Stmts): seq<Token> {
    if xs.Nil? then [] else Inline(xs.first) + InlineAll(xs.rest)
  }

  function InlineHandlers(hs: Handlers): seq<Token> {
    if hs.NoHandler? then [] else [Head(Catch)] + (Inline(hs.body) + InlineHandlers(hs.rest))
  }

  /** A block on one line. */
  function Braces(b: Stmts): seq<Token> {
    [Open] + InlineAll(b) + [Close]
  }

  predicate StartsWithIf(x: Stmt) { x.Cond? || x.CondElse? }

  /** After the statement the last header of the line is an `else`; `before` says
      that it was one before it. */
  predicate LastElse(x: Stmt, before: bool) {
    match x
    case Simple(_) => before
    case Label(_) => false
    case Block(_, b) => LastElseAll(b, false)
    case OneLiner(_, b) => LastElseAll(b, false)
    case Cond(t) => LastElse(t, false)
    case CondElse(_, _, _, e) => LastElse(e, true)
    case Loop(_, b) => LastElse(b, false)
    case DoLoop(_, _) => false
    case Guarded(b, hs) => if hs.NoHandler? then LastElse(b, false) else LastElseHandlers(hs)
  }

  predicate LastElseAll(xs: Stmts, before: bool) {
    if xs.Nil? then before else LastElseAll(xs.rest, LastElse(xs.first, before))
  }

  predicate LastElseHandlers(hs: Handlers) {
    hs.Handler? && if hs.rest.NoHandler? then LastElse(hs.body, false) else LastElseHandlers(hs.rest)
  }

  /** No `if` starts a statement while the last header of the line is the `else`
      of a statement that is already finished. */
  predicate Fits(x: Stmt, afterElse: bool) {
    match x
    case Simple(_) => true
    case Label(_) => true
    case Block(_, b) => FitsAll(b, false)
    case OneLiner(_, b) => FitsAll(b, false)
    case Cond(t) => !afterElse && Fits(t, false)
    case CondElse(t, _, _, e) => !afterElse && Fits(t, false) && Fits(e, !StartsWithIf(e))
    case Loop(_, b) => Fits(b, false)
    case DoLoop(b, _) => Fits(b, false)
    case Guarded(b, hs) => Fits(b, false) && FitsHandlers(hs)
  }

  predicate FitsAll(xs: Stmts, afterElse: bool) {
    xs.Cons? ==> Fits(xs.first, afterElse) && FitsAll(xs.rest, LastElse(xs.first, afterElse))
  }

  predicate FitsHandlers(hs: Handlers) {
    hs.Handler? ==> Fits(hs.body, false) && FitsHandlers(hs.rest)
  }

  /** A brace closes in the statement. */
  predicate Closes(x: Stmt) {
    match x
    case Simple(_) => false
    case Label(_) => false
    case Block(_, _) => true
    case OneLiner(_, _) => true
    case Cond(t) => Closes(t)
    case CondElse(t, _, _, e) => Closes(t) || Closes(e)
    case Loop(_, b) => Closes(b)
    case DoLoop(b, _) => Closes(b)
    case Guarded(_, _) => true
  }

  predicate ClosesAll(xs: Stmts) {
    xs.Cons? && (Closes(xs.first) || ClosesAll(xs.rest))
  }

  /** The levels that companions on the line add to its indentation: each brings
      back the k headers outside its statement, unless a brace has closed. */
  function Gain(x: Stmt, k: nat, closing: bool): nat {
    match x
    case Simple(_) => 0
    case Label(_) => 0
    case Block(_, b) => GainAll(b, closing)
    case OneLiner(_, b) => GainAll(b, closing)
    case Cond(t) => Gain(t, k + 1, closing)
    case CondElse(t, _, _, e) =>
      var closed := closing || Closes(t);
      Gain(t, k + 1, closing) + (if closed then 0 else k) + Gain(e, if StartsWithIf(e) then k else k + 1, closed)
    case Loop(_, b) => Gain(b, k + 1, closing)
    case DoLoop(b, _) => Gain(b, k + 1, closing) + if closing || Closes(b) then 0 else k
    case Guarded(b, hs) => Gain(b, k + 1, closing)      // its handlers come after a brace has closed
  }

  function GainAll(xs: Stmts, closing: bool): nat {
    if xs.Nil? then 0 else Gain(xs.first, 0, closing) + GainAll(xs.rest, closing || Closes(xs.first))
  }

  // ---------------------------------------------------------------- layout

  /** The lines of a statement at depth d that starts a line of its own. */
  function Print(x: Stmt, d: nat): seq<Printed>
    decreases x, 1
  {
    match x
    case Simple(_) => [Printed([Semi], d)]
    case Label(isDefault) => [Printed([if isDefault then DefaultLabel else CaseLabel], d - 1)]
    case Block(_, b) => [Printed([Open], d)] + PrintAll(b, d + 1) + [Printed([Close], d)]
    case OneLiner(_, b) => [Printed(Braces(b), d)]
    case Cond(_) => PrintIf([Head(If)], x, d)
    case CondElse(_, _, _, _) => PrintIf([Head(If)], x, d)
    case Loop(h, b) => Lead([Head(h)], b, d) + Seal(b, false, d)
    case DoLoop(b, cuddled) =>
      Lead([Head(Do)], b, d) + Seal(b, cuddled, d)
      + [Printed(Joint(b, cuddled) + [Head(While)] + [Semi], d)]
    case Guarded(b, hs) => Lead([Head(Try)], b, d) + PrintHandlers(b, hs, d)
  }

  function PrintAll(xs: Stmts, d: nat): seq<Printed>
    decreases xs
  {
    match xs
    case Nil => []
    case Cons(x, rest) => Print(x, d) + PrintAll(rest, d)
  }

  /** The header line `head` with what is attached to it, and the lines of its
      body up to the closing brace of a block. */
  function Lead(head: seq<Token>, x: Stmt, d: nat): seq<Printed>
    decreases x, 2
  {
    match x
    case Block(attached, b) =>
      (if attached then [Printed(head + [Open], d)] else [Printed(head, d), Printed([Open], d)])
      + PrintAll(b, d + 1)
    case OneLiner(attached, b) =>
      if attached then [Printed(head + Braces(b), d)] else [Printed(head, d), Printed(Braces(b), d)]
    case _ =>
      if x == Simple(true) then [Printed(head + [Semi], d)]
      else [Printed(head, d)] + Print(x, d + 1)
  }

  /** The line of the closing brace, unless what follows is put on it. */
  function Seal(x: Stmt, cuddled: bool, d: nat): seq<Printed> {
    if x.Block? && !cuddled then [Printed([Close], d)] else []
  }

  function Joint(x: Stmt, cuddled: bool): seq<Token> {
    if x.Block? && cuddled then [Close] else []
  }

  function PrintIf(head: seq<Token>, x: Stmt, d: nat): seq<Printed>
    requires x.Cond? || x.CondElse?
    decreases x, 0
  {
    match x
    case Cond(t) => Lead(head, t, d) + Seal(t, false, d)
    case CondElse(t, cuddled, chained, e) =>
      Lead(head, t, d) + Seal(t, cuddled, d)
      + PrintElse(Joint(t, cuddled) + [Head(Else)], chained, e, d)
  }

  function PrintElse(head: seq<Token>, chained: bool, e: Stmt, d: nat): seq<Printed>
    decreases e, 3
  {
    if chained && (e.Cond? || e.CondElse?) then PrintIf(head + [Head(If)], e, d)
    else Lead(head, e, d) + Seal(e, false, d)
  }

  function PrintHandlers(before: Stmt, hs: Handlers, d: nat): seq<Printed>
    decreases hs
  {
    match hs
    case NoHandler => Seal(before, false, d)
    case Handler(cuddled, b, rest) =>
      Seal(before, cuddled, d) + Lead(Joint(before, cuddled) + [Head(Catch)], b, d)
      + PrintHandlers(b, rest, d)
  }

  // ------------------------------------------------------------------ runs

  function AfterAll(s: Stacks, lines: seq<Printed>): (r: Stacks)
    requires Safe(s)
    ensures Safe(r)
    decreases |lines|
  {
    if lines == [] then s else AfterAll(After(s, lines[0].tokens), lines[1..])
  }

  /** Every line is indented by the depth it was printed at. */
  predicate Indented(s: Stacks, lines: seq<Printed>)
    requires Safe(s)
    decreases |lines|
  {
    lines == [] ||
    (LineIndent(s, lines[0].tokens) == lines[0].depth && Indented(After(s, lines[0].tokens), lines[1..]))
  }

  lemma {:induction false} RunConcat(s: Stacks, a: seq<Printed>, b: seq<Printed>)
    requires Safe(s)
    ensures AfterAll(s, a + b) == AfterAll(AfterAll(s, a), b)
    ensures Indented(s, a + b) <==> Indented(s, a) && Indented(AfterAll(s, a), b)
    decreases |a|
  {
    if a == [] {
      assert a + b == b;
    } else {
      assert (a + b)[1..] == a[1..] + b;
      RunConcat(After(s, a[0].tokens), a[1..], b);
    }
  }

  lemma RunOne(s: Stacks, tokens: seq<Token>, d: int)
    requires Safe(s)
    ensures AfterAll(s, [Printed(tokens, d)]) == After(s, tokens)
    ensures Indented(s, [Printed(tokens, d)]) <==> LineIndent(s, tokens) == d
  {
    assert [Printed(tokens, d)][1..] == [];
  }
}
