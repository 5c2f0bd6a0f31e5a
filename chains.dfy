/** The precedence rule at work: on a flat chain `n0 op1 n1 ... opk nk` of numbers and
    binary operators, `_to_rpn` produces the postfix form of the usual "sum of
    products" tree, in which `*` and `/` bind tighter than `+` and `-` and operators of
    one level group to the left. The tree is built by an independent left-to-right
    parse, not by the shunting yard. */
module Precedence {
  import opened Outcomes
  import opened Lexemes
  import opened ShuntingYard
  import opened Postfix

  predicate IsAdditive(op: string) { op == "+" || op == "-" }

  predicate IsMultiplicative(op: string) { op == "*" || op == "/" }

  /** One `op operand` pair of a chain. */
  datatype Link = Link(op: string, operand: string)

  predicate IsChain(first: string, links: seq<Link>) {
    IsNumber(first) && forall l :: l in links ==> IsBinary(l.op) && IsNumber(l.operand)
  }

  /** The chain as the token list the scanner produces. */
  function Flatten(links: seq<Link>): seq<string> {
    if links == [] then [] else [links[0].op, links[0].operand] + Flatten(links[1..])
  }

  function ChainTokens(first: string, links: seq<Link>): seq<string> {
    [first] + Flatten(links)
  }

  // ---------------------------------------------------------------------------
  // The reference parse

  /** A left operand waiting for its right operand, with the operator joining them. */
  type Open = Option<(Expr, string)>

  /** The parse after a number: the sum so far waiting for its next term, the product
      so far waiting for its next factor, and the last number read. */
  datatype Partial = Partial(sum: Open, product: Open, last: string)

  /** Joins a waiting left operand to its right operand. */
  function Close(o: Open, right: Expr): Expr {
    match o
    case None => right
    case Some(p) => Binary(p.1, p.0, right)
  }

  /** The current term: the waiting product closed by the last number. */
  function Term(p: Partial): Expr {
    Close(p.product, Literal(p.last))
  }

  /** The tree of everything read so far. */
  function Finish(p: Partial): Expr {
    Close(p.sum, Term(p))
  }

  /** Reading `op operand`: a multiplicative operator extends the current term, an
      additive one closes the term into the sum and starts a new term. */
  function Shift(p: Partial, l: Link): Partial {
    if IsMultiplicative(l.op) then Partial(p.sum, Some((Term(p), l.op)), l.operand)
    else Partial(Some((Finish(p), l.op)), None, l.operand)
  }

  function Run(p: Partial, links: seq<Link>): Partial
    decreases |links|
  {
    if links == [] then p else Run(Shift(p, links[0]), links[1..])
  }

  /** The expression tree of a chain with the usual precedence and left grouping. */
  function ChainTree(first: string, links: seq<Link>): Expr {
    Finish(Run(Partial(None, None, first), links))
  }

  predicate GoodOpen(o: Open, additive: bool) {
    match o
    case None => true
    case Some(p) => WellFormed(p.0) && (if additive then IsAdditive(p.1) else IsMultiplicative(p.1))
  }

  /** A parse state built from a chain. */
  predicate Good(p: Partial) {
    GoodOpen(p.sum, true) && GoodOpen(p.product, false) && IsNumber(p.last)
  }

  lemma CloseWellFormed(o: Open, right: Expr, additive: bool)
    requires GoodOpen(o, additive) && WellFormed(right)
    ensures WellFormed(Close(o, right))
  {
  }

  lemma ShiftGood(p: Partial, l: Link)
    requires Good(p) && IsBinary(l.op) && IsNumber(l.operand)
    ensures Good(Shift(p, l)) && WellFormed(Term(p)) && WellFormed(Finish(p))
  {
    CloseWellFormed(p.product, Literal(p.last), false);
    CloseWellFormed(p.sum, Term(p), true);
  }

  lemma {:induction false} RunGood(p: Partial, links: seq<Link>)
    requires Good(p) && forall l :: l in links ==> IsBinary(l.op) && IsNumber(l.operand)
    ensures Good(Run(p, links)) && WellFormed(Finish(Run(p, links)))
    decreases |links|
  {
    if links != [] {
      assert links[0] in links;
      assert forall l :: l in links[1..] ==> l in links;
      ShiftGood(p, links[0]);
      RunGood(Shift(p, links[0]), links[1..]);
    } else {
      CloseWellFormed(p.product, Literal(p.last), false);
      CloseWellFormed(p.sum, Term(p), true);
    }
  }

  // ---------------------------------------------------------------------------
  // The shunting yard follows the parse

  function OpenPostfix(o: Open): seq<string> {
    match o
    case None => []
    case Some(p) => PostfixOf(p.0)
  }

  function OpenOperator(o: Open): seq<string> {
    match o
    case None => []
    case Some(p) => [p.1]
  }

  /** The converter's state after the same tokens: the finished operands are in the
      output, the operators waiting for their right operands are on the stack. */
  function YardOf(p: Partial): Yard {
    Yard(OpenPostfix(p.sum) + OpenPostfix(p.product) + [p.last],
         OpenOperator(p.sum) + OpenOperator(p.product), Number)
  }

  lemma ClosePostfix(o: Open, right: Expr)
    ensures PostfixOf(Close(o, right)) == OpenPostfix(o) + PostfixOf(right) + OpenOperator(o)
  {
    if o.None? {
      assert [] + PostfixOf(right) + [] == PostfixOf(right);
    }
  }

  lemma Levels()
    ensures forall t :: IsAdditive(t) ==> t in PRECEDENCE && PRECEDENCE[t] == 1 && t !in RIGHT_ASSOCIATIVE
    ensures forall t :: IsMultiplicative(t) ==> t in PRECEDENCE && PRECEDENCE[t] == 2 && t !in RIGHT_ASSOCIATIVE
  {
  }

  /** The pop loop with a top that leaves. */
  lemma PopHigherPops(y: Yard, op: string)
    requires |y.operators| > 0 && Top(y.operators) != "("
    requires Top(y.operators) in PRECEDENCE && op in PRECEDENCE && PopsBefore(Top(y.operators), op)
    ensures PopHigher(y, op) == PopHigher(Pop(y), op)
  {
  }

  /** The pop loop with a top that stays. */
  lemma PopHigherStops(y: Yard, op: string)
    requires y.operators == [] || (Top(y.operators) != "(" && Top(y.operators) in PRECEDENCE && op in PRECEDENCE
                                   && !PopsBefore(Top(y.operators), op))
    ensures PopHigher(y, op) == Ok(y)
  {
  }

  /** The state with the current term finished: its operands and operator are in
      the output, and only the sum's operator is waiting. */
  function TermDone(p: Partial): Yard {
    Yard(OpenPostfix(p.sum) + PostfixOf(Term(p)), OpenOperator(p.sum), Number)
  }

  /** Any binary operator first pops the waiting multiplicative operator, which closes
      the current term. */
  lemma PopTerm(p: Partial, op: string)
    requires Good(p) && IsBinary(op)
    ensures PopHigher(YardOf(p), op) == PopHigher(TermDone(p), op)
  {
    if p.product.Some? {
      TermOnTop(p);
      Levels();
      PopHigherPops(YardOf(p), op);
    } else {
      ClosePostfix(p.product, Literal(p.last));
      assert YardOf(p) == TermDone(p);
    }
  }

  /** A waiting multiplicative operator is on top, and popping it finishes the term. */
  lemma TermOnTop(p: Partial)
    requires Good(p) && p.product.Some?
    ensures |YardOf(p).operators| > 0 && IsMultiplicative(Top(YardOf(p).operators))
    ensures Pop(YardOf(p)) == TermDone(p)
  {
    var y := YardOf(p);
    var m := p.product.value.1;
    ClosePostfix(p.product, Literal(p.last));
    assert y.operators == OpenOperator(p.sum) + [m];
    assert y.operators[..|y.operators| - 1] == OpenOperator(p.sum);
    assert PostfixOf(Term(p)) == OpenPostfix(p.product) + [p.last] + [m];
    assert y.output + [m] == OpenPostfix(p.sum) + PostfixOf(Term(p));
  }

  /** Pushing a multiplicative operator pops the waiting one of its own level (left
      grouping) and leaves an additive one below it. */
  lemma PushMultiplicative(p: Partial, op: string)
    requires Good(p) && IsMultiplicative(op)
    ensures PopHigher(YardOf(p), op) == Ok(TermDone(p))
  {
    Levels();
    PopTerm(p, op);
    PopHigherStops(TermDone(p), op);
  }

  /** Pushing an additive operator pops everything waiting: the stack holds only
      operators of its level or higher. */
  lemma PushAdditive(p: Partial, op: string)
    requires Good(p) && IsAdditive(op)
    ensures PopHigher(YardOf(p), op) == Ok(Yard(PostfixOf(Finish(p)), [], Number))
  {
    Levels();
    PopTerm(p, op);
    var mid := TermDone(p);
    var bottom := Yard(PostfixOf(Finish(p)), [], Number);
    ClosePostfix(p.sum, Term(p));
    PopHigherStops(bottom, op);
    if p.sum.Some? {
      assert mid.operators == [p.sum.value.1];
      PopHigherPops(mid, op);
      assert Pop(mid) == bottom;
    } else {
      assert mid == bottom;
    }
  }

  /** The converter's state right after the operator of a link. */
  function AfterOperator(p: Partial, op: string): Yard {
    if IsMultiplicative(op) then Yard(TermDone(p).output, TermDone(p).operators + [op], Operator)
    else Yard(PostfixOf(Finish(p)), [op], Operator)
  }

  lemma OperatorStep(p: Partial, op: string)
    requires Good(p) && IsBinary(op)
    ensures Step(YardOf(p), op) == Ok(AfterOperator(p, op))
  {
    OperatorsAreNotNumbers();
    if IsMultiplicative(op) {
      PushMultiplicative(p, op);
    } else {
      PushAdditive(p, op);
      assert [] + [op] == [op];
    }
  }

  lemma OperandStep(p: Partial, l: Link)
    requires Good(p) && IsBinary(l.op) && IsNumber(l.operand)
    ensures Step(AfterOperator(p, l.op), l.operand) == Ok(YardOf(Shift(p, l)))
  {
    var z := AfterOperator(p, l.op);
    var q := Shift(p, l);
    if IsMultiplicative(l.op) {
      assert YardOf(q).output == OpenPostfix(p.sum) + PostfixOf(Term(p)) + [l.operand];
      assert YardOf(q).operators == OpenOperator(p.sum) + [l.op];
    } else {
      assert YardOf(q).output == PostfixOf(Finish(p)) + [] + [l.operand];
      assert YardOf(q).operators == [l.op] + [];
    }
    assert YardOf(q) == Yard(z.output + [l.operand], z.operators, Number);
  }

  /** Reading `op operand` takes the converter from the state of `p` to the state of
      `Shift(p, l)`. */
  lemma FeedLink(p: Partial, l: Link)
    requires Good(p) && IsBinary(l.op) && IsNumber(l.operand)
    ensures Feed(YardOf(p), [l.op, l.operand]) == Ok(YardOf(Shift(p, l)))
  {
    var ts := [l.op, l.operand];
    var z := AfterOperator(p, l.op);
    OperatorStep(p, l.op);
    OperandStep(p, l);
    FeedOne(YardOf(p), ts);
    assert ts[0] == l.op && ts[1..] == [l.operand];
    FeedOne(z, [l.operand]);
    assert [l.operand][1..] == [];
  }

  lemma {:induction false} FeedChain(p: Partial, links: seq<Link>)
    requires Good(p) && forall l :: l in links ==> IsBinary(l.op) && IsNumber(l.operand)
    ensures Feed(YardOf(p), Flatten(links)) == Ok(YardOf(Run(p, links)))
    decreases |links|
  {
    if links != [] {
      var l := links[0];
      var head := [l.op, l.operand];
      var q := Shift(p, l);
      assert l in links;
      assert forall l :: l in links[1..] ==> l in links;
      assert Flatten(links) == head + Flatten(links[1..]);
      ShiftGood(p, l);
      FeedLink(p, l);
      FeedAppend(YardOf(p), head, Flatten(links[1..]));
      FeedChain(q, links[1..]);
    }
  }

  // The small sequence facts below (ReversedOne, ReversedTwo, ReversedPair, Regroup,
  // ReversedCons, Associate) are kept as lemmas of their own rather than inline
  // assertions: proved once in a small context, they keep the larger proofs that use
  // them cheap and stable for the solver.

  lemma ReversedOne(x: string)
    ensures Reversed([x]) == [x]
  {
    assert [x][..0] == [];
  }

  lemma ReversedTwo(x: string, y: string)
    ensures Reversed([x, y]) == [y, x]
  {
    assert [x, y][..1] == [x];
    ReversedOne(x);
  }

  lemma ReversedPair(a: seq<string>, m: seq<string>)
    requires |a| <= 1 && |m| <= 1
    ensures Reversed(a + m) == m + a
  {
    if a == [] && m == [] {
      assert a + m == [];
    } else if a == [] {
      assert a + m == m && m + a == m && m == [m[0]];
      ReversedOne(m[0]);
    } else if m == [] {
      assert a + m == a && m + a == a && a == [a[0]];
      ReversedOne(a[0]);
    } else {
      assert a + m == [a[0], m[0]] && m + a == [m[0], a[0]];
      ReversedTwo(a[0], m[0]);
    }
  }

  /** The final loop empties the stack into the output, which completes the tree. */
  lemma DrainFinish(p: Partial)
    requires Good(p)
    ensures Drain(YardOf(p)) == Ok(PostfixOf(Finish(p)))
  {
    var a, m := OpenOperator(p.sum), OpenOperator(p.product);
    WaitingOperators(p);
    ReversedPair(a, m);
    assert PostfixOf(Literal(p.last)) == [p.last];
    ClosePostfix(p.product, Literal(p.last));
    ClosePostfix(p.sum, Term(p));
    Regroup(OpenPostfix(p.sum), OpenPostfix(p.product), p.last, m, a);
  }

  /** The operators a parse state keeps waiting are binary, so no `(` is among them. */
  lemma WaitingOperators(p: Partial)
    requires Good(p)
    ensures "(" !in YardOf(p).operators
  {
  }

  /** Sequence algebra, kept apart for the solver (see ReversedOne). */
  lemma Regroup(x: seq<string>, y: seq<string>, t: string, m: seq<string>, a: seq<string>)
    ensures x + y + [t] + (m + a) == x + (y + [t] + m) + a
  {
  }

  /** `_to_rpn` gives `*` and `/` precedence over `+` and `-` and groups operators of one
      level to the left: on a chain it outputs the postfix form of the chain's tree. */
  lemma ConvertChain(first: string, links: seq<Link>)
    requires IsChain(first, links)
    ensures Convert(ChainTokens(first, links)) == Ok(PostfixOf(ChainTree(first, links)))
  {
    var p := Partial(None, None, first);
    assert Step(START, first) == Ok(YardOf(p));
    FeedAppend(START, [first], Flatten(links));
    FeedChain(p, links);
    RunGood(p, links);
    DrainFinish(Run(p, links));
  }

  /** So the three-stage pipeline computes the value of the chain's tree. */
  lemma EvaluateChain(first: string, links: seq<Link>)
    requires IsChain(first, links)
    ensures WellFormed(ChainTree(first, links))
    ensures Convert(ChainTokens(first, links)).Ok?
    ensures EvalRpn(Convert(ChainTokens(first, links)).value) == Value(ChainTree(first, links))
  {
    ConvertChain(first, links);
    RunGood(Partial(None, None, first), links);
    EvalRpnPostfix(ChainTree(first, links));
  }

  // ---------------------------------------------------------------------------
  // Unary operators nest to the right

  /** The names `_to_rpn` gives a run of leading signs. */
  function SignNames(signs: seq<string>): seq<string> {
    if signs == [] then [] else [if signs[0] == "+" then "u+" else "u-"] + SignNames(signs[1..])
  }

  /** The reference tree of signs before a number: each sign applies to everything after
      it. */
  function SignTree(signs: seq<string>, n: string): Expr
    decreases |signs|
  {
    if signs == [] then Literal(n)
    else Unary(if signs[0] == "+" then "u+" else "u-", SignTree(signs[1..], n))
  }

  predicate AllUnary(ops: seq<string>) {
    forall t :: t in ops ==> IsUnary(t)
  }

  /** Sequence algebra, kept apart for the solver (see ReversedOne). */
  lemma ReversedCons(u: string, s: seq<string>)
    ensures Reversed([u] + s) == Reversed(s) + [u]
  {
    var r := Reversed([u] + s);
    assert forall k :: 0 <= k < |s| ==> r[k] == ([u] + s)[|s| - k] == s[|s| - 1 - k];
    assert r[|s|] == u;
  }

  lemma {:induction false} SignTreePostfix(signs: seq<string>, n: string)
    ensures PostfixOf(SignTree(signs, n)) == [n] + Reversed(SignNames(signs))
    decreases |signs|
  {
    if signs != [] {
      var u := if signs[0] == "+" then "u+" else "u-";
      SignTreePostfix(signs[1..], n);
      ReversedCons(u, SignNames(signs[1..]));
    }
  }

  lemma UnaryLevel()
    ensures "u+" in PRECEDENCE && "u-" in PRECEDENCE && PRECEDENCE["u+"] == 3 && PRECEDENCE["u-"] == 3
    ensures "u+" in RIGHT_ASSOCIATIVE && "u-" in RIGHT_ASSOCIATIVE
  {
  }

  /** A sign after a sign pops nothing: unary operators are right-associative. */
  lemma SignStep(ops: seq<string>, t: string)
    requires AllUnary(ops) && IsAdditive(t)
    ensures AllUnary(ops + SignNames([t]))
    ensures Step(Yard([], ops, Operator), t) == Ok(Yard([], ops + SignNames([t]), Operator))
  {
    var u := if t == "+" then "u+" else "u-";
    assert SignNames([t]) == [u];
    var y := Yard([], ops, Operator);
    UnaryLevel();
    if ops != [] {
      var top := Top(ops);
      assert top in ops;
      assert IsUnary(top) && !PopsBefore(top, u);
    }
    PopHigherStops(y, u);
    OperatorsAreNotNumbers();
    assert !IsNumber(t) && t != "(" && t != ")" && ExpectsOperand(y.prev);
    assert Step(y, t) == Ok(Yard([], ops + [u], Operator));
    assert forall x :: x in ops + [u] ==> x in ops || x == u;
  }

  lemma SignNamesCons(ops: seq<string>, signs: seq<string>)
    requires signs != []
    ensures ops + SignNames([signs[0]]) + SignNames(signs[1..]) == ops + SignNames(signs)
  {
    SignNamesHead(signs);
    Associate(ops, SignNames([signs[0]]), SignNames(signs[1..]));
  }

  lemma SignNamesHead(signs: seq<string>)
    requires signs != []
    ensures SignNames(signs) == SignNames([signs[0]]) + SignNames(signs[1..])
  {
    assert [signs[0]][1..] == [];
  }

  /** Sequence algebra, kept apart for the solver (see ReversedOne). */
  lemma Associate(a: seq<string>, b: seq<string>, c: seq<string>)
    ensures a + b + c == a + (b + c)
  {
  }

  lemma {:induction false} FeedSigns(ops: seq<string>, signs: seq<string>)
    requires AllUnary(ops) && forall t :: t in signs ==> IsAdditive(t)
    ensures Feed(Yard([], ops, Operator), signs) == Ok(Yard([], ops + SignNames(signs), Operator))
    decreases |signs|
  {
    if signs == [] {
      assert ops + [] == ops;
    } else {
      assert signs[0] in signs;
      var z := Yard([], ops + SignNames([signs[0]]), Operator);
      SignStep(ops, signs[0]);
      FeedCons(Yard([], ops, Operator), signs, z);
      assert forall s :: s in signs[1..] ==> s in signs;
      FeedSigns(z.operators, signs[1..]);
      SignNamesCons(ops, signs);
    }
  }

  /** `_to_rpn` turns leading signs into unary operators that apply right to left, so
      the innermost sign is applied first. */
  lemma ConvertSigns(signs: seq<string>, n: string)
    requires IsNumber(n) && forall t :: t in signs ==> IsAdditive(t)
    ensures Convert(signs + [n]) == Ok(PostfixOf(SignTree(signs, n)))
  {
    FeedSigns([], signs);
    FeedAppend(START, signs, [n]);
    var y := Yard([], [] + SignNames(signs), Operator);
    assert [] + [n] == [n];
    assert Step(y, n) == Ok(Yard([n], y.operators, Number));
    FeedOne(y, [n]);
    assert [n][1..] == [];
    var z := Yard([n], SignNames(signs), Number);
    assert y.operators == SignNames(signs);
    assert Feed(START, signs + [n]) == Ok(z);
    SignTreePostfix(signs, n);
    assert "(" !in z.operators by { SignNamesUnary(signs); }
    assert Drain(z) == Ok([n] + Reversed(SignNames(signs)));
  }

  lemma {:induction false} SignNamesUnary(signs: seq<string>)
    ensures AllUnary(SignNames(signs))
    decreases |signs|
  {
    if signs != [] {
      SignNamesUnary(signs[1..]);
    }
  }
}
