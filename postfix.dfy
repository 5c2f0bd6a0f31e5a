/** `_evaluate_rpn`: reduction of a postfix token list with a stack of exact values. */
module Postfix {
  import opened Outcomes
  import opened Lexemes

  /** The binary operators `_evaluate_rpn` knows. */
  predicate IsBinary(t: string) {
    t == "+" || t == "-" || t == "*" || t == "/"
  }

  /** The unary operators `_to_rpn` produces. */
  predicate IsUnary(t: string) {
    t == "u+" || t == "u-"
  }

  /** `left op right` for a binary operator; division needs a non-zero right operand. */
  function Operate(op: string, left: real, right: real): (v: real)
    requires IsBinary(op) && (op == "/" ==> right != 0.0)
    ensures op == "/" ==> v * right == left
    ensures op == "-" ==> v + right == left
  {
    if op == "+" then left + right
    else if op == "-" then left - right
    else if op == "*" then left * right
    else left / right
  }

  /** One iteration of the loop over the postfix tokens, on a stack whose top is last. */
  function Apply(stack: seq<real>, token: string): Result<seq<real>> {
    if IsNumber(token) then
      Ok(stack + [LiteralValue(token)])
    else if IsBinary(token) then
      if |stack| < 2 then Err(InsufficientBinaryOperands)
      else
        var right := stack[|stack| - 1];
        var left := stack[|stack| - 2];
        if token == "/" && right == 0.0 then Err(DivisionByZero)
        else Ok(stack[..|stack| - 2] + [Operate(token, left, right)])
    else if IsUnary(token) then
      if |stack| < 1 then Err(InsufficientUnaryOperand)
      else
        var operand := stack[|stack| - 1];
        Ok(stack[..|stack| - 1] + [if token == "u+" then operand else -operand])
    else
      Err(UnsupportedToken(token))
  }

  /** The loop over the remaining `tokens`, starting from `stack`. */
  function Reduce(stack: seq<real>, tokens: seq<string>): Result<seq<real>>
    decreases |tokens|
  {
    if tokens == [] then Ok(stack)
    else match Apply(stack, tokens[0])
      case Err(e) => Err(e)
      case Ok(next) => Reduce(next, tokens[1..])
  }

  /** `_evaluate_rpn(tokens)`: the loop from an empty stack, then exactly one value must
      remain. */
  function EvalRpn(tokens: seq<string>): Result<real> {
    match Reduce([], tokens)
    case Err(e) => Err(e)
    case Ok(stack) => if |stack| != 1 then Err(MalformedExpression) else Ok(stack[0])
  }

  lemma ReduceOne(stack: seq<real>, tokens: seq<string>)
    requires tokens != []
    ensures Reduce(stack, tokens) == match Apply(stack, tokens[0])
                                     case Err(e) => Err(e)
                                     case Ok(next) => Reduce(next, tokens[1..])
  {
  }

  /** A binary operator on a stack of at least two values, as one step of `Reduce`. */
  lemma ApplyBinary(stack: seq<real>, token: string)
    requires IsBinary(token) && |stack| >= 2 && !(token == "/" && stack[|stack| - 1] == 0.0)
    ensures !IsNumber(token)
    ensures Apply(stack, token)
            == Ok(stack[..|stack| - 2] + [Operate(token, stack[|stack| - 2], stack[|stack| - 1])])
  {
    OperatorsAreNotNumbers();
  }

  /** A unary operator on a non-empty stack, as one step of `Reduce`. */
  lemma ApplyUnary(stack: seq<real>, token: string)
    requires IsUnary(token) && |stack| >= 1
    ensures !IsNumber(token) && !IsBinary(token)
    ensures var operand := stack[|stack| - 1];
            Apply(stack, token) == Ok(stack[..|stack| - 1] + [if token == "u+" then operand else -operand])
  {
    OperatorsAreNotNumbers();
  }

  /** `_evaluate_rpn` as the source writes it: a `for` loop that pushes literals and
      pops operands off a list. */
  method EvaluateRpn(tokens: seq<string>) returns (r: Result<real>)
    ensures r == EvalRpn(tokens)
  {
    var stack: seq<real> := [];
    for i := 0 to |tokens|
      invariant Reduce([], tokens) == Reduce(stack, tokens[i..])
    {
      var token := tokens[i];
      ReduceOne(stack, tokens[i..]);
      assert tokens[i..][1..] == tokens[i + 1..];
      OperatorsAreNotNumbers();
      ghost var prior := stack;
      if IsNumber(token) {
        stack := stack + [LiteralValue(token)];
        continue;
      }
      if token in {"+", "-", "*", "/"} {
        if |stack| < 2 {
          return Err(InsufficientBinaryOperands);
        }
        var right := stack[|stack| - 1];
        stack := stack[..|stack| - 1];
        var left := stack[|stack| - 1];
        stack := stack[..|stack| - 1];
        assert stack == prior[..|prior| - 2] && left == prior[|prior| - 2] && right == prior[|prior| - 1];
        var value: real;
        if token == "+" {
          value := left + right;
        } else if token == "-" {
          value := left - right;
        } else if token == "*" {
          value := left * right;
        } else {
          if right == 0.0 {
            return Err(DivisionByZero);
          }
          value := left / right;
        }
        assert value == Operate(token, left, right);
        stack := stack + [value];
        ApplyBinary(prior, token);
        continue;
      }
      if token in {"u+", "u-"} {
        if |stack| == 0 {
          return Err(InsufficientUnaryOperand);
        }
        var operand := stack[|stack| - 1];
        stack := stack[..|stack| - 1];
        stack := stack + [if token == "u+" then operand else -operand];
        ApplyUnary(prior, token);
        continue;
      }
      return Err(UnsupportedToken(token));
    }
    assert tokens[|tokens|..] == [];
    if |stack| != 1 {
      return Err(MalformedExpression);
    }
    return Ok(stack[0]);
  }

  lemma OperatorsAreNotNumbers()
    ensures forall t :: IsBinary(t) || IsUnary(t) ==> !IsNumber(t)
  {
    forall t | IsBinary(t) || IsUnary(t) ensures !IsNumber(t) {
      assert t[0] !in "0123456789." || |t| == 1;
    }
  }

  // ---------------------------------------------------------------------------
  // Stack discipline

  /** Operands a token takes off the stack. */
  function Needs(t: string): nat {
    if IsBinary(t) then 2 else if IsUnary(t) then 1 else 0
  }

  /** Net change of the stack height over a token sequence (each token pushes one
      result after popping its operands). */
  function Net(ts: seq<string>): int {
    if ts == [] then 0 else 1 - Needs(ts[0]) + Net(ts[1..])
  }

  /** Every token is a number or a known operator, and each operator finds enough
      operands when the stack starts at height `h`. */
  predicate Fits(h: int, ts: seq<string>)
    decreases |ts|
  {
    ts == [] ||
    ((IsNumber(ts[0]) || IsBinary(ts[0]) || IsUnary(ts[0])) && h >= Needs(ts[0]) && Fits(h - Needs(ts[0]) + 1, ts[1..]))
  }

  /** Postfix that leaves exactly one value. */
  predicate WellFormedPostfix(ts: seq<string>) {
    Fits(0, ts) && Net(ts) == 1
  }

  lemma ApplyShape(stack: seq<real>, t: string)
    ensures Apply(stack, t).Ok? ==>
              (IsNumber(t) || IsBinary(t) || IsUnary(t)) && |stack| >= Needs(t)
              && |Apply(stack, t).value| == |stack| - Needs(t) + 1
              && Apply(stack, t).value[..|stack| - Needs(t)] == stack[..|stack| - Needs(t)]
    ensures (IsNumber(t) || IsBinary(t) || IsUnary(t)) && |stack| >= Needs(t) ==>
              Apply(stack, t).Ok? || Apply(stack, t) == Err(DivisionByZero)
    ensures Apply(stack, t).Err? ==>
              var e := Apply(stack, t).error;
              e == InsufficientBinaryOperands || e == InsufficientUnaryOperand || e == DivisionByZero
              || (e == UnsupportedToken(t) && !IsNumber(t) && !IsBinary(t) && !IsUnary(t))
  {
    OperatorsAreNotNumbers();
  }

  /** The reduction succeeds only on token sequences whose operators all find their
      operands, and then moves the stack by their net height; on such sequences it can
      fail only by dividing by zero. */
  lemma {:induction false} ReduceFits(stack: seq<real>, ts: seq<string>)
    ensures Reduce(stack, ts).Ok? ==> Fits(|stack|, ts) && |Reduce(stack, ts).value| == |stack| + Net(ts)
    ensures Fits(|stack|, ts) ==> Reduce(stack, ts).Ok? || Reduce(stack, ts) == Err(DivisionByZero)
    decreases |ts|
  {
    if ts != [] {
      ApplyShape(stack, ts[0]);
      if Apply(stack, ts[0]).Ok? {
        ReduceFits(Apply(stack, ts[0]).value, ts[1..]);
      }
    }
  }

  /** The reduction fails only with the loop's own errors, and an unsupported token is
      one of the input's tokens that is neither a number nor a known operator. */
  lemma {:induction false} ReduceErrors(stack: seq<real>, ts: seq<string>)
    requires Reduce(stack, ts).Err?
    ensures var e := Reduce(stack, ts).error;
            e == InsufficientBinaryOperands || e == InsufficientUnaryOperand || e == DivisionByZero
            || (e.UnsupportedToken? && e.token in ts && !IsNumber(e.token) && !IsBinary(e.token) && !IsUnary(e.token))
    decreases |ts|
  {
    ApplyShape(stack, ts[0]);
    if Apply(stack, ts[0]).Ok? {
      ReduceErrors(Apply(stack, ts[0]).value, ts[1..]);
    }
  }

  /** `_evaluate_rpn` returns a value only for well-formed postfix, reports a malformed
      expression exactly when the loop ends with a stack of the wrong size, and on
      well-formed postfix can fail only by dividing by zero. */
  lemma EvalRpnWellFormed(ts: seq<string>)
    ensures EvalRpn(ts).Ok? ==> WellFormedPostfix(ts)
    ensures WellFormedPostfix(ts) ==> EvalRpn(ts).Ok? || EvalRpn(ts) == Err(DivisionByZero)
    ensures EvalRpn(ts) == Err(MalformedExpression) <==> Reduce([], ts).Ok? && Net(ts) != 1
  {
    ReduceFits([], ts);
    if Reduce([], ts).Err? {
      ReduceErrors([], ts);
    }
  }

  /** Postfix that fits holds only numbers and known operators. */
  lemma {:induction false} FitsKnown(h: int, ts: seq<string>)
    requires Fits(h, ts)
    ensures forall t :: t in ts ==> IsNumber(t) || IsBinary(t) || IsUnary(t)
    decreases |ts|
  {
    if ts != [] {
      FitsKnown(h - Needs(ts[0]) + 1, ts[1..]);
      assert forall t :: t in ts ==> t == ts[0] || t in ts[1..];
    }
  }

  // ---------------------------------------------------------------------------
  // Meaning: postfix is the flattening of an expression tree

  /** An arithmetic expression tree over literal tokens. */
  datatype Expr =
    | Literal(token: string)
    | Unary(op: string, operand: Expr)
    | Binary(op: string, left: Expr, right: Expr)

  predicate WellFormed(e: Expr) {
    match e
    case Literal(t) => IsNumber(t)
    case Unary(op, x) => IsUnary(op) && WellFormed(x)
    case Binary(op, l, r) => IsBinary(op) && WellFormed(l) && WellFormed(r)
  }

  /** The tree written in postfix: operands first, operator last. */
  function PostfixOf(e: Expr): seq<string> {
    match e
    case Literal(t) => [t]
    case Unary(op, x) => PostfixOf(x) + [op]
    case Binary(op, l, r) => PostfixOf(l) + PostfixOf(r) + [op]
  }

  /** The exact value of a tree, left operand before right; dividing by zero is an error. */
  function Value(e: Expr): Result<real>
    requires WellFormed(e)
  {
    match e
    case Literal(t) => Ok(LiteralValue(t))
    case Unary(op, x) =>
      (match Value(x)
       case Err(err) => Err(err)
       case Ok(v) => Ok(if op == "u+" then v else -v))
    case Binary(op, l, r) =>
      match Value(l)
      case Err(err) => Err(err)
      case Ok(a) =>
        match Value(r)
        case Err(err) => Err(err)
        case Ok(b) => if op == "/" && b == 0.0 then Err(DivisionByZero) else Ok(Operate(op, a, b))
  }

  /** Reducing the postfix form of a tree pushes the tree's value (or fails as the tree
      does), whatever lies below it on the stack and whatever follows it. */
  lemma {:induction false} ReducePostfix(stack: seq<real>, e: Expr, rest: seq<string>)
    requires WellFormed(e)
    decreases e
    ensures Reduce(stack, PostfixOf(e) + rest) == match Value(e)
                                                  case Err(err) => Err(err)
                                                  case Ok(v) => Reduce(stack + [v], rest)
  {
    match e
    case Literal(t) =>
      ReduceLiteral(stack, t, rest);
    case Unary(op, x) =>
      UnaryPostfix(op, x, rest);
      ReducePostfix(stack, x, [op] + rest);
      if Value(x).Ok? {
        ReduceUnary(stack, Value(x).value, op, rest);
      }
    case Binary(op, l, r) =>
      BinaryPostfix(op, l, r, rest);
      ReducePostfix(stack, l, PostfixOf(r) + ([op] + rest));
      if Value(l).Ok? {
        ReducePostfix(stack + [Value(l).value], r, [op] + rest);
        if Value(r).Ok? {
          ReduceBinary(stack, Value(l).value, Value(r).value, op, rest);
        }
      }
  }

  lemma UnaryPostfix(op: string, x: Expr, rest: seq<string>)
    ensures PostfixOf(Unary(op, x)) + rest == PostfixOf(x) + ([op] + rest)
  {
  }

  lemma BinaryPostfix(op: string, l: Expr, r: Expr, rest: seq<string>)
    ensures PostfixOf(Binary(op, l, r)) + rest == PostfixOf(l) + (PostfixOf(r) + ([op] + rest))
  {
  }

  /** A literal pushes its value. */
  lemma ReduceLiteral(stack: seq<real>, t: string, rest: seq<string>)
    requires IsNumber(t)
    ensures Reduce(stack, [t] + rest) == Reduce(stack + [LiteralValue(t)], rest)
  {
    ReduceOne(stack, [t] + rest);
    assert ([t] + rest)[1..] == rest;
  }

  /** A unary operator replaces the top value. */
  lemma ReduceUnary(stack: seq<real>, v: real, op: string, rest: seq<string>)
    requires IsUnary(op)
    ensures Reduce(stack + [v], [op] + rest) == Reduce(stack + [if op == "u+" then v else -v], rest)
  {
    ReduceOne(stack + [v], [op] + rest);
    assert ([op] + rest)[1..] == rest;
    ApplyUnary(stack + [v], op);
    assert (stack + [v])[..|stack|] == stack;
  }

  /** A binary operator replaces the top two values by their combination. */
  lemma ReduceBinary(stack: seq<real>, a: real, b: real, op: string, rest: seq<string>)
    requires IsBinary(op)
    ensures Reduce(stack + [a] + [b], [op] + rest)
            == if op == "/" && b == 0.0 then Err(DivisionByZero) else Reduce(stack + [Operate(op, a, b)], rest)
  {
    var s := stack + [a] + [b];
    ReduceOne(s, [op] + rest);
    assert ([op] + rest)[1..] == rest;
    assert s[|s| - 1] == b && s[|s| - 2] == a && s[..|s| - 2] == stack;
    if !(op == "/" && b == 0.0) {
      ApplyBinary(s, op);
    } else {
      OperatorsAreNotNumbers();
    }
  }

  /** `_evaluate_rpn` computes the value of the tree whose postfix form it is given. */
  lemma EvalRpnPostfix(e: Expr)
    requires WellFormed(e)
    ensures EvalRpn(PostfixOf(e)) == Value(e)
  {
    ReducePostfix([], e, []);
    assert PostfixOf(e) + [] == PostfixOf(e);
  }
}
