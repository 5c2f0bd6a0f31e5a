/** `_to_rpn`: infix lexemes to postfix by the shunting-yard algorithm, with the
    `prev_type` tag that tells unary from binary `+` and `-`. */
module ShuntingYard {
  import opened Outcomes
  import opened Lexemes

  /** `_PRECEDENCE`. */
  const PRECEDENCE: map<string, nat> := map["+" := 1, "-" := 1, "*" := 2, "/" := 2, "u+" := 3, "u-" := 3]

  /** `_RIGHT_ASSOCIATIVE`. */
  const RIGHT_ASSOCIATIVE: set<string> := {"u+", "u-"}

  /** The values `prev_type` takes. */
  datatype PrevType = Operator | LeftParen | RightParen | Number

  /** The converter's state: `output`, the `operators` stack (top last) and `prev_type`. */
  datatype Yard = Yard(output: seq<string>, operators: seq<string>, prev: PrevType)

  /** Whether `prev_type` says an operand is expected next. */
  predicate ExpectsOperand(prev: PrevType) {
    prev == Operator || prev == LeftParen
  }

  function Top(ops: seq<string>): string
    requires |ops| > 0
  {
    ops[|ops| - 1]
  }

  function Pop(y: Yard): Yard
    requires |y.operators| > 0
  {
    Yard(y.output + [Top(y.operators)], y.operators[..|y.operators| - 1], y.prev)
  }

  function Reversed(s: seq<string>): (r: seq<string>)
    ensures |r| == |s|
    ensures forall k :: 0 <= k < |s| ==> r[k] == s[|s| - 1 - k]
  {
    if s == [] then [] else [s[|s| - 1]] + Reversed(s[..|s| - 1])
  }

  /** The rule deciding whether the stack top `top` leaves for the output before `op`
      is pushed: strictly higher precedence, or equal precedence with `op` not
      right-associative. */
  predicate PopsBefore(top: string, op: string)
    requires top in PRECEDENCE && op in PRECEDENCE
  {
    PRECEDENCE[top] > PRECEDENCE[op] || (PRECEDENCE[top] == PRECEDENCE[op] && op !in RIGHT_ASSOCIATIVE)
  }

  /** What the two tables make of the popping rule: the table knows the six operators;
      an incoming `+` or `-` pops every operator, `*` or `/` pops all but `+` and `-`,
      and the right-associative `u+` and `u-` pop nothing. */
  lemma PopRule(top: string, op: string)
    requires top in PRECEDENCE && op in PRECEDENCE
    ensures PRECEDENCE.Keys == {"+", "-", "*", "/", "u+", "u-"}
    ensures (op == "+" || op == "-") ==> PopsBefore(top, op)
    ensures (op == "*" || op == "/") ==> (PopsBefore(top, op) <==> top != "+" && top != "-")
    ensures (op == "u+" || op == "u-") ==> !PopsBefore(top, op)
  {
  }

  /** `y2` is `y1` with its top `n` operators moved, top first, to the output. */
  predicate PoppedOnto(y1: Yard, y2: Yard)
  {
    |y2.operators| <= |y1.operators|
    && y2.operators == y1.operators[..|y2.operators|]
    && y2.output == y1.output + Reversed(y1.operators[|y2.operators|..])
    && y2.prev == y1.prev
  }

  /** The loop at a `)`: pop operators to the output until a `(` is on top. */
  function CloseGroup(y: Yard): (z: Yard)
    decreases |y.operators|
    ensures PoppedOnto(y, z)
    ensures "(" !in y.operators[|z.operators|..]
    ensures z.operators == [] || Top(z.operators) == "("
  {
    if |y.operators| > 0 && Top(y.operators) != "(" then
      var z := CloseGroup(Pop(y));
      PoppedStep(y, z);
      z
    else
      assert y.operators[|y.operators|..] == [];
      assert y.output + [] == y.output;
      y
  }

  lemma PoppedStep(y: Yard, z: Yard)
    requires |y.operators| > 0 && PoppedOnto(Pop(y), z)
    ensures PoppedOnto(y, z)
    ensures y.operators[|z.operators|..] == Pop(y).operators[|z.operators|..] + [Top(y.operators)]
  {
    var n := |y.operators|;
    var m := |z.operators|;
    var below := y.operators[..n - 1];
    assert below[..m] == y.operators[..m];
    assert y.operators[m..] == below[m..] + [y.operators[n - 1]];
    assert Reversed(y.operators[m..]) == [y.operators[n - 1]] + Reversed(below[m..]);
  }

  /** The loop before a push: pop operators to the output while the top is not `(` and
      `PopsBefore` holds; a table lookup of an unknown key raises `KeyError`. */
  function PopHigher(y: Yard, op: string): (r: Result<Yard>)
    decreases |y.operators|
    ensures r.Ok? ==> PoppedOnto(y, r.value)
    ensures r.Ok? ==> forall t :: t in y.operators[|r.value.operators|..] ==>
                        t != "(" && t in PRECEDENCE && op in PRECEDENCE && PopsBefore(t, op)
    ensures r.Ok? ==> var ops := r.value.operators;
                      ops == [] || Top(ops) == "(" || (Top(ops) in PRECEDENCE && op in PRECEDENCE && !PopsBefore(Top(ops), op))
    ensures r.Err? ==> r.error.UnknownOperator? && r.error.key !in PRECEDENCE
  {
    if |y.operators| == 0 || Top(y.operators) == "(" then
      assert y.operators[|y.operators|..] == [];
      assert y.output + [] == y.output;
      Ok(y)
    else
      var top := Top(y.operators);
      if top !in PRECEDENCE then Err(UnknownOperator(top))
      else if op !in PRECEDENCE then Err(UnknownOperator(op))
      else if PopsBefore(top, op) then
        var r := PopHigher(Pop(y), op);
        if r.Ok? then PoppedStep(y, r.value); r else r
      else
        assert y.operators[|y.operators|..] == [];
        assert y.output + [] == y.output;
        Ok(y)
  }

  /** One iteration of the `for token in tokens` loop. */
  function Step(y: Yard, token: string): Result<Yard> {
    if IsNumber(token) then
      Ok(Yard(y.output + [token], y.operators, Number))
    else if token == "(" then
      Ok(Yard(y.output, y.operators + [token], LeftParen))
    else if token == ")" then
      var z := CloseGroup(y);
      if z.operators == [] then Err(MismatchedParentheses)
      else Ok(Yard(z.output, z.operators[..|z.operators| - 1], RightParen))
    else if ExpectsOperand(y.prev) && token != "+" && token != "-" then
      Err(OperatorAfterOperator)
    else
      var op := if ExpectsOperand(y.prev) then (if token == "+" then "u+" else "u-") else token;
      match PopHigher(y, op)
      case Err(e) => Err(e)
      case Ok(z) => Ok(Yard(z.output, z.operators + [op], Operator))
  }

  /** The `for` loop over the remaining `tokens`, starting from `y`. */
  function Feed(y: Yard, tokens: seq<string>): Result<Yard>
    decreases |tokens|
  {
    if tokens == [] then Ok(y)
    else match Step(y, tokens[0])
      case Err(e) => Err(e)
      case Ok(z) => Feed(z, tokens[1..])
  }

  /** The final loop: pop everything to the output; a `(` left on the stack is unmatched. */
  function Drain(y: Yard): (r: Result<seq<string>>)
    decreases |y.operators|
    ensures r.Ok? <==> "(" !in y.operators
    ensures r.Ok? ==> r.value == y.output + Reversed(y.operators)
    ensures r.Err? ==> r.error == MismatchedParentheses
  {
    if y.operators == [] then Ok(y.output)
    else if Top(y.operators) == "(" then Err(MismatchedParentheses)
    else
      var r := Drain(Pop(y));
      assert y.operators == Pop(y).operators + [Top(y.operators)];
      assert r.Ok? ==> Reversed(y.operators) == [Top(y.operators)] + Reversed(Pop(y).operators);
      r
  }

  /** The state before the first token: `prev_type = "operator"`. */
  const START: Yard := Yard([], [], Operator)

  /** `_to_rpn(tokens)`. */
  function Convert(tokens: seq<string>): Result<seq<string>> {
    match Feed(START, tokens)
    case Err(e) => Err(e)
    case Ok(y) => if ExpectsOperand(y.prev) then Err(TrailingOperator) else Drain(y)
  }

  /** `_to_rpn` as the source writes it: a `for` loop over the tokens that appends to
      `output`, pushes and pops `operators` and reassigns `prev_type`. */
  method ToRpn(tokens: seq<string>) returns (r: Result<seq<string>>)
    ensures r == Convert(tokens)
  {
    var output: seq<string> := [];
    var operators: seq<string> := [];
    var prevType := Operator;
    for i := 0 to |tokens|
      invariant Feed(START, tokens) == Feed(Yard(output, operators, prevType), tokens[i..])
    {
      var token := tokens[i];
      FeedOne(Yard(output, operators, prevType), tokens[i..]);
      assert tokens[i..][0] == token && tokens[i..][1..] == tokens[i + 1..];
      if IsNumber(token) {
        output := output + [token];
        prevType := Number;
        continue;
      }
      if token == "(" {
        operators := operators + [token];
        prevType := LeftParen;
        continue;
      }
      if token == ")" {
        output, operators := PopUntilOpen(output, operators, prevType);
        if |operators| == 0 {
          return Err(MismatchedParentheses);
        }
        operators := operators[..|operators| - 1];  // discard the "("
        prevType := RightParen;
        continue;
      }
      var operator := token;
      if (token == "+" || token == "-") && ExpectsOperand(prevType) {
        operator := if token == "+" then "u+" else "u-";
      } else if ExpectsOperand(prevType) {
        return Err(OperatorAfterOperator);
      }
      var popped := PopWhileHigher(output, operators, prevType, operator);
      if popped.Err? {
        return Err(popped.error);
      }
      output, operators := popped.value.output, popped.value.operators + [operator];
      prevType := Operator;
    }
    if ExpectsOperand(prevType) {
      return Err(TrailingOperator);
    }
    r := PopAll(output, operators, prevType);
  }

  lemma FeedOne(y: Yard, tokens: seq<string>)
    requires tokens != []
    ensures Feed(y, tokens) == match Step(y, tokens[0])
                               case Err(e) => Err(e)
                               case Ok(z) => Feed(z, tokens[1..])
  {
  }

  /** A successful first step leaves the rest of the loop to run from its state. */
  lemma FeedCons(y: Yard, tokens: seq<string>, z: Yard)
    requires tokens != [] && Step(y, tokens[0]) == Ok(z)
    ensures Feed(y, tokens) == Feed(z, tokens[1..])
  {
    FeedOne(y, tokens);
  }

  /** The `while operators and operators[-1] != "("` loop at a `)`. */
  method PopUntilOpen(output: seq<string>, operators: seq<string>, ghost prev: PrevType)
    returns (output': seq<string>, operators': seq<string>)
    ensures Yard(output', operators', prev) == CloseGroup(Yard(output, operators, prev))
  {
    output', operators' := output, operators;
    while |operators'| > 0 && operators'[|operators'| - 1] != "("
      invariant CloseGroup(Yard(output, operators, prev)) == CloseGroup(Yard(output', operators', prev))
      decreases |operators'|
    {
      output' := output' + [operators'[|operators'| - 1]];
      operators' := operators'[..|operators'| - 1];
    }
  }

  /** The `while operators and operators[-1] != "("` loop before pushing `operator`. */
  method PopWhileHigher(output: seq<string>, operators: seq<string>, prev: PrevType, operator: string)
    returns (r: Result<Yard>)
    ensures r == PopHigher(Yard(output, operators, prev), operator)
  {
    var output', operators' := output, operators;
    while |operators'| > 0 && operators'[|operators'| - 1] != "("
      invariant PopHigher(Yard(output, operators, prev), operator) == PopHigher(Yard(output', operators', prev), operator)
      decreases |operators'|
    {
      var top := operators'[|operators'| - 1];
      if top !in PRECEDENCE {
        return Err(UnknownOperator(top));
      }
      if operator !in PRECEDENCE {
        return Err(UnknownOperator(operator));
      }
      if PRECEDENCE[top] > PRECEDENCE[operator]
         || (PRECEDENCE[top] == PRECEDENCE[operator] && operator !in RIGHT_ASSOCIATIVE) {
        output' := output' + [operators'[|operators'| - 1]];
        operators' := operators'[..|operators'| - 1];
      } else {
        break;
      }
    }
    return Ok(Yard(output', operators', prev));
  }

  /** The final `while operators` loop. */
  method PopAll(output: seq<string>, operators: seq<string>, ghost prev: PrevType) returns (r: Result<seq<string>>)
    ensures r == Drain(Yard(output, operators, prev))
  {
    var output', operators' := output, operators;
    while |operators'| > 0
      invariant Drain(Yard(output, operators, prev)) == Drain(Yard(output', operators', prev))
      decreases |operators'|
    {
      var op := operators'[|operators'| - 1];
      operators' := operators'[..|operators'| - 1];
      if op == "(" {
        return Err(MismatchedParentheses);
      }
      output' := output' + [op];
    }
    return Ok(output');
  }

  // ---------------------------------------------------------------------------
  // Properties of the conversion

  /** The `prev_type` a token leaves behind. */
  function ClassOf(token: string): PrevType {
    if IsNumber(token) then Number
    else if token == "(" then LeftParen
    else if token == ")" then RightParen
    else Operator
  }

  /** The number tokens of `ts`, in order. */
  function Numbers(ts: seq<string>): seq<string> {
    if ts == [] then [] else (if IsNumber(ts[0]) then [ts[0]] else []) + Numbers(ts[1..])
  }

  lemma {:induction false} NumbersAppend(a: seq<string>, b: seq<string>)
    ensures Numbers(a + b) == Numbers(a) + Numbers(b)
  {
    if a == [] {
      assert a + b == b;
    } else {
      assert (a + b)[1..] == a[1..] + b;
      NumbersAppend(a[1..], b);
    }
  }

  lemma {:induction false} NumbersNone(ts: seq<string>)
    requires forall t :: t in ts ==> !IsNumber(t)
    ensures Numbers(ts) == []
  {
    if ts != [] {
      assert ts[0] in ts;
      NumbersNone(ts[1..]);
    }
  }

  /** Open parentheses on the stack. */
  function Opens(ops: seq<string>): nat {
    if ops == [] then 0 else Opens(ops[..|ops| - 1]) + (if Top(ops) == "(" then 1 else 0)
  }

  lemma {:induction false} OpensZero(ops: seq<string>)
    ensures Opens(ops) == 0 <==> "(" !in ops
  {
    if ops != [] {
      OpensZero(ops[..|ops| - 1]);
      assert ops == ops[..|ops| - 1] + [Top(ops)];
    }
  }

  lemma {:induction false} OpensPrefix(ops: seq<string>, n: nat)
    requires n <= |ops| && "(" !in ops[n..]
    ensures Opens(ops[..n]) == Opens(ops)
    decreases |ops|
  {
    if n < |ops| {
      var below := ops[..|ops| - 1];
      assert below[..n] == ops[..n];
      assert below[n..] <= ops[n..];
      assert Top(ops) == ops[n..][|ops| - 1 - n];
      OpensPrefix(below, n);
    } else {
      assert ops[..n] == ops;
    }
  }

  /** Net parenthesis depth of a token sequence. */
  function Depth(ts: seq<string>): int {
    if ts == [] then 0
    else (if ts[0] == "(" then 1 else if ts[0] == ")" then -1 else 0) + Depth(ts[1..])
  }

  /** Every `)` closes an earlier `(` and every `(` is closed. */
  predicate Balanced(ts: seq<string>) {
    Depth(ts) == 0 && forall k :: 0 <= k <= |ts| ==> Depth(ts[..k]) >= 0
  }

  /** Where the stack may hold what: never `)` and never a number. */
  predicate StackHolds(ops: seq<string>) {
    forall t :: t in ops ==> t != ")" && !IsNumber(t)
  }

  /** The precedence discipline of the stack: between parentheses, each operator sits
      on one it would not have popped, so precedence rises towards the top and only
      the right-associative unary operators may repeat a level. */
  predicate Ordered(ops: seq<string>) {
    forall k :: 0 < k < |ops| && ops[k - 1] != "(" && ops[k] != "(" ==>
      ops[k - 1] in PRECEDENCE && ops[k] in PRECEDENCE && !PopsBefore(ops[k - 1], ops[k])
  }

  /** No parenthesis ever reaches the output. */
  predicate ParenFree(out: seq<string>) {
    "(" !in out && ")" !in out
  }

  predicate Invariant(y: Yard) {
    StackHolds(y.operators) && Ordered(y.operators) && ParenFree(y.output)
  }

  /** A token is carried by the state when it is in the output or on the stack. */
  predicate Carried(t: string, y: Yard) {
    t in y.output || t in y.operators
  }

  lemma ReversedHas(s: seq<string>, t: string)
    ensures t in Reversed(s) <==> t in s
  {
    if t in Reversed(s) {
      var k :| 0 <= k < |s| && Reversed(s)[k] == t;
      assert s[|s| - 1 - k] == t;
    }
    if t in s {
      var k :| 0 <= k < |s| && s[k] == t;
      assert Reversed(s)[|s| - 1 - k] == t;
    }
  }

  lemma PrefixKeepsStack(ops: seq<string>, n: nat)
    requires n <= |ops| && StackHolds(ops) && Ordered(ops)
    ensures StackHolds(ops[..n]) && Ordered(ops[..n])
  {
    assert forall t :: t in ops[..n] ==> t in ops;
  }

  lemma NumbersOne(t: string)
    ensures Numbers([t]) == (if IsNumber(t) then [t] else [])
  {
    assert [t][1..] == [];
  }

  lemma DepthOne(t: string)
    ensures Depth([t]) == (if t == "(" then 1 else if t == ")" then -1 else 0)
  {
    assert [t][1..] == [];
  }

  lemma DropTopKeeps(ops: seq<string>)
    requires |ops| > 0
    ensures forall u :: u in ops && u != Top(ops) ==> u in ops[..|ops| - 1]
  {
    assert ops == ops[..|ops| - 1] + [Top(ops)];
  }

  lemma ParensAreNotNumbers()
    ensures !IsNumber("(") && !IsNumber(")")
  {
  }

  lemma UnaryNames()
    ensures "u+" != "(" && "u+" != ")" && !IsNumber("u+")
    ensures "u-" != "(" && "u-" != ")" && !IsNumber("u-")
  {
    assert "u+"[0] == 'u' && "u-"[0] == 'u';
  }

  /** The operator `_to_rpn` pushes for a token that is not a number or a parenthesis. */
  function Pushed(prev: PrevType, token: string): string {
    if ExpectsOperand(prev) then (if token == "+" then "u+" else "u-") else token
  }

  /** How one iteration changes the state, case by case. */
  lemma StepShape(y: Yard, t: string)
    requires Step(y, t).Ok?
    ensures var z := Step(y, t).value;
            if IsNumber(t) then z == Yard(y.output + [t], y.operators, Number)
            else if t == "(" then z == Yard(y.output, y.operators + [t], LeftParen)
            else if t == ")" then
              var c := CloseGroup(y);
              c.operators != [] && z == Yard(c.output, c.operators[..|c.operators| - 1], RightParen)
            else
              PopHigher(y, Pushed(y.prev, t)).Ok?
              && z == Yard(PopHigher(y, Pushed(y.prev, t)).value.output,
                           PopHigher(y, Pushed(y.prev, t)).value.operators + [Pushed(y.prev, t)], Operator)
  {
  }

  /** One iteration keeps the stack free of `)` and numbers, and keeps its precedence
      discipline. */
  lemma StepKeepsStack(y: Yard, t: string)
    requires StackHolds(y.operators) && Ordered(y.operators) && Step(y, t).Ok?
    ensures StackHolds(Step(y, t).value.operators) && Ordered(Step(y, t).value.operators)
  {
    StepShape(y, t);
    if t == "(" {
      ParensAreNotNumbers();
      PushOpenKeeps(y.operators);
    } else if t == ")" {
      var c := CloseGroup(y);
      PrefixKeepsStack(y.operators, |c.operators|);
      PrefixKeepsStack(c.operators, |c.operators| - 1);
    } else if !IsNumber(t) {
      UnaryNames();
      var op := Pushed(y.prev, t);
      var p := PopHigher(y, op).value;
      PrefixKeepsStack(y.operators, |p.operators|);
      PushOperatorKeeps(p.operators, op);
    }
  }

  lemma PushOpenKeeps(ops: seq<string>)
    requires StackHolds(ops) && Ordered(ops) && !IsNumber("(")
    ensures StackHolds(ops + ["("]) && Ordered(ops + ["("])
  {
  }

  lemma PushOperatorKeeps(ops: seq<string>, op: string)
    requires StackHolds(ops) && Ordered(ops) && op != ")" && op != "(" && !IsNumber(op)
    requires ops == [] || Top(ops) == "(" || (Top(ops) in PRECEDENCE && op in PRECEDENCE && !PopsBefore(Top(ops), op))
    ensures StackHolds(ops + [op]) && Ordered(ops + [op])
  {
    var s := ops + [op];
    forall k | 0 < k < |s| && s[k - 1] != "(" && s[k] != "("
      ensures s[k - 1] in PRECEDENCE && s[k] in PRECEDENCE && !PopsBefore(s[k - 1], s[k])
    {
      if k < |ops| {
        assert s[k - 1] == ops[k - 1] && s[k] == ops[k];
      }
    }
  }

  /** One iteration keeps parentheses out of the output and appends the token to the
      output's numbers exactly when it is a number. */
  lemma StepKeepsOutput(y: Yard, t: string)
    requires StackHolds(y.operators) && ParenFree(y.output) && Step(y, t).Ok?
    ensures ParenFree(Step(y, t).value.output)
    ensures Numbers(Step(y, t).value.output) == Numbers(y.output) + Numbers([t])
  {
    StepShape(y, t);
    NumbersOne(t);
    var z := Step(y, t).value;
    if IsNumber(t) {
      ParensAreNotNumbers();
      NumbersAppend(y.output, [t]);
    } else if t == "(" {
      assert z.output + [] == z.output;
    } else if t == ")" {
      PoppedOutput(y, CloseGroup(y));
      assert z.output + [] == z.output;
    } else {
      PoppedOutput(y, PopHigher(y, Pushed(y.prev, t)).value);
      assert z.output + [] == z.output;
    }
  }

  lemma PoppedOutput(y: Yard, z: Yard)
    requires PoppedOnto(y, z) && StackHolds(y.operators) && ParenFree(y.output)
    requires "(" !in y.operators[|z.operators|..]
    ensures ParenFree(z.output) && Numbers(z.output) == Numbers(y.output)
  {
    var popped := y.operators[|z.operators|..];
    forall t | t in Reversed(popped) ensures t in y.operators && t != "(" {
      ReversedHas(popped, t);
    }
    NumbersNone(Reversed(popped));
    NumbersAppend(y.output, Reversed(popped));
    assert Numbers(y.output + Reversed(popped)) == Numbers(y.output) + [];
  }

  /** One iteration sets `prev_type` to the class of the token it consumed. */
  lemma StepTracksClass(y: Yard, t: string)
    requires Step(y, t).Ok?
    ensures Step(y, t).value.prev == ClassOf(t)
  {
    StepShape(y, t);
  }

  /** One iteration changes the count of `(` on the stack by the token's depth. */
  lemma StepCountsOpens(y: Yard, t: string)
    requires Step(y, t).Ok?
    ensures Opens(Step(y, t).value.operators) == Opens(y.operators) + Depth([t])
  {
    StepShape(y, t);
    DepthOne(t);
    var z := Step(y, t).value;
    if IsNumber(t) {
      ParensAreNotNumbers();
    } else if t == "(" {
      assert z.operators[..|z.operators| - 1] == y.operators;
    } else if t == ")" {
      var c := CloseGroup(y);
      OpensPrefix(y.operators, |c.operators|);
      assert c.operators[..|c.operators| - 1] == z.operators;
    } else {
      var p := PopHigher(y, Pushed(y.prev, t)).value;
      OpensPrefix(y.operators, |p.operators|);
      UnaryNames();
      assert z.operators[..|z.operators| - 1] == p.operators;
    }
  }

  /** A `)` fails exactly when no `(` is on the stack. */
  lemma StepCloseFails(y: Yard)
    ensures Step(y, ")") == Err(MismatchedParentheses) <==> Opens(y.operators) == 0
  {
    ParensAreNotNumbers();
    var c := CloseGroup(y);
    OpensZero(y.operators);
    if c.operators != [] {
      assert Top(c.operators) == "(" && "(" in y.operators;
    } else {
      assert y.operators[0..] == y.operators;
    }
  }

  /** One iteration keeps every token it has seen, except `(`, in the output or on the
      stack; an operator other than `+` and `-` is kept under its own name. */
  lemma StepCarries(y: Yard, t: string)
    requires Step(y, t).Ok?
    ensures forall u :: u != "(" && Carried(u, y) ==> Carried(u, Step(y, t).value)
    ensures t != "(" && t != ")" && t != "+" && t != "-" ==> Carried(t, Step(y, t).value)
  {
    StepShape(y, t);
    var z := Step(y, t).value;
    if t == ")" {
      var c := CloseGroup(y);
      PoppedCarries(y, c);
      DropTopKeeps(c.operators);
    } else if !IsNumber(t) && t != "(" {
      var p := PopHigher(y, Pushed(y.prev, t)).value;
      PoppedCarries(y, p);
    }
  }

  lemma PoppedCarries(y: Yard, z: Yard)
    requires PoppedOnto(y, z)
    ensures forall u :: Carried(u, y) ==> Carried(u, z)
  {
    var n := |z.operators|;
    var popped := y.operators[n..];
    assert y.operators == z.operators + popped;
    forall u | u in popped ensures u in z.output {
      ReversedHas(popped, u);
    }
  }

  /** The loop's own failures: a `)` without `(`, an operator where an operand belongs,
      or a `KeyError` from the precedence table. */
  predicate IsLoopError(e: Error) {
    e == MismatchedParentheses || e == OperatorAfterOperator || e.UnknownOperator?
  }

  lemma StepErrors(y: Yard, t: string)
    requires Step(y, t).Err?
    ensures IsLoopError(Step(y, t).error)
  {
  }

  lemma {:induction false} FeedAppend(y: Yard, a: seq<string>, b: seq<string>)
    ensures Feed(y, a + b) == match Feed(y, a)
                              case Err(e) => Err(e)
                              case Ok(z) => Feed(z, b)
    decreases |a|
  {
    if a == [] {
      assert a + b == b;
    } else {
      assert (a + b)[0] == a[0] && (a + b)[1..] == a[1..] + b;
      if Step(y, a[0]).Ok? {
        FeedAppend(Step(y, a[0]).value, a[1..], b);
      }
    }
  }

  /** The loop fails only with its own errors. */
  lemma {:induction false} FeedErrors(y: Yard, ts: seq<string>)
    requires Feed(y, ts).Err?
    ensures IsLoopError(Feed(y, ts).error)
    decreases |ts|
  {
    if Step(y, ts[0]).Err? {
      StepErrors(y, ts[0]);
    } else {
      FeedErrors(Step(y, ts[0]).value, ts[1..]);
    }
  }

  /** After the loop, `prev_type` is the class of the last token (or the initial tag
      when there was none). */
  lemma {:induction false} FeedTracksClass(y: Yard, ts: seq<string>)
    requires Feed(y, ts).Ok?
    ensures Feed(y, ts).value.prev == if ts == [] then y.prev else ClassOf(ts[|ts| - 1])
    decreases |ts|
  {
    if ts != [] {
      var z := Step(y, ts[0]).value;
      StepTracksClass(y, ts[0]);
      FeedTracksClass(z, ts[1..]);
      if |ts| > 1 { assert ts[1..][|ts| - 2] == ts[|ts| - 1]; }
    }
  }

  /** The loop keeps the stack discipline and the output free of parentheses, and the
      numbers it outputs are the numbers it read, in the order it read them. */
  lemma {:induction false} FeedKeepsInvariant(y: Yard, ts: seq<string>)
    requires Invariant(y) && Feed(y, ts).Ok?
    ensures Invariant(Feed(y, ts).value)
    ensures Numbers(Feed(y, ts).value.output) == Numbers(y.output) + Numbers(ts)
    decreases |ts|
  {
    if ts == [] {
      assert Numbers(y.output) + [] == Numbers(y.output);
    } else {
      var z := Step(y, ts[0]).value;
      StepKeepsStack(y, ts[0]);
      StepKeepsOutput(y, ts[0]);
      FeedKeepsInvariant(z, ts[1..]);
      NumbersAppend([ts[0]], ts[1..]);
      assert [ts[0]] + ts[1..] == ts;
    }
  }

  /** Every token the loop reads, other than parentheses and the `+`/`-` it may rename,
      stays in the output or on the stack. */
  lemma {:induction false} FeedCarries(y: Yard, ts: seq<string>)
    requires Feed(y, ts).Ok?
    ensures forall u :: u != "(" && Carried(u, y) ==> Carried(u, Feed(y, ts).value)
    ensures forall u :: u in ts && u != "(" && u != ")" && u != "+" && u != "-" ==> Carried(u, Feed(y, ts).value)
    decreases |ts|
  {
    if ts != [] {
      var z := Step(y, ts[0]).value;
      StepCarries(y, ts[0]);
      FeedCarries(z, ts[1..]);
      assert forall u :: u in ts ==> u == ts[0] || u in ts[1..];
    }
  }

  lemma DepthPrefix(ts: seq<string>, k: nat)
    requires 0 < k <= |ts|
    ensures Depth(ts[..k]) == Depth([ts[0]]) + Depth(ts[1..][..k - 1])
  {
    DepthOne(ts[0]);
    assert ts[..k][0] == ts[0] && ts[..k][1..] == ts[1..][..k - 1];
  }

  /** The loop counts parentheses: on success the stack holds as many `(` as the tokens'
      net depth and no prefix went below zero; it reports a mismatch only when some
      prefix closes more groups than were open. */
  lemma {:induction false} FeedBalance(y: Yard, ts: seq<string>)
    ensures Feed(y, ts).Ok? ==>
              Opens(Feed(y, ts).value.operators) == Opens(y.operators) + Depth(ts)
              && forall k :: 0 <= k <= |ts| ==> Opens(y.operators) + Depth(ts[..k]) >= 0
    ensures Feed(y, ts) == Err(MismatchedParentheses) ==>
              exists k :: 0 <= k <= |ts| && Opens(y.operators) + Depth(ts[..k]) < 0
    decreases |ts|
  {
    var o := Opens(y.operators);
    if ts == [] {
      assert ts[..0] == [];
    } else {
      var t := ts[0];
      DepthPrefix(ts, |ts|);
      assert ts[..|ts|] == ts && ts[1..][..|ts| - 1] == ts[1..];
      if Step(y, t).Ok? {
        var z := Step(y, t).value;
        StepCountsOpens(y, t);
        FeedBalance(z, ts[1..]);
        if Feed(y, ts).Ok? {
          forall k | 0 <= k <= |ts| ensures o + Depth(ts[..k]) >= 0 {
            if k == 0 { assert ts[..0] == []; } else { DepthPrefix(ts, k); }
          }
        }
        if Feed(y, ts) == Err(MismatchedParentheses) {
          var k :| 0 <= k <= |ts[1..]| && Opens(z.operators) + Depth(ts[1..][..k]) < 0;
          DepthPrefix(ts, k + 1);
        }
      } else if Step(y, t) == Err(MismatchedParentheses) {
        assert t == ")" by { if t != ")" { StepNotMismatched(y, t); } }
        StepCloseFails(y);
        DepthPrefix(ts, 1);
        DepthOne(t);
        assert ts[1..][..0] == [];
      }
    }
  }

  lemma StepNotMismatched(y: Yard, t: string)
    requires t != ")"
    ensures Step(y, t) != Err(MismatchedParentheses)
  {
    if !IsNumber(t) && t != "(" && !(ExpectsOperand(y.prev) && t != "+" && t != "-") {
      var r := PopHigher(y, Pushed(y.prev, t));
      assert r.Err? ==> r.error.UnknownOperator?;
    }
  }

  /** What a successful conversion produces: postfix text without parentheses whose
      numbers are the input's numbers in the input's order, and which keeps every
      operator token other than `+`/`-` (those may be renamed to `u+`/`u-`). */
  lemma ConvertOutput(tokens: seq<string>)
    requires Convert(tokens).Ok?
    ensures ParenFree(Convert(tokens).value)
    ensures Numbers(Convert(tokens).value) == Numbers(tokens)
    ensures forall t :: t in tokens && t != "(" && t != ")" && t != "+" && t != "-" ==> t in Convert(tokens).value
  {
    var y := Feed(START, tokens).value;
    FeedKeepsInvariant(START, tokens);
    FeedCarries(START, tokens);
    var out := Convert(tokens).value;
    assert out == y.output + Reversed(y.operators);
    ReversedHas(y.operators, "(");
    ReversedHas(y.operators, ")");
    forall t | t in y.operators ensures t in out { ReversedHas(y.operators, t); }
    NumbersAppend(y.output, Reversed(y.operators));
    forall t | t in Reversed(y.operators) ensures !IsNumber(t) { ReversedHas(y.operators, t); }
    NumbersNone(Reversed(y.operators));
    assert Numbers(out) == Numbers(y.output) + [];
  }

  /** A conversion succeeds only on balanced parentheses, and reports a mismatch only on
      unbalanced ones. */
  lemma ConvertBalance(tokens: seq<string>)
    ensures Convert(tokens).Ok? ==> Balanced(tokens)
    ensures Convert(tokens) == Err(MismatchedParentheses) ==> !Balanced(tokens)
  {
    FeedBalance(START, tokens);
    if Feed(START, tokens).Ok? {
      var y := Feed(START, tokens).value;
      OpensZero(y.operators);
    }
  }

  /** A trailing-operator error means exactly: the loop went through, and the input was
      empty or ended in an operator or `(`. */
  lemma ConvertTrailing(tokens: seq<string>)
    ensures Convert(tokens) == Err(TrailingOperator) <==>
              Feed(START, tokens).Ok?
              && (tokens == [] || ExpectsOperand(ClassOf(tokens[|tokens| - 1])))
  {
    if Feed(START, tokens).Ok? {
      FeedTracksClass(START, tokens);
    } else {
      FeedErrors(START, tokens);
    }
  }

  /** The unary rule, by position: the `+` or `-` at index `k` becomes `u+`/`u-` exactly
      when it opens the input or follows an operator or `(`; any other operator in
      such a place is an operator-after-operator error. */
  lemma UnaryByPosition(tokens: seq<string>, k: nat)
    requires k < |tokens| && Feed(START, tokens[..k]).Ok?
    requires var t := tokens[k]; !IsNumber(t) && t != "(" && t != ")"
    ensures var y := Feed(START, tokens[..k]).value;
            var t := tokens[k];
            var afterOperand := k > 0 && !ExpectsOperand(ClassOf(tokens[k - 1]));
            (Step(y, t) == Err(OperatorAfterOperator) <==> !afterOperand && t != "+" && t != "-")
            && (Step(y, t).Ok? ==>
                  Top(Step(y, t).value.operators) == if afterOperand then t else if t == "+" then "u+" else "u-")
  {
    var y := Feed(START, tokens[..k]).value;
    FeedTracksClass(START, tokens[..k]);
    if k > 0 { assert tokens[..k][k - 1] == tokens[k - 1]; }
    if Step(y, tokens[k]).Ok? { StepShape(y, tokens[k]); }
  }

  /** The conversion fails only with the loop's errors, a trailing operator, or a `(`
      left open. */
  lemma ConvertErrors(tokens: seq<string>)
    requires Convert(tokens).Err?
    ensures IsLoopError(Convert(tokens).error) || Convert(tokens).error == TrailingOperator
  {
    if Feed(START, tokens).Err? {
      FeedErrors(START, tokens);
    }
  }
}
