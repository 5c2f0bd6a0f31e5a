/** The failures `evaluate` can raise, and the result type every stage returns. */
module Outcomes {

  /** One constructor per distinct exception the evaluator raises. */
  datatype Error =
    | NoneExpression                 // CalculationError: "Expression cannot be None."
    | EmptyExpression                // CalculationError: "Expression cannot be empty."
    | InvalidCharacter(ch: char)     // CalculationError: "Invalid character ..."
    | MultipleDecimalPoints          // CalculationError: a second '.' inside one numeric run
    | StandaloneDecimalPoint         // CalculationError: a numeric run that is exactly "."
    | MismatchedParentheses          // CalculationError: "Mismatched parentheses detected."
    | OperatorAfterOperator          // CalculationError: "Operator cannot follow another operator."
    | TrailingOperator               // CalculationError: "Expression cannot end with an operator."
    | UnknownOperator(key: string)   // KeyError raised by the precedence-table lookup
    | InsufficientBinaryOperands     // CalculationError: "Insufficient operands for binary operation."
    | InsufficientUnaryOperand       // CalculationError: "Insufficient operand for unary operation."
    | DivisionByZero                 // ZeroDivisionError: "Cannot divide by zero."
    | UnsupportedToken(token: string)// CalculationError: "Unsupported token ... during evaluation."
    | MalformedExpression            // CalculationError: final value stack not of size one

  datatype Result<T> = Ok(value: T) | Err(error: Error)

  /** A value that may be absent, as `expression` may be `None`. */
  datatype Option<T> = None | Some(value: T)

  /** Puts `prefix` in front of a successful token list; a failure passes through. */
  function Prepend<T>(prefix: seq<T>, r: Result<seq<T>>): (p: Result<seq<T>>)
    ensures p.Ok? <==> r.Ok?
    ensures p.Ok? ==> p.value == prefix + r.value
    ensures p.Err? ==> p.error == r.error
  {
    match r
    case Ok(rest) => Ok(prefix + rest)
    case Err(e) => Err(e)
  }
}
