/** `evaluate`: the guards on the argument and the three stages chained. */
module Evaluator {
  import opened Outcomes
  import opened Lexemes
  import opened Tokenizer
  import opened ShuntingYard
  import opened Postfix

  /** `str.lstrip()`: drops leading whitespace. */
  function StripStart(s: string): (r: string)
    ensures |r| <= |s| && r == s[|s| - |r|..]
    ensures forall k :: 0 <= k < |s| - |r| ==> IsSpace(s[k])
    ensures r == [] || !IsSpace(r[0])
  {
    if s != [] && IsSpace(s[0]) then
      var r := StripStart(s[1..]);
      assert forall k :: 1 <= k < |s| - |r| ==> s[k] == s[1..][k - 1];
      r
    else s
  }

  /** `str.rstrip()`: drops trailing whitespace. */
  function StripEnd(s: string): (r: string)
    ensures |r| <= |s| && r == s[..|r|]
    ensures forall k :: |r| <= k < |s| ==> IsSpace(s[k])
    ensures r == [] || !IsSpace(r[|r| - 1])
  {
    if s != [] && IsSpace(s[|s| - 1]) then StripEnd(s[..|s| - 1]) else s
  }

  /** `str.strip()`. */
  function Strip(s: string): string {
    StripEnd(StripStart(s))
  }

  /** Stripping leaves nothing exactly when the input is blank, and otherwise text that
      starts and ends with a non-blank character. */
  lemma StripBlank(s: string)
    ensures Strip(s) == [] <==> forall k :: 0 <= k < |s| ==> IsSpace(s[k])
    ensures Strip(s) != [] ==> !IsSpace(Strip(s)[0]) && !IsSpace(Strip(s)[|Strip(s)| - 1])
  {
    var a := StripStart(s);
    var r := StripEnd(a);
    var i := |s| - |a|;
    if r != [] {
      assert r[0] == a[0];
    }
  }

  lemma {:induction false} StripStartText(s: string)
    ensures Unspaced(StripStart(s)) == Unspaced(s)
  {
    if s != [] && IsSpace(s[0]) {
      StripStartText(s[1..]);
    }
  }

  lemma {:induction false} StripEndText(s: string)
    ensures Unspaced(StripEnd(s)) == Unspaced(s)
  {
    if s != [] && IsSpace(s[|s| - 1]) {
      var init := s[..|s| - 1];
      StripEndText(init);
      assert s == init + [s[|s| - 1]];
      UnspacedAppend(init, [s[|s| - 1]]);
      assert Unspaced([s[|s| - 1]]) == [];
    }
  }

  /** Stripping removes whitespace only. */
  lemma StripKeepsText(s: string)
    ensures Unspaced(Strip(s)) == Unspaced(s)
  {
    StripStartText(s);
    StripEndText(StripStart(s));
  }

  /** Every non-blank character of the input survives stripping, at its offset past the
      leading whitespace. */
  lemma StripKeepsCharacters(s: string)
    ensures var i := |s| - |StripStart(s)|;
            forall k :: 0 <= k < |s| && !IsSpace(s[k]) ==> i <= k < i + |Strip(s)| && Strip(s)[k - i] == s[k]
  {
  }

  /** `evaluate(expression)`. */
  function Evaluate(expression: Option<string>): Result<real> {
    match expression
    case None => Err(NoneExpression)
    case Some(s) =>
      var stripped := Strip(s);
      if stripped == [] then Err(EmptyExpression)
      else
        match Lex(stripped)
        case Err(e) => Err(e)
        case Ok(tokens) =>
          match Convert(tokens)
          case Err(e) => Err(e)
          case Ok(rpn) => EvalRpn(rpn)
  }

  /** `evaluate` as the source writes it: the guards, then the three stages in turn. */
  method Calculate(expression: Option<string>) returns (r: Result<real>)
    ensures r == Evaluate(expression)
  {
    if expression.None? {
      return Err(NoneExpression);
    }
    var stripped := Strip(expression.value);
    if stripped == [] {
      return Err(EmptyExpression);
    }
    var tokens := Tokenize(stripped);
    if tokens.Err? {
      return Err(tokens.error);
    }
    var rpn := ToRpn(tokens.value);
    if rpn.Err? {
      return Err(rpn.error);
    }
    r := EvaluateRpn(rpn.value);
  }

  /** The outcome of `evaluate` on a string, stage by stage. */
  lemma EvaluateSplit(s: string)
    ensures Strip(s) == [] ==> Evaluate(Some(s)) == Err(EmptyExpression)
    ensures Strip(s) != [] && Lex(Strip(s)).Err? ==> Evaluate(Some(s)) == Err(Lex(Strip(s)).error)
    ensures Strip(s) != [] && Lex(Strip(s)).Ok? && Convert(Lex(Strip(s)).value).Err? ==>
              Evaluate(Some(s)) == Err(Convert(Lex(Strip(s)).value).error)
    ensures Strip(s) != [] && Lex(Strip(s)).Ok? && Convert(Lex(Strip(s)).value).Ok? ==>
              Evaluate(Some(s)) == EvalRpn(Convert(Lex(Strip(s)).value).value)
  {
  }

  /** `evaluate` reports an empty expression exactly for blank input. */
  lemma EvaluateRejectsBlank(s: string)
    ensures Evaluate(Some(s)) == Err(EmptyExpression) <==> forall k :: 0 <= k < |s| ==> IsSpace(s[k])
  {
    StripBlank(s);
    EvaluateSplit(s);
    if Strip(s) != [] {
      StagesNotEmpty(s);
    }
  }

  /** Once the stripped text is non-empty, no stage reports an empty expression. */
  lemma StagesNotEmpty(s: string)
    requires Strip(s) != []
    ensures Evaluate(Some(s)) != Err(EmptyExpression)
  {
    EvaluateSplit(s);
    ScanNotEmpty(Strip(s));
    if Lex(Strip(s)).Ok? {
      ConversionNotEmpty(Lex(Strip(s)).value);
    }
  }

  lemma ScanNotEmpty(text: string)
    ensures Lex(text).Err? ==> Lex(text).error != EmptyExpression
  {
    LexRejectsFirstInvalid(text, 0);
  }

  lemma ConversionNotEmpty(tokens: seq<string>)
    ensures Convert(tokens).Err? ==> Convert(tokens).error != EmptyExpression
    ensures Convert(tokens).Ok? && EvalRpn(Convert(tokens).value).Err? ==>
              EvalRpn(Convert(tokens).value).error != EmptyExpression
  {
    if Convert(tokens).Err? {
      ConvertErrors(tokens);
    } else if EvalRpn(Convert(tokens).value).Err? {
      EvalRpnErrors(Convert(tokens).value);
    }
  }

  /** The last stage never reports an empty expression or a scanner error. */
  lemma EvalRpnErrors(ts: seq<string>)
    requires EvalRpn(ts).Err?
    ensures EvalRpn(ts).error != EmptyExpression && !IsScanError(EvalRpn(ts).error)
  {
    if Reduce([], ts).Err? {
      ReduceErrors([], ts);
    }
  }

  /** The stripped text sits in the input after the leading whitespace. */
  lemma StripIsSlice(s: string)
    ensures var i := |s| - |StripStart(s)|;
            i + |Strip(s)| <= |s|
            && (forall k :: 0 <= k < i || i + |Strip(s)| <= k < |s| ==> IsSpace(s[k]))
            && forall k :: 0 <= k < |Strip(s)| ==> Strip(s)[k] == s[i + k]
  {
  }

  /** The errors only the scanner raises. */
  predicate IsScanError(e: Error) {
    e.InvalidCharacter? || e == MultipleDecimalPoints || e == StandaloneDecimalPoint
  }

  /** A scanner error from `evaluate` is the scanner's verdict on the stripped input,
      and a result means the scanner went through. */
  lemma ScanErrorsFromScan(s: string)
    ensures Evaluate(Some(s)).Err? && IsScanError(Evaluate(Some(s)).error) ==>
              Strip(s) != [] && Lex(Strip(s)) == Err(Evaluate(Some(s)).error)
    ensures Evaluate(Some(s)).Ok? ==> Strip(s) != [] && Lex(Strip(s)).Ok?
  {
    EvaluateSplit(s);
    if Strip(s) != [] && Lex(Strip(s)).Ok? {
      LaterStagesNotScan(s);
    }
  }

  /** Once the scan succeeds, no later stage reports a scanner error. */
  lemma LaterStagesNotScan(s: string)
    requires Strip(s) != [] && Lex(Strip(s)).Ok?
    ensures Evaluate(Some(s)).Err? ==> !IsScanError(Evaluate(Some(s)).error)
  {
    EvaluateSplit(s);
    var tokens := Lex(Strip(s)).value;
    if Convert(tokens).Err? {
      ConvertErrors(tokens);
    } else if EvalRpn(Convert(tokens).value).Err? {
      EvalRpnErrors(Convert(tokens).value);
    }
  }

  /** `evaluate` succeeds only on input made of the supported characters. */
  lemma EvaluateOnlyAllowed(s: string)
    requires Evaluate(Some(s)).Ok?
    ensures forall k :: 0 <= k < |s| ==> IsAllowed(s[k])
  {
    var r := Strip(s);
    var i := |s| - |StripStart(s)|;
    StripIsSlice(s);
    ScanErrorsFromScan(s);
    LexRejectsFirstInvalid(r, 0);
    forall k | 0 <= k < |s| ensures IsAllowed(s[k]) {
      if i <= k < i + |r| { assert r[k - i] == s[k]; }
    }
  }

  /** When `evaluate` reports an invalid character, it is the input's first unsupported
      character. */
  lemma EvaluateRejectsFirstInvalid(s: string)
    requires Evaluate(Some(s)).Err? && Evaluate(Some(s)).error.InvalidCharacter?
    ensures exists k :: 0 <= k < |s| && s[k] == Evaluate(Some(s)).error.ch && !IsAllowed(s[k])
                        && forall j :: 0 <= j < k ==> IsAllowed(s[j])
  {
    var e := Evaluate(Some(s)).error;
    ScanErrorsFromScan(s);
    var r := Strip(s);
    LexRejectsFirstInvalid(r, 0);
    assert LexFrom(r, 0) == Err(e);
    var k :| 0 <= k < |r| && r[k] == e.ch && !IsAllowed(r[k]) && forall j :: 0 <= j < k ==> IsAllowed(r[j]);
    FirstInvalidUnstripped(s, k);
  }

  /** The first unsupported character of the stripped text is the first of the input. */
  lemma FirstInvalidUnstripped(s: string, k: nat)
    requires k < |Strip(s)| && !IsAllowed(Strip(s)[k]) && forall j :: 0 <= j < k ==> IsAllowed(Strip(s)[j])
    ensures exists m :: 0 <= m < |s| && s[m] == Strip(s)[k] && !IsAllowed(s[m])
                        && forall j :: 0 <= j < m ==> IsAllowed(s[j])
  {
    var r, i := Strip(s), |s| - |StripStart(s)|;
    StripIsSlice(s);
    assert forall j :: 0 <= j < i ==> IsSpace(s[j]);
    FirstInvalidInSlice(s, i, r, k);
  }

  /** The same, for any slice `r` of `s` at `i` that only whitespace precedes. */
  lemma FirstInvalidInSlice(s: string, i: nat, r: string, k: nat)
    requires i + |r| <= |s| && (forall j :: 0 <= j < i ==> IsSpace(s[j]))
    requires forall j :: 0 <= j < |r| ==> r[j] == s[i + j]
    requires k < |r| && !IsAllowed(r[k]) && forall j :: 0 <= j < k ==> IsAllowed(r[j])
    ensures exists m :: 0 <= m < |s| && s[m] == r[k] && !IsAllowed(s[m])
                        && forall j :: 0 <= j < m ==> IsAllowed(s[j])
  {
    assert s[i + k] == r[k];
    forall j | 0 <= j < i + k ensures IsAllowed(s[j]) {
      if j >= i { assert s[j] == r[j - i]; }
    }
  }

  /** A numeric run that ends in a point is neither a number, nor an operator, nor a
      parenthesis. */
  lemma TrailingPointRun(t: string)
    requires IsNumericRun(t) && t[|t| - 1] == '.'
    ensures !IsNumber(t) && !IsBinary(t) && !IsUnary(t)
    ensures t != "(" && t != ")" && t != "+" && t != "-"
  {
    NumericRunIsNumber(t);
    assert IsRunChar(t[0]);
  }

  /** The last two stages accept scanned lexemes only when no lexeme ends in a point,
      the parentheses balance and the postfix form is well formed. */
  lemma StagesAccept(tokens: seq<string>)
    requires forall t :: t in tokens ==> IsLexeme(t)
    requires Convert(tokens).Ok? && EvalRpn(Convert(tokens).value).Ok?
    ensures forall t :: t in tokens ==> |t| > 0 && t[|t| - 1] != '.'
    ensures Balanced(tokens)
    ensures WellFormedPostfix(Convert(tokens).value)
    ensures Numbers(Convert(tokens).value) == Numbers(tokens)
  {
    var rpn := Convert(tokens).value;
    ConvertBalance(tokens);
    ConvertOutput(tokens);
    EvalRpnWellFormed(rpn);
    FitsKnown(0, rpn);
    forall t | t in tokens ensures |t| > 0 && t[|t| - 1] != '.' {
      if t[|t| - 1] == '.' {
        TrailingPointRun(t);
        assert false;
      }
    }
  }

  /** What a result from `evaluate` guarantees about its input: the scan succeeded and
      covers the input's non-blank text, no lexeme ends in a point (so "5." never
      yields a value), the parentheses balance, and the postfix form is well formed
      with the input's numbers in the input's order. */
  lemma EvaluateAccepts(s: string)
    requires Evaluate(Some(s)).Ok?
    ensures Strip(s) != [] && Lex(Strip(s)).Ok?
    ensures var tokens := Lex(Strip(s)).value;
            Concat(tokens) == Unspaced(s)
            && (forall t :: t in tokens ==> IsLexeme(t) && t[|t| - 1] != '.')
            && Balanced(tokens)
            && Convert(tokens).Ok?
            && WellFormedPostfix(Convert(tokens).value)
            && Numbers(Convert(tokens).value) == Numbers(tokens)
  {
    ScanErrorsFromScan(s);
    var r := Strip(s);
    var tokens := Lex(r).value;
    LexCoversInput(r, 0);
    assert r[0..] == r;
    StripKeepsText(s);
    assert Convert(tokens).Ok? && EvalRpn(Convert(tokens).value).Ok?;
    StagesAccept(tokens);
  }
}
