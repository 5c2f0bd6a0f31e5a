/** `_tokenize`: one left-to-right scan that splits an expression into lexemes. */
module Tokenizer {
  import opened Outcomes
  import opened Lexemes

  /** What the scanner can emit: one of the six symbols, or a maximal numeric run
      (digits with at most one point) other than a lone ".". */
  predicate IsLexeme(t: string) {
    (|t| == 1 && IsSymbol(t[0])) || IsNumericRun(t)
  }

  predicate IsNumericRun(t: string) {
    |t| > 0 && AllRunChars(t) && Dots(t) <= 1 && t != "."
  }

  lemma DotsStep(s: string, i: nat, j: nat)
    requires i < j <= |s|
    ensures Dots(s[i..j]) == (if s[i] == '.' then 1 else 0) + Dots(s[i + 1..j])
  {
    assert s[i..j][1..] == s[i + 1..j];
  }

  /** A run character in front of a run gives a run with its point, if any, counted. */
  lemma RunExtend(s: string, i: nat, j: nat)
    requires i < j <= |s| && IsRunChar(s[i]) && AllRunChars(s[i + 1..j])
    ensures AllRunChars(s[i..j])
    ensures Dots(s[i..j]) == (if s[i] == '.' then 1 else 0) + Dots(s[i + 1..j])
  {
    DotsStep(s, i, j);
    assert forall k :: 0 < k < j - i ==> s[i..j][k] == s[i + 1..j][k - 1];
  }

  /** The inner loop of the scan: from `i`, with `dot` telling whether the run already
      holds a point, the end of the numeric run, or the failure on a second point. */
  function RunEnd(s: string, i: nat, dot: bool): (r: Result<nat>)
    requires i <= |s|
    decreases |s| - i
    ensures r.Ok? ==> i <= r.value <= |s|
    ensures r.Err? ==> r.error == MultipleDecimalPoints
  {
    if i == |s| then Ok(i)
    else if IsDigit(s[i]) || (s[i] == '.' && !dot) then RunEnd(s, i + 1, dot || s[i] == '.')
    else if s[i] == '.' then Err(MultipleDecimalPoints)
    else Ok(i)
  }

  /** The inner loop stops at the end of a maximal run holding at most one point, or
      fails at a point that is the run's second. */
  lemma {:induction false} RunEndMaximal(s: string, i: nat, dot: bool)
    requires i <= |s|
    decreases |s| - i
    ensures RunEnd(s, i, dot).Ok? ==>
              AllRunChars(s[i..RunEnd(s, i, dot).value])
              && (RunEnd(s, i, dot).value == |s| || !IsRunChar(s[RunEnd(s, i, dot).value]))
              && Dots(s[i..RunEnd(s, i, dot).value]) + (if dot then 1 else 0) <= 1
    ensures RunEnd(s, i, dot).Err? ==>
              exists k :: i <= k < |s| && s[k] == '.' && AllRunChars(s[i..k])
                          && Dots(s[i..k]) + (if dot then 1 else 0) == 1
  {
    if i == |s| {
      assert s[i..i] == [];
    } else if IsDigit(s[i]) || (s[i] == '.' && !dot) {
      var r := RunEnd(s, i + 1, dot || s[i] == '.');
      RunEndMaximal(s, i + 1, dot || s[i] == '.');
      if r.Ok? {
        RunExtend(s, i, r.value);
      } else {
        var k :| i + 1 <= k < |s| && s[k] == '.' && AllRunChars(s[i + 1..k])
                 && Dots(s[i + 1..k]) + (if dot || s[i] == '.' then 1 else 0) == 1;
        RunExtend(s, i, k);
      }
    } else {
      assert s[i..i] == [];
    }
  }

  /** The scan from index `i` to the end of `s`. */
  function LexFrom(s: string, i: nat): Result<seq<string>>
    requires i <= |s|
    decreases |s| - i
  {
    if i == |s| then Ok([])
    else if IsSpace(s[i]) then LexFrom(s, i + 1)
    else if IsSymbol(s[i]) then Prepend([[s[i]]], LexFrom(s, i + 1))
    else if IsRunChar(s[i]) then
      match RunEnd(s, i + 1, s[i] == '.')
      case Err(e) => Err(e)
      case Ok(j) =>
        if s[i..j] == "." then Err(StandaloneDecimalPoint)
        else Prepend([s[i..j]], LexFrom(s, j))
    else Err(InvalidCharacter(s[i]))
  }

  /** `_tokenize(expression)`. */
  function Lex(s: string): Result<seq<string>> {
    LexFrom(s, 0)
  }

  lemma PrependNothing<T>(r: Result<seq<T>>)
    ensures Prepend([], r) == r
  {
    if r.Ok? { assert [] + r.value == r.value; }
  }

  lemma PrependTwice<T>(a: seq<T>, b: seq<T>, r: Result<seq<T>>)
    ensures Prepend(a, Prepend(b, r)) == Prepend(a + b, r)
  {
    if r.Ok? { assert a + (b + r.value) == (a + b) + r.value; }
  }

  /** `_tokenize` as the source writes it: an index, nested loops, a growing list. */
  method Tokenize(expression: string) returns (r: Result<seq<string>>)
    ensures r == Lex(expression)
  {
    var tokens: seq<string> := [];
    var length := |expression|;
    var i := 0;
    PrependNothing(LexFrom(expression, 0));
    while i < length
      invariant 0 <= i <= length
      invariant Lex(expression) == Prepend(tokens, LexFrom(expression, i))
    {
      var ch := expression[i];
      if IsSpace(ch) {
        LexSkip(expression, i);
        i := i + 1;
        continue;
      }
      if IsSymbol(ch) {
        LexSymbol(expression, i);
        PrependTwice(tokens, [[ch]], LexFrom(expression, i + 1));
        tokens := tokens + [[ch]];
        i := i + 1;
        continue;
      }
      if IsDigit(ch) || ch == '.' {
        var start := i;
        var hasDecimalPoint := ch == '.';
        i := i + 1;
        while i < length
          invariant start < i <= length
          invariant RunEnd(expression, start + 1, ch == '.') == RunEnd(expression, i, hasDecimalPoint)
        {
          var current := expression[i];
          if IsDigit(current) {
            i := i + 1;
            continue;
          }
          if current == '.' {
            if hasDecimalPoint {
              LexRunFails(expression, start);
              return Err(MultipleDecimalPoints);
            }
            hasDecimalPoint := true;
            i := i + 1;
            continue;
          }
          break;
        }
        var token := expression[start..i];
        LexRun(expression, start, i);
        if token == "." {
          return Err(StandaloneDecimalPoint);
        }
        PrependTwice(tokens, [token], LexFrom(expression, i));
        tokens := tokens + [token];
        continue;
      }
      LexInvalid(expression, i);
      return Err(InvalidCharacter(ch));
    }
    assert tokens + [] == tokens;
    return Ok(tokens);
  }

  // One step of the scan per kind of character.

  lemma LexSkip(s: string, i: nat)
    requires i < |s| && IsSpace(s[i])
    ensures LexFrom(s, i) == LexFrom(s, i + 1)
  {
  }

  lemma LexSymbol(s: string, i: nat)
    requires i < |s| && !IsSpace(s[i]) && IsSymbol(s[i])
    ensures LexFrom(s, i) == Prepend([[s[i]]], LexFrom(s, i + 1))
  {
  }

  lemma LexRun(s: string, i: nat, j: nat)
    requires i < |s| && !IsSpace(s[i]) && !IsSymbol(s[i]) && IsRunChar(s[i])
    requires RunEnd(s, i + 1, s[i] == '.') == Ok(j)
    ensures s[i..j] == "." ==> LexFrom(s, i) == Err(StandaloneDecimalPoint)
    ensures s[i..j] != "." ==> LexFrom(s, i) == Prepend([s[i..j]], LexFrom(s, j))
  {
  }

  lemma LexRunFails(s: string, i: nat)
    requires i < |s| && !IsSpace(s[i]) && !IsSymbol(s[i]) && IsRunChar(s[i])
    requires RunEnd(s, i + 1, s[i] == '.').Err?
    ensures LexFrom(s, i) == Err(MultipleDecimalPoints)
  {
  }

  lemma LexInvalid(s: string, i: nat)
    requires i < |s| && !IsAllowed(s[i])
    ensures LexFrom(s, i) == Err(InvalidCharacter(s[i]))
  {
  }

  /** The input with every whitespace character removed. */
  function Unspaced(s: string): string {
    if s == [] then [] else (if IsSpace(s[0]) then [] else [s[0]]) + Unspaced(s[1..])
  }

  /** The lexemes written one after another. */
  function Concat(ts: seq<string>): string {
    if ts == [] then [] else ts[0] + Concat(ts[1..])
  }

  lemma {:induction false} UnspacedAppend(a: string, b: string)
    ensures Unspaced(a + b) == Unspaced(a) + Unspaced(b)
  {
    if a == [] {
      assert a + b == b;
    } else {
      assert (a + b)[1..] == a[1..] + b;
      UnspacedAppend(a[1..], b);
    }
  }

  lemma {:induction false} UnspacedRun(t: string)
    requires AllRunChars(t)
    ensures Unspaced(t) == t
  {
    if t != [] {
      assert IsRunChar(t[0]);
      UnspacedRun(t[1..]);
      assert [t[0]] + t[1..] == t;
    }
  }

  lemma UnspacedStep(s: string, i: nat)
    requires i < |s|
    ensures Unspaced(s[i..]) == (if IsSpace(s[i]) then [] else [s[i]]) + Unspaced(s[i + 1..])
  {
    assert s[i..][1..] == s[i + 1..];
  }

  /** A successful scan yields lexemes only, and writing them one after another gives
      back the input with its whitespace removed. */
  lemma {:induction false} LexCoversInput(s: string, i: nat)
    requires i <= |s|
    requires LexFrom(s, i).Ok?
    ensures forall t :: t in LexFrom(s, i).value ==> IsLexeme(t)
    ensures Concat(LexFrom(s, i).value) == Unspaced(s[i..])
    decreases |s| - i
  {
    if i == |s| {
      assert s[i..] == [];
    } else if IsSpace(s[i]) {
      LexCoversInput(s, i + 1);
      UnspacedStep(s, i);
    } else if IsSymbol(s[i]) {
      LexCoversInput(s, i + 1);
      UnspacedStep(s, i);
      var rest := LexFrom(s, i + 1).value;
      assert ([[s[i]]] + rest)[1..] == rest;
    } else {
      var j := RunEnd(s, i + 1, s[i] == '.').value;
      LexCoversInput(s, j);
      RunCovers(s, i, j);
    }
  }

  /** The numeric run `s[i..j]` the scan emits is a lexeme, and it covers its own
      stretch of the input. */
  lemma RunCovers(s: string, i: nat, j: nat)
    requires i < |s| && !IsSpace(s[i]) && !IsSymbol(s[i]) && LexFrom(s, i).Ok?
    requires RunEnd(s, i + 1, s[i] == '.') == Ok(j)
    requires LexFrom(s, j).Ok? && Concat(LexFrom(s, j).value) == Unspaced(s[j..])
    ensures LexFrom(s, i).value == [s[i..j]] + LexFrom(s, j).value
    ensures IsNumericRun(s[i..j])
    ensures Concat(LexFrom(s, i).value) == Unspaced(s[i..])
  {
    RunEndMaximal(s, i + 1, s[i] == '.');
    var t := s[i..j];
    RunExtend(s, i, j);
    var rest := LexFrom(s, j).value;
    assert ([t] + rest)[1..] == rest;
    assert s[i..] == t + s[j..];
    UnspacedAppend(t, s[j..]);
    UnspacedRun(t);
  }

  /** A scan succeeds only on characters it supports; when it reports an invalid
      character, that character is the first unsupported one. Its other failures are
      the two malformed-number errors. */
  lemma LexRejectsFirstInvalid(s: string, i: nat)
    requires i <= |s|
    ensures LexFrom(s, i).Ok? ==> forall j :: i <= j < |s| ==> IsAllowed(s[j])
    ensures LexFrom(s, i).Err? ==>
              LexFrom(s, i).error in {MultipleDecimalPoints, StandaloneDecimalPoint}
              || (LexFrom(s, i).error.InvalidCharacter?
                  && exists k :: i <= k < |s| && s[k] == LexFrom(s, i).error.ch && !IsAllowed(s[k])
                                 && forall j :: i <= j < k ==> IsAllowed(s[j]))
  {
    if LexFrom(s, i).Ok? {
      LexAllowed(s, i);
    } else {
      LexErrors(s, i);
    }
  }

  /** A scan that succeeds met only supported characters. */
  lemma {:induction false} LexAllowed(s: string, i: nat)
    requires i <= |s| && LexFrom(s, i).Ok?
    ensures forall j :: i <= j < |s| ==> IsAllowed(s[j])
    decreases |s| - i
  {
    if i < |s| {
      if IsSpace(s[i]) || IsSymbol(s[i]) {
        LexAllowed(s, i + 1);
      } else {
        var j := RunEnd(s, i + 1, s[i] == '.').value;
        RunEndMaximal(s, i + 1, s[i] == '.');
        LexAllowed(s, j);
        RunAllowed(s, i + 1, j);
      }
    }
  }

  /** The characters of a numeric run are supported. */
  lemma RunAllowed(s: string, i: nat, j: nat)
    requires i <= j <= |s| && AllRunChars(s[i..j])
    ensures forall k :: i <= k < j ==> IsAllowed(s[k])
  {
    assert forall k :: i <= k < j ==> s[i..j][k - i] == s[k];
  }

  /** A scan fails on a decimal-point error or at the first unsupported character. */
  lemma {:induction false} LexErrors(s: string, i: nat)
    requires i <= |s| && LexFrom(s, i).Err?
    ensures FailsAtFirstInvalid(s, i, LexFrom(s, i).error)
    decreases |s| - i
  {
    var m := ErrorStep(s, i);
    if m > i {
      LexErrors(s, m);
      Widen(s, i, m, LexFrom(s, i).error);
    }
  }

  /**
   * One step of a failing scan: either it fails at `i` itself (a decimal-point
   * error, or the unsupported character `s[i]`), or it passes over allowed
   * characters up to `m` and fails from there with the same error.
   */
  lemma ErrorStep(s: string, i: nat) returns (m: nat)
    requires i <= |s| && LexFrom(s, i).Err?
    ensures i <= m <= |s|
    ensures m == i ==> FailsAtFirstInvalid(s, i, LexFrom(s, i).error)
    ensures m > i ==> (forall j :: i <= j < m ==> IsAllowed(s[j])) && LexFrom(s, m) == LexFrom(s, i)
  {
    if IsSpace(s[i]) || IsSymbol(s[i]) {
      m := i + 1;
    } else if IsRunChar(s[i]) {
      var r := RunEnd(s, i + 1, s[i] == '.');
      if r.Ok? && s[i..r.value] != "." {
        m := r.value;
        RunEndMaximal(s, i + 1, s[i] == '.');
        RunAllowed(s, i + 1, r.value);
      } else {
        m := i;
      }
    } else {
      m := i;
      assert LexFrom(s, i).error == InvalidCharacter(s[i]);
    }
  }

  /** `e` is a decimal-point error, or names the first unsupported character of `s[i..]`. */
  predicate FailsAtFirstInvalid(s: string, i: nat, e: Error) {
    e in {MultipleDecimalPoints, StandaloneDecimalPoint}
    || (e.InvalidCharacter?
        && exists k :: i <= k < |s| && s[k] == e.ch && !IsAllowed(s[k])
                       && forall j :: i <= j < k ==> IsAllowed(s[j]))
  }

  /** Supported characters before `m` do not change the first unsupported one. */
  lemma Widen(s: string, i: nat, m: nat, e: Error)
    requires i <= m <= |s| && (forall j :: i <= j < m ==> IsAllowed(s[j]))
    requires FailsAtFirstInvalid(s, m, e)
    ensures FailsAtFirstInvalid(s, i, e)
  {
    if e !in {MultipleDecimalPoints, StandaloneDecimalPoint} {
      var k :| m <= k < |s| && s[k] == e.ch && !IsAllowed(s[k]) && forall j :: m <= j < k ==> IsAllowed(s[j]);
      assert forall j :: i <= j < k ==> IsAllowed(s[j]);
    }
  }

  /** The quirk of the two stages together: the scanner accepts a numeric run that ends
      in a point ("5."), and `_is_number` rejects exactly those runs. */
  lemma NumericRunIsNumber(t: string)
    requires IsNumericRun(t)
    ensures IsNumber(t) <==> t[|t| - 1] != '.'
  {
    IsNumberIsNumeral(t);
    if Dots(t) == 0 {
      assert IsDigits(t) by { forall j | 0 <= j < |t| ensures IsDigit(t[j]) { assert IsRunChar(t[j]); } }
    } else {
      var k := DotIndex(t);
      DotsSplit(t, k);
      var integer, fractional := t[..k], t[k + 1..];
      assert Dots(fractional) == 0;
      assert AllDigits(integer) by {
        forall j | 0 <= j < k ensures IsDigit(integer[j]) { assert IsRunChar(t[j]) && t[j] != '.'; }
      }
      assert AllDigits(fractional) by {
        forall j | 0 <= j < |fractional| ensures IsDigit(fractional[j]) {
          assert fractional[j] == t[k + 1 + j] && IsRunChar(t[k + 1 + j]);
        }
      }
      if k == |t| - 1 {
        if IsNumeral(t) {
          NumeralParts(t, k);
        }
      } else {
        assert t[k] == '.' && AllDigits(t[..k]) && IsDigits(t[k + 1..]);
        assert t[|t| - 1] == fractional[|fractional| - 1];
      }
    }
  }

  // Token boundaries and the exact error, against definitions that do not follow the scan.

  /** The end of the maximal run of digits and points that starts at `i`, looking no
      further than `k`. */
  function RunStop(s: string, i: nat, k: nat): (j: nat)
    requires i <= k <= |s|
    decreases k - i
    ensures i <= j <= k
    ensures forall m :: i <= m < j ==> IsRunChar(s[m])
    ensures j == k || !IsRunChar(s[j])
  {
    if i == k || !IsRunChar(s[i]) then i else RunStop(s, i + 1, k)
  }

  /** The maximal runs of digits and points in `s[i..k]`, left to right. */
  function RunsIn(s: string, i: nat, k: nat): seq<string>
    requires i <= k <= |s|
    decreases k - i
  {
    if i == k then []
    else if !IsRunChar(s[i]) then RunsIn(s, i + 1, k)
    else [s[i..RunStop(s, i, k)]] + RunsIn(s, RunStop(s, i, k), k)
  }

  /** The tokens that are numeric runs (the others are the one-character symbols). */
  function RunTokens(ts: seq<string>): seq<string> {
    if ts == [] then []
    else (if |ts[0]| > 0 && IsRunChar(ts[0][0]) then [ts[0]] else []) + RunTokens(ts[1..])
  }

  /** The first character at or after `i` that the scanner does not accept, or `|s|`. */
  function FirstInvalid(s: string, i: nat): (k: nat)
    requires i <= |s|
    decreases |s| - i
    ensures i <= k <= |s|
    ensures forall m :: i <= m < k ==> IsAllowed(s[m])
    ensures k < |s| ==> !IsAllowed(s[k])
  {
    if i == |s| || !IsAllowed(s[i]) then i else FirstInvalid(s, i + 1)
  }

  /** The error of the first malformed run: a lone point, or a second point. */
  function FirstBadRun(runs: seq<string>): Option<Error> {
    if runs == [] then None
    else if runs[0] == "." then Some(StandaloneDecimalPoint)
    else if Dots(runs[0]) >= 2 then Some(MultipleDecimalPoints)
    else FirstBadRun(runs[1..])
  }

  /** The error a scan from `i` reports, read off the text: the first malformed run
      before the first unsupported character, else that character, else none. */
  function ExpectedError(s: string, i: nat): Option<Error>
    requires i <= |s|
  {
    var k := FirstInvalid(s, i);
    match FirstBadRun(RunsIn(s, i, k))
    case Some(e) => Some(e)
    case None => if k < |s| then Some(InvalidCharacter(s[k])) else None
  }

  /** A successful scan cuts the numeric runs exactly at the input's maximal runs of
      digits and points, in order. */
  lemma LexRuns(s: string)
    requires Lex(s).Ok?
    ensures RunTokens(Lex(s).value) == RunsIn(s, 0, |s|)
  {
    LexRunsFrom(s, 0);
  }

  /** The scan fails exactly when the text holds a malformed run before its first
      unsupported character, or holds an unsupported character; it reports the first
      of these. */
  lemma LexReportsFirstProblem(s: string)
    ensures Lex(s).Ok? <==> ExpectedError(s, 0) == None
    ensures Lex(s).Err? ==> ExpectedError(s, 0) == Some(Lex(s).error)
  {
    LexErrorIsExpected(s, 0);
  }

  lemma {:induction false} LexRunsFrom(s: string, i: nat)
    requires i <= |s| && LexFrom(s, i).Ok?
    ensures RunTokens(LexFrom(s, i).value) == RunsIn(s, i, |s|)
    decreases |s| - i
  {
    if i < |s| {
      if IsSpace(s[i]) {
        LexRunsFrom(s, i + 1);
      } else if IsSymbol(s[i]) {
        LexRunsFrom(s, i + 1);
        var rest := LexFrom(s, i + 1).value;
        assert ([[s[i]]] + rest)[1..] == rest;
      } else {
        var j := RunEnd(s, i + 1, s[i] == '.').value;
        LexRunsFrom(s, j);
        RunStopsAtRunEnd(s, i, j, |s|);
        var rest := LexFrom(s, j).value;
        assert ([s[i..j]] + rest)[1..] == rest;
      }
    }
  }

  /** Where the scan's inner loop stops, the maximal run stops too. */
  lemma RunStopsAtRunEnd(s: string, i: nat, j: nat, k: nat)
    requires i < |s| && IsRunChar(s[i]) && RunEnd(s, i + 1, s[i] == '.') == Ok(j)
    requires j <= k <= |s| && (k < |s| ==> !IsRunChar(s[k]))
    ensures RunStop(s, i, k) == j
  {
    RunEndMaximal(s, i + 1, s[i] == '.');
    assert forall m :: i < m < j ==> s[i + 1..j][m - i - 1] == s[m];
    RunStopIs(s, i, j, k);
  }

  lemma {:induction false} RunStopIs(s: string, i: nat, j: nat, k: nat)
    requires i <= j <= k <= |s| && (forall m :: i <= m < j ==> IsRunChar(s[m]))
    requires j == k || !IsRunChar(s[j])
    ensures RunStop(s, i, k) == j
    decreases j - i
  {
    if i < j {
      RunStopIs(s, i + 1, j, k);
    }
  }

  lemma {:induction false} FirstInvalidSkip(s: string, i: nat, j: nat)
    requires i <= j <= |s| && (forall m :: i <= m < j ==> IsAllowed(s[m]))
    ensures FirstInvalid(s, i) == FirstInvalid(s, j)
    decreases j - i
  {
    if i < j {
      FirstInvalidSkip(s, i + 1, j);
    }
  }

  lemma {:induction false} LexErrorIsExpected(s: string, i: nat)
    requires i <= |s|
    ensures LexFrom(s, i).Ok? <==> ExpectedError(s, i) == None
    ensures LexFrom(s, i).Err? ==> ExpectedError(s, i) == Some(LexFrom(s, i).error)
    decreases |s| - i
  {
    if i == |s| || !IsAllowed(s[i]) {
    } else if IsSpace(s[i]) || IsSymbol(s[i]) {
      SkipExpected(s, i);
      LexErrorIsExpected(s, i + 1);
    } else {
      var r := RunEnd(s, i + 1, s[i] == '.');
      if r.Ok? {
        RunExpected(s, i, r.value);
        if s[i..r.value] != "." {
          LexErrorIsExpected(s, r.value);
        }
      } else {
        MultipleExpected(s, i);
      }
    }
  }

  /** A space or a symbol neither starts a run nor changes what the scan reports. */
  lemma SkipExpected(s: string, i: nat)
    requires i < |s| && (IsSpace(s[i]) || IsSymbol(s[i]))
    ensures ExpectedError(s, i) == ExpectedError(s, i + 1)
    ensures LexFrom(s, i).Ok? == LexFrom(s, i + 1).Ok?
    ensures LexFrom(s, i).Err? ==> LexFrom(s, i).error == LexFrom(s, i + 1).error
  {
    FirstInvalidSkip(s, i, i + 1);
  }

  /** A well-formed run is passed over; a lone point is the first problem. */
  lemma RunExpected(s: string, i: nat, j: nat)
    requires i < |s| && !IsSpace(s[i]) && !IsSymbol(s[i]) && IsRunChar(s[i])
    requires RunEnd(s, i + 1, s[i] == '.') == Ok(j)
    ensures s[i..j] == "." ==> LexFrom(s, i) == Err(StandaloneDecimalPoint)
                               && ExpectedError(s, i) == Some(StandaloneDecimalPoint)
    ensures s[i..j] != "." ==> LexFrom(s, i) == Prepend([s[i..j]], LexFrom(s, j))
                               && ExpectedError(s, i) == ExpectedError(s, j)
  {
    LexRun(s, i, j);
    RunEndMaximal(s, i + 1, s[i] == '.');
    RunExtend(s, i, j);
    RunAllowed(s, i, j);
    FirstInvalidSkip(s, i, j);
    var k := FirstInvalid(s, i);
    RunStopsAtRunEnd(s, i, j, k);
    var rest := RunsIn(s, j, k);
    assert RunsIn(s, i, k) == [s[i..j]] + rest;
    assert ([s[i..j]] + rest)[1..] == rest;
  }

  /** A second point inside a run is the first problem. */
  lemma MultipleExpected(s: string, i: nat)
    requires i < |s| && !IsSpace(s[i]) && !IsSymbol(s[i]) && IsRunChar(s[i])
    requires RunEnd(s, i + 1, s[i] == '.').Err?
    ensures LexFrom(s, i) == Err(MultipleDecimalPoints)
    ensures ExpectedError(s, i) == Some(MultipleDecimalPoints)
  {
    LexRunFails(s, i);
    var p := PointWitness(s, i);
    RunExtend(s, i, p);
    RunIndices(s, i + 1, p);
    var k := FirstInvalid(s, i);
    var e := RunStop(s, i, k);
    SecondPoint(s, i, p, k);
    assert RunsIn(s, i, k) == [s[i..e]] + RunsIn(s, e, k);
  }

  /** The maximal run from `i` holds both the point at `p` and the one before it. */
  lemma SecondPoint(s: string, i: nat, p: nat, k: nat)
    requires i < p < |s| && s[p] == '.' && Dots(s[i..p]) == 1
    requires IsRunChar(s[i]) && forall m :: i < m < p ==> IsRunChar(s[m])
    requires k == FirstInvalid(s, i)
    ensures i < RunStop(s, i, k) && Dots(s[i..RunStop(s, i, k)]) >= 2
  {
    assert p < k;
    TwoPoints(s, i, p, RunStop(s, i, k));
  }

  /** Where the inner loop meets the second point. */
  lemma PointWitness(s: string, i: nat) returns (p: nat)
    requires i < |s| && IsRunChar(s[i]) && RunEnd(s, i + 1, s[i] == '.').Err?
    ensures i + 1 <= p < |s| && s[p] == '.' && AllRunChars(s[i + 1..p])
    ensures Dots(s[i + 1..p]) + (if s[i] == '.' then 1 else 0) == 1
  {
    RunEndMaximal(s, i + 1, s[i] == '.');
    p :| i + 1 <= p < |s| && s[p] == '.' && AllRunChars(s[i + 1..p])
         && Dots(s[i + 1..p]) + (if s[i] == '.' then 1 else 0) == 1;
  }

  lemma RunIndices(s: string, i: nat, j: nat)
    requires i <= j <= |s| && AllRunChars(s[i..j])
    ensures forall m :: i <= m < j ==> IsRunChar(s[m])
  {
    assert forall m :: i <= m < j ==> s[i..j][m - i] == s[m];
  }

  lemma TwoPoints(s: string, i: nat, p: nat, e: nat)
    requires i < p < e <= |s| && s[p] == '.' && Dots(s[i..p]) == 1
    ensures Dots(s[i..e]) >= 2
  {
    assert s[i..e][..p - i] == s[i..p];
    DotsSplit(s[i..e], p - i);
  }
}
