/** Concrete runs of `evaluate`, from the repository's tests and from the edge cases of
    the three stages; each is proved by following the stages step by step. */
module Examples {
  import opened Outcomes
  import opened Lexemes
  import opened Tokenizer
  import opened ShuntingYard
  import opened Postfix
  import opened Evaluator
  import opened Precedence

  lemma StripTrimmed(s: string)
    requires Trimmed(s)
    ensures Strip(s) == s
  {
  }

  /** Text with a non-blank first and last character, which `strip` leaves alone. */
  predicate Trimmed(s: string) {
    s != [] && !IsSpace(s[0]) && !IsSpace(s[|s| - 1])
  }

  /** `evaluate` stopped by the scanner. */
  lemma ScanFails(s: string, e: Error)
    requires Trimmed(s) && Lex(s) == Err(e)
    ensures Evaluate(Some(s)) == Err(e)
  {
    StripTrimmed(s);
  }

  /** `evaluate` stopped by the converter. */
  lemma ConversionFails(s: string, tokens: seq<string>, e: Error)
    requires Trimmed(s) && Lex(s) == Ok(tokens) && Convert(tokens) == Err(e)
    ensures Evaluate(Some(s)) == Err(e)
  {
    StripTrimmed(s);
  }

  /** `evaluate` through all three stages. */
  lemma StagesSucceed(s: string, tokens: seq<string>, rpn: seq<string>)
    requires Trimmed(s) && Lex(s) == Ok(tokens) && Convert(tokens) == Ok(rpn)
    ensures Evaluate(Some(s)) == EvalRpn(rpn)
  {
    StripTrimmed(s);
  }

  /** `evaluate("2 + 2")` is 4. */
  lemma AddExample()
    ensures Evaluate(Some("2 + 2")) == Ok(4.0)
  {
    AddExampleScan();
    AddExampleConversion();
    AddExampleValue();
    StagesSucceed("2 + 2", ["2", "+", "2"], ["2", "2", "+"]);
  }

  lemma AddExampleScan()
    ensures Lex("2 + 2") == Ok(["2", "+", "2"])
  {
    AddExampleScanPart3();
  }

  lemma AddExampleScanPart1()
    ensures LexFrom("2 + 2", 4) == Ok(["2"])
  {
    var s := "2 + 2";
    assert s[4..5] == "2" && ["2"] + [] == ["2"];
  }

  lemma AddExampleScanPart2()
    ensures LexFrom("2 + 2", 2) == Ok(["+", "2"])
  {
    var s := "2 + 2";
    AddExampleScanPart1();
    assert [s[2]] == "+" && ["+"] + ["2"] == ["+", "2"];
  }

  lemma AddExampleScanPart3()
    ensures LexFrom("2 + 2", 0) == Ok(["2", "+", "2"])
  {
    var s := "2 + 2";
    AddExampleScanPart2();
    assert s[0..1] == "2" && ["2"] + ["+", "2"] == ["2", "+", "2"];
  }

  lemma AddExampleConversion()
    ensures Convert(["2", "+", "2"]) == Ok(["2", "2", "+"])
  {
    AddExampleConversionPart4();
    assert ["2", "2"] + ["+"] == ["2", "2", "+"];
  }

  lemma AddExampleConversionPart1()
    ensures Feed(Yard(["2", "2"], ["+"], Number), []) == Ok(Yard(["2", "2"], ["+"], Number))
  {
  }

  lemma AddExampleConversionStep2()
    ensures Step(Yard(["2"], ["+"], Operator), "2") == Ok(Yard(["2", "2"], ["+"], Number))
  {
    assert ["2"] + ["2"] == ["2", "2"];
  }

  lemma AddExampleConversionPart2()
    ensures Feed(Yard(["2"], ["+"], Operator), ["2"]) == Ok(Yard(["2", "2"], ["+"], Number))
  {
    AddExampleConversionPart1();
    AddExampleConversionStep2();
    FeedOne(Yard(["2"], ["+"], Operator), ["2"]);
    assert ["2"][1..] == [];
  }

  lemma AddExampleConversionStep3()
    ensures Step(Yard(["2"], [], Number), "+") == Ok(Yard(["2"], ["+"], Operator))
  {
    PopHigherStops(Yard(["2"], [], Number), "+");
    assert PopHigher(Yard(["2"], [], Number), "+") == Ok(Yard(["2"], [], Number));
    assert [] + ["+"] == ["+"];
  }

  lemma AddExampleConversionPart3()
    ensures Feed(Yard(["2"], [], Number), ["+", "2"]) == Ok(Yard(["2", "2"], ["+"], Number))
  {
    AddExampleConversionPart2();
    AddExampleConversionStep3();
    FeedOne(Yard(["2"], [], Number), ["+", "2"]);
    assert ["+", "2"][1..] == ["2"];
  }

  lemma AddExampleConversionStep4()
    ensures Step(Yard([], [], Operator), "2") == Ok(Yard(["2"], [], Number))
  {
    assert [] + ["2"] == ["2"];
  }

  lemma AddExampleConversionPart4()
    ensures Feed(Yard([], [], Operator), ["2", "+", "2"]) == Ok(Yard(["2", "2"], ["+"], Number))
  {
    AddExampleConversionPart3();
    AddExampleConversionStep4();
    FeedOne(Yard([], [], Operator), ["2", "+", "2"]);
    assert ["2", "+", "2"][1..] == ["+", "2"];
  }

  lemma AddExampleValue()
    ensures EvalRpn(["2", "2", "+"]) == Ok(4.0)
  {
    AddExampleValuePart4();
  }

  lemma AddExampleValuePart1()
    ensures Reduce([4.0], []) == Ok([4.0])
  {
  }

  lemma AddExampleValueStep2()
    ensures Apply([2.0, 2.0], "+") == Ok([4.0])
  {
    assert [2.0, 2.0][..0] + [4.0] == [4.0];
  }

  lemma AddExampleValuePart2()
    ensures Reduce([2.0, 2.0], ["+"]) == Ok([4.0])
  {
    AddExampleValuePart1();
    AddExampleValueStep2();
    ReduceOne([2.0, 2.0], ["+"]);
    assert ["+"][1..] == [];
  }

  lemma AddExampleValueStep3()
    ensures Apply([2.0], "2") == Ok([2.0, 2.0])
  {
    assert IsNumber("2") && LiteralValue("2") == 2.0;
    assert [2.0] + [2.0] == [2.0, 2.0];
  }

  lemma AddExampleValuePart3()
    ensures Reduce([2.0], ["2", "+"]) == Ok([4.0])
  {
    AddExampleValuePart2();
    AddExampleValueStep3();
    ReduceOne([2.0], ["2", "+"]);
    assert ["2", "+"][1..] == ["+"];
  }

  lemma AddExampleValueStep4()
    ensures Apply([], "2") == Ok([2.0])
  {
    assert IsNumber("2") && LiteralValue("2") == 2.0;
    assert [] + [2.0] == [2.0];
  }

  lemma AddExampleValuePart4()
    ensures Reduce([], ["2", "2", "+"]) == Ok([4.0])
  {
    AddExampleValuePart3();
    AddExampleValueStep4();
    ReduceOne([], ["2", "2", "+"]);
    assert ["2", "2", "+"][1..] == ["2", "+"];
  }

  /** `evaluate("5 - 3")` is 2. */
  lemma SubtractExample()
    ensures Evaluate(Some("5 - 3")) == Ok(2.0)
  {
    SubtractExampleScan();
    SubtractExampleConversion();
    SubtractExampleValue();
    StagesSucceed("5 - 3", ["5", "-", "3"], ["5", "3", "-"]);
  }

  lemma SubtractExampleScan()
    ensures Lex("5 - 3") == Ok(["5", "-", "3"])
  {
    SubtractExampleScanPart3();
  }

  lemma SubtractExampleScanPart1()
    ensures LexFrom("5 - 3", 4) == Ok(["3"])
  {
    var s := "5 - 3";
    assert s[4..5] == "3" && ["3"] + [] == ["3"];
  }

  lemma SubtractExampleScanPart2()
    ensures LexFrom("5 - 3", 2) == Ok(["-", "3"])
  {
    var s := "5 - 3";
    SubtractExampleScanPart1();
    assert [s[2]] == "-" && ["-"] + ["3"] == ["-", "3"];
  }

  lemma SubtractExampleScanPart3()
    ensures LexFrom("5 - 3", 0) == Ok(["5", "-", "3"])
  {
    var s := "5 - 3";
    SubtractExampleScanPart2();
    assert s[0..1] == "5" && ["5"] + ["-", "3"] == ["5", "-", "3"];
  }

  lemma SubtractExampleConversion()
    ensures Convert(["5", "-", "3"]) == Ok(["5", "3", "-"])
  {
    SubtractExampleConversionPart4();
    assert ["5", "3"] + ["-"] == ["5", "3", "-"];
  }

  lemma SubtractExampleConversionPart1()
    ensures Feed(Yard(["5", "3"], ["-"], Number), []) == Ok(Yard(["5", "3"], ["-"], Number))
  {
  }

  lemma SubtractExampleConversionStep2()
    ensures Step(Yard(["5"], ["-"], Operator), "3") == Ok(Yard(["5", "3"], ["-"], Number))
  {
    assert ["5"] + ["3"] == ["5", "3"];
  }

  lemma SubtractExampleConversionPart2()
    ensures Feed(Yard(["5"], ["-"], Operator), ["3"]) == Ok(Yard(["5", "3"], ["-"], Number))
  {
    SubtractExampleConversionPart1();
    SubtractExampleConversionStep2();
    FeedOne(Yard(["5"], ["-"], Operator), ["3"]);
    assert ["3"][1..] == [];
  }

  lemma SubtractExampleConversionStep3()
    ensures Step(Yard(["5"], [], Number), "-") == Ok(Yard(["5"], ["-"], Operator))
  {
    PopHigherStops(Yard(["5"], [], Number), "-");
    assert PopHigher(Yard(["5"], [], Number), "-") == Ok(Yard(["5"], [], Number));
    assert [] + ["-"] == ["-"];
  }

  lemma SubtractExampleConversionPart3()
    ensures Feed(Yard(["5"], [], Number), ["-", "3"]) == Ok(Yard(["5", "3"], ["-"], Number))
  {
    SubtractExampleConversionPart2();
    SubtractExampleConversionStep3();
    FeedOne(Yard(["5"], [], Number), ["-", "3"]);
    assert ["-", "3"][1..] == ["3"];
  }

  lemma SubtractExampleConversionStep4()
    ensures Step(Yard([], [], Operator), "5") == Ok(Yard(["5"], [], Number))
  {
    assert [] + ["5"] == ["5"];
  }

  lemma SubtractExampleConversionPart4()
    ensures Feed(Yard([], [], Operator), ["5", "-", "3"]) == Ok(Yard(["5", "3"], ["-"], Number))
  {
    SubtractExampleConversionPart3();
    SubtractExampleConversionStep4();
    FeedOne(Yard([], [], Operator), ["5", "-", "3"]);
    assert ["5", "-", "3"][1..] == ["-", "3"];
  }

  lemma SubtractExampleValue()
    ensures EvalRpn(["5", "3", "-"]) == Ok(2.0)
  {
    SubtractExampleValuePart4();
  }

  lemma SubtractExampleValuePart1()
    ensures Reduce([2.0], []) == Ok([2.0])
  {
  }

  lemma SubtractExampleValueStep2()
    ensures Apply([5.0, 3.0], "-") == Ok([2.0])
  {
    assert [5.0, 3.0][..0] + [2.0] == [2.0];
  }

  lemma SubtractExampleValuePart2()
    ensures Reduce([5.0, 3.0], ["-"]) == Ok([2.0])
  {
    SubtractExampleValuePart1();
    SubtractExampleValueStep2();
    ReduceOne([5.0, 3.0], ["-"]);
    assert ["-"][1..] == [];
  }

  lemma SubtractExampleValueStep3()
    ensures Apply([5.0], "3") == Ok([5.0, 3.0])
  {
    assert IsNumber("3") && LiteralValue("3") == 3.0;
    assert [5.0] + [3.0] == [5.0, 3.0];
  }

  lemma SubtractExampleValuePart3()
    ensures Reduce([5.0], ["3", "-"]) == Ok([2.0])
  {
    SubtractExampleValuePart2();
    SubtractExampleValueStep3();
    ReduceOne([5.0], ["3", "-"]);
    assert ["3", "-"][1..] == ["-"];
  }

  lemma SubtractExampleValueStep4()
    ensures Apply([], "5") == Ok([5.0])
  {
    assert IsNumber("5") && LiteralValue("5") == 5.0;
    assert [] + [5.0] == [5.0];
  }

  lemma SubtractExampleValuePart4()
    ensures Reduce([], ["5", "3", "-"]) == Ok([2.0])
  {
    SubtractExampleValuePart3();
    SubtractExampleValueStep4();
    ReduceOne([], ["5", "3", "-"]);
    assert ["5", "3", "-"][1..] == ["3", "-"];
  }

  /** `evaluate("4 * 2")` is 8. */
  lemma MultiplyExample()
    ensures Evaluate(Some("4 * 2")) == Ok(8.0)
  {
    MultiplyExampleScan();
    MultiplyExampleConversion();
    MultiplyExampleValue();
    StagesSucceed("4 * 2", ["4", "*", "2"], ["4", "2", "*"]);
  }

  lemma MultiplyExampleScan()
    ensures Lex("4 * 2") == Ok(["4", "*", "2"])
  {
    MultiplyExampleScanPart3();
  }

  lemma MultiplyExampleScanPart1()
    ensures LexFrom("4 * 2", 4) == Ok(["2"])
  {
    var s := "4 * 2";
    assert s[4..5] == "2" && ["2"] + [] == ["2"];
  }

  lemma MultiplyExampleScanPart2()
    ensures LexFrom("4 * 2", 2) == Ok(["*", "2"])
  {
    var s := "4 * 2";
    MultiplyExampleScanPart1();
    assert [s[2]] == "*" && ["*"] + ["2"] == ["*", "2"];
  }

  lemma MultiplyExampleScanPart3()
    ensures LexFrom("4 * 2", 0) == Ok(["4", "*", "2"])
  {
    var s := "4 * 2";
    MultiplyExampleScanPart2();
    assert s[0..1] == "4" && ["4"] + ["*", "2"] == ["4", "*", "2"];
  }

  lemma MultiplyExampleConversion()
    ensures Convert(["4", "*", "2"]) == Ok(["4", "2", "*"])
  {
    MultiplyExampleConversionPart4();
    assert ["4", "2"] + ["*"] == ["4", "2", "*"];
  }

  lemma MultiplyExampleConversionPart1()
    ensures Feed(Yard(["4", "2"], ["*"], Number), []) == Ok(Yard(["4", "2"], ["*"], Number))
  {
  }

  lemma MultiplyExampleConversionStep2()
    ensures Step(Yard(["4"], ["*"], Operator), "2") == Ok(Yard(["4", "2"], ["*"], Number))
  {
    assert ["4"] + ["2"] == ["4", "2"];
  }

  lemma MultiplyExampleConversionPart2()
    ensures Feed(Yard(["4"], ["*"], Operator), ["2"]) == Ok(Yard(["4", "2"], ["*"], Number))
  {
    MultiplyExampleConversionPart1();
    MultiplyExampleConversionStep2();
    FeedOne(Yard(["4"], ["*"], Operator), ["2"]);
    assert ["2"][1..] == [];
  }

  lemma MultiplyExampleConversionStep3()
    ensures Step(Yard(["4"], [], Number), "*") == Ok(Yard(["4"], ["*"], Operator))
  {
    PopHigherStops(Yard(["4"], [], Number), "*");
    assert PopHigher(Yard(["4"], [], Number), "*") == Ok(Yard(["4"], [], Number));
    assert [] + ["*"] == ["*"];
  }

  lemma MultiplyExampleConversionPart3()
    ensures Feed(Yard(["4"], [], Number), ["*", "2"]) == Ok(Yard(["4", "2"], ["*"], Number))
  {
    MultiplyExampleConversionPart2();
    MultiplyExampleConversionStep3();
    FeedOne(Yard(["4"], [], Number), ["*", "2"]);
    assert ["*", "2"][1..] == ["2"];
  }

  lemma MultiplyExampleConversionStep4()
    ensures Step(Yard([], [], Operator), "4") == Ok(Yard(["4"], [], Number))
  {
    assert [] + ["4"] == ["4"];
  }

  lemma MultiplyExampleConversionPart4()
    ensures Feed(Yard([], [], Operator), ["4", "*", "2"]) == Ok(Yard(["4", "2"], ["*"], Number))
  {
    MultiplyExampleConversionPart3();
    MultiplyExampleConversionStep4();
    FeedOne(Yard([], [], Operator), ["4", "*", "2"]);
    assert ["4", "*", "2"][1..] == ["*", "2"];
  }

  lemma MultiplyExampleValue()
    ensures EvalRpn(["4", "2", "*"]) == Ok(8.0)
  {
    MultiplyExampleValuePart4();
  }

  lemma MultiplyExampleValuePart1()
    ensures Reduce([8.0], []) == Ok([8.0])
  {
  }

  lemma MultiplyExampleValueStep2()
    ensures Apply([4.0, 2.0], "*") == Ok([8.0])
  {
    assert [4.0, 2.0][..0] + [8.0] == [8.0];
  }

  lemma MultiplyExampleValuePart2()
    ensures Reduce([4.0, 2.0], ["*"]) == Ok([8.0])
  {
    MultiplyExampleValuePart1();
    MultiplyExampleValueStep2();
    ReduceOne([4.0, 2.0], ["*"]);
    assert ["*"][1..] == [];
  }

  lemma MultiplyExampleValueStep3()
    ensures Apply([4.0], "2") == Ok([4.0, 2.0])
  {
    assert IsNumber("2") && LiteralValue("2") == 2.0;
    assert [4.0] + [2.0] == [4.0, 2.0];
  }

  lemma MultiplyExampleValuePart3()
    ensures Reduce([4.0], ["2", "*"]) == Ok([8.0])
  {
    MultiplyExampleValuePart2();
    MultiplyExampleValueStep3();
    ReduceOne([4.0], ["2", "*"]);
    assert ["2", "*"][1..] == ["*"];
  }

  lemma MultiplyExampleValueStep4()
    ensures Apply([], "4") == Ok([4.0])
  {
    assert IsNumber("4") && LiteralValue("4") == 4.0;
    assert [] + [4.0] == [4.0];
  }

  lemma MultiplyExampleValuePart4()
    ensures Reduce([], ["4", "2", "*"]) == Ok([8.0])
  {
    MultiplyExampleValuePart3();
    MultiplyExampleValueStep4();
    ReduceOne([], ["4", "2", "*"]);
    assert ["4", "2", "*"][1..] == ["2", "*"];
  }

  /** `evaluate("8 / 2")` is 4. */
  lemma DivideExample()
    ensures Evaluate(Some("8 / 2")) == Ok(4.0)
  {
    DivideExampleScan();
    DivideExampleConversion();
    DivideExampleValue();
    StagesSucceed("8 / 2", ["8", "/", "2"], ["8", "2", "/"]);
  }

  lemma DivideExampleScan()
    ensures Lex("8 / 2") == Ok(["8", "/", "2"])
  {
    DivideExampleScanPart3();
  }

  lemma DivideExampleScanPart1()
    ensures LexFrom("8 / 2", 4) == Ok(["2"])
  {
    var s := "8 / 2";
    assert s[4..5] == "2" && ["2"] + [] == ["2"];
  }

  lemma DivideExampleScanPart2()
    ensures LexFrom("8 / 2", 2) == Ok(["/", "2"])
  {
    var s := "8 / 2";
    DivideExampleScanPart1();
    assert [s[2]] == "/" && ["/"] + ["2"] == ["/", "2"];
  }

  lemma DivideExampleScanPart3()
    ensures LexFrom("8 / 2", 0) == Ok(["8", "/", "2"])
  {
    var s := "8 / 2";
    DivideExampleScanPart2();
    assert s[0..1] == "8" && ["8"] + ["/", "2"] == ["8", "/", "2"];
  }

  lemma DivideExampleConversion()
    ensures Convert(["8", "/", "2"]) == Ok(["8", "2", "/"])
  {
    DivideExampleConversionPart4();
    assert ["8", "2"] + ["/"] == ["8", "2", "/"];
  }

  lemma DivideExampleConversionPart1()
    ensures Feed(Yard(["8", "2"], ["/"], Number), []) == Ok(Yard(["8", "2"], ["/"], Number))
  {
  }

  lemma DivideExampleConversionStep2()
    ensures Step(Yard(["8"], ["/"], Operator), "2") == Ok(Yard(["8", "2"], ["/"], Number))
  {
    assert ["8"] + ["2"] == ["8", "2"];
  }

  lemma DivideExampleConversionPart2()
    ensures Feed(Yard(["8"], ["/"], Operator), ["2"]) == Ok(Yard(["8", "2"], ["/"], Number))
  {
    DivideExampleConversionPart1();
    DivideExampleConversionStep2();
    FeedOne(Yard(["8"], ["/"], Operator), ["2"]);
    assert ["2"][1..] == [];
  }

  lemma DivideExampleConversionStep3()
    ensures Step(Yard(["8"], [], Number), "/") == Ok(Yard(["8"], ["/"], Operator))
  {
    PopHigherStops(Yard(["8"], [], Number), "/");
    assert PopHigher(Yard(["8"], [], Number), "/") == Ok(Yard(["8"], [], Number));
    assert [] + ["/"] == ["/"];
  }

  lemma DivideExampleConversionPart3()
    ensures Feed(Yard(["8"], [], Number), ["/", "2"]) == Ok(Yard(["8", "2"], ["/"], Number))
  {
    DivideExampleConversionPart2();
    DivideExampleConversionStep3();
    FeedOne(Yard(["8"], [], Number), ["/", "2"]);
    assert ["/", "2"][1..] == ["2"];
  }

  lemma DivideExampleConversionStep4()
    ensures Step(Yard([], [], Operator), "8") == Ok(Yard(["8"], [], Number))
  {
    assert [] + ["8"] == ["8"];
  }

  lemma DivideExampleConversionPart4()
    ensures Feed(Yard([], [], Operator), ["8", "/", "2"]) == Ok(Yard(["8", "2"], ["/"], Number))
  {
    DivideExampleConversionPart3();
    DivideExampleConversionStep4();
    FeedOne(Yard([], [], Operator), ["8", "/", "2"]);
    assert ["8", "/", "2"][1..] == ["/", "2"];
  }

  lemma DivideExampleValue()
    ensures EvalRpn(["8", "2", "/"]) == Ok(4.0)
  {
    DivideExampleValuePart4();
  }

  lemma DivideExampleValuePart1()
    ensures Reduce([4.0], []) == Ok([4.0])
  {
  }

  lemma DivideExampleValueStep2()
    ensures Apply([8.0, 2.0], "/") == Ok([4.0])
  {
    assert [8.0, 2.0][..0] + [4.0] == [4.0];
  }

  lemma DivideExampleValuePart2()
    ensures Reduce([8.0, 2.0], ["/"]) == Ok([4.0])
  {
    DivideExampleValuePart1();
    DivideExampleValueStep2();
    ReduceOne([8.0, 2.0], ["/"]);
    assert ["/"][1..] == [];
  }

  lemma DivideExampleValueStep3()
    ensures Apply([8.0], "2") == Ok([8.0, 2.0])
  {
    assert IsNumber("2") && LiteralValue("2") == 2.0;
    assert [8.0] + [2.0] == [8.0, 2.0];
  }

  lemma DivideExampleValuePart3()
    ensures Reduce([8.0], ["2", "/"]) == Ok([4.0])
  {
    DivideExampleValuePart2();
    DivideExampleValueStep3();
    ReduceOne([8.0], ["2", "/"]);
    assert ["2", "/"][1..] == ["/"];
  }

  lemma DivideExampleValueStep4()
    ensures Apply([], "8") == Ok([8.0])
  {
    assert IsNumber("8") && LiteralValue("8") == 8.0;
    assert [] + [8.0] == [8.0];
  }

  lemma DivideExampleValuePart4()
    ensures Reduce([], ["8", "2", "/"]) == Ok([4.0])
  {
    DivideExampleValuePart3();
    DivideExampleValueStep4();
    ReduceOne([], ["8", "2", "/"]);
    assert ["8", "2", "/"][1..] == ["2", "/"];
  }

  /** `*` binds tighter than `+`: `evaluate("2 + 3 * 4")` is 14. */
  lemma PrecedenceExample()
    ensures Evaluate(Some("2 + 3 * 4")) == Ok(14.0)
  {
    PrecedenceExampleScan();
    PrecedenceExampleConversion();
    PrecedenceExampleValue();
    StagesSucceed("2 + 3 * 4", ["2", "+", "3", "*", "4"], ["2", "3", "4", "*", "+"]);
  }

  lemma PrecedenceExampleScan()
    ensures Lex("2 + 3 * 4") == Ok(["2", "+", "3", "*", "4"])
  {
    PrecedenceExampleScanPart5();
  }

  lemma PrecedenceExampleScanPart1()
    ensures LexFrom("2 + 3 * 4", 8) == Ok(["4"])
  {
    var s := "2 + 3 * 4";
    assert s[8..9] == "4" && ["4"] + [] == ["4"];
  }

  lemma PrecedenceExampleScanPart2()
    ensures LexFrom("2 + 3 * 4", 6) == Ok(["*", "4"])
  {
    var s := "2 + 3 * 4";
    PrecedenceExampleScanPart1();
    assert [s[6]] == "*" && ["*"] + ["4"] == ["*", "4"];
  }

  lemma PrecedenceExampleScanPart3()
    ensures LexFrom("2 + 3 * 4", 4) == Ok(["3", "*", "4"])
  {
    var s := "2 + 3 * 4";
    PrecedenceExampleScanPart2();
    assert s[4..5] == "3" && ["3"] + ["*", "4"] == ["3", "*", "4"];
  }

  lemma PrecedenceExampleScanPart4()
    ensures LexFrom("2 + 3 * 4", 2) == Ok(["+", "3", "*", "4"])
  {
    var s := "2 + 3 * 4";
    PrecedenceExampleScanPart3();
    assert [s[2]] == "+" && ["+"] + ["3", "*", "4"] == ["+", "3", "*", "4"];
  }

  lemma PrecedenceExampleScanPart5()
    ensures LexFrom("2 + 3 * 4", 0) == Ok(["2", "+", "3", "*", "4"])
  {
    var s := "2 + 3 * 4";
    PrecedenceExampleScanPart4();
    assert s[0..1] == "2" && ["2"] + ["+", "3", "*", "4"] == ["2", "+", "3", "*", "4"];
  }

  lemma PrecedenceExampleConversion()
    ensures Convert(["2", "+", "3", "*", "4"]) == Ok(["2", "3", "4", "*", "+"])
  {
    PrecedenceExampleConversionPart6();
    assert Reversed(["+", "*"]) == ["*", "+"];
    assert ["2", "3", "4"] + ["*", "+"] == ["2", "3", "4", "*", "+"];
  }

  lemma PrecedenceExampleConversionPart1()
    ensures Feed(Yard(["2", "3", "4"], ["+", "*"], Number), []) == Ok(Yard(["2", "3", "4"], ["+", "*"], Number))
  {
  }

  lemma PrecedenceExampleConversionStep2()
    ensures Step(Yard(["2", "3"], ["+", "*"], Operator), "4") == Ok(Yard(["2", "3", "4"], ["+", "*"], Number))
  {
    assert ["2", "3"] + ["4"] == ["2", "3", "4"];
  }

  lemma PrecedenceExampleConversionPart2()
    ensures Feed(Yard(["2", "3"], ["+", "*"], Operator), ["4"]) == Ok(Yard(["2", "3", "4"], ["+", "*"], Number))
  {
    PrecedenceExampleConversionPart1();
    PrecedenceExampleConversionStep2();
    FeedOne(Yard(["2", "3"], ["+", "*"], Operator), ["4"]);
    assert ["4"][1..] == [];
  }

  lemma PrecedenceExampleConversionStep3()
    ensures Step(Yard(["2", "3"], ["+"], Number), "*") == Ok(Yard(["2", "3"], ["+", "*"], Operator))
  {
    assert !PopsBefore("+", "*");
    PopHigherStops(Yard(["2", "3"], ["+"], Number), "*");
    assert PopHigher(Yard(["2", "3"], ["+"], Number), "*") == Ok(Yard(["2", "3"], ["+"], Number));
    assert ["+"] + ["*"] == ["+", "*"];
  }

  lemma PrecedenceExampleConversionPart3()
    ensures Feed(Yard(["2", "3"], ["+"], Number), ["*", "4"]) == Ok(Yard(["2", "3", "4"], ["+", "*"], Number))
  {
    PrecedenceExampleConversionPart2();
    PrecedenceExampleConversionStep3();
    FeedOne(Yard(["2", "3"], ["+"], Number), ["*", "4"]);
    assert ["*", "4"][1..] == ["4"];
  }

  lemma PrecedenceExampleConversionStep4()
    ensures Step(Yard(["2"], ["+"], Operator), "3") == Ok(Yard(["2", "3"], ["+"], Number))
  {
    assert ["2"] + ["3"] == ["2", "3"];
  }

  lemma PrecedenceExampleConversionPart4()
    ensures Feed(Yard(["2"], ["+"], Operator), ["3", "*", "4"]) == Ok(Yard(["2", "3", "4"], ["+", "*"], Number))
  {
    PrecedenceExampleConversionPart3();
    PrecedenceExampleConversionStep4();
    FeedOne(Yard(["2"], ["+"], Operator), ["3", "*", "4"]);
    assert ["3", "*", "4"][1..] == ["*", "4"];
  }

  lemma PrecedenceExampleConversionStep5()
    ensures Step(Yard(["2"], [], Number), "+") == Ok(Yard(["2"], ["+"], Operator))
  {
    PopHigherStops(Yard(["2"], [], Number), "+");
    assert PopHigher(Yard(["2"], [], Number), "+") == Ok(Yard(["2"], [], Number));
    assert [] + ["+"] == ["+"];
  }

  lemma PrecedenceExampleConversionPart5()
    ensures Feed(Yard(["2"], [], Number), ["+", "3", "*", "4"]) == Ok(Yard(["2", "3", "4"], ["+", "*"], Number))
  {
    PrecedenceExampleConversionPart4();
    PrecedenceExampleConversionStep5();
    FeedOne(Yard(["2"], [], Number), ["+", "3", "*", "4"]);
    assert ["+", "3", "*", "4"][1..] == ["3", "*", "4"];
  }

  lemma PrecedenceExampleConversionStep6()
    ensures Step(Yard([], [], Operator), "2") == Ok(Yard(["2"], [], Number))
  {
    assert [] + ["2"] == ["2"];
  }

  lemma PrecedenceExampleConversionPart6()
    ensures Feed(Yard([], [], Operator), ["2", "+", "3", "*", "4"]) == Ok(Yard(["2", "3", "4"], ["+", "*"], Number))
  {
    PrecedenceExampleConversionPart5();
    PrecedenceExampleConversionStep6();
    FeedOne(Yard([], [], Operator), ["2", "+", "3", "*", "4"]);
    assert ["2", "+", "3", "*", "4"][1..] == ["+", "3", "*", "4"];
  }

  lemma PrecedenceExampleValue()
    ensures EvalRpn(["2", "3", "4", "*", "+"]) == Ok(14.0)
  {
    PrecedenceExampleValuePart6();
  }

  lemma PrecedenceExampleValuePart1()
    ensures Reduce([14.0], []) == Ok([14.0])
  {
  }

  lemma PrecedenceExampleValueStep2()
    ensures Apply([2.0, 12.0], "+") == Ok([14.0])
  {
    assert [2.0, 12.0][..0] + [14.0] == [14.0];
  }

  lemma PrecedenceExampleValuePart2()
    ensures Reduce([2.0, 12.0], ["+"]) == Ok([14.0])
  {
    PrecedenceExampleValuePart1();
    PrecedenceExampleValueStep2();
    ReduceOne([2.0, 12.0], ["+"]);
    assert ["+"][1..] == [];
  }

  lemma PrecedenceExampleValueStep3()
    ensures Apply([2.0, 3.0, 4.0], "*") == Ok([2.0, 12.0])
  {
    assert [2.0, 3.0, 4.0][..1] + [12.0] == [2.0, 12.0];
  }

  lemma PrecedenceExampleValuePart3()
    ensures Reduce([2.0, 3.0, 4.0], ["*", "+"]) == Ok([14.0])
  {
    PrecedenceExampleValuePart2();
    PrecedenceExampleValueStep3();
    ReduceOne([2.0, 3.0, 4.0], ["*", "+"]);
    assert ["*", "+"][1..] == ["+"];
  }

  lemma PrecedenceExampleValueStep4()
    ensures Apply([2.0, 3.0], "4") == Ok([2.0, 3.0, 4.0])
  {
    assert IsNumber("4") && LiteralValue("4") == 4.0;
    assert [2.0, 3.0] + [4.0] == [2.0, 3.0, 4.0];
  }

  lemma PrecedenceExampleValuePart4()
    ensures Reduce([2.0, 3.0], ["4", "*", "+"]) == Ok([14.0])
  {
    PrecedenceExampleValuePart3();
    PrecedenceExampleValueStep4();
    ReduceOne([2.0, 3.0], ["4", "*", "+"]);
    assert ["4", "*", "+"][1..] == ["*", "+"];
  }

  lemma PrecedenceExampleValueStep5()
    ensures Apply([2.0], "3") == Ok([2.0, 3.0])
  {
    assert IsNumber("3") && LiteralValue("3") == 3.0;
    assert [2.0] + [3.0] == [2.0, 3.0];
  }

  lemma PrecedenceExampleValuePart5()
    ensures Reduce([2.0], ["3", "4", "*", "+"]) == Ok([14.0])
  {
    PrecedenceExampleValuePart4();
    PrecedenceExampleValueStep5();
    ReduceOne([2.0], ["3", "4", "*", "+"]);
    assert ["3", "4", "*", "+"][1..] == ["4", "*", "+"];
  }

  lemma PrecedenceExampleValueStep6()
    ensures Apply([], "2") == Ok([2.0])
  {
    assert IsNumber("2") && LiteralValue("2") == 2.0;
    assert [] + [2.0] == [2.0];
  }

  lemma PrecedenceExampleValuePart6()
    ensures Reduce([], ["2", "3", "4", "*", "+"]) == Ok([14.0])
  {
    PrecedenceExampleValuePart5();
    PrecedenceExampleValueStep6();
    ReduceOne([], ["2", "3", "4", "*", "+"]);
    assert ["2", "3", "4", "*", "+"][1..] == ["3", "4", "*", "+"];
  }

  /** Parentheses override precedence: `evaluate("(2 + 3) * 4")` is 20. */
  lemma ParenthesesExample()
    ensures Evaluate(Some("(2 + 3) * 4")) == Ok(20.0)
  {
    ParenthesesExampleScan();
    ParenthesesExampleConversion();
    ParenthesesExampleValue();
    StagesSucceed("(2 + 3) * 4", ["(", "2", "+", "3", ")", "*", "4"], ["2", "3", "+", "4", "*"]);
  }

  lemma ParenthesesExampleScan()
    ensures Lex("(2 + 3) * 4") == Ok(["(", "2", "+", "3", ")", "*", "4"])
  {
    ParenthesesExampleScanPart7();
  }

  lemma ParenthesesExampleScanPart1()
    ensures LexFrom("(2 + 3) * 4", 10) == Ok(["4"])
  {
    var s := "(2 + 3) * 4";
    assert s[10..11] == "4" && ["4"] + [] == ["4"];
  }

  lemma ParenthesesExampleScanPart2()
    ensures LexFrom("(2 + 3) * 4", 8) == Ok(["*", "4"])
  {
    var s := "(2 + 3) * 4";
    ParenthesesExampleScanPart1();
    assert [s[8]] == "*" && ["*"] + ["4"] == ["*", "4"];
  }

  lemma ParenthesesExampleScanPart3()
    ensures LexFrom("(2 + 3) * 4", 6) == Ok([")", "*", "4"])
  {
    var s := "(2 + 3) * 4";
    ParenthesesExampleScanPart2();
    assert [s[6]] == ")" && [")"] + ["*", "4"] == [")", "*", "4"];
  }

  lemma ParenthesesExampleScanPart4()
    ensures LexFrom("(2 + 3) * 4", 5) == Ok(["3", ")", "*", "4"])
  {
    var s := "(2 + 3) * 4";
    ParenthesesExampleScanPart3();
    assert s[5..6] == "3" && ["3"] + [")", "*", "4"] == ["3", ")", "*", "4"];
  }

  lemma ParenthesesExampleScanPart5()
    ensures LexFrom("(2 + 3) * 4", 3) == Ok(["+", "3", ")", "*", "4"])
  {
    var s := "(2 + 3) * 4";
    ParenthesesExampleScanPart4();
    assert [s[3]] == "+" && ["+"] + ["3", ")", "*", "4"] == ["+", "3", ")", "*", "4"];
  }

  lemma ParenthesesExampleScanPart6()
    ensures LexFrom("(2 + 3) * 4", 1) == Ok(["2", "+", "3", ")", "*", "4"])
  {
    var s := "(2 + 3) * 4";
    ParenthesesExampleScanPart5();
    assert s[1..2] == "2" && ["2"] + ["+", "3", ")", "*", "4"] == ["2", "+", "3", ")", "*", "4"];
  }

  lemma ParenthesesExampleScanPart7()
    ensures LexFrom("(2 + 3) * 4", 0) == Ok(["(", "2", "+", "3", ")", "*", "4"])
  {
    var s := "(2 + 3) * 4";
    ParenthesesExampleScanPart6();
    assert [s[0]] == "(" && ["("] + ["2", "+", "3", ")", "*", "4"] == ["(", "2", "+", "3", ")", "*", "4"];
  }

  lemma ParenthesesExampleConversion()
    ensures Convert(["(", "2", "+", "3", ")", "*", "4"]) == Ok(["2", "3", "+", "4", "*"])
  {
    ParenthesesExampleConversionPart8();
    assert ["2", "3", "+", "4"] + ["*"] == ["2", "3", "+", "4", "*"];
  }

  lemma ParenthesesExampleConversionPart1()
    ensures Feed(Yard(["2", "3", "+", "4"], ["*"], Number), []) == Ok(Yard(["2", "3", "+", "4"], ["*"], Number))
  {
  }

  lemma ParenthesesExampleConversionStep2()
    ensures Step(Yard(["2", "3", "+"], ["*"], Operator), "4") == Ok(Yard(["2", "3", "+", "4"], ["*"], Number))
  {
    assert ["2", "3", "+"] + ["4"] == ["2", "3", "+", "4"];
  }

  lemma ParenthesesExampleConversionPart2()
    ensures Feed(Yard(["2", "3", "+"], ["*"], Operator), ["4"]) == Ok(Yard(["2", "3", "+", "4"], ["*"], Number))
  {
    ParenthesesExampleConversionPart1();
    ParenthesesExampleConversionStep2();
    FeedOne(Yard(["2", "3", "+"], ["*"], Operator), ["4"]);
    assert ["4"][1..] == [];
  }

  lemma ParenthesesExampleConversionStep3()
    ensures Step(Yard(["2", "3", "+"], [], RightParen), "*") == Ok(Yard(["2", "3", "+"], ["*"], Operator))
  {
    PopHigherStops(Yard(["2", "3", "+"], [], RightParen), "*");
    assert PopHigher(Yard(["2", "3", "+"], [], RightParen), "*") == Ok(Yard(["2", "3", "+"], [], RightParen));
    assert [] + ["*"] == ["*"];
  }

  lemma ParenthesesExampleConversionPart3()
    ensures Feed(Yard(["2", "3", "+"], [], RightParen), ["*", "4"]) == Ok(Yard(["2", "3", "+", "4"], ["*"], Number))
  {
    ParenthesesExampleConversionPart2();
    ParenthesesExampleConversionStep3();
    FeedOne(Yard(["2", "3", "+"], [], RightParen), ["*", "4"]);
    assert ["*", "4"][1..] == ["4"];
  }

  lemma ParenthesesExampleConversionStep4()
    ensures Step(Yard(["2", "3"], ["(", "+"], Number), ")") == Ok(Yard(["2", "3", "+"], [], RightParen))
  {
    assert Pop(Yard(["2", "3"], ["(", "+"], Number)) == Yard(["2", "3", "+"], ["("], Number);
    assert CloseGroup(Yard(["2", "3"], ["(", "+"], Number)) == Yard(["2", "3", "+"], ["("], Number);
    assert ["("][..0] == [];
  }

  lemma ParenthesesExampleConversionPart4()
    ensures Feed(Yard(["2", "3"], ["(", "+"], Number), [")", "*", "4"]) == Ok(Yard(["2", "3", "+", "4"], ["*"], Number))
  {
    ParenthesesExampleConversionPart3();
    ParenthesesExampleConversionStep4();
    FeedOne(Yard(["2", "3"], ["(", "+"], Number), [")", "*", "4"]);
    assert [")", "*", "4"][1..] == ["*", "4"];
  }

  lemma ParenthesesExampleConversionStep5()
    ensures Step(Yard(["2"], ["(", "+"], Operator), "3") == Ok(Yard(["2", "3"], ["(", "+"], Number))
  {
    assert ["2"] + ["3"] == ["2", "3"];
  }

  lemma ParenthesesExampleConversionPart5()
    ensures Feed(Yard(["2"], ["(", "+"], Operator), ["3", ")", "*", "4"]) == Ok(Yard(["2", "3", "+", "4"], ["*"], Number))
  {
    ParenthesesExampleConversionPart4();
    ParenthesesExampleConversionStep5();
    FeedOne(Yard(["2"], ["(", "+"], Operator), ["3", ")", "*", "4"]);
    assert ["3", ")", "*", "4"][1..] == [")", "*", "4"];
  }

  lemma ParenthesesExampleConversionStep6()
    ensures Step(Yard(["2"], ["("], Number), "+") == Ok(Yard(["2"], ["(", "+"], Operator))
  {
    assert PopHigher(Yard(["2"], ["("], Number), "+") == Ok(Yard(["2"], ["("], Number));
    assert ["("] + ["+"] == ["(", "+"];
  }

  lemma ParenthesesExampleConversionPart6()
    ensures Feed(Yard(["2"], ["("], Number), ["+", "3", ")", "*", "4"]) == Ok(Yard(["2", "3", "+", "4"], ["*"], Number))
  {
    ParenthesesExampleConversionPart5();
    ParenthesesExampleConversionStep6();
    FeedOne(Yard(["2"], ["("], Number), ["+", "3", ")", "*", "4"]);
    assert ["+", "3", ")", "*", "4"][1..] == ["3", ")", "*", "4"];
  }

  lemma ParenthesesExampleConversionStep7()
    ensures Step(Yard([], ["("], LeftParen), "2") == Ok(Yard(["2"], ["("], Number))
  {
    assert [] + ["2"] == ["2"];
  }

  lemma ParenthesesExampleConversionPart7()
    ensures Feed(Yard([], ["("], LeftParen), ["2", "+", "3", ")", "*", "4"]) == Ok(Yard(["2", "3", "+", "4"], ["*"], Number))
  {
    ParenthesesExampleConversionPart6();
    ParenthesesExampleConversionStep7();
    FeedOne(Yard([], ["("], LeftParen), ["2", "+", "3", ")", "*", "4"]);
    assert ["2", "+", "3", ")", "*", "4"][1..] == ["+", "3", ")", "*", "4"];
  }

  lemma ParenthesesExampleConversionStep8()
    ensures Step(Yard([], [], Operator), "(") == Ok(Yard([], ["("], LeftParen))
  {
    assert [] + ["("] == ["("];
  }

  lemma ParenthesesExampleConversionPart8()
    ensures Feed(Yard([], [], Operator), ["(", "2", "+", "3", ")", "*", "4"]) == Ok(Yard(["2", "3", "+", "4"], ["*"], Number))
  {
    ParenthesesExampleConversionPart7();
    ParenthesesExampleConversionStep8();
    FeedOne(Yard([], [], Operator), ["(", "2", "+", "3", ")", "*", "4"]);
    assert ["(", "2", "+", "3", ")", "*", "4"][1..] == ["2", "+", "3", ")", "*", "4"];
  }

  lemma ParenthesesExampleValue()
    ensures EvalRpn(["2", "3", "+", "4", "*"]) == Ok(20.0)
  {
    ParenthesesExampleValuePart6();
  }

  lemma ParenthesesExampleValuePart1()
    ensures Reduce([20.0], []) == Ok([20.0])
  {
  }

  lemma ParenthesesExampleValueStep2()
    ensures Apply([5.0, 4.0], "*") == Ok([20.0])
  {
    assert [5.0, 4.0][..0] + [20.0] == [20.0];
  }

  lemma ParenthesesExampleValuePart2()
    ensures Reduce([5.0, 4.0], ["*"]) == Ok([20.0])
  {
    ParenthesesExampleValuePart1();
    ParenthesesExampleValueStep2();
    ReduceOne([5.0, 4.0], ["*"]);
    assert ["*"][1..] == [];
  }

  lemma ParenthesesExampleValueStep3()
    ensures Apply([5.0], "4") == Ok([5.0, 4.0])
  {
    assert IsNumber("4") && LiteralValue("4") == 4.0;
    assert [5.0] + [4.0] == [5.0, 4.0];
  }

  lemma ParenthesesExampleValuePart3()
    ensures Reduce([5.0], ["4", "*"]) == Ok([20.0])
  {
    ParenthesesExampleValuePart2();
    ParenthesesExampleValueStep3();
    ReduceOne([5.0], ["4", "*"]);
    assert ["4", "*"][1..] == ["*"];
  }

  lemma ParenthesesExampleValueStep4()
    ensures Apply([2.0, 3.0], "+") == Ok([5.0])
  {
    assert [2.0, 3.0][..0] + [5.0] == [5.0];
  }

  lemma ParenthesesExampleValuePart4()
    ensures Reduce([2.0, 3.0], ["+", "4", "*"]) == Ok([20.0])
  {
    ParenthesesExampleValuePart3();
    ParenthesesExampleValueStep4();
    ReduceOne([2.0, 3.0], ["+", "4", "*"]);
    assert ["+", "4", "*"][1..] == ["4", "*"];
  }

  lemma ParenthesesExampleValueStep5()
    ensures Apply([2.0], "3") == Ok([2.0, 3.0])
  {
    assert IsNumber("3") && LiteralValue("3") == 3.0;
    assert [2.0] + [3.0] == [2.0, 3.0];
  }

  lemma ParenthesesExampleValuePart5()
    ensures Reduce([2.0], ["3", "+", "4", "*"]) == Ok([20.0])
  {
    ParenthesesExampleValuePart4();
    ParenthesesExampleValueStep5();
    ReduceOne([2.0], ["3", "+", "4", "*"]);
    assert ["3", "+", "4", "*"][1..] == ["+", "4", "*"];
  }

  lemma ParenthesesExampleValueStep6()
    ensures Apply([], "2") == Ok([2.0])
  {
    assert IsNumber("2") && LiteralValue("2") == 2.0;
    assert [] + [2.0] == [2.0];
  }

  lemma ParenthesesExampleValuePart6()
    ensures Reduce([], ["2", "3", "+", "4", "*"]) == Ok([20.0])
  {
    ParenthesesExampleValuePart5();
    ParenthesesExampleValueStep6();
    ReduceOne([], ["2", "3", "+", "4", "*"]);
    assert ["2", "3", "+", "4", "*"][1..] == ["3", "+", "4", "*"];
  }

  /** Exact decimals: `evaluate("0.1 + 0.2")` is 0.3. */
  lemma DecimalSumExample()
    ensures Evaluate(Some("0.1 + 0.2")) == Ok(0.3)
  {
    DecimalSumExampleScan();
    DecimalSumExampleConversion();
    DecimalSumExampleValue();
    StagesSucceed("0.1 + 0.2", ["0.1", "+", "0.2"], ["0.1", "0.2", "+"]);
  }

  lemma DecimalSumExampleScan()
    ensures Lex("0.1 + 0.2") == Ok(["0.1", "+", "0.2"])
  {
    DecimalSumExampleScanPart3();
  }

  lemma DecimalSumExampleScanPart1()
    ensures LexFrom("0.1 + 0.2", 6) == Ok(["0.2"])
  {
    var s := "0.1 + 0.2";
    assert s[6..9] == "0.2" && ["0.2"] + [] == ["0.2"];
  }

  lemma DecimalSumExampleScanPart2()
    ensures LexFrom("0.1 + 0.2", 4) == Ok(["+", "0.2"])
  {
    var s := "0.1 + 0.2";
    DecimalSumExampleScanPart1();
    assert [s[4]] == "+" && ["+"] + ["0.2"] == ["+", "0.2"];
  }

  lemma DecimalSumExampleScanPart3()
    ensures LexFrom("0.1 + 0.2", 0) == Ok(["0.1", "+", "0.2"])
  {
    var s := "0.1 + 0.2";
    DecimalSumExampleScanPart2();
    assert s[0..3] == "0.1" && ["0.1"] + ["+", "0.2"] == ["0.1", "+", "0.2"];
  }

  lemma DecimalSumExampleConversion()
    ensures Convert(["0.1", "+", "0.2"]) == Ok(["0.1", "0.2", "+"])
  {
    DecimalSumExampleConversionPart4();
    assert ["0.1", "0.2"] + ["+"] == ["0.1", "0.2", "+"];
  }

  lemma DecimalSumExampleConversionPart1()
    ensures Feed(Yard(["0.1", "0.2"], ["+"], Number), []) == Ok(Yard(["0.1", "0.2"], ["+"], Number))
  {
  }

  lemma DecimalSumExampleConversionStep2()
    ensures Step(Yard(["0.1"], ["+"], Operator), "0.2") == Ok(Yard(["0.1", "0.2"], ["+"], Number))
  {
    assert ["0.1"] + ["0.2"] == ["0.1", "0.2"];
  }

  lemma DecimalSumExampleConversionPart2()
    ensures Feed(Yard(["0.1"], ["+"], Operator), ["0.2"]) == Ok(Yard(["0.1", "0.2"], ["+"], Number))
  {
    DecimalSumExampleConversionPart1();
    DecimalSumExampleConversionStep2();
    FeedOne(Yard(["0.1"], ["+"], Operator), ["0.2"]);
    assert ["0.2"][1..] == [];
  }

  lemma DecimalSumExampleConversionStep3()
    ensures Step(Yard(["0.1"], [], Number), "+") == Ok(Yard(["0.1"], ["+"], Operator))
  {
    PopHigherStops(Yard(["0.1"], [], Number), "+");
    assert PopHigher(Yard(["0.1"], [], Number), "+") == Ok(Yard(["0.1"], [], Number));
    assert [] + ["+"] == ["+"];
  }

  lemma DecimalSumExampleConversionPart3()
    ensures Feed(Yard(["0.1"], [], Number), ["+", "0.2"]) == Ok(Yard(["0.1", "0.2"], ["+"], Number))
  {
    DecimalSumExampleConversionPart2();
    DecimalSumExampleConversionStep3();
    FeedOne(Yard(["0.1"], [], Number), ["+", "0.2"]);
    assert ["+", "0.2"][1..] == ["0.2"];
  }

  lemma DecimalSumExampleConversionStep4()
    ensures Step(Yard([], [], Operator), "0.1") == Ok(Yard(["0.1"], [], Number))
  {
    assert [] + ["0.1"] == ["0.1"];
  }

  lemma DecimalSumExampleConversionPart4()
    ensures Feed(Yard([], [], Operator), ["0.1", "+", "0.2"]) == Ok(Yard(["0.1", "0.2"], ["+"], Number))
  {
    DecimalSumExampleConversionPart3();
    DecimalSumExampleConversionStep4();
    FeedOne(Yard([], [], Operator), ["0.1", "+", "0.2"]);
    assert ["0.1", "+", "0.2"][1..] == ["+", "0.2"];
  }

  lemma DecimalSumExampleValue()
    ensures EvalRpn(["0.1", "0.2", "+"]) == Ok(0.3)
  {
    DecimalSumExampleValuePart4();
  }

  lemma DecimalSumExampleValuePart1()
    ensures Reduce([0.3], []) == Ok([0.3])
  {
  }

  lemma DecimalSumExampleValueStep2()
    ensures Apply([0.1, 0.2], "+") == Ok([0.3])
  {
    assert [0.1, 0.2][..0] + [0.3] == [0.3];
  }

  lemma DecimalSumExampleValuePart2()
    ensures Reduce([0.1, 0.2], ["+"]) == Ok([0.3])
  {
    DecimalSumExampleValuePart1();
    DecimalSumExampleValueStep2();
    ReduceOne([0.1, 0.2], ["+"]);
    assert ["+"][1..] == [];
  }

  lemma DecimalSumExampleValueStep3()
    ensures Apply([0.1], "0.2") == Ok([0.1, 0.2])
  {
    assert IsNumber("0.2") && LiteralValue("0.2") == 0.2;
    assert [0.1] + [0.2] == [0.1, 0.2];
  }

  lemma DecimalSumExampleValuePart3()
    ensures Reduce([0.1], ["0.2", "+"]) == Ok([0.3])
  {
    DecimalSumExampleValuePart2();
    DecimalSumExampleValueStep3();
    ReduceOne([0.1], ["0.2", "+"]);
    assert ["0.2", "+"][1..] == ["+"];
  }

  lemma DecimalSumExampleValueStep4()
    ensures Apply([], "0.1") == Ok([0.1])
  {
    assert IsNumber("0.1") && LiteralValue("0.1") == 0.1;
    assert [] + [0.1] == [0.1];
  }

  lemma DecimalSumExampleValuePart4()
    ensures Reduce([], ["0.1", "0.2", "+"]) == Ok([0.3])
  {
    DecimalSumExampleValuePart3();
    DecimalSumExampleValueStep4();
    ReduceOne([], ["0.1", "0.2", "+"]);
    assert ["0.1", "0.2", "+"][1..] == ["0.2", "+"];
  }

  /** `evaluate("1.5 * 2")` is 3. */
  lemma DecimalProductExample()
    ensures Evaluate(Some("1.5 * 2")) == Ok(3.0)
  {
    DecimalProductExampleScan();
    DecimalProductExampleConversion();
    DecimalProductExampleValue();
    StagesSucceed("1.5 * 2", ["1.5", "*", "2"], ["1.5", "2", "*"]);
  }

  lemma DecimalProductExampleScan()
    ensures Lex("1.5 * 2") == Ok(["1.5", "*", "2"])
  {
    DecimalProductExampleScanPart3();
  }

  lemma DecimalProductExampleScanPart1()
    ensures LexFrom("1.5 * 2", 6) == Ok(["2"])
  {
    var s := "1.5 * 2";
    assert s[6..7] == "2" && ["2"] + [] == ["2"];
  }

  lemma DecimalProductExampleScanPart2()
    ensures LexFrom("1.5 * 2", 4) == Ok(["*", "2"])
  {
    var s := "1.5 * 2";
    DecimalProductExampleScanPart1();
    assert [s[4]] == "*" && ["*"] + ["2"] == ["*", "2"];
  }

  lemma DecimalProductExampleScanPart3()
    ensures LexFrom("1.5 * 2", 0) == Ok(["1.5", "*", "2"])
  {
    var s := "1.5 * 2";
    DecimalProductExampleScanPart2();
    assert s[0..3] == "1.5" && ["1.5"] + ["*", "2"] == ["1.5", "*", "2"];
  }

  lemma DecimalProductExampleConversion()
    ensures Convert(["1.5", "*", "2"]) == Ok(["1.5", "2", "*"])
  {
    DecimalProductExampleConversionPart4();
    assert ["1.5", "2"] + ["*"] == ["1.5", "2", "*"];
  }

  lemma DecimalProductExampleConversionPart1()
    ensures Feed(Yard(["1.5", "2"], ["*"], Number), []) == Ok(Yard(["1.5", "2"], ["*"], Number))
  {
  }

  lemma DecimalProductExampleConversionStep2()
    ensures Step(Yard(["1.5"], ["*"], Operator), "2") == Ok(Yard(["1.5", "2"], ["*"], Number))
  {
    assert ["1.5"] + ["2"] == ["1.5", "2"];
  }

  lemma DecimalProductExampleConversionPart2()
    ensures Feed(Yard(["1.5"], ["*"], Operator), ["2"]) == Ok(Yard(["1.5", "2"], ["*"], Number))
  {
    DecimalProductExampleConversionPart1();
    DecimalProductExampleConversionStep2();
    FeedOne(Yard(["1.5"], ["*"], Operator), ["2"]);
    assert ["2"][1..] == [];
  }

  lemma DecimalProductExampleConversionStep3()
    ensures Step(Yard(["1.5"], [], Number), "*") == Ok(Yard(["1.5"], ["*"], Operator))
  {
    PopHigherStops(Yard(["1.5"], [], Number), "*");
    assert PopHigher(Yard(["1.5"], [], Number), "*") == Ok(Yard(["1.5"], [], Number));
    assert [] + ["*"] == ["*"];
  }

  lemma DecimalProductExampleConversionPart3()
    ensures Feed(Yard(["1.5"], [], Number), ["*", "2"]) == Ok(Yard(["1.5", "2"], ["*"], Number))
  {
    DecimalProductExampleConversionPart2();
    DecimalProductExampleConversionStep3();
    FeedOne(Yard(["1.5"], [], Number), ["*", "2"]);
    assert ["*", "2"][1..] == ["2"];
  }

  lemma DecimalProductExampleConversionStep4()
    ensures Step(Yard([], [], Operator), "1.5") == Ok(Yard(["1.5"], [], Number))
  {
    assert [] + ["1.5"] == ["1.5"];
  }

  lemma DecimalProductExampleConversionPart4()
    ensures Feed(Yard([], [], Operator), ["1.5", "*", "2"]) == Ok(Yard(["1.5", "2"], ["*"], Number))
  {
    DecimalProductExampleConversionPart3();
    DecimalProductExampleConversionStep4();
    FeedOne(Yard([], [], Operator), ["1.5", "*", "2"]);
    assert ["1.5", "*", "2"][1..] == ["*", "2"];
  }

  lemma DecimalProductExampleValue()
    ensures EvalRpn(["1.5", "2", "*"]) == Ok(3.0)
  {
    DecimalProductExampleValuePart4();
  }

  lemma DecimalProductExampleValuePart1()
    ensures Reduce([3.0], []) == Ok([3.0])
  {
  }

  lemma DecimalProductExampleValueStep2()
    ensures Apply([1.5, 2.0], "*") == Ok([3.0])
  {
    assert [1.5, 2.0][..0] + [3.0] == [3.0];
  }

  lemma DecimalProductExampleValuePart2()
    ensures Reduce([1.5, 2.0], ["*"]) == Ok([3.0])
  {
    DecimalProductExampleValuePart1();
    DecimalProductExampleValueStep2();
    ReduceOne([1.5, 2.0], ["*"]);
    assert ["*"][1..] == [];
  }

  lemma DecimalProductExampleValueStep3()
    ensures Apply([1.5], "2") == Ok([1.5, 2.0])
  {
    assert IsNumber("2") && LiteralValue("2") == 2.0;
    assert [1.5] + [2.0] == [1.5, 2.0];
  }

  lemma DecimalProductExampleValuePart3()
    ensures Reduce([1.5], ["2", "*"]) == Ok([3.0])
  {
    DecimalProductExampleValuePart2();
    DecimalProductExampleValueStep3();
    ReduceOne([1.5], ["2", "*"]);
    assert ["2", "*"][1..] == ["*"];
  }

  lemma DecimalProductExampleValueStep4()
    ensures Apply([], "1.5") == Ok([1.5])
  {
    assert IsNumber("1.5") && LiteralValue("1.5") == 1.5;
    assert [] + [1.5] == [1.5];
  }

  lemma DecimalProductExampleValuePart4()
    ensures Reduce([], ["1.5", "2", "*"]) == Ok([3.0])
  {
    DecimalProductExampleValuePart3();
    DecimalProductExampleValueStep4();
    ReduceOne([], ["1.5", "2", "*"]);
    assert ["1.5", "2", "*"][1..] == ["2", "*"];
  }

  /** A leading `-` is unary: `evaluate("-5 + 3")` is -2. */
  lemma UnaryMinusExample()
    ensures Evaluate(Some("-5 + 3")) == Ok((-2.0))
  {
    UnaryMinusExampleScan();
    UnaryMinusExampleConversion();
    UnaryMinusExampleValue();
    StagesSucceed("-5 + 3", ["-", "5", "+", "3"], ["5", "u-", "3", "+"]);
  }

  lemma UnaryMinusExampleScan()
    ensures Lex("-5 + 3") == Ok(["-", "5", "+", "3"])
  {
    UnaryMinusExampleScanPart4();
  }

  lemma UnaryMinusExampleScanPart1()
    ensures LexFrom("-5 + 3", 5) == Ok(["3"])
  {
    var s := "-5 + 3";
    assert s[5..6] == "3" && ["3"] + [] == ["3"];
  }

  lemma UnaryMinusExampleScanPart2()
    ensures LexFrom("-5 + 3", 3) == Ok(["+", "3"])
  {
    var s := "-5 + 3";
    UnaryMinusExampleScanPart1();
    assert [s[3]] == "+" && ["+"] + ["3"] == ["+", "3"];
  }

  lemma UnaryMinusExampleScanPart3()
    ensures LexFrom("-5 + 3", 1) == Ok(["5", "+", "3"])
  {
    var s := "-5 + 3";
    UnaryMinusExampleScanPart2();
    assert s[1..2] == "5" && ["5"] + ["+", "3"] == ["5", "+", "3"];
  }

  lemma UnaryMinusExampleScanPart4()
    ensures LexFrom("-5 + 3", 0) == Ok(["-", "5", "+", "3"])
  {
    var s := "-5 + 3";
    UnaryMinusExampleScanPart3();
    assert [s[0]] == "-" && ["-"] + ["5", "+", "3"] == ["-", "5", "+", "3"];
  }

  lemma UnaryMinusExampleConversion()
    ensures Convert(["-", "5", "+", "3"]) == Ok(["5", "u-", "3", "+"])
  {
    UnaryMinusExampleConversionPart5();
    assert ["5", "u-", "3"] + ["+"] == ["5", "u-", "3", "+"];
  }

  lemma UnaryMinusExampleConversionPart1()
    ensures Feed(Yard(["5", "u-", "3"], ["+"], Number), []) == Ok(Yard(["5", "u-", "3"], ["+"], Number))
  {
  }

  lemma UnaryMinusExampleConversionStep2()
    ensures Step(Yard(["5", "u-"], ["+"], Operator), "3") == Ok(Yard(["5", "u-", "3"], ["+"], Number))
  {
    assert ["5", "u-"] + ["3"] == ["5", "u-", "3"];
  }

  lemma UnaryMinusExampleConversionPart2()
    ensures Feed(Yard(["5", "u-"], ["+"], Operator), ["3"]) == Ok(Yard(["5", "u-", "3"], ["+"], Number))
  {
    UnaryMinusExampleConversionPart1();
    UnaryMinusExampleConversionStep2();
    FeedOne(Yard(["5", "u-"], ["+"], Operator), ["3"]);
    assert ["3"][1..] == [];
  }

  lemma UnaryMinusExampleConversionStep3()
    ensures Step(Yard(["5"], ["u-"], Number), "+") == Ok(Yard(["5", "u-"], ["+"], Operator))
  {
    assert Pop(Yard(["5"], ["u-"], Number)) == Yard(["5", "u-"], [], Number);
    PopHigherStops(Yard(["5", "u-"], [], Number), "+");
    PopHigherPops(Yard(["5"], ["u-"], Number), "+");
    assert PopHigher(Yard(["5"], ["u-"], Number), "+") == Ok(Yard(["5", "u-"], [], Number));
    assert [] + ["+"] == ["+"];
  }

  lemma UnaryMinusExampleConversionPart3()
    ensures Feed(Yard(["5"], ["u-"], Number), ["+", "3"]) == Ok(Yard(["5", "u-", "3"], ["+"], Number))
  {
    UnaryMinusExampleConversionPart2();
    UnaryMinusExampleConversionStep3();
    FeedOne(Yard(["5"], ["u-"], Number), ["+", "3"]);
    assert ["+", "3"][1..] == ["3"];
  }

  lemma UnaryMinusExampleConversionStep4()
    ensures Step(Yard([], ["u-"], Operator), "5") == Ok(Yard(["5"], ["u-"], Number))
  {
    assert [] + ["5"] == ["5"];
  }

  lemma UnaryMinusExampleConversionPart4()
    ensures Feed(Yard([], ["u-"], Operator), ["5", "+", "3"]) == Ok(Yard(["5", "u-", "3"], ["+"], Number))
  {
    UnaryMinusExampleConversionPart3();
    UnaryMinusExampleConversionStep4();
    FeedOne(Yard([], ["u-"], Operator), ["5", "+", "3"]);
    assert ["5", "+", "3"][1..] == ["+", "3"];
  }

  lemma UnaryMinusExampleConversionStep5()
    ensures Step(Yard([], [], Operator), "-") == Ok(Yard([], ["u-"], Operator))
  {
    PopHigherStops(Yard([], [], Operator), "u-");
    assert PopHigher(Yard([], [], Operator), "u-") == Ok(Yard([], [], Operator));
    assert [] + ["u-"] == ["u-"];
  }

  lemma UnaryMinusExampleConversionPart5()
    ensures Feed(Yard([], [], Operator), ["-", "5", "+", "3"]) == Ok(Yard(["5", "u-", "3"], ["+"], Number))
  {
    UnaryMinusExampleConversionPart4();
    UnaryMinusExampleConversionStep5();
    FeedOne(Yard([], [], Operator), ["-", "5", "+", "3"]);
    assert ["-", "5", "+", "3"][1..] == ["5", "+", "3"];
  }

  lemma UnaryMinusExampleValue()
    ensures EvalRpn(["5", "u-", "3", "+"]) == Ok((-2.0))
  {
    UnaryMinusExampleValuePart5();
  }

  lemma UnaryMinusExampleValuePart1()
    ensures Reduce([(-2.0)], []) == Ok([(-2.0)])
  {
  }

  lemma UnaryMinusExampleValueStep2()
    ensures Apply([(-5.0), 3.0], "+") == Ok([(-2.0)])
  {
    assert [(-5.0), 3.0][..0] + [(-2.0)] == [(-2.0)];
  }

  lemma UnaryMinusExampleValuePart2()
    ensures Reduce([(-5.0), 3.0], ["+"]) == Ok([(-2.0)])
  {
    UnaryMinusExampleValuePart1();
    UnaryMinusExampleValueStep2();
    ReduceOne([(-5.0), 3.0], ["+"]);
    assert ["+"][1..] == [];
  }

  lemma UnaryMinusExampleValueStep3()
    ensures Apply([(-5.0)], "3") == Ok([(-5.0), 3.0])
  {
    assert IsNumber("3") && LiteralValue("3") == 3.0;
    assert [(-5.0)] + [3.0] == [(-5.0), 3.0];
  }

  lemma UnaryMinusExampleValuePart3()
    ensures Reduce([(-5.0)], ["3", "+"]) == Ok([(-2.0)])
  {
    UnaryMinusExampleValuePart2();
    UnaryMinusExampleValueStep3();
    ReduceOne([(-5.0)], ["3", "+"]);
    assert ["3", "+"][1..] == ["+"];
  }

  lemma UnaryMinusExampleValueStep4()
    ensures Apply([5.0], "u-") == Ok([(-5.0)])
  {
    assert [5.0][..0] + [(-5.0)] == [(-5.0)];
  }

  lemma UnaryMinusExampleValuePart4()
    ensures Reduce([5.0], ["u-", "3", "+"]) == Ok([(-2.0)])
  {
    UnaryMinusExampleValuePart3();
    UnaryMinusExampleValueStep4();
    ReduceOne([5.0], ["u-", "3", "+"]);
    assert ["u-", "3", "+"][1..] == ["3", "+"];
  }

  lemma UnaryMinusExampleValueStep5()
    ensures Apply([], "5") == Ok([5.0])
  {
    assert IsNumber("5") && LiteralValue("5") == 5.0;
    assert [] + [5.0] == [5.0];
  }

  lemma UnaryMinusExampleValuePart5()
    ensures Reduce([], ["5", "u-", "3", "+"]) == Ok([(-2.0)])
  {
    UnaryMinusExampleValuePart4();
    UnaryMinusExampleValueStep5();
    ReduceOne([], ["5", "u-", "3", "+"]);
    assert ["5", "u-", "3", "+"][1..] == ["u-", "3", "+"];
  }

  /** `evaluate("5 / 0")` raises `ZeroDivisionError`. */
  lemma DivisionByZeroExample()
    ensures Evaluate(Some("5 / 0")) == Err(DivisionByZero)
  {
    DivisionByZeroExampleScan();
    DivisionByZeroExampleConversion();
    DivisionByZeroExampleValue();
    StagesSucceed("5 / 0", ["5", "/", "0"], ["5", "0", "/"]);
  }

  lemma DivisionByZeroExampleScan()
    ensures Lex("5 / 0") == Ok(["5", "/", "0"])
  {
    DivisionByZeroExampleScanPart3();
  }

  lemma DivisionByZeroExampleScanPart1()
    ensures LexFrom("5 / 0", 4) == Ok(["0"])
  {
    var s := "5 / 0";
    assert s[4..5] == "0" && ["0"] + [] == ["0"];
  }

  lemma DivisionByZeroExampleScanPart2()
    ensures LexFrom("5 / 0", 2) == Ok(["/", "0"])
  {
    var s := "5 / 0";
    DivisionByZeroExampleScanPart1();
    assert [s[2]] == "/" && ["/"] + ["0"] == ["/", "0"];
  }

  lemma DivisionByZeroExampleScanPart3()
    ensures LexFrom("5 / 0", 0) == Ok(["5", "/", "0"])
  {
    var s := "5 / 0";
    DivisionByZeroExampleScanPart2();
    assert s[0..1] == "5" && ["5"] + ["/", "0"] == ["5", "/", "0"];
  }

  lemma DivisionByZeroExampleConversion()
    ensures Convert(["5", "/", "0"]) == Ok(["5", "0", "/"])
  {
    DivisionByZeroExampleConversionPart4();
    assert ["5", "0"] + ["/"] == ["5", "0", "/"];
  }

  lemma DivisionByZeroExampleConversionPart1()
    ensures Feed(Yard(["5", "0"], ["/"], Number), []) == Ok(Yard(["5", "0"], ["/"], Number))
  {
  }

  lemma DivisionByZeroExampleConversionStep2()
    ensures Step(Yard(["5"], ["/"], Operator), "0") == Ok(Yard(["5", "0"], ["/"], Number))
  {
    assert ["5"] + ["0"] == ["5", "0"];
  }

  lemma DivisionByZeroExampleConversionPart2()
    ensures Feed(Yard(["5"], ["/"], Operator), ["0"]) == Ok(Yard(["5", "0"], ["/"], Number))
  {
    DivisionByZeroExampleConversionPart1();
    DivisionByZeroExampleConversionStep2();
    FeedOne(Yard(["5"], ["/"], Operator), ["0"]);
    assert ["0"][1..] == [];
  }

  lemma DivisionByZeroExampleConversionStep3()
    ensures Step(Yard(["5"], [], Number), "/") == Ok(Yard(["5"], ["/"], Operator))
  {
    PopHigherStops(Yard(["5"], [], Number), "/");
    assert PopHigher(Yard(["5"], [], Number), "/") == Ok(Yard(["5"], [], Number));
    assert [] + ["/"] == ["/"];
  }

  lemma DivisionByZeroExampleConversionPart3()
    ensures Feed(Yard(["5"], [], Number), ["/", "0"]) == Ok(Yard(["5", "0"], ["/"], Number))
  {
    DivisionByZeroExampleConversionPart2();
    DivisionByZeroExampleConversionStep3();
    FeedOne(Yard(["5"], [], Number), ["/", "0"]);
    assert ["/", "0"][1..] == ["0"];
  }

  lemma DivisionByZeroExampleConversionStep4()
    ensures Step(Yard([], [], Operator), "5") == Ok(Yard(["5"], [], Number))
  {
    assert [] + ["5"] == ["5"];
  }

  lemma DivisionByZeroExampleConversionPart4()
    ensures Feed(Yard([], [], Operator), ["5", "/", "0"]) == Ok(Yard(["5", "0"], ["/"], Number))
  {
    DivisionByZeroExampleConversionPart3();
    DivisionByZeroExampleConversionStep4();
    FeedOne(Yard([], [], Operator), ["5", "/", "0"]);
    assert ["5", "/", "0"][1..] == ["/", "0"];
  }

  lemma DivisionByZeroExampleValue()
    ensures EvalRpn(["5", "0", "/"]) == Err(DivisionByZero)
  {
    DivisionByZeroExampleValuePart3();
  }

  lemma DivisionByZeroExampleValueStep1()
    ensures Apply([5.0, 0.0], "/") == Err(DivisionByZero)
  {
  }

  lemma DivisionByZeroExampleValuePart1()
    ensures Reduce([5.0, 0.0], ["/"]) == Err(DivisionByZero)
  {
    DivisionByZeroExampleValueStep1();
    ReduceOne([5.0, 0.0], ["/"]);
  }

  lemma DivisionByZeroExampleValueStep2()
    ensures Apply([5.0], "0") == Ok([5.0, 0.0])
  {
    assert IsNumber("0") && LiteralValue("0") == 0.0;
    assert [5.0] + [0.0] == [5.0, 0.0];
  }

  lemma DivisionByZeroExampleValuePart2()
    ensures Reduce([5.0], ["0", "/"]) == Err(DivisionByZero)
  {
    DivisionByZeroExampleValuePart1();
    DivisionByZeroExampleValueStep2();
    ReduceOne([5.0], ["0", "/"]);
    assert ["0", "/"][1..] == ["/"];
  }

  lemma DivisionByZeroExampleValueStep3()
    ensures Apply([], "5") == Ok([5.0])
  {
    assert IsNumber("5") && LiteralValue("5") == 5.0;
    assert [] + [5.0] == [5.0];
  }

  lemma DivisionByZeroExampleValuePart3()
    ensures Reduce([], ["5", "0", "/"]) == Err(DivisionByZero)
  {
    DivisionByZeroExampleValuePart2();
    DivisionByZeroExampleValueStep3();
    ReduceOne([], ["5", "0", "/"]);
    assert ["5", "0", "/"][1..] == ["0", "/"];
  }

  /** `evaluate("2 + * 2")` raises: `*` cannot follow `+`. */
  lemma OperatorAfterOperatorExample()
    ensures Evaluate(Some("2 + * 2")) == Err(OperatorAfterOperator)
  {
    OperatorAfterOperatorExampleScan();
    OperatorAfterOperatorExampleConversion();
    ConversionFails("2 + * 2", ["2", "+", "*", "2"], OperatorAfterOperator);
  }

  lemma OperatorAfterOperatorExampleScan()
    ensures Lex("2 + * 2") == Ok(["2", "+", "*", "2"])
  {
    OperatorAfterOperatorExampleScanPart4();
  }

  lemma OperatorAfterOperatorExampleScanPart1()
    ensures LexFrom("2 + * 2", 6) == Ok(["2"])
  {
    var s := "2 + * 2";
    assert s[6..7] == "2" && ["2"] + [] == ["2"];
  }

  lemma OperatorAfterOperatorExampleScanPart2()
    ensures LexFrom("2 + * 2", 4) == Ok(["*", "2"])
  {
    var s := "2 + * 2";
    OperatorAfterOperatorExampleScanPart1();
    assert [s[4]] == "*" && ["*"] + ["2"] == ["*", "2"];
  }

  lemma OperatorAfterOperatorExampleScanPart3()
    ensures LexFrom("2 + * 2", 2) == Ok(["+", "*", "2"])
  {
    var s := "2 + * 2";
    OperatorAfterOperatorExampleScanPart2();
    assert [s[2]] == "+" && ["+"] + ["*", "2"] == ["+", "*", "2"];
  }

  lemma OperatorAfterOperatorExampleScanPart4()
    ensures LexFrom("2 + * 2", 0) == Ok(["2", "+", "*", "2"])
  {
    var s := "2 + * 2";
    OperatorAfterOperatorExampleScanPart3();
    assert s[0..1] == "2" && ["2"] + ["+", "*", "2"] == ["2", "+", "*", "2"];
  }

  lemma OperatorAfterOperatorExampleConversion()
    ensures Convert(["2", "+", "*", "2"]) == Err(OperatorAfterOperator)
  {
    OperatorAfterOperatorExampleConversionPart3();
  }

  lemma OperatorAfterOperatorExampleConversionStep1()
    ensures Step(Yard(["2"], ["+"], Operator), "*") == Err(OperatorAfterOperator)
  {
  }

  lemma OperatorAfterOperatorExampleConversionPart1()
    ensures Feed(Yard(["2"], ["+"], Operator), ["*", "2"]) == Err(OperatorAfterOperator)
  {
    OperatorAfterOperatorExampleConversionStep1();
    FeedOne(Yard(["2"], ["+"], Operator), ["*", "2"]);
    assert ["*", "2"][1..] == ["2"];
  }

  lemma OperatorAfterOperatorExampleConversionStep2()
    ensures Step(Yard(["2"], [], Number), "+") == Ok(Yard(["2"], ["+"], Operator))
  {
    PopHigherStops(Yard(["2"], [], Number), "+");
    assert PopHigher(Yard(["2"], [], Number), "+") == Ok(Yard(["2"], [], Number));
    assert [] + ["+"] == ["+"];
  }

  lemma OperatorAfterOperatorExampleConversionPart2()
    ensures Feed(Yard(["2"], [], Number), ["+", "*", "2"]) == Err(OperatorAfterOperator)
  {
    OperatorAfterOperatorExampleConversionPart1();
    OperatorAfterOperatorExampleConversionStep2();
    FeedOne(Yard(["2"], [], Number), ["+", "*", "2"]);
    assert ["+", "*", "2"][1..] == ["*", "2"];
  }

  lemma OperatorAfterOperatorExampleConversionStep3()
    ensures Step(Yard([], [], Operator), "2") == Ok(Yard(["2"], [], Number))
  {
    assert [] + ["2"] == ["2"];
  }

  lemma OperatorAfterOperatorExampleConversionPart3()
    ensures Feed(Yard([], [], Operator), ["2", "+", "*", "2"]) == Err(OperatorAfterOperator)
  {
    OperatorAfterOperatorExampleConversionPart2();
    OperatorAfterOperatorExampleConversionStep3();
    FeedOne(Yard([], [], Operator), ["2", "+", "*", "2"]);
    assert ["2", "+", "*", "2"][1..] == ["+", "*", "2"];
  }

  /** `evaluate("2 + a")` raises on the letter. */
  lemma InvalidCharacterExample()
    ensures Evaluate(Some("2 + a")) == Err(InvalidCharacter('a'))
  {
    InvalidCharacterExampleScan();
    ScanFails("2 + a", InvalidCharacter('a'));
  }

  lemma InvalidCharacterExampleScan()
    ensures Lex("2 + a") == Err(InvalidCharacter('a'))
  {
    InvalidCharacterExampleScanPart3();
  }

  lemma InvalidCharacterExampleScanPart1()
    ensures LexFrom("2 + a", 4) == Err(InvalidCharacter('a'))
  {
    var s := "2 + a";
  }

  lemma InvalidCharacterExampleScanPart2()
    ensures LexFrom("2 + a", 2) == Err(InvalidCharacter('a'))
  {
    var s := "2 + a";
    InvalidCharacterExampleScanPart1();
  }

  lemma InvalidCharacterExampleScanPart3()
    ensures LexFrom("2 + a", 0) == Err(InvalidCharacter('a'))
  {
    var s := "2 + a";
    InvalidCharacterExampleScanPart2();
  }

  /** `evaluate("")` raises: the expression is empty. */
  lemma EmptyExample()
    ensures Evaluate(Some("")) == Err(EmptyExpression)
  {
  }

  /** Two numbers side by side leave two values: `evaluate("2 3")` is malformed. */
  lemma AdjacentNumbersExample()
    ensures Evaluate(Some("2 3")) == Err(MalformedExpression)
  {
    AdjacentNumbersExampleScan();
    AdjacentNumbersExampleConversion();
    AdjacentNumbersExampleValue();
    StagesSucceed("2 3", ["2", "3"], ["2", "3"]);
  }

  lemma AdjacentNumbersExampleScan()
    ensures Lex("2 3") == Ok(["2", "3"])
  {
    AdjacentNumbersExampleScanPart2();
  }

  lemma AdjacentNumbersExampleScanPart1()
    ensures LexFrom("2 3", 2) == Ok(["3"])
  {
    var s := "2 3";
    assert s[2..3] == "3" && ["3"] + [] == ["3"];
  }

  lemma AdjacentNumbersExampleScanPart2()
    ensures LexFrom("2 3", 0) == Ok(["2", "3"])
  {
    var s := "2 3";
    AdjacentNumbersExampleScanPart1();
    assert s[0..1] == "2" && ["2"] + ["3"] == ["2", "3"];
  }

  lemma AdjacentNumbersExampleConversion()
    ensures Convert(["2", "3"]) == Ok(["2", "3"])
  {
    AdjacentNumbersExampleConversionPart3();
    assert ["2", "3"] + [] == ["2", "3"];
  }

  lemma AdjacentNumbersExampleConversionPart1()
    ensures Feed(Yard(["2", "3"], [], Number), []) == Ok(Yard(["2", "3"], [], Number))
  {
  }

  lemma AdjacentNumbersExampleConversionStep2()
    ensures Step(Yard(["2"], [], Number), "3") == Ok(Yard(["2", "3"], [], Number))
  {
    assert ["2"] + ["3"] == ["2", "3"];
  }

  lemma AdjacentNumbersExampleConversionPart2()
    ensures Feed(Yard(["2"], [], Number), ["3"]) == Ok(Yard(["2", "3"], [], Number))
  {
    AdjacentNumbersExampleConversionPart1();
    AdjacentNumbersExampleConversionStep2();
    FeedOne(Yard(["2"], [], Number), ["3"]);
    assert ["3"][1..] == [];
  }

  lemma AdjacentNumbersExampleConversionStep3()
    ensures Step(Yard([], [], Operator), "2") == Ok(Yard(["2"], [], Number))
  {
    assert [] + ["2"] == ["2"];
  }

  lemma AdjacentNumbersExampleConversionPart3()
    ensures Feed(Yard([], [], Operator), ["2", "3"]) == Ok(Yard(["2", "3"], [], Number))
  {
    AdjacentNumbersExampleConversionPart2();
    AdjacentNumbersExampleConversionStep3();
    FeedOne(Yard([], [], Operator), ["2", "3"]);
    assert ["2", "3"][1..] == ["3"];
  }

  lemma AdjacentNumbersExampleValue()
    ensures EvalRpn(["2", "3"]) == Err(MalformedExpression)
  {
    AdjacentNumbersExampleValuePart3();
  }

  lemma AdjacentNumbersExampleValuePart1()
    ensures Reduce([2.0, 3.0], []) == Ok([2.0, 3.0])
  {
  }

  lemma AdjacentNumbersExampleValueStep2()
    ensures Apply([2.0], "3") == Ok([2.0, 3.0])
  {
    assert IsNumber("3") && LiteralValue("3") == 3.0;
    assert [2.0] + [3.0] == [2.0, 3.0];
  }

  lemma AdjacentNumbersExampleValuePart2()
    ensures Reduce([2.0], ["3"]) == Ok([2.0, 3.0])
  {
    AdjacentNumbersExampleValuePart1();
    AdjacentNumbersExampleValueStep2();
    ReduceOne([2.0], ["3"]);
    assert ["3"][1..] == [];
  }

  lemma AdjacentNumbersExampleValueStep3()
    ensures Apply([], "2") == Ok([2.0])
  {
    assert IsNumber("2") && LiteralValue("2") == 2.0;
    assert [] + [2.0] == [2.0];
  }

  lemma AdjacentNumbersExampleValuePart3()
    ensures Reduce([], ["2", "3"]) == Ok([2.0, 3.0])
  {
    AdjacentNumbersExampleValuePart2();
    AdjacentNumbersExampleValueStep3();
    ReduceOne([], ["2", "3"]);
    assert ["2", "3"][1..] == ["3"];
  }

  /** `evaluate("()")` leaves no value: malformed. */
  lemma EmptyGroupExample()
    ensures Evaluate(Some("()")) == Err(MalformedExpression)
  {
    EmptyGroupExampleScan();
    EmptyGroupExampleConversion();
    EmptyGroupExampleValue();
    StagesSucceed("()", ["(", ")"], []);
  }

  lemma EmptyGroupExampleScan()
    ensures Lex("()") == Ok(["(", ")"])
  {
    EmptyGroupExampleScanPart2();
  }

  lemma EmptyGroupExampleScanPart1()
    ensures LexFrom("()", 1) == Ok([")"])
  {
    var s := "()";
    assert [s[1]] == ")" && [")"] + [] == [")"];
  }

  lemma EmptyGroupExampleScanPart2()
    ensures LexFrom("()", 0) == Ok(["(", ")"])
  {
    var s := "()";
    EmptyGroupExampleScanPart1();
    assert [s[0]] == "(" && ["("] + [")"] == ["(", ")"];
  }

  lemma EmptyGroupExampleConversion()
    ensures Convert(["(", ")"]) == Ok([])
  {
    EmptyGroupExampleConversionPart3();
  }

  lemma EmptyGroupExampleConversionPart1()
    ensures Feed(Yard([], [], RightParen), []) == Ok(Yard([], [], RightParen))
  {
  }

  lemma EmptyGroupExampleConversionStep2()
    ensures Step(Yard([], ["("], LeftParen), ")") == Ok(Yard([], [], RightParen))
  {
    assert CloseGroup(Yard([], ["("], LeftParen)) == Yard([], ["("], LeftParen);
    assert ["("][..0] == [];
  }

  lemma EmptyGroupExampleConversionPart2()
    ensures Feed(Yard([], ["("], LeftParen), [")"]) == Ok(Yard([], [], RightParen))
  {
    EmptyGroupExampleConversionPart1();
    EmptyGroupExampleConversionStep2();
    FeedOne(Yard([], ["("], LeftParen), [")"]);
    assert [")"][1..] == [];
  }

  lemma EmptyGroupExampleConversionStep3()
    ensures Step(Yard([], [], Operator), "(") == Ok(Yard([], ["("], LeftParen))
  {
    assert [] + ["("] == ["("];
  }

  lemma EmptyGroupExampleConversionPart3()
    ensures Feed(Yard([], [], Operator), ["(", ")"]) == Ok(Yard([], [], RightParen))
  {
    EmptyGroupExampleConversionPart2();
    EmptyGroupExampleConversionStep3();
    FeedOne(Yard([], [], Operator), ["(", ")"]);
    assert ["(", ")"][1..] == [")"];
  }

  lemma EmptyGroupExampleValue()
    ensures EvalRpn([]) == Err(MalformedExpression)
  {
    EmptyGroupExampleValuePart1();
  }

  lemma EmptyGroupExampleValuePart1()
    ensures Reduce([], []) == Ok([])
  {
  }

  /** The scanner accepts `5.` but `_is_number` rejects it, so `5.` is read as an operator at the start. */
  lemma TrailingPointExample()
    ensures Evaluate(Some("5.")) == Err(OperatorAfterOperator)
  {
    TrailingPointExampleScan();
    TrailingPointExampleConversion();
    ConversionFails("5.", ["5."], OperatorAfterOperator);
  }

  lemma TrailingPointExampleScan()
    ensures Lex("5.") == Ok(["5."])
  {
    var s := "5.";
    assert s[0..2] == "5." && ["5."] + [] == ["5."];
    assert LexFrom(s, 0) == Ok(["5."]);
  }

  lemma TrailingPointExampleConversion()
    ensures Convert(["5."]) == Err(OperatorAfterOperator)
  {
    TrailingPointExampleConversionPart1();
  }

  lemma TrailingPointExampleConversionStep1()
    ensures Step(Yard([], [], Operator), "5.") == Err(OperatorAfterOperator)
  {
  }

  lemma TrailingPointExampleConversionPart1()
    ensures Feed(Yard([], [], Operator), ["5."]) == Err(OperatorAfterOperator)
  {
    TrailingPointExampleConversionStep1();
    FeedOne(Yard([], [], Operator), ["5."]);
  }

  /** `5.` between two numbers is pushed as an operator and rejected by the postfix evaluator. */
  lemma TrailingPointUnsupportedExample()
    ensures Evaluate(Some("2 5. 3")) == Err(UnsupportedToken("5."))
  {
    TrailingPointUnsupportedExampleScan();
    TrailingPointUnsupportedExampleConversion();
    TrailingPointUnsupportedExampleValue();
    StagesSucceed("2 5. 3", ["2", "5.", "3"], ["2", "3", "5."]);
  }

  lemma TrailingPointUnsupportedExampleScan()
    ensures Lex("2 5. 3") == Ok(["2", "5.", "3"])
  {
    TrailingPointUnsupportedExampleScanPart3();
  }

  lemma TrailingPointUnsupportedExampleScanPart1()
    ensures LexFrom("2 5. 3", 5) == Ok(["3"])
  {
    var s := "2 5. 3";
    assert s[5..6] == "3" && ["3"] + [] == ["3"];
  }

  lemma TrailingPointUnsupportedExampleScanPart2()
    ensures LexFrom("2 5. 3", 2) == Ok(["5.", "3"])
  {
    var s := "2 5. 3";
    TrailingPointUnsupportedExampleScanPart1();
    assert s[2..4] == "5." && ["5."] + ["3"] == ["5.", "3"];
  }

  lemma TrailingPointUnsupportedExampleScanPart3()
    ensures LexFrom("2 5. 3", 0) == Ok(["2", "5.", "3"])
  {
    var s := "2 5. 3";
    TrailingPointUnsupportedExampleScanPart2();
    assert s[0..1] == "2" && ["2"] + ["5.", "3"] == ["2", "5.", "3"];
  }

  lemma TrailingPointUnsupportedExampleConversion()
    ensures Convert(["2", "5.", "3"]) == Ok(["2", "3", "5."])
  {
    TrailingPointUnsupportedExampleConversionPart4();
    assert ["2", "3"] + ["5."] == ["2", "3", "5."];
  }

  lemma TrailingPointUnsupportedExampleConversionPart1()
    ensures Feed(Yard(["2", "3"], ["5."], Number), []) == Ok(Yard(["2", "3"], ["5."], Number))
  {
  }

  lemma TrailingPointUnsupportedExampleConversionStep2()
    ensures Step(Yard(["2"], ["5."], Operator), "3") == Ok(Yard(["2", "3"], ["5."], Number))
  {
    assert ["2"] + ["3"] == ["2", "3"];
  }

  lemma TrailingPointUnsupportedExampleConversionPart2()
    ensures Feed(Yard(["2"], ["5."], Operator), ["3"]) == Ok(Yard(["2", "3"], ["5."], Number))
  {
    TrailingPointUnsupportedExampleConversionPart1();
    TrailingPointUnsupportedExampleConversionStep2();
    FeedOne(Yard(["2"], ["5."], Operator), ["3"]);
    assert ["3"][1..] == [];
  }

  lemma TrailingPointUnsupportedExampleConversionStep3()
    ensures Step(Yard(["2"], [], Number), "5.") == Ok(Yard(["2"], ["5."], Operator))
  {
    PopHigherStops(Yard(["2"], [], Number), "5.");
    assert PopHigher(Yard(["2"], [], Number), "5.") == Ok(Yard(["2"], [], Number));
    assert [] + ["5."] == ["5."];
  }

  lemma TrailingPointUnsupportedExampleConversionPart3()
    ensures Feed(Yard(["2"], [], Number), ["5.", "3"]) == Ok(Yard(["2", "3"], ["5."], Number))
  {
    TrailingPointUnsupportedExampleConversionPart2();
    TrailingPointUnsupportedExampleConversionStep3();
    FeedOne(Yard(["2"], [], Number), ["5.", "3"]);
    assert ["5.", "3"][1..] == ["3"];
  }

  lemma TrailingPointUnsupportedExampleConversionStep4()
    ensures Step(Yard([], [], Operator), "2") == Ok(Yard(["2"], [], Number))
  {
    assert [] + ["2"] == ["2"];
  }

  lemma TrailingPointUnsupportedExampleConversionPart4()
    ensures Feed(Yard([], [], Operator), ["2", "5.", "3"]) == Ok(Yard(["2", "3"], ["5."], Number))
  {
    TrailingPointUnsupportedExampleConversionPart3();
    TrailingPointUnsupportedExampleConversionStep4();
    FeedOne(Yard([], [], Operator), ["2", "5.", "3"]);
    assert ["2", "5.", "3"][1..] == ["5.", "3"];
  }

  lemma TrailingPointUnsupportedExampleValue()
    ensures EvalRpn(["2", "3", "5."]) == Err(UnsupportedToken("5."))
  {
    TrailingPointUnsupportedExampleValuePart3();
  }

  lemma TrailingPointUnsupportedExampleValueStep1()
    ensures Apply([2.0, 3.0], "5.") == Err(UnsupportedToken("5."))
  {
    assert !IsNumber("5.");
  }

  lemma TrailingPointUnsupportedExampleValuePart1()
    ensures Reduce([2.0, 3.0], ["5."]) == Err(UnsupportedToken("5."))
  {
    TrailingPointUnsupportedExampleValueStep1();
    ReduceOne([2.0, 3.0], ["5."]);
  }

  lemma TrailingPointUnsupportedExampleValueStep2()
    ensures Apply([2.0], "3") == Ok([2.0, 3.0])
  {
    assert IsNumber("3") && LiteralValue("3") == 3.0;
    assert [2.0] + [3.0] == [2.0, 3.0];
  }

  lemma TrailingPointUnsupportedExampleValuePart2()
    ensures Reduce([2.0], ["3", "5."]) == Err(UnsupportedToken("5."))
  {
    TrailingPointUnsupportedExampleValuePart1();
    TrailingPointUnsupportedExampleValueStep2();
    ReduceOne([2.0], ["3", "5."]);
    assert ["3", "5."][1..] == ["5."];
  }

  lemma TrailingPointUnsupportedExampleValueStep3()
    ensures Apply([], "2") == Ok([2.0])
  {
    assert IsNumber("2") && LiteralValue("2") == 2.0;
    assert [] + [2.0] == [2.0];
  }

  lemma TrailingPointUnsupportedExampleValuePart3()
    ensures Reduce([], ["2", "3", "5."]) == Err(UnsupportedToken("5."))
  {
    TrailingPointUnsupportedExampleValuePart2();
    TrailingPointUnsupportedExampleValueStep3();
    ReduceOne([], ["2", "3", "5."]);
    assert ["2", "3", "5."][1..] == ["3", "5."];
  }

  /** `5.` on the stack under a sign makes the precedence lookup fail with `KeyError`. */
  lemma TrailingPointLookupExample()
    ensures Evaluate(Some("2 5. -3")) == Err(UnknownOperator("5."))
  {
    TrailingPointLookupExampleScan();
    TrailingPointLookupExampleConversion();
    ConversionFails("2 5. -3", ["2", "5.", "-", "3"], UnknownOperator("5."));
  }

  lemma TrailingPointLookupExampleScan()
    ensures Lex("2 5. -3") == Ok(["2", "5.", "-", "3"])
  {
    TrailingPointLookupExampleScanPart4();
  }

  lemma TrailingPointLookupExampleScanPart1()
    ensures LexFrom("2 5. -3", 6) == Ok(["3"])
  {
    var s := "2 5. -3";
    assert s[6..7] == "3" && ["3"] + [] == ["3"];
  }

  lemma TrailingPointLookupExampleScanPart2()
    ensures LexFrom("2 5. -3", 5) == Ok(["-", "3"])
  {
    var s := "2 5. -3";
    TrailingPointLookupExampleScanPart1();
    assert [s[5]] == "-" && ["-"] + ["3"] == ["-", "3"];
  }

  lemma TrailingPointLookupExampleScanPart3()
    ensures LexFrom("2 5. -3", 2) == Ok(["5.", "-", "3"])
  {
    var s := "2 5. -3";
    TrailingPointLookupExampleScanPart2();
    assert s[2..4] == "5." && ["5."] + ["-", "3"] == ["5.", "-", "3"];
  }

  lemma TrailingPointLookupExampleScanPart4()
    ensures LexFrom("2 5. -3", 0) == Ok(["2", "5.", "-", "3"])
  {
    var s := "2 5. -3";
    TrailingPointLookupExampleScanPart3();
    assert s[0..1] == "2" && ["2"] + ["5.", "-", "3"] == ["2", "5.", "-", "3"];
  }

  lemma TrailingPointLookupExampleConversion()
    ensures Convert(["2", "5.", "-", "3"]) == Err(UnknownOperator("5."))
  {
    TrailingPointLookupExampleConversionPart3();
  }

  lemma TrailingPointLookupExampleConversionStep1()
    ensures Step(Yard(["2"], ["5."], Operator), "-") == Err(UnknownOperator("5."))
  {
    assert PopHigher(Yard(["2"], ["5."], Operator), "u-") == Err(UnknownOperator("5."));
  }

  lemma TrailingPointLookupExampleConversionPart1()
    ensures Feed(Yard(["2"], ["5."], Operator), ["-", "3"]) == Err(UnknownOperator("5."))
  {
    TrailingPointLookupExampleConversionStep1();
    FeedOne(Yard(["2"], ["5."], Operator), ["-", "3"]);
    assert ["-", "3"][1..] == ["3"];
  }

  lemma TrailingPointLookupExampleConversionStep2()
    ensures Step(Yard(["2"], [], Number), "5.") == Ok(Yard(["2"], ["5."], Operator))
  {
    PopHigherStops(Yard(["2"], [], Number), "5.");
    assert PopHigher(Yard(["2"], [], Number), "5.") == Ok(Yard(["2"], [], Number));
    assert [] + ["5."] == ["5."];
  }

  lemma TrailingPointLookupExampleConversionPart2()
    ensures Feed(Yard(["2"], [], Number), ["5.", "-", "3"]) == Err(UnknownOperator("5."))
  {
    TrailingPointLookupExampleConversionPart1();
    TrailingPointLookupExampleConversionStep2();
    FeedOne(Yard(["2"], [], Number), ["5.", "-", "3"]);
    assert ["5.", "-", "3"][1..] == ["-", "3"];
  }

  lemma TrailingPointLookupExampleConversionStep3()
    ensures Step(Yard([], [], Operator), "2") == Ok(Yard(["2"], [], Number))
  {
    assert [] + ["2"] == ["2"];
  }

  lemma TrailingPointLookupExampleConversionPart3()
    ensures Feed(Yard([], [], Operator), ["2", "5.", "-", "3"]) == Err(UnknownOperator("5."))
  {
    TrailingPointLookupExampleConversionPart2();
    TrailingPointLookupExampleConversionStep3();
    FeedOne(Yard([], [], Operator), ["2", "5.", "-", "3"]);
    assert ["2", "5.", "-", "3"][1..] == ["5.", "-", "3"];
  }

  /** `5.` after a number is pushed as an operator, so the expression ends with an operator. */
  lemma TrailingPointEndExample()
    ensures Evaluate(Some("2 5.")) == Err(TrailingOperator)
  {
    TrailingPointEndExampleScan();
    TrailingPointEndExampleConversion();
    ConversionFails("2 5.", ["2", "5."], TrailingOperator);
  }

  lemma TrailingPointEndExampleScan()
    ensures Lex("2 5.") == Ok(["2", "5."])
  {
    TrailingPointEndExampleScanPart2();
  }

  lemma TrailingPointEndExampleScanPart1()
    ensures LexFrom("2 5.", 2) == Ok(["5."])
  {
    var s := "2 5.";
    assert s[2..4] == "5." && ["5."] + [] == ["5."];
  }

  lemma TrailingPointEndExampleScanPart2()
    ensures LexFrom("2 5.", 0) == Ok(["2", "5."])
  {
    var s := "2 5.";
    TrailingPointEndExampleScanPart1();
    assert s[0..1] == "2" && ["2"] + ["5."] == ["2", "5."];
  }

  lemma TrailingPointEndExampleConversion()
    ensures Convert(["2", "5."]) == Err(TrailingOperator)
  {
    TrailingPointEndExampleConversionPart3();
  }

  lemma TrailingPointEndExampleConversionPart1()
    ensures Feed(Yard(["2"], ["5."], Operator), []) == Ok(Yard(["2"], ["5."], Operator))
  {
  }

  lemma TrailingPointEndExampleConversionStep2()
    ensures Step(Yard(["2"], [], Number), "5.") == Ok(Yard(["2"], ["5."], Operator))
  {
    PopHigherStops(Yard(["2"], [], Number), "5.");
    assert PopHigher(Yard(["2"], [], Number), "5.") == Ok(Yard(["2"], [], Number));
    assert [] + ["5."] == ["5."];
  }

  lemma TrailingPointEndExampleConversionPart2()
    ensures Feed(Yard(["2"], [], Number), ["5."]) == Ok(Yard(["2"], ["5."], Operator))
  {
    TrailingPointEndExampleConversionPart1();
    TrailingPointEndExampleConversionStep2();
    FeedOne(Yard(["2"], [], Number), ["5."]);
    assert ["5."][1..] == [];
  }

  lemma TrailingPointEndExampleConversionStep3()
    ensures Step(Yard([], [], Operator), "2") == Ok(Yard(["2"], [], Number))
  {
    assert [] + ["2"] == ["2"];
  }

  lemma TrailingPointEndExampleConversionPart3()
    ensures Feed(Yard([], [], Operator), ["2", "5."]) == Ok(Yard(["2"], ["5."], Operator))
  {
    TrailingPointEndExampleConversionPart2();
    TrailingPointEndExampleConversionStep3();
    FeedOne(Yard([], [], Operator), ["2", "5."]);
    assert ["2", "5."][1..] == ["5."];
  }

  /** A `)` pops the operator `5.` and then finds no `(`. */
  lemma TrailingPointCloseExample()
    ensures Evaluate(Some("2 5.)")) == Err(MismatchedParentheses)
  {
    TrailingPointCloseExampleScan();
    TrailingPointCloseExampleConversion();
    ConversionFails("2 5.)", ["2", "5.", ")"], MismatchedParentheses);
  }

  lemma TrailingPointCloseExampleScan()
    ensures Lex("2 5.)") == Ok(["2", "5.", ")"])
  {
    TrailingPointCloseExampleScanPart3();
  }

  lemma TrailingPointCloseExampleScanPart1()
    ensures LexFrom("2 5.)", 4) == Ok([")"])
  {
    var s := "2 5.)";
    assert [s[4]] == ")" && [")"] + [] == [")"];
  }

  lemma TrailingPointCloseExampleScanPart2()
    ensures LexFrom("2 5.)", 2) == Ok(["5.", ")"])
  {
    var s := "2 5.)";
    TrailingPointCloseExampleScanPart1();
    assert s[2..4] == "5." && ["5."] + [")"] == ["5.", ")"];
  }

  lemma TrailingPointCloseExampleScanPart3()
    ensures LexFrom("2 5.)", 0) == Ok(["2", "5.", ")"])
  {
    var s := "2 5.)";
    TrailingPointCloseExampleScanPart2();
    assert s[0..1] == "2" && ["2"] + ["5.", ")"] == ["2", "5.", ")"];
  }

  lemma TrailingPointCloseExampleConversion()
    ensures Convert(["2", "5.", ")"]) == Err(MismatchedParentheses)
  {
    TrailingPointCloseExampleConversionPart3();
  }

  lemma TrailingPointCloseExampleConversionStep1()
    ensures Step(Yard(["2"], ["5."], Operator), ")") == Err(MismatchedParentheses)
  {
    assert Pop(Yard(["2"], ["5."], Operator)) == Yard(["2", "5."], [], Operator);
  }

  lemma TrailingPointCloseExampleConversionPart1()
    ensures Feed(Yard(["2"], ["5."], Operator), [")"]) == Err(MismatchedParentheses)
  {
    TrailingPointCloseExampleConversionStep1();
    FeedOne(Yard(["2"], ["5."], Operator), [")"]);
  }

  lemma TrailingPointCloseExampleConversionStep2()
    ensures Step(Yard(["2"], [], Number), "5.") == Ok(Yard(["2"], ["5."], Operator))
  {
    PopHigherStops(Yard(["2"], [], Number), "5.");
    assert PopHigher(Yard(["2"], [], Number), "5.") == Ok(Yard(["2"], [], Number));
    assert [] + ["5."] == ["5."];
  }

  lemma TrailingPointCloseExampleConversionPart2()
    ensures Feed(Yard(["2"], [], Number), ["5.", ")"]) == Err(MismatchedParentheses)
  {
    TrailingPointCloseExampleConversionPart1();
    TrailingPointCloseExampleConversionStep2();
    FeedOne(Yard(["2"], [], Number), ["5.", ")"]);
    assert ["5.", ")"][1..] == [")"];
  }

  lemma TrailingPointCloseExampleConversionStep3()
    ensures Step(Yard([], [], Operator), "2") == Ok(Yard(["2"], [], Number))
  {
    assert [] + ["2"] == ["2"];
  }

  lemma TrailingPointCloseExampleConversionPart3()
    ensures Feed(Yard([], [], Operator), ["2", "5.", ")"]) == Err(MismatchedParentheses)
  {
    TrailingPointCloseExampleConversionPart2();
    TrailingPointCloseExampleConversionStep3();
    FeedOne(Yard([], [], Operator), ["2", "5.", ")"]);
    assert ["2", "5.", ")"][1..] == ["5.", ")"];
  }

  /** A `(` left on the stack at the end: mismatched parentheses. */
  lemma UnclosedGroupExample()
    ensures Evaluate(Some("(2+3")) == Err(MismatchedParentheses)
  {
    UnclosedGroupExampleScan();
    UnclosedGroupExampleConversion();
    ConversionFails("(2+3", ["(", "2", "+", "3"], MismatchedParentheses);
  }

  lemma UnclosedGroupExampleScan()
    ensures Lex("(2+3") == Ok(["(", "2", "+", "3"])
  {
    UnclosedGroupExampleScanPart4();
  }

  lemma UnclosedGroupExampleScanPart1()
    ensures LexFrom("(2+3", 3) == Ok(["3"])
  {
    var s := "(2+3";
    assert s[3..4] == "3" && ["3"] + [] == ["3"];
  }

  lemma UnclosedGroupExampleScanPart2()
    ensures LexFrom("(2+3", 2) == Ok(["+", "3"])
  {
    var s := "(2+3";
    UnclosedGroupExampleScanPart1();
    assert [s[2]] == "+" && ["+"] + ["3"] == ["+", "3"];
  }

  lemma UnclosedGroupExampleScanPart3()
    ensures LexFrom("(2+3", 1) == Ok(["2", "+", "3"])
  {
    var s := "(2+3";
    UnclosedGroupExampleScanPart2();
    assert s[1..2] == "2" && ["2"] + ["+", "3"] == ["2", "+", "3"];
  }

  lemma UnclosedGroupExampleScanPart4()
    ensures LexFrom("(2+3", 0) == Ok(["(", "2", "+", "3"])
  {
    var s := "(2+3";
    UnclosedGroupExampleScanPart3();
    assert [s[0]] == "(" && ["("] + ["2", "+", "3"] == ["(", "2", "+", "3"];
  }

  lemma UnclosedGroupExampleConversion()
    ensures Convert(["(", "2", "+", "3"]) == Err(MismatchedParentheses)
  {
    UnclosedGroupExampleConversionPart5();
  }

  lemma UnclosedGroupExampleConversionPart1()
    ensures Feed(Yard(["2", "3"], ["(", "+"], Number), []) == Ok(Yard(["2", "3"], ["(", "+"], Number))
  {
  }

  lemma UnclosedGroupExampleConversionStep2()
    ensures Step(Yard(["2"], ["(", "+"], Operator), "3") == Ok(Yard(["2", "3"], ["(", "+"], Number))
  {
    assert ["2"] + ["3"] == ["2", "3"];
  }

  lemma UnclosedGroupExampleConversionPart2()
    ensures Feed(Yard(["2"], ["(", "+"], Operator), ["3"]) == Ok(Yard(["2", "3"], ["(", "+"], Number))
  {
    UnclosedGroupExampleConversionPart1();
    UnclosedGroupExampleConversionStep2();
    FeedOne(Yard(["2"], ["(", "+"], Operator), ["3"]);
    assert ["3"][1..] == [];
  }

  lemma UnclosedGroupExampleConversionStep3()
    ensures Step(Yard(["2"], ["("], Number), "+") == Ok(Yard(["2"], ["(", "+"], Operator))
  {
    assert PopHigher(Yard(["2"], ["("], Number), "+") == Ok(Yard(["2"], ["("], Number));
    assert ["("] + ["+"] == ["(", "+"];
  }

  lemma UnclosedGroupExampleConversionPart3()
    ensures Feed(Yard(["2"], ["("], Number), ["+", "3"]) == Ok(Yard(["2", "3"], ["(", "+"], Number))
  {
    UnclosedGroupExampleConversionPart2();
    UnclosedGroupExampleConversionStep3();
    FeedOne(Yard(["2"], ["("], Number), ["+", "3"]);
    assert ["+", "3"][1..] == ["3"];
  }

  lemma UnclosedGroupExampleConversionStep4()
    ensures Step(Yard([], ["("], LeftParen), "2") == Ok(Yard(["2"], ["("], Number))
  {
    assert [] + ["2"] == ["2"];
  }

  lemma UnclosedGroupExampleConversionPart4()
    ensures Feed(Yard([], ["("], LeftParen), ["2", "+", "3"]) == Ok(Yard(["2", "3"], ["(", "+"], Number))
  {
    UnclosedGroupExampleConversionPart3();
    UnclosedGroupExampleConversionStep4();
    FeedOne(Yard([], ["("], LeftParen), ["2", "+", "3"]);
    assert ["2", "+", "3"][1..] == ["+", "3"];
  }

  lemma UnclosedGroupExampleConversionStep5()
    ensures Step(Yard([], [], Operator), "(") == Ok(Yard([], ["("], LeftParen))
  {
    assert [] + ["("] == ["("];
  }

  lemma UnclosedGroupExampleConversionPart5()
    ensures Feed(Yard([], [], Operator), ["(", "2", "+", "3"]) == Ok(Yard(["2", "3"], ["(", "+"], Number))
  {
    UnclosedGroupExampleConversionPart4();
    UnclosedGroupExampleConversionStep5();
    FeedOne(Yard([], [], Operator), ["(", "2", "+", "3"]);
    assert ["(", "2", "+", "3"][1..] == ["2", "+", "3"];
  }

  /** A `)` with no `(` on the stack: mismatched parentheses. */
  lemma UnopenedGroupExample()
    ensures Evaluate(Some("2 + 3)")) == Err(MismatchedParentheses)
  {
    UnopenedGroupExampleScan();
    UnopenedGroupExampleConversion();
    ConversionFails("2 + 3)", ["2", "+", "3", ")"], MismatchedParentheses);
  }

  lemma UnopenedGroupExampleScan()
    ensures Lex("2 + 3)") == Ok(["2", "+", "3", ")"])
  {
    UnopenedGroupExampleScanPart4();
  }

  lemma UnopenedGroupExampleScanPart1()
    ensures LexFrom("2 + 3)", 5) == Ok([")"])
  {
    var s := "2 + 3)";
    assert [s[5]] == ")" && [")"] + [] == [")"];
  }

  lemma UnopenedGroupExampleScanPart2()
    ensures LexFrom("2 + 3)", 4) == Ok(["3", ")"])
  {
    var s := "2 + 3)";
    UnopenedGroupExampleScanPart1();
    assert s[4..5] == "3" && ["3"] + [")"] == ["3", ")"];
  }

  lemma UnopenedGroupExampleScanPart3()
    ensures LexFrom("2 + 3)", 2) == Ok(["+", "3", ")"])
  {
    var s := "2 + 3)";
    UnopenedGroupExampleScanPart2();
    assert [s[2]] == "+" && ["+"] + ["3", ")"] == ["+", "3", ")"];
  }

  lemma UnopenedGroupExampleScanPart4()
    ensures LexFrom("2 + 3)", 0) == Ok(["2", "+", "3", ")"])
  {
    var s := "2 + 3)";
    UnopenedGroupExampleScanPart3();
    assert s[0..1] == "2" && ["2"] + ["+", "3", ")"] == ["2", "+", "3", ")"];
  }

  lemma UnopenedGroupExampleConversion()
    ensures Convert(["2", "+", "3", ")"]) == Err(MismatchedParentheses)
  {
    UnopenedGroupExampleConversionPart4();
  }

  lemma UnopenedGroupExampleConversionStep1()
    ensures Step(Yard(["2", "3"], ["+"], Number), ")") == Err(MismatchedParentheses)
  {
    assert Pop(Yard(["2", "3"], ["+"], Number)) == Yard(["2", "3", "+"], [], Number);
  }

  lemma UnopenedGroupExampleConversionPart1()
    ensures Feed(Yard(["2", "3"], ["+"], Number), [")"]) == Err(MismatchedParentheses)
  {
    UnopenedGroupExampleConversionStep1();
    FeedOne(Yard(["2", "3"], ["+"], Number), [")"]);
  }

  lemma UnopenedGroupExampleConversionStep2()
    ensures Step(Yard(["2"], ["+"], Operator), "3") == Ok(Yard(["2", "3"], ["+"], Number))
  {
    assert ["2"] + ["3"] == ["2", "3"];
  }

  lemma UnopenedGroupExampleConversionPart2()
    ensures Feed(Yard(["2"], ["+"], Operator), ["3", ")"]) == Err(MismatchedParentheses)
  {
    UnopenedGroupExampleConversionPart1();
    UnopenedGroupExampleConversionStep2();
    FeedOne(Yard(["2"], ["+"], Operator), ["3", ")"]);
    assert ["3", ")"][1..] == [")"];
  }

  lemma UnopenedGroupExampleConversionStep3()
    ensures Step(Yard(["2"], [], Number), "+") == Ok(Yard(["2"], ["+"], Operator))
  {
    PopHigherStops(Yard(["2"], [], Number), "+");
    assert PopHigher(Yard(["2"], [], Number), "+") == Ok(Yard(["2"], [], Number));
    assert [] + ["+"] == ["+"];
  }

  lemma UnopenedGroupExampleConversionPart3()
    ensures Feed(Yard(["2"], [], Number), ["+", "3", ")"]) == Err(MismatchedParentheses)
  {
    UnopenedGroupExampleConversionPart2();
    UnopenedGroupExampleConversionStep3();
    FeedOne(Yard(["2"], [], Number), ["+", "3", ")"]);
    assert ["+", "3", ")"][1..] == ["3", ")"];
  }

  lemma UnopenedGroupExampleConversionStep4()
    ensures Step(Yard([], [], Operator), "2") == Ok(Yard(["2"], [], Number))
  {
    assert [] + ["2"] == ["2"];
  }

  lemma UnopenedGroupExampleConversionPart4()
    ensures Feed(Yard([], [], Operator), ["2", "+", "3", ")"]) == Err(MismatchedParentheses)
  {
    UnopenedGroupExampleConversionPart3();
    UnopenedGroupExampleConversionStep4();
    FeedOne(Yard([], [], Operator), ["2", "+", "3", ")"]);
    assert ["2", "+", "3", ")"][1..] == ["+", "3", ")"];
  }

  /** `evaluate("2 +")` ends with an operator. */
  lemma TrailingOperatorExample()
    ensures Evaluate(Some("2 +")) == Err(TrailingOperator)
  {
    TrailingOperatorExampleScan();
    TrailingOperatorExampleConversion();
    ConversionFails("2 +", ["2", "+"], TrailingOperator);
  }

  lemma TrailingOperatorExampleScan()
    ensures Lex("2 +") == Ok(["2", "+"])
  {
    TrailingOperatorExampleScanPart2();
  }

  lemma TrailingOperatorExampleScanPart1()
    ensures LexFrom("2 +", 2) == Ok(["+"])
  {
    var s := "2 +";
    assert [s[2]] == "+" && ["+"] + [] == ["+"];
  }

  lemma TrailingOperatorExampleScanPart2()
    ensures LexFrom("2 +", 0) == Ok(["2", "+"])
  {
    var s := "2 +";
    TrailingOperatorExampleScanPart1();
    assert s[0..1] == "2" && ["2"] + ["+"] == ["2", "+"];
  }

  lemma TrailingOperatorExampleConversion()
    ensures Convert(["2", "+"]) == Err(TrailingOperator)
  {
    TrailingOperatorExampleConversionPart3();
  }

  lemma TrailingOperatorExampleConversionPart1()
    ensures Feed(Yard(["2"], ["+"], Operator), []) == Ok(Yard(["2"], ["+"], Operator))
  {
  }

  lemma TrailingOperatorExampleConversionStep2()
    ensures Step(Yard(["2"], [], Number), "+") == Ok(Yard(["2"], ["+"], Operator))
  {
    PopHigherStops(Yard(["2"], [], Number), "+");
    assert PopHigher(Yard(["2"], [], Number), "+") == Ok(Yard(["2"], [], Number));
    assert [] + ["+"] == ["+"];
  }

  lemma TrailingOperatorExampleConversionPart2()
    ensures Feed(Yard(["2"], [], Number), ["+"]) == Ok(Yard(["2"], ["+"], Operator))
  {
    TrailingOperatorExampleConversionPart1();
    TrailingOperatorExampleConversionStep2();
    FeedOne(Yard(["2"], [], Number), ["+"]);
    assert ["+"][1..] == [];
  }

  lemma TrailingOperatorExampleConversionStep3()
    ensures Step(Yard([], [], Operator), "2") == Ok(Yard(["2"], [], Number))
  {
    assert [] + ["2"] == ["2"];
  }

  lemma TrailingOperatorExampleConversionPart3()
    ensures Feed(Yard([], [], Operator), ["2", "+"]) == Ok(Yard(["2"], ["+"], Operator))
  {
    TrailingOperatorExampleConversionPart2();
    TrailingOperatorExampleConversionStep3();
    FeedOne(Yard([], [], Operator), ["2", "+"]);
    assert ["2", "+"][1..] == ["+"];
  }

  /** A run with two points: `evaluate("1..2")` raises. */
  lemma MultiplePointsExample()
    ensures Evaluate(Some("1..2")) == Err(MultipleDecimalPoints)
  {
    MultiplePointsExampleScan();
    ScanFails("1..2", MultipleDecimalPoints);
  }

  lemma MultiplePointsExampleScan()
    ensures Lex("1..2") == Err(MultipleDecimalPoints)
  {
    var s := "1..2";
    assert LexFrom(s, 0) == Err(MultipleDecimalPoints);
  }

  /** A run that is a lone point: `evaluate("1 + .")` raises. */
  lemma StandalonePointExample()
    ensures Evaluate(Some("1 + .")) == Err(StandaloneDecimalPoint)
  {
    StandalonePointExampleScan();
    ScanFails("1 + .", StandaloneDecimalPoint);
  }

  lemma StandalonePointExampleScan()
    ensures Lex("1 + .") == Err(StandaloneDecimalPoint)
  {
    StandalonePointExampleScanPart3();
  }

  lemma StandalonePointExampleScanPart1()
    ensures LexFrom("1 + .", 4) == Err(StandaloneDecimalPoint)
  {
    var s := "1 + .";
  }

  lemma StandalonePointExampleScanPart2()
    ensures LexFrom("1 + .", 2) == Err(StandaloneDecimalPoint)
  {
    var s := "1 + .";
    StandalonePointExampleScanPart1();
  }

  lemma StandalonePointExampleScanPart3()
    ensures LexFrom("1 + .", 0) == Err(StandaloneDecimalPoint)
  {
    var s := "1 + .";
    StandalonePointExampleScanPart2();
  }

  /** An empty group leaves `*` one operand: `evaluate("() * 2")` raises. */
  lemma MissingOperandsExample()
    ensures Evaluate(Some("() * 2")) == Err(InsufficientBinaryOperands)
  {
    MissingOperandsExampleScan();
    MissingOperandsExampleConversion();
    MissingOperandsExampleValue();
    StagesSucceed("() * 2", ["(", ")", "*", "2"], ["2", "*"]);
  }

  lemma MissingOperandsExampleScan()
    ensures Lex("() * 2") == Ok(["(", ")", "*", "2"])
  {
    MissingOperandsExampleScanPart4();
  }

  lemma MissingOperandsExampleScanPart1()
    ensures LexFrom("() * 2", 5) == Ok(["2"])
  {
    var s := "() * 2";
    assert s[5..6] == "2" && ["2"] + [] == ["2"];
  }

  lemma MissingOperandsExampleScanPart2()
    ensures LexFrom("() * 2", 3) == Ok(["*", "2"])
  {
    var s := "() * 2";
    MissingOperandsExampleScanPart1();
    assert [s[3]] == "*" && ["*"] + ["2"] == ["*", "2"];
  }

  lemma MissingOperandsExampleScanPart3()
    ensures LexFrom("() * 2", 1) == Ok([")", "*", "2"])
  {
    var s := "() * 2";
    MissingOperandsExampleScanPart2();
    assert [s[1]] == ")" && [")"] + ["*", "2"] == [")", "*", "2"];
  }

  lemma MissingOperandsExampleScanPart4()
    ensures LexFrom("() * 2", 0) == Ok(["(", ")", "*", "2"])
  {
    var s := "() * 2";
    MissingOperandsExampleScanPart3();
    assert [s[0]] == "(" && ["("] + [")", "*", "2"] == ["(", ")", "*", "2"];
  }

  lemma MissingOperandsExampleConversion()
    ensures Convert(["(", ")", "*", "2"]) == Ok(["2", "*"])
  {
    MissingOperandsExampleConversionPart5();
    assert ["2"] + ["*"] == ["2", "*"];
  }

  lemma MissingOperandsExampleConversionPart1()
    ensures Feed(Yard(["2"], ["*"], Number), []) == Ok(Yard(["2"], ["*"], Number))
  {
  }

  lemma MissingOperandsExampleConversionStep2()
    ensures Step(Yard([], ["*"], Operator), "2") == Ok(Yard(["2"], ["*"], Number))
  {
    assert [] + ["2"] == ["2"];
  }

  lemma MissingOperandsExampleConversionPart2()
    ensures Feed(Yard([], ["*"], Operator), ["2"]) == Ok(Yard(["2"], ["*"], Number))
  {
    MissingOperandsExampleConversionPart1();
    MissingOperandsExampleConversionStep2();
    FeedOne(Yard([], ["*"], Operator), ["2"]);
    assert ["2"][1..] == [];
  }

  lemma MissingOperandsExampleConversionStep3()
    ensures Step(Yard([], [], RightParen), "*") == Ok(Yard([], ["*"], Operator))
  {
    PopHigherStops(Yard([], [], RightParen), "*");
    assert PopHigher(Yard([], [], RightParen), "*") == Ok(Yard([], [], RightParen));
    assert [] + ["*"] == ["*"];
  }

  lemma MissingOperandsExampleConversionPart3()
    ensures Feed(Yard([], [], RightParen), ["*", "2"]) == Ok(Yard(["2"], ["*"], Number))
  {
    MissingOperandsExampleConversionPart2();
    MissingOperandsExampleConversionStep3();
    FeedOne(Yard([], [], RightParen), ["*", "2"]);
    assert ["*", "2"][1..] == ["2"];
  }

  lemma MissingOperandsExampleConversionStep4()
    ensures Step(Yard([], ["("], LeftParen), ")") == Ok(Yard([], [], RightParen))
  {
    assert CloseGroup(Yard([], ["("], LeftParen)) == Yard([], ["("], LeftParen);
    assert ["("][..0] == [];
  }

  lemma MissingOperandsExampleConversionPart4()
    ensures Feed(Yard([], ["("], LeftParen), [")", "*", "2"]) == Ok(Yard(["2"], ["*"], Number))
  {
    MissingOperandsExampleConversionPart3();
    MissingOperandsExampleConversionStep4();
    FeedOne(Yard([], ["("], LeftParen), [")", "*", "2"]);
    assert [")", "*", "2"][1..] == ["*", "2"];
  }

  lemma MissingOperandsExampleConversionStep5()
    ensures Step(Yard([], [], Operator), "(") == Ok(Yard([], ["("], LeftParen))
  {
    assert [] + ["("] == ["("];
  }

  lemma MissingOperandsExampleConversionPart5()
    ensures Feed(Yard([], [], Operator), ["(", ")", "*", "2"]) == Ok(Yard(["2"], ["*"], Number))
  {
    MissingOperandsExampleConversionPart4();
    MissingOperandsExampleConversionStep5();
    FeedOne(Yard([], [], Operator), ["(", ")", "*", "2"]);
    assert ["(", ")", "*", "2"][1..] == [")", "*", "2"];
  }

  lemma MissingOperandsExampleValue()
    ensures EvalRpn(["2", "*"]) == Err(InsufficientBinaryOperands)
  {
    MissingOperandsExampleValuePart2();
  }

  lemma MissingOperandsExampleValueStep1()
    ensures Apply([2.0], "*") == Err(InsufficientBinaryOperands)
  {
  }

  lemma MissingOperandsExampleValuePart1()
    ensures Reduce([2.0], ["*"]) == Err(InsufficientBinaryOperands)
  {
    MissingOperandsExampleValueStep1();
    ReduceOne([2.0], ["*"]);
  }

  lemma MissingOperandsExampleValueStep2()
    ensures Apply([], "2") == Ok([2.0])
  {
    assert IsNumber("2") && LiteralValue("2") == 2.0;
    assert [] + [2.0] == [2.0];
  }

  lemma MissingOperandsExampleValuePart2()
    ensures Reduce([], ["2", "*"]) == Err(InsufficientBinaryOperands)
  {
    MissingOperandsExampleValuePart1();
    MissingOperandsExampleValueStep2();
    ReduceOne([], ["2", "*"]);
    assert ["2", "*"][1..] == ["*"];
  }

  /** A sign alone in a group leaves `u+` no operand: `evaluate("(+)")` raises. */
  lemma MissingOperandExample()
    ensures Evaluate(Some("(+)")) == Err(InsufficientUnaryOperand)
  {
    MissingOperandExampleScan();
    MissingOperandExampleConversion();
    MissingOperandExampleValue();
    StagesSucceed("(+)", ["(", "+", ")"], ["u+"]);
  }

  lemma MissingOperandExampleScan()
    ensures Lex("(+)") == Ok(["(", "+", ")"])
  {
    MissingOperandExampleScanPart3();
  }

  lemma MissingOperandExampleScanPart1()
    ensures LexFrom("(+)", 2) == Ok([")"])
  {
    var s := "(+)";
    assert [s[2]] == ")" && [")"] + [] == [")"];
  }

  lemma MissingOperandExampleScanPart2()
    ensures LexFrom("(+)", 1) == Ok(["+", ")"])
  {
    var s := "(+)";
    MissingOperandExampleScanPart1();
    assert [s[1]] == "+" && ["+"] + [")"] == ["+", ")"];
  }

  lemma MissingOperandExampleScanPart3()
    ensures LexFrom("(+)", 0) == Ok(["(", "+", ")"])
  {
    var s := "(+)";
    MissingOperandExampleScanPart2();
    assert [s[0]] == "(" && ["("] + ["+", ")"] == ["(", "+", ")"];
  }

  lemma MissingOperandExampleConversion()
    ensures Convert(["(", "+", ")"]) == Ok(["u+"])
  {
    MissingOperandExampleConversionPart4();
    assert ["u+"] + [] == ["u+"];
  }

  lemma MissingOperandExampleConversionPart1()
    ensures Feed(Yard(["u+"], [], RightParen), []) == Ok(Yard(["u+"], [], RightParen))
  {
  }

  lemma MissingOperandExampleConversionStep2()
    ensures Step(Yard([], ["(", "u+"], Operator), ")") == Ok(Yard(["u+"], [], RightParen))
  {
    assert Pop(Yard([], ["(", "u+"], Operator)) == Yard(["u+"], ["("], Operator);
    assert CloseGroup(Yard([], ["(", "u+"], Operator)) == Yard(["u+"], ["("], Operator);
    assert ["("][..0] == [];
  }

  lemma MissingOperandExampleConversionPart2()
    ensures Feed(Yard([], ["(", "u+"], Operator), [")"]) == Ok(Yard(["u+"], [], RightParen))
  {
    MissingOperandExampleConversionPart1();
    MissingOperandExampleConversionStep2();
    FeedOne(Yard([], ["(", "u+"], Operator), [")"]);
    assert [")"][1..] == [];
  }

  lemma MissingOperandExampleConversionStep3()
    ensures Step(Yard([], ["("], LeftParen), "+") == Ok(Yard([], ["(", "u+"], Operator))
  {
    assert PopHigher(Yard([], ["("], LeftParen), "u+") == Ok(Yard([], ["("], LeftParen));
    assert ["("] + ["u+"] == ["(", "u+"];
  }

  lemma MissingOperandExampleConversionPart3()
    ensures Feed(Yard([], ["("], LeftParen), ["+", ")"]) == Ok(Yard(["u+"], [], RightParen))
  {
    MissingOperandExampleConversionPart2();
    MissingOperandExampleConversionStep3();
    FeedOne(Yard([], ["("], LeftParen), ["+", ")"]);
    assert ["+", ")"][1..] == [")"];
  }

  lemma MissingOperandExampleConversionStep4()
    ensures Step(Yard([], [], Operator), "(") == Ok(Yard([], ["("], LeftParen))
  {
    assert [] + ["("] == ["("];
  }

  lemma MissingOperandExampleConversionPart4()
    ensures Feed(Yard([], [], Operator), ["(", "+", ")"]) == Ok(Yard(["u+"], [], RightParen))
  {
    MissingOperandExampleConversionPart3();
    MissingOperandExampleConversionStep4();
    FeedOne(Yard([], [], Operator), ["(", "+", ")"]);
    assert ["(", "+", ")"][1..] == ["+", ")"];
  }

  lemma MissingOperandExampleValue()
    ensures EvalRpn(["u+"]) == Err(InsufficientUnaryOperand)
  {
    MissingOperandExampleValuePart1();
  }

  lemma MissingOperandExampleValueStep1()
    ensures Apply([], "u+") == Err(InsufficientUnaryOperand)
  {
  }

  lemma MissingOperandExampleValuePart1()
    ensures Reduce([], ["u+"]) == Err(InsufficientUnaryOperand)
  {
    MissingOperandExampleValueStep1();
    ReduceOne([], ["u+"]);
  }
}
