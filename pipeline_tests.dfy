/** The scenarios the pipeline's unit test walks through, each stated as a
    method whose postcondition is what the test asserts about the returned
    dictionary and about which functions were called. */
module PipelineScenarios {
  import opened Outcomes
  import opened PyStrings
  import opened Pipeline

  /** `str.lower()` for ASCII letters. */
  function Lower(s: string): string {
    if s == [] then "" else [LowerChar(s[0])] + Lower(s[1..])
  }

  function LowerChar(c: char): char {
    if 'A' <= c <= 'Z' then (c as int + 32) as char else c
  }

  /** `x[::-1]` on a string. */
  function Reverse(s: string): string {
    if s == [] then "" else Reverse(s[1..]) + [s[0]]
  }

  /** A one-argument Python callable as a function of the argument list. */
  function Unary<V>(f: V -> V, default: V): seq<V> -> V {
    xs => if |xs| == 1 then f(xs[0]) else default
  }

  /** `lambda x, y: x + y`. */
  function Add(xs: seq<int>): int {
    if |xs| == 2 then xs[0] + xs[1] else 0
  }

  function ChainedFuncs(): Registry<string> {
    map["foo" := Func(["text"], Unary(Lower, "")), "bar" := Func(["foo"], Unary(Reverse, ""))]
  }

  lemma ChainedAcyclic()
    ensures Acyclic(ChainedFuncs())
  {
    assert RankedBy(ChainedFuncs(), map["foo" := 0, "bar" := 1]);
  }

  lemma ChainedReady()
    ensures Acyclic(ChainedFuncs())
    ensures forall m :: m in Required(ChainedFuncs(), ["bar"]) && m !in ChainedFuncs() ==> m in map["text" := "Test"]
  {
    ChainedAcyclic();
    LeavesCovered(ChainedFuncs(), ["bar"], map["text" := "Test"]);
  }

  lemma ChainedPlan()
    ensures Plan(ChainedFuncs(), ["bar"]) == ["foo", "bar"]
  {
    var reg := ChainedFuncs();
    assert Visit(reg, "text", 0, []) == [];
    assert VisitAll(reg, ["text"], 0, []) == [];
    assert Visit(reg, "foo", 1, []) == ["foo"];
    assert VisitAll(reg, ["foo"], 1, []) == ["foo"];
    assert Visit(reg, "bar", 2, []) == ["foo", "bar"];
  }

  lemma ChainedValue()
    ensures Value(ChainedFuncs(), map["text" := "Test"], "bar") == Some("tset")
  {
    var reg := ChainedFuncs();
    var inputs := map["text" := "Test"];
    assert Eval(reg, inputs, "text", 0) == Some("Test");
    EvalArgsOf(reg, inputs, ["text"], 0, ["Test"]);
    LowerTest();
    assert Eval(reg, inputs, "foo", 1) == Some("test");
    EvalArgsOf(reg, inputs, ["foo"], 1, ["test"]);
    ReverseTest();
  }

  lemma LowerTest()
    ensures Lower("Test") == "test"
  {
  }

  lemma ReverseTest()
    ensures Reverse("test") == "tset"
  {
  }

  /** `DataPipeline.from_configuration` with `foo` lower-casing the input
      `text` and `bar` reversing `foo`: selecting `bar` runs both, `foo`
      first, and returns only `bar`. */
  method Chained() returns (result: map<Name, string>, calls: seq<Name>)
    ensures result.Keys == {"bar"} && result["bar"] == "tset"
    ensures calls == ["foo", "bar"]
  {
    var funcs := ChainedFuncs();
    var p := new DataPipeline.FromConfiguration(funcs, ["bar"]);
    var inputs := map["text" := "Test"];
    ChainedReady();
    ChainedPlan();
    ChainedValue();
    result, calls := p.Call(inputs);
  }

  function SumFuncs(): Registry<int> {
    map["foobar" := Func(["foo", "bar"], Add)]
  }

  lemma SumAcyclic()
    ensures Acyclic(SumFuncs())
  {
    assert RankedBy(SumFuncs(), map["foobar" := 0]);
  }

  lemma SumReady()
    ensures Acyclic(SumFuncs())
    ensures forall m :: m in Required(SumFuncs(), ["foobar"]) && m !in SumFuncs() ==> m in map["foo" := 1, "bar" := 2]
  {
    SumAcyclic();
    LeavesCovered(SumFuncs(), ["foobar"], map["foo" := 1, "bar" := 2]);
  }

  lemma SumPlan()
    ensures Plan(SumFuncs(), ["foobar"]) == ["foobar"]
  {
    var reg := SumFuncs();
    assert VisitAll(reg, ["foo", "bar"], 0, []) == [];
    assert Visit(reg, "foobar", 1, []) == ["foobar"];
  }

  lemma SumValue()
    ensures Value(SumFuncs(), map["foo" := 1, "bar" := 2], "foobar") == Some(3)
  {
    var reg := SumFuncs();
    var inputs := map["foo" := 1, "bar" := 2];
    assert Eval(reg, inputs, "foo", 0) == Some(1);
    assert Eval(reg, inputs, "bar", 0) == Some(2);
    assert Add([1, 2]) == 3;
  }

  /** `add_func` then `output_names.append`: a two-argument function of two
      inputs. */
  method Sum() returns (result: map<Name, int>, calls: seq<Name>)
    ensures result.Keys == {"foobar"} && result["foobar"] == 3
    ensures calls == ["foobar"]
  {
    var p := new DataPipeline();
    p.AddFunc("foobar", Add, ["foo", "bar"]);
    p.AppendOutputName("foobar");
    assert p.funcs == SumFuncs() && p.outputNames == ["foobar"];
    var inputs := map["foo" := 1, "bar" := 2];
    SumReady();
    SumPlan();
    SumValue();
    result, calls := p.Call(inputs);
  }

  /** With nothing selected, a registered function whose arguments are all
      available is not called, whatever it is, and the result is empty. */
  method NothingSelected(watcher: seq<int> -> int) returns (result: map<Name, int>, calls: seq<Name>)
    ensures result == map[]
    ensures calls == []
  {
    var p := new DataPipeline();
    p.AddFunc("foobar", watcher, ["foo", "bar"]);
    assert RankedBy(p.funcs, map["foobar" := 0]);
    var inputs := map["foo" := 1, "bar" := 2];
    LeavesCovered(p.funcs, p.outputNames, inputs);
    result, calls := p.Call(inputs);
  }

  /** A `MagicMock(return_value=3)` stand-in. */
  function Three(xs: seq<int>): int { 3 }

  /** `lambda x: x`. */
  function Identity(xs: seq<int>): int {
    if |xs| == 1 then xs[0] else 0
  }

  function TransitiveFuncs(): Registry<int> {
    map["foobar" := Func(["foo", "bar"], Three), "truebar" := Func(["foobar"], Identity)]
  }

  lemma TransitiveAcyclic()
    ensures Acyclic(TransitiveFuncs())
  {
    var reg := TransitiveFuncs();
    var rank := map["foobar" := 0, "truebar" := 1];
    assert |reg| == 2;
    forall n | n in reg
      ensures n in rank && rank[n] < |reg|
      ensures forall a :: a in reg[n].argnames && a in reg ==> a in rank && rank[a] < rank[n]
    {
      if n == "foobar" {
        assert reg[n].argnames == ["foo", "bar"];
      } else {
        assert n == "truebar" && reg[n].argnames == ["foobar"];
      }
    }
    assert RankedBy(reg, rank);
  }

  lemma TransitiveReady()
    ensures Acyclic(TransitiveFuncs())
    ensures forall m :: m in Required(TransitiveFuncs(), ["truebar"]) && m !in TransitiveFuncs() ==> m in map["foo" := 1, "bar" := 2]
  {
    TransitiveAcyclic();
    LeavesCovered(TransitiveFuncs(), ["truebar"], map["foo" := 1, "bar" := 2]);
  }

  lemma TransitivePlan()
    ensures Plan(TransitiveFuncs(), ["truebar"]) == ["foobar", "truebar"]
  {
    var reg := TransitiveFuncs();
    assert VisitAll(reg, ["foo", "bar"], 0, []) == [];
    assert Visit(reg, "foobar", 1, []) == ["foobar"];
    assert VisitAll(reg, ["foobar"], 1, []) == ["foobar"];
    assert Visit(reg, "truebar", 2, []) == ["foobar", "truebar"];
  }

  lemma TransitiveValue()
    ensures Value(TransitiveFuncs(), map["foo" := 1, "bar" := 2], "truebar") == Some(3)
  {
    var reg := TransitiveFuncs();
    var inputs := map["foo" := 1, "bar" := 2];
    assert Eval(reg, inputs, "foo", 0) == Some(1);
    assert Eval(reg, inputs, "bar", 0) == Some(2);
    assert Eval(reg, inputs, "foobar", 1) == Some(3);
    assert Identity([3]) == 3;
  }

  /** A selected function of a function: the inner one is called, first,
      and its value passes through. */
  method Transitive() returns (result: map<Name, int>, calls: seq<Name>)
    ensures result.Keys == {"truebar"} && result["truebar"] == 3
    ensures calls == ["foobar", "truebar"]
  {
    var p := new DataPipeline();
    p.AddFunc("foobar", Three, ["foo", "bar"]);
    p.AddFunc("truebar", Identity, ["foobar"]);
    p.AppendOutputName("truebar");
    assert p.funcs == TransitiveFuncs() && p.outputNames == ["truebar"];
    var inputs := map["foo" := 1, "bar" := 2];
    TransitiveReady();
    TransitivePlan();
    TransitiveValue();
    result, calls := p.Call(inputs);
  }

  function UnrelatedFuncs(watcher: seq<int> -> int): Registry<int> {
    map["foobar" := Func(["foo", "bar"], watcher), "truebar" := Func(["foo"], Identity)]
  }

  lemma UnrelatedAcyclic(watcher: seq<int> -> int)
    ensures Acyclic(UnrelatedFuncs(watcher))
  {
    var reg := UnrelatedFuncs(watcher);
    var rank := map["foobar" := 0, "truebar" := 1];
    assert |reg| == 2;
    forall n | n in reg
      ensures n in rank && rank[n] < |reg|
      ensures forall a :: a in reg[n].argnames && a in reg ==> a in rank && rank[a] < rank[n]
    {
      if n == "foobar" {
        assert reg[n].argnames == ["foo", "bar"];
      } else {
        assert n == "truebar" && reg[n].argnames == ["foo"];
      }
    }
    assert RankedBy(reg, rank);
  }

  lemma UnrelatedReady(watcher: seq<int> -> int)
    ensures Acyclic(UnrelatedFuncs(watcher))
    ensures forall m :: m in Required(UnrelatedFuncs(watcher), ["truebar"]) && m !in UnrelatedFuncs(watcher) ==> m in map["foo" := 1, "bar" := 2]
  {
    UnrelatedAcyclic(watcher);
    LeavesCovered(UnrelatedFuncs(watcher), ["truebar"], map["foo" := 1, "bar" := 2]);
  }

  lemma UnrelatedPlan(watcher: seq<int> -> int)
    ensures Plan(UnrelatedFuncs(watcher), ["truebar"]) == ["truebar"]
  {
    var reg := UnrelatedFuncs(watcher);
    assert VisitAll(reg, ["foo"], 1, []) == [];
    assert Visit(reg, "truebar", 2, []) == ["truebar"];
  }

  lemma UnrelatedValue(watcher: seq<int> -> int)
    ensures Value(UnrelatedFuncs(watcher), map["foo" := 1, "bar" := 2], "truebar") == Some(1)
  {
    var reg := UnrelatedFuncs(watcher);
    var inputs := map["foo" := 1, "bar" := 2];
    assert Eval(reg, inputs, "foo", 1) == Some(1);
    assert Identity([1]) == 1;
  }

  /** A registered function that the selected output does not depend on is
      not called, whatever it is. */
  method Unrelated(watcher: seq<int> -> int) returns (result: map<Name, int>, calls: seq<Name>)
    ensures result.Keys == {"truebar"} && result["truebar"] == 1
    ensures calls == ["truebar"]
  {
    var p := new DataPipeline();
    p.AddFunc("foobar", watcher, ["foo", "bar"]);
    p.AddFunc("truebar", Identity, ["foo"]);
    p.AppendOutputName("truebar");
    assert p.funcs == UnrelatedFuncs(watcher) && p.outputNames == ["truebar"];
    var inputs := map["foo" := 1, "bar" := 2];
    UnrelatedReady(watcher);
    UnrelatedPlan(watcher);
    UnrelatedValue(watcher);
    result, calls := p.Call(inputs);
  }

  function OutputsFuncs(): Registry<int> {
    map["foobar" := Func(["foo", "bar"], Three)]
  }

  lemma OutputsAcyclic()
    ensures Acyclic(OutputsFuncs())
  {
    assert RankedBy(OutputsFuncs(), map["foobar" := 0]);
  }

  lemma OutputsReady()
    ensures Acyclic(OutputsFuncs())
    ensures forall m :: m in Required(OutputsFuncs(), ["foobar", "foo"]) && m !in OutputsFuncs() ==> m in map["foo" := 1, "bar" := 2]
    ensures forall m :: m in Required(OutputsFuncs(), ["bar"]) && m !in OutputsFuncs() ==> m in map["foo" := 1, "bar" := 2]
  {
    OutputsAcyclic();
    LeavesCovered(OutputsFuncs(), ["foobar", "foo"], map["foo" := 1, "bar" := 2]);
    LeavesCovered(OutputsFuncs(), ["bar"], map["foo" := 1, "bar" := 2]);
  }

  lemma OutputsPlans()
    ensures Plan(OutputsFuncs(), ["foobar", "foo"]) == ["foobar"]
    ensures Plan(OutputsFuncs(), ["bar"]) == []
  {
    var reg := OutputsFuncs();
    assert VisitAll(reg, ["foo", "bar"], 0, []) == [];
    assert Visit(reg, "foobar", 1, []) == ["foobar"];
    assert Visit(reg, "foo", 1, ["foobar"]) == ["foobar"];
    assert VisitAll(reg, ["foo"], 1, ["foobar"]) == ["foobar"];
  }

  lemma OutputsValues()
    ensures Value(OutputsFuncs(), map["foo" := 1, "bar" := 2], "foobar") == Some(3)
    ensures Value(OutputsFuncs(), map["foo" := 1, "bar" := 2], "foo") == Some(1)
    ensures Value(OutputsFuncs(), map["foo" := 1, "bar" := 2], "bar") == Some(2)
  {
    var reg := OutputsFuncs();
    var inputs := map["foo" := 1, "bar" := 2];
    assert Eval(reg, inputs, "foo", 0) == Some(1);
    assert Eval(reg, inputs, "bar", 0) == Some(2);
  }

  method CallBothSelected(p: DataPipeline<int>) returns (result: map<Name, int>, calls: seq<Name>)
    requires p.funcs == OutputsFuncs() && p.outputNames == ["foobar", "foo"]
    ensures result.Keys == {"foobar", "foo"} && result["foobar"] == 3 && result["foo"] == 1
    ensures calls == ["foobar"]
  {
    OutputsReady();
    OutputsPlans();
    OutputsValues();
    result, calls := p.Call(map["foo" := 1, "bar" := 2]);
  }

  method CallBarSelected(p: DataPipeline<int>) returns (result: map<Name, int>, calls: seq<Name>)
    requires p.funcs == OutputsFuncs() && p.outputNames == ["bar"]
    ensures result.Keys == {"bar"} && result["bar"] == 2
    ensures calls == []
  {
    OutputsReady();
    OutputsPlans();
    OutputsValues();
    result, calls := p.Call(map["foo" := 1, "bar" := 2]);
  }

  /** Selecting a derived name and an input name returns exactly those two;
      after `set_output_names` selects only the input `bar`, the function is
      no longer called and only `bar` is returned. */
  method ChangeOutputs() returns (first: map<Name, int>, firstCalls: seq<Name>, second: map<Name, int>, secondCalls: seq<Name>)
    ensures first.Keys == {"foobar", "foo"} && first["foobar"] == 3 && first["foo"] == 1
    ensures firstCalls == ["foobar"]
    ensures second.Keys == {"bar"} && second["bar"] == 2
    ensures secondCalls == []
  {
    var p := new DataPipeline();
    p.AddFunc("foobar", Three, ["foo", "bar"]);
    p.AppendOutputName("foobar");
    p.AppendOutputName("foo");
    assert p.funcs == OutputsFuncs() && p.outputNames == ["foobar", "foo"];
    first, firstCalls := CallBothSelected(p);
    p.SetOutputNames(["bar"]);
    second, secondCalls := CallBarSelected(p);
  }
}
