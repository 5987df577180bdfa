/**
 * The variable store and the grapher's sampler. Assigning the store replays
 * the program, so binding "M" to x and reading the result evaluates the
 * program at x; the grapher's y-for-x closure does exactly that.
 */
module Grapher {
  import opened Registry
  import opened Machine
  import Brain
  import ReplayLaws
  import TraceLaws

  /** The variable the grapher binds to its x coordinate. */
  const InputVariable: string := "M"

  /** The brain after the grapher binds `InputVariable` to x. */
  function Sample<N>(lib: NumberSystem<N>, s: BrainState<N>, x: N): (r: BrainState<N>)
    ensures Program(r) == Program(s)
    ensures r.variableValues == s.variableValues[InputVariable := x]
  {
    SetVariableValues(lib, s, s.variableValues[InputVariable := x])
  }

  /** The grapher's y-for-x closure: bind "M" to x, then read `result`. */
  method YForX<N>(brain: Brain.CalculatorBrain<N>, x: N) returns (y: N)
    modifies brain
    ensures brain.Snapshot() == Sample(brain.lib, old(brain.Snapshot()), x)
    ensures y == Result(brain.Snapshot())
  {
    brain.SetVariableValues(brain.variableValues[InputVariable := x]);
    y := brain.Result();
  }

  /**
   * Sampling forgets earlier samples: sampling at x' after sampling at x is
   * sampling at x' directly (so sampling twice at x is sampling once).
   */
  lemma SampleForgetsEarlierSamples<N>(lib: NumberSystem<N>, s: BrainState<N>, x: N, x': N)
    ensures Sample(lib, Sample(lib, s, x), x') == Sample(lib, s, x')
  {
    var t := Sample(lib, s, x);
    var m := s.variableValues[InputVariable := x'];
    assert t.variableValues[InputVariable := x'] == m;
    ReplayLaws.ClearKeepsOnlyVariables(lib, t.(variableValues := m), s.(variableValues := m));
  }

  /**
   * The sampled state is the one the keypad calls that built the brain
   * would have reached from a cleared brain with "M" bound to x.
   */
  lemma SampleRerunsAtInput<N>(lib: NumberSystem<N>, s0: BrainState<N>, inputs: seq<ReplayLaws.Input<N>>, x: N)
    requires ReplayLaws.AllWellClassified(lib, inputs)
    ensures var s := ReplayLaws.Run(lib, Clear(lib, s0), inputs);
      Sample(lib, s, x) == ReplayLaws.Run(lib, Clear(lib, s0.(variableValues := s0.variableValues[InputVariable := x])), inputs)
  {
    var m := s0.variableValues[InputVariable := x];
    ReplayLaws.StoreAssignmentReruns(lib, s0, inputs, m);
  }

  /** Two brains with the same program and the same other variables sample the same at every x. */
  lemma SampleDependsOnProgramAndOtherVariables<N>(lib: NumberSystem<N>, s: BrainState<N>, t: BrainState<N>, x: N)
    requires Program(s) == Program(t)
    requires s.variableValues[InputVariable := x] == t.variableValues[InputVariable := x]
    ensures Sample(lib, s, x) == Sample(lib, t, x)
  {
    var m := s.variableValues[InputVariable := x];
    ReplayLaws.ClearKeepsOnlyVariables(lib, s.(variableValues := m), t.(variableValues := m));
  }

  /** Replaying four entries is four replay steps. */
  lemma ReplayFour<N>(lib: NumberSystem<N>, s: BrainState<N>, a: Token<N>, b: Token<N>, c: Token<N>, d: Token<N>)
    ensures Replay(lib, s, [a, b, c, d])
         == ReplayToken(lib, ReplayToken(lib, ReplayToken(lib, ReplayToken(lib, s, a), b), c), d)
  {
    assert [a, b, c, d][..3] == [a, b, c];
    assert [a, b, c][..2] == [a, b];
    assert [a, b][..1] == [a];
    assert [a][..0] == [];
    assert Replay(lib, s, [a]) == ReplayToken(lib, s, a);
    assert Replay(lib, s, [a, b]) == ReplayToken(lib, Replay(lib, s, [a]), b);
    assert Replay(lib, s, [a, b, c]) == ReplayToken(lib, Replay(lib, s, [a, b]), c);
  }

  /** The calls `M + c =` with nothing pending: the sum of M's value and c. */
  lemma InputPlusConstant<N>(lib: NumberSystem<N>, s: BrainState<N>, c: N)
    requires s.pending.None? && InputVariable in s.variableValues
    ensures var r1 := ReplayToken(lib, s, Str(InputVariable));
      var r := ReplayToken(lib, ReplayToken(lib, ReplayToken(lib, r1, Str("+")), Num(c)), Str("="));
      && Result(r) == lib.add(s.variableValues[InputVariable], c)
      && !IsPartialResult(r)
  {
    AdditiveOperators(lib, "", "");
    PowerAndEquals(lib, "", "");
    assert InputVariable !in Operations(lib);
    var r1 := SetOperandVariable(lib, s, InputVariable);
    var r2 := PerformOperation(lib, r1, "+");
    assert r2.pending.Some? && r2.pending.value.firstValue == s.variableValues[InputVariable];
    assert r2.pending.value.binaryFunction == lib.add;
    var r3 := SetOperand(lib, r2, c);
    TraceLaws.EqualsResolves(lib, r3);
  }

  /** A program that reads "M", adds c and ends with `=` samples to x + c. */
  lemma SampleOfShiftedInput<N>(lib: NumberSystem<N>, s: BrainState<N>, c: N, x: N)
    requires Program(s) == [Str(InputVariable), Str("+"), Num(c), Str("=")]
    ensures Result(Sample(lib, s, x)) == lib.add(x, c)
    ensures !IsPartialResult(Sample(lib, s, x))
  {
    var c0 := Clear(lib, s.(variableValues := s.variableValues[InputVariable := x]));
    ReplayFour(lib, c0, Str(InputVariable), Str("+"), Num(c), Str("="));
    InputPlusConstant(lib, c0, c);
  }

  /** Reading a variable that is not bound gives 0, and the trace is its name. */
  lemma UnboundVariableReadsZero<N>(lib: NumberSystem<N>, s: BrainState<N>, name: string)
    requires name !in s.variableValues
    ensures Result(SetOperandVariable(lib, s, name)) == lib.zero
    ensures s.pending.None? ==> Description(SetOperandVariable(lib, s, name)) == name
  {
  }

  /** After `clearVariables()`, "M" reads as 0 whatever it was bound to; the history is kept. */
  lemma ClearVariablesThenReadInput<N>(lib: NumberSystem<N>, s: BrainState<N>)
    ensures var t := ClearVariables(lib, s);
      && Program(t) == Program(s)
      && Result(SetOperandVariable(lib, t, InputVariable)) == lib.zero
  {
  }

  /** Replaying a token that is not the name of a variable does not read that variable. */
  lemma ReplayTokenIgnoresUnreadVariable<N>(lib: NumberSystem<N>, s: BrainState<N>, op: Token<N>, name: string, v: N)
    requires op != Str(name)
    ensures ReplayToken(lib, s.(variableValues := s.variableValues[name := v]), op)
         == ReplayToken(lib, s, op).(variableValues := s.variableValues[name := v])
  {
    var m := s.variableValues[name := v];
    match op
    case Num(x) =>
    case Str(symbol) =>
      if symbol in Operations(lib) {
        assert PerformOperation(lib, s.(variableValues := m), symbol) == PerformOperation(lib, s, symbol).(variableValues := m);
      } else {
        assert symbol != name;
      }
  }

  /** Binding a variable that the replayed tokens never read changes nothing but the store. */
  lemma {:induction false} UnreadVariableIsInert<N>(lib: NumberSystem<N>, s: BrainState<N>, ops: seq<Token<N>>, name: string, v: N)
    requires forall k :: 0 <= k < |ops| ==> ops[k] != Str(name)
    ensures Replay(lib, s.(variableValues := s.variableValues[name := v]), ops)
         == Replay(lib, s, ops).(variableValues := s.variableValues[name := v])
    decreases |ops|
  {
    if |ops| > 0 {
      var n := |ops| - 1;
      UnreadVariableIsInert(lib, s, ops[..n], name, v);
      var t := Replay(lib, s, ops[..n]);
      assert t.variableValues == s.variableValues;
      ReplayTokenIgnoresUnreadVariable(lib, t, ops[n], name, v);
    }
  }

  /** So a program that never reads "M" samples to the same brain at every x, up to the store. */
  lemma ConstantProgramSamplesConstantly<N>(lib: NumberSystem<N>, s: BrainState<N>, x: N, x': N)
    requires forall k :: 0 <= k < |Program(s)| ==> Program(s)[k] != Str(InputVariable)
    ensures Result(Sample(lib, s, x)) == Result(Sample(lib, s, x'))
    ensures Description(Sample(lib, s, x)) == Description(Sample(lib, s, x'))
  {
    var c := Clear(lib, s);
    UnreadVariableIsInert(lib, c, Program(s), InputVariable, x);
    UnreadVariableIsInert(lib, c, Program(s), InputVariable, x');
    assert Clear(lib, s.(variableValues := s.variableValues[InputVariable := x]))
        == c.(variableValues := c.variableValues[InputVariable := x]);
    assert Clear(lib, s.(variableValues := s.variableValues[InputVariable := x']))
        == c.(variableValues := c.variableValues[InputVariable := x']);
  }
}
