/**
 * History, serialisation and undo. The brain keeps every token it is given;
 * `program` and `undo` rebuild the state by clearing it and replaying tokens.
 * These lemmas say when such a replay gives back the state the calls built.
 */
module ReplayLaws {
  import opened Registry
  import opened Machine

  /** One call of an input entry point of the brain. */
  datatype Input<N> = Operand(value: N) | Variable(name: string) | Operation(symbol: string)

  /** Runs one call. */
  function Apply<N>(lib: NumberSystem<N>, s: BrainState<N>, i: Input<N>): (r: BrainState<N>)
    ensures r.internalProgram == s.internalProgram + [TokenOf(i)]
    ensures r.variableValues == s.variableValues
  {
    match i
    case Operand(value) => SetOperand(lib, s, value)
    case Variable(name) => SetOperandVariable(lib, s, name)
    case Operation(symbol) => PerformOperation(lib, s, symbol)
  }

  /** The history entry a call records. */
  function TokenOf<N>(i: Input<N>): (t: Token<N>)
    ensures t.Num? <==> i.Operand?
  {
    match i
    case Operand(value) => Num(value)
    case Variable(name) => Str(name)
    case Operation(symbol) => Str(symbol)
  }

  /** Runs calls in order. */
  function Run<N>(lib: NumberSystem<N>, s: BrainState<N>, inputs: seq<Input<N>>): (r: BrainState<N>)
    ensures r.internalProgram == s.internalProgram + Tokens(inputs)
    ensures r.variableValues == s.variableValues
    decreases |inputs|
  {
    if |inputs| == 0 then s
    else
      var n := |inputs| - 1;
      assert Tokens(inputs) == Tokens(inputs[..n]) + [TokenOf(inputs[n])];
      Apply(lib, Run(lib, s, inputs[..n]), inputs[n])
  }

  /** The history entries the calls record. */
  function Tokens<N>(inputs: seq<Input<N>>): (ops: seq<Token<N>>)
    ensures |ops| == |inputs|
    ensures forall k :: 0 <= k < |inputs| ==> ops[k] == TokenOf(inputs[k])
  {
    seq(|inputs|, k requires 0 <= k < |inputs| => TokenOf(inputs[k]))
  }

  /**
   * A call that replay reads back as the same call: an operation whose symbol
   * the table knows, or a variable whose name is not an operator symbol.
   * The keypad only produces such calls.
   */
  predicate WellClassified<N>(lib: NumberSystem<N>, i: Input<N>)
  {
    match i
    case Operand(_) => true
    case Variable(name) => name !in Operations(lib)
    case Operation(symbol) => symbol in Operations(lib)
  }

  predicate AllWellClassified<N>(lib: NumberSystem<N>, inputs: seq<Input<N>>)
  {
    forall k :: 0 <= k < |inputs| ==> WellClassified(lib, inputs[k])
  }

  /** Replaying the token of a well-classified call is that call. */
  lemma ReplayTokenOfInput<N>(lib: NumberSystem<N>, s: BrainState<N>, i: Input<N>)
    requires WellClassified(lib, i)
    ensures ReplayToken(lib, s, TokenOf(i)) == Apply(lib, s, i)
  {
  }

  /** Calls from a cleared brain record their tokens, and the state is the replay of them. */
  lemma {:induction false} RunIsReplay<N>(lib: NumberSystem<N>, s0: BrainState<N>, inputs: seq<Input<N>>)
    requires AllWellClassified(lib, inputs)
    ensures Run(lib, Clear(lib, s0), inputs) == SetProgram(lib, s0, Tokens(inputs))
    decreases |inputs|
  {
    if |inputs| > 0 {
      var n := |inputs| - 1;
      RunIsReplay(lib, s0, inputs[..n]);
      assert Tokens(inputs)[..n] == Tokens(inputs[..n]);
      ReplayTokenOfInput(lib, Run(lib, Clear(lib, s0), inputs[..n]), inputs[n]);
    }
  }

  /** Clearing keeps only the variable store. */
  lemma ClearKeepsOnlyVariables<N>(lib: NumberSystem<N>, s: BrainState<N>, t: BrainState<N>)
    requires s.variableValues == t.variableValues
    ensures Clear(lib, s) == Clear(lib, t)
  {
  }

  /**
   * The serialisation round trip: read `program` from a brain built by
   * well-classified calls after a clear, set it on any brain with the same
   * variables, and the whole state comes back: result, pending operation,
   * trace and history.
   */
  lemma ProgramRestoresState<N>(lib: NumberSystem<N>, s0: BrainState<N>, inputs: seq<Input<N>>, t: BrainState<N>)
    requires AllWellClassified(lib, inputs)
    requires t.variableValues == s0.variableValues
    ensures var s := Run(lib, Clear(lib, s0), inputs);
      && SetProgram(lib, t, Program(s)) == s
      && Result(SetProgram(lib, t, Program(s))) == Result(s)
      && IsPartialResult(SetProgram(lib, t, Program(s))) == IsPartialResult(s)
      && Description(SetProgram(lib, t, Program(s))) == Description(s)
  {
    var s := Run(lib, Clear(lib, s0), inputs);
    RunIsReplay(lib, s0, inputs);
    assert Program(s) == Tokens(inputs);
    ClearKeepsOnlyVariables(lib, t, s0);
  }

  /**
   * Undo returns to the state before the last call, when that state was
   * itself a replay of its history (as every state the app reaches from a
   * cleared brain by keypad calls is).
   */
  lemma UndoRestoresPreviousState<N>(lib: NumberSystem<N>, s0: BrainState<N>, history: seq<Token<N>>, i: Input<N>)
    ensures var s := SetProgram(lib, s0, history);
      Undo(lib, Apply(lib, s, i)) == s
  {
    var s := SetProgram(lib, s0, history);
    var t := Apply(lib, s, i);
    assert t.internalProgram == history + [TokenOf(i)];
    assert t.internalProgram[..|t.internalProgram| - 1] == history;
    ClearKeepsOnlyVariables(lib, t.(internalProgram := history), s0);
  }

  /**
   * Assigning the variable store re-runs the calls that built the brain, now
   * reading the new values: the state is the one the same calls would have
   * built from a cleared brain holding that store.
   */
  lemma StoreAssignmentReruns<N>(lib: NumberSystem<N>, s0: BrainState<N>, inputs: seq<Input<N>>, values: map<string, N>)
    requires AllWellClassified(lib, inputs)
    ensures SetVariableValues(lib, Run(lib, Clear(lib, s0), inputs), values)
         == Run(lib, Clear(lib, s0.(variableValues := values)), inputs)
  {
    var s := Run(lib, Clear(lib, s0), inputs);
    RunIsReplay(lib, s0, inputs);
    RunIsReplay(lib, s0.(variableValues := values), inputs);
    ClearKeepsOnlyVariables(lib, s.(variableValues := values), s0.(variableValues := values));
  }

  /** `clearVariables()` re-runs the calls with an empty store, so every variable then reads as 0. */
  lemma ClearVariablesReruns<N>(lib: NumberSystem<N>, s0: BrainState<N>, inputs: seq<Input<N>>)
    requires AllWellClassified(lib, inputs)
    ensures ClearVariables(lib, Run(lib, Clear(lib, s0), inputs))
         == Run(lib, Clear(lib, s0.(variableValues := map[])), inputs)
  {
    StoreAssignmentReruns(lib, s0, inputs, map[]);
  }

  /** Undo after a run of keypad calls from a cleared brain is the run without its last call. */
  lemma UndoDropsLastInput<N>(lib: NumberSystem<N>, s0: BrainState<N>, inputs: seq<Input<N>>)
    requires AllWellClassified(lib, inputs)
    requires |inputs| > 0
    ensures Undo(lib, Run(lib, Clear(lib, s0), inputs)) == Run(lib, Clear(lib, s0), inputs[..|inputs| - 1])
  {
    var n := |inputs| - 1;
    RunIsReplay(lib, s0, inputs[..n]);
    UndoRestoresPreviousState(lib, s0, Tokens(inputs[..n]), inputs[n]);
  }

  /** Undo on an empty history is exactly `clear()`, even on a fresh brain whose trace is "0". */
  lemma UndoOnFreshBrainClears<N>(lib: NumberSystem<N>)
    ensures Undo(lib, Fresh(lib)) == Clear(lib, Fresh(lib))
    ensures Undo(lib, Fresh(lib)).lastValue == " " && Fresh(lib).lastValue == "0"
  {
  }

  /**
   * Why replay needs well-classified calls: `performOperation("M")` on a
   * cleared brain only records "M", but replaying that history reads "M" as
   * a variable and sets the trace to "M".
   */
  lemma UnknownOperatorReplaysAsVariable<N>(lib: NumberSystem<N>, s0: BrainState<N>)
    ensures var s := PerformOperation(lib, Clear(lib, s0), "M");
      && s.lastValue == " "
      && SetProgram(lib, s, Program(s)).lastValue == "M"
      && SetProgram(lib, s, Program(s)) != s
  {
    var s := PerformOperation(lib, Clear(lib, s0), "M");
    assert "M" !in Operations(lib);
    assert Program(s) == [Str("M")];
    assert Program(s)[..0] == [];
  }
}
