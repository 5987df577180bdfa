/**
 * The calculator brain as a state machine over values. Each function is one
 * entry point of the brain and gives the state it leaves behind; the class in
 * brain.dfy runs the same steps on fields and is proved against these.
 */
module Machine {
  import opened Options
  import opened Registry

  /** Swift's `Int.max` on a 64-bit platform: the watermark when no binary chain restricts the trace. */
  const IntMax: int := 0x7FFF_FFFF_FFFF_FFFF

  /** An entry of the history: an operand, or a symbol (an operator or a variable name). */
  datatype Token<N> = Num(n: N) | Str(s: string)

  /** The one binary operation that waits for its right operand. */
  datatype PendingBinaryOperationInfo<!N> = PendingBinaryOperationInfo(
    binaryFunction: (N, N) -> N,
    firstValue: N,
    descriptionFunction: (string, string) -> string,
    descriptionValue: string)

  /** Everything the brain holds. */
  datatype BrainState<!N> = BrainState(
    accumulator: N,
    pending: Option<PendingBinaryOperationInfo<N>>,
    currentPriority: int,
    lastValue: string,
    internalProgram: seq<Token<N>>,
    variableValues: map<string, N>)

  /** A newly constructed brain: note the trace "0", where a cleared brain has " ". */
  function Fresh<N>(lib: NumberSystem<N>): (r: BrainState<N>)
    ensures r.accumulator == lib.zero && r.pending.None? && r.currentPriority == IntMax
    ensures r.lastValue == "0" && r.internalProgram == [] && r.variableValues == map[]
  {
    BrainState(lib.zero, None, IntMax, "0", [], map[])
  }

  /**
   * `lastValue = v` together with its observer: when nothing is pending the
   * watermark goes back to Int.max, otherwise it is kept.
   */
  function AssignLastValue<N>(s: BrainState<N>, v: string): (r: BrainState<N>)
    ensures r.lastValue == v
    ensures s.pending.None? ==> r.currentPriority == IntMax
    ensures s.pending.Some? ==> r.currentPriority == s.currentPriority
    ensures r.accumulator == s.accumulator && r.pending == s.pending
    ensures r.internalProgram == s.internalProgram && r.variableValues == s.variableValues
  {
    s.(lastValue := v, currentPriority := if s.pending.None? then IntMax else s.currentPriority)
  }

  /** `setOperand(_ operand: Double)` */
  function SetOperand<N>(lib: NumberSystem<N>, s: BrainState<N>, operand: N): (r: BrainState<N>)
    ensures r.internalProgram == s.internalProgram + [Num(operand)]
    ensures r.accumulator == operand
    ensures r.lastValue == if lib.format(operand).Some? then lib.format(operand).value else ""
    ensures r.pending == s.pending && r.variableValues == s.variableValues
    ensures r.currentPriority == if s.pending.None? then IntMax else s.currentPriority
  {
    var s1 := s.(accumulator := operand);
    var s2 := AssignLastValue(s1, lib.format(operand).GetOr(""));
    s2.(internalProgram := s2.internalProgram + [Num(operand)])
  }

  /** `setOperand(_ variable: String)`: an unbound variable reads as 0. */
  function SetOperandVariable<N>(lib: NumberSystem<N>, s: BrainState<N>, variable: string): (r: BrainState<N>)
    ensures r.internalProgram == s.internalProgram + [Str(variable)]
    ensures r.accumulator == if variable in s.variableValues then s.variableValues[variable] else lib.zero
    ensures r.lastValue == variable
    ensures r.pending == s.pending && r.variableValues == s.variableValues
    ensures r.currentPriority == if s.pending.None? then IntMax else s.currentPriority
  {
    var value := if variable in s.variableValues then Some(s.variableValues[variable]) else None;
    var s1 := s.(accumulator := value.GetOr(lib.zero));
    var s2 := AssignLastValue(s1, variable);
    s2.(internalProgram := s2.internalProgram + [Str(variable)])
  }

  /**
   * `executePendingBinaryOperation()`: applies the pending operation to its
   * stored left operand and the accumulator. The trace is assigned while the
   * operation is still pending, so the watermark is NOT reset.
   */
  function ExecutePendingBinaryOperation<N>(s: BrainState<N>): (r: BrainState<N>)
    ensures r.pending.None?
    ensures r.currentPriority == s.currentPriority
    ensures r.internalProgram == s.internalProgram && r.variableValues == s.variableValues
    ensures s.pending.None? ==> r == s
    ensures s.pending.Some? ==>
      var p := s.pending.value;
      && r.accumulator == p.binaryFunction(p.firstValue, s.accumulator)
      && r.lastValue == p.descriptionFunction(p.descriptionValue, s.lastValue)
  {
    match s.pending
    case None => s
    case Some(p) =>
      var s1 := s.(accumulator := p.binaryFunction(p.firstValue, s.accumulator));
      var s2 := AssignLastValue(s1, p.descriptionFunction(p.descriptionValue, s1.lastValue));
      s2.(pending := None)
  }

  /**
   * `performOperation(_ symbol: String)`: records the symbol, then looks it
   * up. A binary operator first resolves what is pending (so chains evaluate
   * left to right), parenthesises the trace when the watermark is below its
   * rank, and becomes the pending operation. An unknown symbol only lands in
   * the history.
   */
  function PerformOperation<N>(lib: NumberSystem<N>, s: BrainState<N>, symbol: string): (r: BrainState<N>)
    ensures r.internalProgram == s.internalProgram + [Str(symbol)]
    ensures r.variableValues == s.variableValues
    ensures symbol !in Operations(lib) ==> r == s.(internalProgram := s.internalProgram + [Str(symbol)])
    ensures var ops := Operations(lib); symbol in ops && ops[symbol].BinaryOperation? ==>
      && r.pending.Some?
      && r.currentPriority == ops[symbol].priority
      && r.pending.value.binaryFunction == ops[symbol].binary
      && r.pending.value.descriptionFunction == ops[symbol].binaryTrace
      && r.pending.value.firstValue == ExecutePendingBinaryOperation(s).accumulator
    ensures var ops := Operations(lib); symbol in ops && ops[symbol].Equals? ==>
      && r.pending.None?
      && r.accumulator == ExecutePendingBinaryOperation(s).accumulator
      && r.lastValue == ExecutePendingBinaryOperation(s).lastValue
    ensures var ops := Operations(lib); symbol in ops && (ops[symbol].Constant? || ops[symbol].UnaryOperation?) ==>
      && r.pending == s.pending
      && r.currentPriority == (if s.pending.None? then IntMax else s.currentPriority)
    ensures var ops := Operations(lib); symbol in ops && ops[symbol].Constant? ==>
      r.accumulator == ops[symbol].value && r.lastValue == symbol
    ensures var ops := Operations(lib); symbol in ops && ops[symbol].UnaryOperation? ==>
      r.accumulator == ops[symbol].unary(s.accumulator) && r.lastValue == ops[symbol].unaryTrace(s.lastValue)
  {
    var s0 := s.(internalProgram := s.internalProgram + [Str(symbol)]);
    var ops := Operations(lib);
    if symbol !in ops then s0
    else match ops[symbol]
      case Constant(value) =>
        AssignLastValue(s0.(accumulator := value), symbol)
      case UnaryOperation(unary, unaryTrace) =>
        AssignLastValue(s0.(accumulator := unary(s0.accumulator)), unaryTrace(s0.lastValue))
      case BinaryOperation(binary, binaryTrace, priority) =>
        var s1 := ExecutePendingBinaryOperation(s0);
        var s2 := if s1.currentPriority < priority then AssignLastValue(s1, "(" + s1.lastValue + ")") else s1;
        var s3 := s2.(currentPriority := priority);
        s3.(pending := Some(PendingBinaryOperationInfo(binary, s3.accumulator, binaryTrace, s3.lastValue)))
      case Equals =>
        ExecutePendingBinaryOperation(s0)
  }

  /** `clear()`: back to the identity state; the variable store survives. */
  function Clear<N>(lib: NumberSystem<N>, s: BrainState<N>): (r: BrainState<N>)
    ensures r.variableValues == s.variableValues
    ensures r.internalProgram == [] && r.pending.None? && r.accumulator == lib.zero
    ensures r.lastValue == " " && r.currentPriority == IntMax
  {
    var s1 := s.(accumulator := lib.zero, pending := None);
    var s2 := AssignLastValue(s1, " ");
    s2.(currentPriority := IntMax, internalProgram := [])
  }

  /**
   * One pass of the `program` setter's loop: a number is an operand; a
   * string is an operation when the table knows it and a variable otherwise.
   */
  function ReplayToken<N>(lib: NumberSystem<N>, s: BrainState<N>, op: Token<N>): (r: BrainState<N>)
    ensures r.internalProgram == s.internalProgram + [op]
    ensures r.variableValues == s.variableValues
  {
    match op
    case Num(operand) => SetOperand(lib, s, operand)
    case Str(symbol) =>
      if symbol in Operations(lib) then PerformOperation(lib, s, symbol) else SetOperandVariable(lib, s, symbol)
  }

  /** The `program` setter's loop over the first |ops| entries: every replayed token appends itself. */
  function Replay<N>(lib: NumberSystem<N>, s: BrainState<N>, ops: seq<Token<N>>): (r: BrainState<N>)
    ensures r.internalProgram == s.internalProgram + ops
    ensures r.variableValues == s.variableValues
    decreases |ops|
  {
    if |ops| == 0 then s
    else
      var n := |ops| - 1;
      assert ops == ops[..n] + [ops[n]];
      ReplayToken(lib, Replay(lib, s, ops[..n]), ops[n])
  }

  /** The `program` setter: clear, then replay. Reading `program` back gives exactly `ops`. */
  function SetProgram<N>(lib: NumberSystem<N>, s: BrainState<N>, ops: seq<Token<N>>): (r: BrainState<N>)
    ensures Program(r) == ops
    ensures r.variableValues == s.variableValues
  {
    Replay(lib, Clear(lib, s), ops)
  }

  /** The `program` getter. */
  function Program<N>(s: BrainState<N>): (ops: seq<Token<N>>)
    ensures ops == s.internalProgram
  {
    s.internalProgram
  }

  /** Assigning `variableValues`, whose observer replays the whole program. */
  function SetVariableValues<N>(lib: NumberSystem<N>, s: BrainState<N>, values: map<string, N>): (r: BrainState<N>)
    ensures r.internalProgram == s.internalProgram
    ensures r.variableValues == values
  {
    SetProgram(lib, s.(variableValues := values), s.internalProgram)
  }

  /** `clearVariables()`: an assignment to `variableValues`, so it replays too. */
  function ClearVariables<N>(lib: NumberSystem<N>, s: BrainState<N>): (r: BrainState<N>)
    ensures r.internalProgram == s.internalProgram
    ensures r.variableValues == map[]
  {
    SetVariableValues(lib, s, map[])
  }

  /** `undo()`: on an empty history, `clear()`; otherwise drop the last entry and replay the rest. */
  function Undo<N>(lib: NumberSystem<N>, s: BrainState<N>): (r: BrainState<N>)
    ensures |s.internalProgram| == 0 ==> r == Clear(lib, s)
    ensures |s.internalProgram| > 0 ==> r.internalProgram == s.internalProgram[..|s.internalProgram| - 1]
    ensures r.variableValues == s.variableValues
  {
    var h := s.internalProgram;
    if |h| == 0 then Clear(lib, s)
    else
      var rest := h[..|h| - 1];
      SetProgram(lib, s.(internalProgram := rest), rest)
  }

  /** `result` */
  function Result<N>(s: BrainState<N>): (r: N)
    ensures r == s.accumulator
  {
    s.accumulator
  }

  /** `isPartialResult` */
  predicate IsPartialResult<N>(s: BrainState<N>): (b: bool)
    ensures b <==> s.pending.Some?
  {
    s.pending.Some?
  }

  /**
   * `description`: while an operation is pending, its trace formatter applied
   * to the left trace and, if something new was entered since, the current trace.
   */
  function Description<N>(s: BrainState<N>): (d: string)
    ensures s.pending.None? ==> d == s.lastValue
    ensures s.pending.Some? && s.lastValue != s.pending.value.descriptionValue ==>
      d == s.pending.value.descriptionFunction(s.pending.value.descriptionValue, s.lastValue)
    ensures s.pending.Some? && s.lastValue == s.pending.value.descriptionValue ==>
      d == s.pending.value.descriptionFunction(s.pending.value.descriptionValue, "")
  {
    match s.pending
    case Some(p) =>
      p.descriptionFunction(p.descriptionValue, if p.descriptionValue != s.lastValue then s.lastValue else "")
    case None => s.lastValue
  }
}
