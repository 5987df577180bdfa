/**
 * The calculator brain as the object the app holds: its entry points update
 * the fields step by step, observers included, and each is proved to leave
 * the state its counterpart in module Machine describes.
 */
module Brain {
  import opened Options
  import opened Registry
  import Machine

  class CalculatorBrain<N> {
    /** The platform numbers and formatter the brain computes with. */
    const lib: NumberSystem<N>

    var accumulator: N
    var pending: Option<Machine.PendingBinaryOperationInfo<N>>
    var currentPriority: int
    var internalProgram: seq<Machine.Token<N>>
    var lastValue: string
    var variableValues: map<string, N>

    /** The fields as one value. */
    function Snapshot(): (s: Machine.BrainState<N>)
      reads this
    {
      Machine.BrainState(accumulator, pending, currentPriority, lastValue, internalProgram, variableValues)
    }

    constructor(lib: NumberSystem<N>)
      ensures this.lib == lib
      ensures Snapshot() == Machine.Fresh(lib)
    {
      this.lib := lib;
      accumulator := lib.zero;
      pending := None;
      currentPriority := Machine.IntMax;
      internalProgram := [];
      lastValue := "0";
      variableValues := map[];
    }

    /** `result` */
    function Result(): (r: N)
      reads this
      ensures r == accumulator
    {
      Machine.Result(Snapshot())
    }

    /** `description` */
    function Description(): (d: string)
      reads this
      ensures pending.None? ==> d == lastValue
      ensures pending.Some? && lastValue != pending.value.descriptionValue ==>
        d == pending.value.descriptionFunction(pending.value.descriptionValue, lastValue)
      ensures pending.Some? && lastValue == pending.value.descriptionValue ==>
        d == pending.value.descriptionFunction(pending.value.descriptionValue, "")
    {
      Machine.Description(Snapshot())
    }

    /** `isPartialResult` */
    predicate IsPartialResult(): (b: bool)
      reads this
      ensures b <==> pending.Some?
    {
      Machine.IsPartialResult(Snapshot())
    }

    /** The `program` getter. */
    function Program(): (ops: seq<Machine.Token<N>>)
      reads this
      ensures ops == internalProgram
    {
      Machine.Program(Snapshot())
    }

    /** `lastValue = v`, with the observer that resets the watermark when nothing is pending. */
    method AssignLastValue(v: string)
      modifies this
      ensures Snapshot() == Machine.AssignLastValue(old(Snapshot()), v)
    {
      lastValue := v;
      if pending.None? {
        currentPriority := Machine.IntMax;
      }
    }

    /** `setOperand(_ operand: Double)` */
    method SetOperand(operand: N)
      modifies this
      ensures Snapshot() == Machine.SetOperand(lib, old(Snapshot()), operand)
    {
      accumulator := operand;
      AssignLastValue(lib.format(operand).GetOr(""));
      internalProgram := internalProgram + [Machine.Num(operand)];
    }

    /** `setOperand(_ variable: String)` */
    method SetOperandVariable(variable: string)
      modifies this
      ensures Snapshot() == Machine.SetOperandVariable(lib, old(Snapshot()), variable)
    {
      var value := if variable in variableValues then Some(variableValues[variable]) else None;
      accumulator := value.GetOr(lib.zero);
      AssignLastValue(variable);
      internalProgram := internalProgram + [Machine.Str(variable)];
    }

    /** `performOperation(_ symbol: String)` */
    method PerformOperation(symbol: string)
      modifies this
      ensures Snapshot() == Machine.PerformOperation(lib, old(Snapshot()), symbol)
    {
      internalProgram := internalProgram + [Machine.Str(symbol)];
      var ops := Operations(lib);
      if symbol in ops {
        match ops[symbol]
        case Constant(value) =>
          accumulator := value;
          AssignLastValue(symbol);
        case UnaryOperation(unary, unaryTrace) =>
          accumulator := unary(accumulator);
          AssignLastValue(unaryTrace(lastValue));
        case BinaryOperation(binary, binaryTrace, priority) =>
          ExecutePendingBinaryOperation();
          if currentPriority < priority {
            AssignLastValue("(" + lastValue + ")");
          }
          currentPriority := priority;
          pending := Some(Machine.PendingBinaryOperationInfo(binary, accumulator, binaryTrace, lastValue));
        case Equals =>
          ExecutePendingBinaryOperation();
      }
    }

    /** `executePendingBinaryOperation()`; private to the brain in the app. */
    method ExecutePendingBinaryOperation()
      modifies this
      ensures Snapshot() == Machine.ExecutePendingBinaryOperation(old(Snapshot()))
    {
      if pending.Some? {
        var p := pending.value;
        accumulator := p.binaryFunction(p.firstValue, accumulator);
        AssignLastValue(p.descriptionFunction(p.descriptionValue, lastValue));
        pending := None;
      }
    }

    /** `clear()` */
    method Clear()
      modifies this
      ensures Snapshot() == Machine.Clear(lib, old(Snapshot()))
    {
      accumulator := lib.zero;
      pending := None;
      AssignLastValue(" ");
      currentPriority := Machine.IntMax;
      internalProgram := [];
    }

    /** The `program` setter: clear, then feed each entry to the matching entry point. */
    method SetProgram(newValue: seq<Machine.Token<N>>)
      modifies this
      ensures Snapshot() == Machine.SetProgram(lib, old(Snapshot()), newValue)
    {
      Clear();
      for i := 0 to |newValue|
        invariant Snapshot() == Machine.Replay(lib, Machine.Clear(lib, old(Snapshot())), newValue[..i])
      {
        ghost var before := Snapshot();
        match newValue[i] {
          case Num(operand) =>
            SetOperand(operand);
          case Str(symbol) =>
            if symbol in Operations(lib) {
              PerformOperation(symbol);
            } else {
              SetOperandVariable(symbol);
            }
        }
        assert Snapshot() == Machine.ReplayToken(lib, before, newValue[i]);
        assert newValue[..i + 1][..i] == newValue[..i];
      }
      assert newValue[..|newValue|] == newValue;
    }

    /** Assigning `variableValues`; its observer replays the program. */
    method SetVariableValues(values: map<string, N>)
      modifies this
      ensures Snapshot() == Machine.SetVariableValues(lib, old(Snapshot()), values)
    {
      variableValues := values;
      SetProgram(internalProgram);
    }

    /** `clearVariables()` */
    method ClearVariables()
      modifies this
      ensures Snapshot() == Machine.ClearVariables(lib, old(Snapshot()))
    {
      SetVariableValues(map[]);
    }

    /** `undo()` */
    method Undo()
      modifies this
      ensures Snapshot() == Machine.Undo(lib, old(Snapshot()))
    {
      if |internalProgram| == 0 {
        Clear();
        return;
      }
      internalProgram := internalProgram[..|internalProgram| - 1];
      SetProgram(internalProgram);
    }
  }
}
