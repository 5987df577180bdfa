/**
 * The pending slot, the priority watermark and the trace. A binary operator
 * resolves what is pending before it waits itself, so chains evaluate left to
 * right; the trace of the left operand is parenthesised exactly when the
 * watermark is below the new operator's rank; the watermark returns to
 * Int.max only when the trace is assigned while nothing is pending.
 */
module TraceLaws {
  import opened Options
  import opened Registry
  import opened Machine
  import ReplayLaws

  /** The watermark is a rank of the table or Int.max, and a rank whenever an operation is pending. */
  ghost predicate WatermarkInRange<N>(s: BrainState<N>)
  {
    && (s.currentPriority == IntMax || 0 <= s.currentPriority <= 2)
    && (s.pending.Some? ==> 0 <= s.currentPriority <= 2)
  }

  /** `isPartialResult` after each kind of call. */
  lemma PartialResultAfterCall<N>(lib: NumberSystem<N>, s: BrainState<N>, i: ReplayLaws.Input<N>)
    ensures var r := ReplayLaws.Apply(lib, s, i); var ops := Operations(lib);
      match i
      case Operand(_) => IsPartialResult(r) == IsPartialResult(s)
      case Variable(_) => IsPartialResult(r) == IsPartialResult(s)
      case Operation(symbol) =>
        if symbol !in ops then IsPartialResult(r) == IsPartialResult(s)
        else match ops[symbol]
          case BinaryOperation(_, _, _) => IsPartialResult(r)
          case Equals => !IsPartialResult(r)
          case Constant(_) => IsPartialResult(r) == IsPartialResult(s)
          case UnaryOperation(_, _) => IsPartialResult(r) == IsPartialResult(s)
  {
  }

  /** Every call keeps the watermark in range. */
  lemma ApplyKeepsWatermarkInRange<N>(lib: NumberSystem<N>, s: BrainState<N>, i: ReplayLaws.Input<N>)
    requires WatermarkInRange(s)
    ensures WatermarkInRange(ReplayLaws.Apply(lib, s, i))
  {
  }

  /** Replaying any tokens keeps the watermark in range. */
  lemma {:induction false} ReplayKeepsWatermarkInRange<N>(lib: NumberSystem<N>, s: BrainState<N>, ops: seq<Token<N>>)
    requires WatermarkInRange(s)
    ensures WatermarkInRange(Replay(lib, s, ops))
    decreases |ops|
  {
    if |ops| > 0 {
      var n := |ops| - 1;
      var t := Replay(lib, s, ops[..n]);
      ReplayKeepsWatermarkInRange(lib, s, ops[..n]);
      match ops[n]
      case Num(x) =>
        ApplyKeepsWatermarkInRange(lib, t, ReplayLaws.Operand(x));
      case Str(symbol) =>
        if symbol in Operations(lib) {
          ApplyKeepsWatermarkInRange(lib, t, ReplayLaws.Operation(symbol));
        } else {
          ApplyKeepsWatermarkInRange(lib, t, ReplayLaws.Variable(symbol));
        }
    }
  }

  /** Setting `program`, assigning variables and undo leave the watermark in range, whatever came before. */
  lemma RebuiltStatesKeepWatermarkInRange<N>(lib: NumberSystem<N>, s: BrainState<N>, ops: seq<Token<N>>, values: map<string, N>)
    ensures WatermarkInRange(SetProgram(lib, s, ops))
    ensures WatermarkInRange(SetVariableValues(lib, s, values))
    ensures WatermarkInRange(Undo(lib, s))
  {
    ReplayKeepsWatermarkInRange(lib, Clear(lib, s), ops);
    ReplayKeepsWatermarkInRange(lib, Clear(lib, s.(variableValues := values)), s.internalProgram);
    if |s.internalProgram| > 0 {
      var rest := s.internalProgram[..|s.internalProgram| - 1];
      ReplayKeepsWatermarkInRange(lib, Clear(lib, s.(internalProgram := rest)), rest);
    }
  }

  /**
   * A binary operator of rank `priority` resolves what is pending, then
   * waits with the resolved value as its left operand and the resolved
   * trace as its left trace, in parentheses exactly when the watermark after
   * resolving is below `priority`; the watermark becomes `priority`.
   */
  lemma ParenthesisedExactlyWhenBelowRank<N>(lib: NumberSystem<N>, s: BrainState<N>, symbol: string)
    requires symbol in Operations(lib) && Operations(lib)[symbol].BinaryOperation?
    ensures var r := PerformOperation(lib, s, symbol);
      var t := ExecutePendingBinaryOperation(s);
      var op := Operations(lib)[symbol];
      var left := if t.currentPriority < op.priority then "(" + t.lastValue + ")" else t.lastValue;
      && r == BrainState(t.accumulator, Some(PendingBinaryOperationInfo(op.binary, t.accumulator, op.binaryTrace, left)),
                         op.priority, left, s.internalProgram + [Str(symbol)], s.variableValues)
      && (left == "(" + t.lastValue + ")" <==> t.currentPriority < op.priority)
  {
    var t := ExecutePendingBinaryOperation(s);
    var t0 := ExecutePendingBinaryOperation(s.(internalProgram := s.internalProgram + [Str(symbol)]));
    assert t0 == t.(internalProgram := s.internalProgram + [Str(symbol)]);
    assert |"(" + t.lastValue + ")"| != |t.lastValue|;
  }

  /** `=` only resolves what is pending. */
  lemma EqualsResolves<N>(lib: NumberSystem<N>, s: BrainState<N>)
    ensures PerformOperation(lib, s, "=")
      == ExecutePendingBinaryOperation(s).(internalProgram := s.internalProgram + [Str("=")])
  {
    PowerAndEquals(lib, "", "");
  }

  /** Right after a binary operator, the description shows the left trace and the operator only. */
  lemma DescriptionAfterBinaryOperator<N>(lib: NumberSystem<N>, s: BrainState<N>, symbol: string)
    requires symbol in Operations(lib) && Operations(lib)[symbol].BinaryOperation?
    ensures var r := PerformOperation(lib, s, symbol);
      && IsPartialResult(r)
      && Description(r) == Operations(lib)[symbol].binaryTrace(r.pending.value.descriptionValue, "")
  {
  }

  /**
   * While an operation waits, a newly read variable shows as its right
   * operand, unless its name equals the left trace, in which case the right
   * side stays empty.
   */
  lemma DescriptionShowsRightOperand<N>(lib: NumberSystem<N>, s: BrainState<N>, variable: string)
    requires s.pending.Some?
    ensures var p := s.pending.value;
      Description(SetOperandVariable(lib, s, variable))
        == p.descriptionFunction(p.descriptionValue, if variable != p.descriptionValue then variable else "")
  {
  }

  /** With nothing pending, the description is the trace. */
  lemma DescriptionWhenIdle<N>(s: BrainState<N>)
    requires !IsPartialResult(s)
    ensures Description(s) == s.lastValue
  {
  }

  /**
   * An operand and then a binary operator, with nothing pending: the
   * operator waits with the operand as left operand and its text as left
   * trace, unparenthesised because the watermark is Int.max.
   */
  lemma IdleOperandThenBinary<N>(lib: NumberSystem<N>, s: BrainState<N>, a: N, ta: string, symbol: string)
    requires s.pending.None? && lib.format(a) == Some(ta)
    requires symbol in Operations(lib) && Operations(lib)[symbol].BinaryOperation?
    ensures var r := PerformOperation(lib, SetOperand(lib, s, a), symbol);
      var op := Operations(lib)[symbol];
      && r.pending == Some(PendingBinaryOperationInfo(op.binary, a, op.binaryTrace, ta))
      && r.currentPriority == op.priority
      && r.accumulator == a && r.lastValue == ta
  {
    ParenthesisedExactlyWhenBelowRank(lib, SetOperand(lib, s, a), symbol);
  }

  /**
   * An operand and then a binary operator, while an operation waits: the
   * waiting operation is applied to the operand first, and its trace is
   * parenthesised when the watermark `q` is below the new operator's rank.
   */
  lemma PendingOperandThenBinary<N>(lib: NumberSystem<N>, s: BrainState<N>, b: N, tb: string, symbol: string)
    requires s.pending.Some? && lib.format(b) == Some(tb)
    requires symbol in Operations(lib) && Operations(lib)[symbol].BinaryOperation?
    ensures var r := PerformOperation(lib, SetOperand(lib, s, b), symbol);
      var op := Operations(lib)[symbol];
      var p := s.pending.value;
      var value := p.binaryFunction(p.firstValue, b);
      var trace := p.descriptionFunction(p.descriptionValue, tb);
      var left := if s.currentPriority < op.priority then "(" + trace + ")" else trace;
      && r.pending == Some(PendingBinaryOperationInfo(op.binary, value, op.binaryTrace, left))
      && r.currentPriority == op.priority
      && r.accumulator == value && r.lastValue == left
  {
    ParenthesisedExactlyWhenBelowRank(lib, SetOperand(lib, s, b), symbol);
  }

  /** An operand and then `=`, while an operation waits: it is applied, and the watermark is kept. */
  lemma PendingOperandThenEquals<N>(lib: NumberSystem<N>, s: BrainState<N>, b: N, tb: string)
    requires s.pending.Some? && lib.format(b) == Some(tb)
    ensures var r := PerformOperation(lib, SetOperand(lib, s, b), "=");
      var p := s.pending.value;
      && r.pending.None?
      && r.currentPriority == s.currentPriority
      && r.accumulator == p.binaryFunction(p.firstValue, b)
      && r.lastValue == p.descriptionFunction(p.descriptionValue, tb)
  {
    EqualsResolves(lib, SetOperand(lib, s, b));
  }

  /**
   * `2 + 3 × 4 =` evaluates left to right: the result is (2+3)×4 and the
   * trace is "(2+3)×4".
   */
  lemma LeftToRightChain<N>(lib: NumberSystem<N>, s: BrainState<N>, two: N, three: N, four: N)
    requires lib.format(two) == Some("2") && lib.format(three) == Some("3") && lib.format(four) == Some("4")
    ensures var s2 := PerformOperation(lib, SetOperand(lib, Clear(lib, s), two), "+");
      var s4 := PerformOperation(lib, SetOperand(lib, s2, three), "×");
      var r := PerformOperation(lib, SetOperand(lib, s4, four), "=");
      && Result(r) == lib.multiply(lib.add(two, three), four)
      && Description(r) == "(2+3)×4"
      && !IsPartialResult(r)
  {
    AdditiveOperators(lib, "2", "3");
    MultiplicativeOperators(lib, "(2+3)", "4");
    IdleOperandThenBinary(lib, Clear(lib, s), two, "2", "+");
    var s2 := PerformOperation(lib, SetOperand(lib, Clear(lib, s), two), "+");
    PendingOperandThenBinary(lib, s2, three, "3", "×");
    assert "(" + ("2" + "+" + "3") + ")" == "(2+3)";
    var s4 := PerformOperation(lib, SetOperand(lib, s2, three), "×");
    PendingOperandThenEquals(lib, s4, four, "4");
  }

  /** `2 × 3 + 4 =`: `+` resolves the product first and the trace needs no parentheses, "2×3+4". */
  lemma HigherRankFirstChain<N>(lib: NumberSystem<N>, s: BrainState<N>, two: N, three: N, four: N)
    requires lib.format(two) == Some("2") && lib.format(three) == Some("3") && lib.format(four) == Some("4")
    ensures var s2 := PerformOperation(lib, SetOperand(lib, Clear(lib, s), two), "×");
      var s4 := PerformOperation(lib, SetOperand(lib, s2, three), "+");
      var r := PerformOperation(lib, SetOperand(lib, s4, four), "=");
      && Result(r) == lib.add(lib.multiply(two, three), four)
      && Description(r) == "2×3+4"
      && !IsPartialResult(r)
  {
    MultiplicativeOperators(lib, "2", "3");
    AdditiveOperators(lib, "2×3", "4");
    IdleOperandThenBinary(lib, Clear(lib, s), two, "2", "×");
    var s2 := PerformOperation(lib, SetOperand(lib, Clear(lib, s), two), "×");
    PendingOperandThenBinary(lib, s2, three, "3", "+");
    var s4 := PerformOperation(lib, SetOperand(lib, s2, three), "+");
    PendingOperandThenEquals(lib, s4, four, "4");
  }

  /** `3 + 4 ×`: the operator resolves the sum and parenthesises it; the description is "(3+4)×". */
  lemma PendingDescription<N>(lib: NumberSystem<N>, s: BrainState<N>, three: N, four: N)
    requires lib.format(three) == Some("3") && lib.format(four) == Some("4")
    ensures var s2 := PerformOperation(lib, SetOperand(lib, Clear(lib, s), three), "+");
      var r := PerformOperation(lib, SetOperand(lib, s2, four), "×");
      && IsPartialResult(r)
      && r.pending.value.firstValue == lib.add(three, four)
      && Description(r) == "(3+4)×"
  {
    AdditiveOperators(lib, "3", "4");
    MultiplicativeOperators(lib, "(3+4)", "");
    IdleOperandThenBinary(lib, Clear(lib, s), three, "3", "+");
    var s2 := PerformOperation(lib, SetOperand(lib, Clear(lib, s), three), "+");
    PendingOperandThenBinary(lib, s2, four, "4", "×");
    assert "(" + ("3" + "+" + "4") + ")" == "(3+4)";
  }

  /**
   * `3 + 4 =` leaves nothing pending yet keeps the watermark at the rank of
   * `+`, because `=` assigns the trace while the sum is still pending. So a
   * following `×` still parenthesises: "(3+4)×".
   */
  lemma EqualsKeepsWatermark<N>(lib: NumberSystem<N>, s: BrainState<N>, three: N, four: N)
    requires lib.format(three) == Some("3") && lib.format(four) == Some("4")
    ensures var s2 := PerformOperation(lib, SetOperand(lib, Clear(lib, s), three), "+");
      var r := PerformOperation(lib, SetOperand(lib, s2, four), "=");
      && !IsPartialResult(r)
      && r.currentPriority == 0
      && Description(r) == "3+4"
      && Description(PerformOperation(lib, r, "×")) == "(3+4)×"
  {
    AdditiveOperators(lib, "3", "4");
    MultiplicativeOperators(lib, "(3+4)", "");
    IdleOperandThenBinary(lib, Clear(lib, s), three, "3", "+");
    var s2 := PerformOperation(lib, SetOperand(lib, Clear(lib, s), three), "+");
    PendingOperandThenEquals(lib, s2, four, "4");
    var r := PerformOperation(lib, SetOperand(lib, s2, four), "=");
    ParenthesisedExactlyWhenBelowRank(lib, r, "×");
  }

  /** `e ln =`: the result is log(e) and the trace "ln(e)". */
  lemma UnaryTrace<N>(lib: NumberSystem<N>, s: BrainState<N>)
    ensures var r := PerformOperation(lib, PerformOperation(lib, PerformOperation(lib, Clear(lib, s), "e"), "ln"), "=");
      && Result(r) == lib.log(lib.e)
      && Description(r) == "ln(e)"
      && !IsPartialResult(r)
  {
  }
}
