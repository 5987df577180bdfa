/** Optional values: the brain's `pending` slot and the formatter's result. */
module Options {

  datatype Option<T> = None | Some(value: T) {

    /** Swift's `x ?? default` */
    function GetOr(default: T): (r: T)
      ensures Some? ==> r == value
      ensures None? ==> r == default
    {
      match this
      case Some(v) => v
      case None => default
    }
  }
}

/**
 * The operation table of the calculator brain: every key of the keypad that
 * is not a digit, mapped to what it does to the number and to the trace.
 */
module Registry {
  import opened Options

  /**
   * The numbers the brain computes with, left abstract. Double arithmetic, the
   * math library (sqrt, log, log10, the trigonometric functions and their
   * inverses, pow) and the decimal NumberFormatter are platform code; the
   * model takes them as parameters and assumes nothing about them. The Double
   * literals the brain uses (0, -1, 2) and the constants pi and e are fields too.
   */
  datatype NumberSystem<!N> = NumberSystem(
    zero: N,
    minusOne: N,
    two: N,
    pi: N,
    e: N,
    negate: N -> N,
    sqrt: N -> N,
    log: N -> N,
    log10: N -> N,
    sin: N -> N,
    cos: N -> N,
    tan: N -> N,
    asin: N -> N,
    acos: N -> N,
    atan: N -> N,
    pow: (N, N) -> N,
    divide: (N, N) -> N,
    multiply: (N, N) -> N,
    subtract: (N, N) -> N,
    add: (N, N) -> N,
    /** NumberFormatter.string(from:), which may fail */
    format: N -> Option<string>)

  /** What a key does: a constant, a unary or binary function with its trace formatter, or `=`. */
  datatype Operation<!N> =
    | Constant(value: N)
    | UnaryOperation(unary: N -> N, unaryTrace: string -> string)
    | BinaryOperation(binary: (N, N) -> N, binaryTrace: (string, string) -> string, priority: int)
    | Equals

  /**
   * The operation table. Binary operators rank `+` and `−` lowest (0), `×`
   * and `÷` above them (1) and `∧` highest (2).
   */
  function Operations<N>(lib: NumberSystem<N>): (ops: map<string, Operation<N>>)
    ensures forall symbol :: symbol in ops && ops[symbol].BinaryOperation? ==> 0 <= ops[symbol].priority <= 2
  {
    map[
      "π" := Constant(lib.pi),
      "e" := Constant(lib.e),
      "±" := UnaryOperation(lib.negate, s => "±(" + s + ")"),
      "√" := UnaryOperation(lib.sqrt, s => "√(" + s + ")"),
      "ln" := UnaryOperation(lib.log, s => "ln(" + s + ")"),
      "log" := UnaryOperation(lib.log10, s => "log(" + s + ")"),
      "sin" := UnaryOperation(lib.sin, s => "sin(" + s + ")"),
      "cos" := UnaryOperation(lib.cos, s => "cos(" + s + ")"),
      "tan" := UnaryOperation(lib.tan, s => "tan(" + s + ")"),
      "sin⁻¹" := UnaryOperation(lib.asin, s => "sin⁻¹(" + s + ")"),
      "cos⁻¹" := UnaryOperation(lib.acos, s => "cos⁻¹(" + s + ")"),
      "tan⁻¹" := UnaryOperation(lib.atan, s => "tan⁻¹(" + s + ")"),
      "x⁻¹" := UnaryOperation(x => lib.pow(x, lib.minusOne), s => "(" + s + ")⁻¹"),
      "x²" := UnaryOperation(x => lib.pow(x, lib.two), s => "(" + s + ")²"),
      "÷" := BinaryOperation(lib.divide, (a, b) => a + "÷" + b, 1),
      "×" := BinaryOperation(lib.multiply, (a, b) => a + "×" + b, 1),
      "−" := BinaryOperation(lib.subtract, (a, b) => a + "-" + b, 0),
      "+" := BinaryOperation(lib.add, (a, b) => a + "+" + b, 0),
      "∧" := BinaryOperation(lib.pow, (a, b) => a + "^" + b, 2),
      "=" := Equals
    ]
  }

  /** `+` and `−`: rank 0, infix traces "a+b" and "a-b" (an ASCII hyphen, though the key is U+2212). */
  lemma AdditiveOperators<N>(lib: NumberSystem<N>, a: string, b: string)
    ensures var ops := Operations(lib);
      && ops["+"].BinaryOperation? && ops["+"].binary == lib.add
      && ops["+"].binaryTrace(a, b) == a + "+" + b && ops["+"].priority == 0
      && ops["−"].BinaryOperation? && ops["−"].binary == lib.subtract
      && ops["−"].binaryTrace(a, b) == a + "-" + b && ops["−"].priority == 0
  {
  }

  /** `×` and `÷`: rank 1, infix traces "a×b" and "a÷b". */
  lemma MultiplicativeOperators<N>(lib: NumberSystem<N>, a: string, b: string)
    ensures var ops := Operations(lib);
      && ops["×"].BinaryOperation? && ops["×"].binary == lib.multiply
      && ops["×"].binaryTrace(a, b) == a + "×" + b && ops["×"].priority == 1
      && ops["÷"].BinaryOperation? && ops["÷"].binary == lib.divide
      && ops["÷"].binaryTrace(a, b) == a + "÷" + b && ops["÷"].priority == 1
  {
  }

  /** `∧`: rank 2, infix trace "a^b"; `=` is the terminator. */
  lemma PowerAndEquals<N>(lib: NumberSystem<N>, a: string, b: string)
    ensures var ops := Operations(lib);
      && ops["∧"].BinaryOperation? && ops["∧"].binary == lib.pow
      && ops["∧"].binaryTrace(a, b) == a + "^" + b && ops["∧"].priority == 2
      && ops["="].Equals?
  {
  }
}
