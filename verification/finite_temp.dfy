/** The finite-temperature librascal driver: an availability gate on the
    librascal binding, a parser for the driver's comma-separated argument
    string, and the evaluate step that converts positions and cell to
    ångström, calls the external calculator once and converts potential,
    force and virial back to internal units.

    The librascal calculator and the unit collaborators are foreign code:
    they enter as function-valued parameters and are never given a body. */
module FiniteTemp {
  import opened Results
  import opened Splitting
  import opened Units

  /** Whether `rascal.models.genericmd.FiniteTCalculator` could be imported. */
  datatype Binding = Missing | Loaded

  /** What construction or evaluation can raise.
      - BindingUnavailable: the ImportError raised when the binding is missing.
      - NoArguments: the AttributeError of splitting an absent (`None`) argument string.
      - UsageExit: the process exit carrying the driver's usage message.
      - EvaluationFailed: an error raised inside the external calculator. */
  datatype Error =
    | BindingUnavailable
    | NoArguments
    | UsageExit
    | EvaluationFailed(reason: string)

  /** The five positional fields of the argument string, in parse order. */
  datatype Fields = Fields(
    model: string,
    template: string,
    xdos: string,
    temperature: string,
    nelectrons: string)

  /** One positional argument of the calculator's constructor. */
  datatype CalcArg = Text(s: string) | Flag(b: bool)

  /** A configured driver: its argument string, the fields bound from it,
      and the positional arguments the calculator handle was built with. */
  datatype Driver = Driver(args: string, fields: Fields, calculator: seq<CalcArg>)

  /** What `calculate` returns: potential, force, stress and backend extras. */
  datatype CalcOutput<X> = CalcOutput(pot: Quantity, force: Quantity, stress: Quantity, extras: X)

  /** What the driver returns to the engine, all in internal units. */
  datatype Evaluation = Evaluation(pot: Quantity, force: Quantity, virial: Quantity, extras: string)

  /** The external `calculate(positions, cell)` of the handle built from the
      given constructor arguments; it may raise. */
  type Calculate<X> = (seq<CalcArg>, Quantity, Quantity) -> Result<CalcOutput<X>, string>

  const Separator: char := ','
  const Arity: nat := 5

  /** The fields in the order they occupy in the argument string. */
  function FieldList(f: Fields): seq<string> {
    [f.model, f.template, f.xdos, f.temperature, f.nelectrons]
  }

  /** No field contains the separator (so it can be written back unambiguously). */
  predicate WellFormed(f: Fields) {
    forall i :: 0 <= i < |FieldList(f)| ==> Separator !in FieldList(f)[i]
  }

  /** The argument string that lists the fields in parse order. */
  function Format(f: Fields): string {
    Join(FieldList(f), Separator)
  }

  /** Split on commas; exactly five tokens bind by position, any other
      count exits with the usage message. */
  function ParseArgs(s: string): (r: Result<Fields, Error>)
    ensures r.Success? <==> Count(s, Separator) == Arity - 1
    ensures r.Failure? ==> r.error == UsageExit
    ensures r.Success? ==> FieldList(r.value) == Split(s, Separator)
    ensures r.Success? ==> WellFormed(r.value)
  {
    var tokens := Split(s, Separator);
    if |tokens| == Arity then
      Success(Fields(tokens[0], tokens[1], tokens[2], tokens[3], tokens[4]))
    else
      Failure(UsageExit)
  }

  /** The constructor call `RascalCalc(model, True, xdos, temperature, template, nelectrons)`. */
  function CalculatorCall(f: Fields): seq<CalcArg> {
    [Text(f.model), Flag(true), Text(f.xdos), Text(f.temperature), Text(f.template), Text(f.nelectrons)]
  }

  /** `check_arguments`: an absent argument string fails when split, a string
      without exactly four commas exits with the usage message, and otherwise
      the five tokens become the fields in order and the calculator is built
      from them with `template` moved last but one and the constant `True` in
      second place. */
  function CheckArguments(args: Option<string>): (r: Result<Driver, Error>)
    ensures args.None? ==> r == Failure(NoArguments)
    ensures r.Success? <==> args.Some? && Count(args.value, Separator) == Arity - 1
    ensures args.Some? && r.Failure? ==> r.error == UsageExit
    ensures r.Success? ==> r.value.args == args.value
    ensures r.Success? ==> FieldList(r.value.fields) == Split(args.value, Separator)
    ensures r.Success? ==>
      var tokens := Split(args.value, Separator);
      r.value.calculator
        == [Text(tokens[0]), Flag(true), Text(tokens[2]), Text(tokens[3]), Text(tokens[1]), Text(tokens[4])]
  {
    match args
    case None => Failure(NoArguments)
    case Some(s) =>
      match ParseArgs(s)
      case Failure(e) => Failure(e)
      case Success(f) => Success(Driver(s, f, CalculatorCall(f)))
  }

  /** `Finite_T_driver(args)`: the binding is checked before anything else,
      then the base initialisation stores `args` and runs `check_arguments`. */
  function Construct(binding: Binding, args: Option<string>): (r: Result<Driver, Error>)
    ensures binding.Missing? ==> r == Failure(BindingUnavailable)
    ensures r.Success? <==> binding.Loaded? && args.Some? && Count(args.value, Separator) == Arity - 1
    ensures r.Failure? && binding.Loaded? ==> r.error == (if args.None? then NoArguments else UsageExit)
    ensures r.Success? ==> r.value.args == args.value
    ensures r.Success? ==> FieldList(r.value.fields) == Split(args.value, Separator)
    ensures r.Success? ==>
      var tokens := Split(args.value, Separator);
      r.value.calculator
        == [Text(tokens[0]), Flag(true), Text(tokens[2]), Text(tokens[3]), Text(tokens[1]), Text(tokens[4])]
  {
    if binding.Missing? then Failure(BindingUnavailable)
    else CheckArguments(args)
  }

  /** `__call__(cell, pos)`: one call to the calculator on the ångström
      positions and cell; potential and force come back as electronvolt and
      eV/Å, the virial is the negated stress times the determinant of the
      ångström cell, converted as an energy, and the extras are dropped. */
  function Evaluate<X>(u: Units, calculate: Calculate<X>, d: Driver, cell: Quantity, pos: Quantity)
    : (r: Result<Evaluation, Error>)
    ensures
      var out := calculate(d.calculator, u.toUser(Length, Angstrom, pos), u.toUser(Length, Angstrom, cell));
      r.Success? <==> out.Success?
    ensures
      var out := calculate(d.calculator, u.toUser(Length, Angstrom, pos), u.toUser(Length, Angstrom, cell));
      out.Failure? ==> r == Failure(EvaluationFailed(out.error))
    ensures r.Success? ==> r.value.extras == ""
    ensures
      var cellRascal := u.toUser(Length, Angstrom, cell);
      var out := calculate(d.calculator, u.toUser(Length, Angstrom, pos), cellRascal);
      out.Success? ==>
        && r.value.pot == u.toInternal(Energy, Electronvolt, out.value.pot)
        && r.value.force == u.toInternal(Force, EvPerAngstrom, out.value.force)
        && r.value.virial
           == u.toInternal(Energy, Electronvolt, StressToVirial(out.value.stress, u.detUT3x3(cellRascal)))
  {
    var posRascal := u.toUser(Length, Angstrom, pos);
    var cellRascal := u.toUser(Length, Angstrom, cell);
    match calculate(d.calculator, posRascal, cellRascal)
    case Failure(e) => Failure(EvaluationFailed(e))
    case Success(out) =>
      var potIpi := u.toInternal(Energy, Electronvolt, out.pot);
      var forceIpi := u.toInternal(Force, EvPerAngstrom, out.force);
      var virRascal := StressToVirial(out.stress, u.detUT3x3(cellRascal));
      var virIpi := u.toInternal(Energy, Electronvolt, virRascal);
      Success(Evaluation(potIpi, forceIpi, virIpi, ""))
  }

  /** Parsing undoes formatting for comma-free fields. */
  lemma ParseFormat(f: Fields)
    requires WellFormed(f)
    ensures ParseArgs(Format(f)) == Success(f)
  {
    SplitJoin(FieldList(f), Separator);
  }

  /** Accepted strings are reproduced exactly by their fields: nothing is
      trimmed or dropped. */
  lemma FormatParse(s: string)
    requires ParseArgs(s).Success?
    ensures Format(ParseArgs(s).value) == s
  {
    JoinSplit(s, Separator);
  }

  /** Empty trailing fields are accepted as empty strings. */
  lemma TrailingEmptyFieldAccepted()
    ensures ParseArgs("a,b,c,d,") == Success(Fields("a", "b", "c", "d", ""))
  {
    var f := Fields("a", "b", "c", "d", "");
    assert Join(["d", ""], Separator) == "d,";
    assert Join(["c", "d", ""], Separator) == "c,d,";
    assert Join(["b", "c", "d", ""], Separator) == "b,c,d,";
    assert Format(f) == "a,b,c,d,";
    ParseFormat(f);
  }

  /** The empty string is one empty token, so it exits with the usage message. */
  lemma EmptyArgumentsRejected()
    ensures ParseArgs("") == Failure(UsageExit)
  {
  }

  /** Four tokens are one too few. */
  lemma FourTokensRejected()
    ensures ParseArgs("a,b,c,d") == Failure(UsageExit)
  {
  }

  /** Six tokens are one too many. */
  lemma SixTokensRejected()
    ensures ParseArgs("a,b,c,d,e,f") == Failure(UsageExit)
  {
  }

  /** The result depends on the calculator only through the one value it
      returns at the ångström positions and cell. */
  lemma EvaluateCallsOnce<X>(u: Units, c1: Calculate<X>, c2: Calculate<X>, d: Driver, cell: Quantity, pos: Quantity)
    requires
      var args := (d.calculator, u.toUser(Length, Angstrom, pos), u.toUser(Length, Angstrom, cell));
      c1(args.0, args.1, args.2) == c2(args.0, args.1, args.2)
    ensures Evaluate(u, c1, d, cell, pos) == Evaluate(u, c2, d, cell, pos)
  {
  }

  /** Whatever extras two calculators attach, if they agree on potential,
      force and stress (or fail alike) the driver returns the same result. */
  lemma ExtrasDiscarded<X, Y>(u: Units, c1: Calculate<X>, c2: Calculate<Y>, d: Driver, cell: Quantity, pos: Quantity)
    requires
      var args := (d.calculator, u.toUser(Length, Angstrom, pos), u.toUser(Length, Angstrom, cell));
      var o1 := c1(args.0, args.1, args.2);
      var o2 := c2(args.0, args.1, args.2);
      && o1.Success? == o2.Success?
      && (o1.Failure? ==> o1.error == o2.error)
      && (o1.Success? ==>
            o1.value.pot == o2.value.pot && o1.value.force == o2.value.force && o1.value.stress == o2.value.stress)
    ensures Evaluate(u, c1, d, cell, pos) == Evaluate(u, c2, d, cell, pos)
  {
  }

  /** A stand-in calculator that always reports 1 eV, zero force, zero stress. */
  function StubCalculator(): Calculate<string> {
    (c, p, h) => Success(CalcOutput(Scalar(1.0), Array([0.0, 0.0, 0.0]), Scalar(0.0), "extra"))
  }

  /** With the binding loaded, any comma-free fields written as an argument
      string build a driver holding exactly those fields. */
  lemma ConstructFormatted(f: Fields)
    requires WellFormed(f)
    ensures Construct(Loaded, Some(Format(f))) == Success(Driver(Format(f), f, CalculatorCall(f)))
  {
    ParseFormat(f);
  }

  /** With a calculator that reports 1 eV, zero force and zero stress, any
      configured driver returns the internal value of 1 eV, the internal
      value of the zero force and the internal value of a zero virial,
      whatever the cell. */
  lemma EndToEndStub(u: Units, d: Driver, cell: Quantity, pos: Quantity)
    ensures
      Evaluate(u, StubCalculator(), d, cell, pos)
        == Success(Evaluation(
             u.toInternal(Energy, Electronvolt, Scalar(1.0)),
             u.toInternal(Force, EvPerAngstrom, Array([0.0, 0.0, 0.0])),
             u.toInternal(Energy, Electronvolt, Scalar(0.0)),
             ""))
  {
  }
}
