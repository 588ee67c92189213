# Finite-temperature librascal driver: a Dafny model

This project models the i-PI Python driver `Finite_T_driver` in `drivers/py/pes/finite_temp.py`. The driver adapts librascal's
`FiniteTCalculator` to i-PI's driver contract. It has three parts:

- **Availability gate.** If the librascal binding failed to import, construction raises `ImportError` before anything else
  happens (`Construct`).
- **Argument parser.** `check_arguments` splits the one flat argument string on `,`. It accepts exactly five tokens and binds
  them by position to `model`, `template`, `xdos`, `temperature` and `nelectrons`. Any other count exits with the usage
  message. It then builds the calculator as `RascalCalc(model, True, xdos, temperature, template, nelectrons)`
  (`ParseArgs`, `CheckArguments`).
- **Evaluate adapter.** `__call__` converts positions and cell to ångström and calls `calculate` once. It converts potential
  and force back to internal units. It turns the stress into the virial `-stress * det(cell in ångström)`, converts that as
  an energy, and replaces the calculator's extras by `""` (`Evaluate`).

Files:

- `results.dfy`: `Option` and `Result`.
- `splitting.dfy`: Python's `str.split(",")` (`Split`), its inverse `Join`, and both round trips.
- `units.dfy`: numeric payloads (`Quantity`), the stress-to-virial step, and the record `Units`. `Units` holds the engine's
  unit collaborators as uninterpreted functions.
- `finite_temp.dfy`: the driver itself.

The foreign pieces are `unit_to_user`, `unit_to_internal`, `det_ut3x3` and `RascalCalc.calculate`. They enter as
function-valued parameters: nothing is assumed about them beyond being functions. So the contracts pin down which
conversion is applied to which quantity, with which family and unit name, where the sign flips, and which cell feeds the
determinant.

Modelling choices that follow the code:

- A wrong argument count calls `sys.exit(self.error_msg)` (`drivers/py/pes/finite_temp.py`, lines 47-48). This is modelled
  as `UsageExit`.
- The usage message shows a six-field example that includes `is_volume`. The code accepts exactly five fields, and the
  model follows the code.
- `det_ut3x3` and the unit conversions are uninterpreted (see Left out), so neither a volume formula nor a round trip is
  asserted.

## Model

| member | source | states |
|---|---|---|
| Splitting.Split | drivers/py/pes/finite_temp.py:37 | The argument string splits into one more token than it has commas, and no token contains a comma. |
| Splitting.JoinSplit | drivers/py/pes/finite_temp.py:37 | Splitting loses nothing: re-joining the tokens with commas gives back the original string. Tokens are not trimmed and empty tokens are kept. |
| Splitting.SplitJoin | drivers/py/pes/finite_temp.py:37 | For any non-empty list of comma-free tokens, joining with commas and splitting again gives back the same list. |
| FiniteTemp.ParseArgs | drivers/py/pes/finite_temp.py:37-48 | Parsing succeeds if and only if the string has exactly four commas. On success the five fields are the tokens in the order model, template, xdos, temperature, nelectrons. Every other count fails with the usage exit. |
| FiniteTemp.ParseFormat | drivers/py/pes/finite_temp.py:41-46 | Any five comma-free fields, written as an argument string, parse back to exactly those fields. |
| FiniteTemp.FormatParse | drivers/py/pes/finite_temp.py:37-46 | Every accepted string is reproduced exactly by its parsed fields. Nothing is trimmed or dropped. |
| FiniteTemp.TrailingEmptyFieldAccepted | drivers/py/pes/finite_temp.py:41-46 | `a,b,c,d,` is accepted, and its last field `nelectrons` is the empty string. |
| FiniteTemp.EmptyArgumentsRejected | drivers/py/pes/finite_temp.py:37-48 | The empty string is a single empty token, so it fails with the usage exit. |
| FiniteTemp.FourTokensRejected | drivers/py/pes/finite_temp.py:41-48 | A four-token string fails with the usage exit. |
| FiniteTemp.SixTokensRejected | drivers/py/pes/finite_temp.py:41-48 | A six-token string fails with the usage exit. |
| FiniteTemp.CheckArguments | drivers/py/pes/finite_temp.py:36-50 | An absent argument string fails when it is split. Otherwise a driver is built if and only if the string has exactly four commas; every other string gives the usage exit. On success the driver keeps the argument string, its fields are the five tokens in the order model, template, xdos, temperature, nelectrons, and the calculator receives token 0, the constant True, tokens 2 and 3, then token 1 (template), then token 4. |
| FiniteTemp.Construct | drivers/py/pes/finite_temp.py:9-28 | If the binding is missing, construction fails with the import error whatever the arguments are, even absent ones. So the gate comes before any argument handling. Construction succeeds if and only if the binding is loaded and the arguments have exactly four commas. A successful driver holds the five tokens in order as its fields and builds the calculator as token 0, True, token 2, token 3, token 1, token 4. |
| FiniteTemp.ConstructFormatted | drivers/py/pes/finite_temp.py:41-50 | With the binding loaded, any five comma-free fields written as an argument string build a driver that holds those fields and the matching calculator call. |
| Units.StressToVirial | drivers/py/pes/finite_temp.py:60-61 | The virial has the same shape as the stress. Each entry is the negated stress entry times the volume. A zero stress gives a zero virial whatever the volume. |
| Units.StressVirialExample | drivers/py/pes/finite_temp.py:61 | A stress of 2 in a cell of volume 100 gives the virial -200. |
| FiniteTemp.Evaluate | drivers/py/pes/finite_temp.py:52-64 | The calculator gets the positions and cell converted as lengths to angstrom. Potential is converted back as electronvolt energy and force as ev/ang force. The virial is the negated stress times det_ut3x3 of the ångström cell, converted as an electronvolt energy. Extras are always empty. A calculator failure is passed on unchanged. |
| FiniteTemp.EvaluateCallsOnce | drivers/py/pes/finite_temp.py:54-57 | The result depends on the calculator only through its one answer for the converted positions and cell. Two calculators that agree there give the same result. |
| FiniteTemp.ExtrasDiscarded | drivers/py/pes/finite_temp.py:57-64 | Two calculators that agree on potential, force and stress give the same result, whatever extras they return, even extras of different types. |
| FiniteTemp.EndToEndStub | drivers/py/pes/finite_temp.py:52-64 | A stub calculator reports 1 eV, zero force, zero stress and some extras. On it, any driver and cell give the internal value of 1 eV, the internal value of the zero force, the internal value of a zero virial, and empty extras. |

## Left out

- The bodies of `unit_to_user`, `unit_to_internal` and `det_ut3x3`: they live in `ipi/utils/units.py` and `ipi/utils/mathtools.py`, which are not part of this model. They are uninterpreted parameters, and neither unit round trips nor a diagonal-product volume are asserted. Failure on an unknown unit is not modelled, because the driver only names registered units.
- librascal's `FiniteTCalculator`: its loading of the model, template and DOS weights is foreign physics. The handle is represented by the six positional arguments it was built with, and `calculate` is an uninterpreted parameter that may fail. Failures raised by the constructor itself are not modelled.
- Calculator state and geometry failures: `calculate` is modelled as a pure function of the constructor arguments, positions and cell, although the real `base_calc` object may keep state between calls. A failure of `det_ut3x3` (for example on a cell that is not 3×3) is not modelled either.
- `Dummy_driver.__init__` (`drivers/py/pes/dummy.py`) is not part of this model. The model assumes it stores `args` and runs `check_arguments`, which is how `super().__init__(args)` at line 28 reaches the parser.
- The `except ValueError` branch at lines 38-39 is dead code, because `str.split` does not raise `ValueError`. An absent (`None`) argument string raises `AttributeError` instead, modelled as `NoArguments`.
- Message texts (`error_msg`, the `ImportError` text) are not modelled. Only which failure occurs is modelled. The six-field usage example at line 26 disagrees with the five-field check at line 41, and the model follows the check.
- Tokens are passed to the calculator as strings. Turning `temperature` and `nelectrons` into numbers is the calculator's business.
- `sys.exit` and the Python import machinery become `Result` failures. Floating point is abstracted to `real`, and numpy arrays to flattened sequences of reals.
- `ipi/inputs/motion/nm.py`: it is a declarative input schema built on an input framework that is not part of this model. It contains no logic of its own to prove.
