# Package sorting function — a verified model

The repository is one function, `sort(width, height, length, mass)`. It sends a
package to one of three stacks:

- `STANDARD`: the package is neither bulky nor heavy.
- `SPECIAL`: the package is bulky or heavy, but not both.
- `REJECTED`: the package is both bulky and heavy.

Before it classifies, `sort` validates its four arguments in the order width,
height, length, mass. For each argument it first checks that it is a number,
then that it is not negative. It raises `TypeError` or `ValueError` for the
first argument that fails, and the error names that parameter.

A package is bulky when its volume `width * height * length` is at least
1,000,000 cm³, or when any one dimension is at least 150 cm. It is heavy when
its mass is at least 20 kg. Every threshold is inclusive.

This project models that function as pure Dafny functions over exact `real`
numbers, and proves the properties its docstring and test suite state.

- `package.dfy` (module `Package`): the parameters, the argument type
  `Arg = Num(real) | NonNum(typeName)`, the three stacks, their text labels,
  and a severity ranking of the stacks.
- `sort.dfy` (module `Sorter`): the check of one argument, the validation
  loop `FirstViolation`, the bulky and heavy conditions, the dispatch
  `Classify`, and `Sort` itself. `Sort` returns
  `Ok(category) | TypeErr(param) | ValueErr(param)`.
- `sort_properties.dfy` (module `SortProperties`): lemmas for validation
  order, dispatch, inclusive thresholds, symmetry and monotonicity.
- `sort_examples.dfy` (module `SortExamples`): the cases of the test suite,
  stated as lemmas about the model.

Python ints and floats both become `Num`, measured exactly. Any other value
becomes `NonNum`, carrying only the name of its type.

## Model

| member | source | states |
|---|---|---|
| Package.Valid | sort.py:32-35 | Definition: an argument passes validation when it is a number and not below zero. |
| Package.ParamName | sort.py:30-31 | Definition: the names "width", "height", "length" and "mass" that errors report. |
| Package.Label | sort.py:46-50 | Definition: the texts "STANDARD", "SPECIAL" and "REJECTED". |
| Sorter.VolumeLimit | sort.py:40 | Definition: the volume limit, 1,000,000. |
| Sorter.DimensionLimit | sort.py:41 | Definition: the single-dimension limit, 150. |
| Sorter.MassLimit | sort.py:43 | Definition: the mass limit, 20. |
| Sorter.Fields | sort.py:30-31 | The list has four fields, and the field at each parameter's position pairs that parameter with its argument. |
| Sorter.EarlierValid | sort.py:30-35 | Definition: every parameter validated before p received a valid argument. |
| Sorter.Volume | sort.py:38 | Non-negative dimensions give a non-negative volume. A zero dimension gives a zero volume. |
| Sorter.IsBulky | sort.py:40-42 | Definition: the volume is at least 1,000,000, or some dimension is at least 150. Its contract restates this through the largest dimension: bulky iff the volume reaches the limit or the largest dimension reaches 150. |
| Sorter.IsHeavy | sort.py:43 | Definition: the mass is at least 20. |
| Sorter.Check | sort.py:32-35 | One argument is refused exactly when it is invalid. The type is checked first: a non-number is always a type violation. Only a number can be a sign violation, and only when it is below zero. The violation names the argument's own parameter. |
| Sorter.FirstViolation | sort.py:30-35 | The loop finds no violation exactly when every argument is valid. Any violation it finds belongs to some argument, every argument before that one being valid. |
| Sorter.Classify | sort.py:38-50 | The result is REJECTED iff the package is bulky and heavy, SPECIAL iff exactly one of the two holds, and STANDARD iff neither holds. |
| Sorter.Sort | sort.py:12-50 | The result is a stack exactly when all four arguments are non-negative numbers. A TypeError names a parameter whose argument is not a number. A ValueError names a parameter whose argument is a negative number. In both cases, every parameter before the named one is valid. |
| Sorter.SortLabel | sort.py:46-50 | A text is returned exactly when `Sort` succeeds, and that text parses back to the chosen stack. |
| Package.LabelRoundTrip | sort.py:46-50 | Parsing a stack's label gives back the same stack. |
| Package.LabelInjective | sort.py:46-50 | Two stacks have the same label only when they are the same stack. |
| Package.ParamNameRoundTrip | sort.py:30-31 | Parsing the name an error reports gives back the parameter it names. |
| SortProperties.FirstFailureDecides | sort.py:30-35 | Suppose every field before position i is valid and field i fails. Then the loop reports field i's violation, whatever comes after it. |
| SortProperties.SortFailsAt | sort.py:30-35 | Suppose p is invalid and every earlier parameter is valid. Then `Sort` reports p: a TypeError if p's argument is not a number, and a ValueError if it is a number. |
| SortProperties.TypeErrIff | sort.py:30-33 | `Sort` raises a TypeError naming p iff p's argument is not a number and every earlier parameter is valid. |
| SortProperties.ValueErrIff | sort.py:30-35 | `Sort` raises a ValueError naming p iff p's argument is a negative number and every earlier parameter is valid. A negative value is never coerced into a result. |
| SortProperties.FirstFailureWins | sort.py:30-35 | Once `Sort` fails on p, changing the arguments of later parameters leaves the outcome unchanged. |
| SortProperties.SortTotal | sort.py:38-50 | Four non-negative numbers always give a stack, namely the classification of those measurements. |
| SortProperties.SeverityCountsConditions | sort.py:40-50 | The chosen stack's severity (0, 1 or 2) equals the number of conditions, bulky and heavy, that the package meets. |
| SortProperties.ThresholdsInclusive | sort.py:40-43 | A volume of exactly 1,000,000 makes the package bulky, and so does any dimension of exactly 150. A mass of exactly 20 makes it heavy. |
| SortProperties.FlatPackageStillBulky | sort.py:40-42 | With width at least 150 and the other two dimensions zero, the volume is 0, yet the package is bulky and goes to SPECIAL. |
| SortProperties.BelowThresholdsIsStandard | sort.py:38-50 | A volume below 1,000,000, every dimension below 150 and a mass below 20 give STANDARD. |
| SortProperties.ClassifySymmetric | sort.py:38-42 | Rotating the three dimensions, or swapping the first two, gives the same stack. Together these generate every permutation. |
| SortProperties.SortSymmetric | sort.py:30-42 | Permuting the dimension arguments does not change whether `sort` succeeds. When it does succeed, the permutation does not change the stack. |
| SortProperties.VolumeMonotone | sort.py:38 | Over non-negative dimensions, growing the dimensions never shrinks the volume. |
| SortProperties.ClassifyMonotone | sort.py:38-43 | Over non-negative inputs, growing any measurement keeps a bulky package bulky and a heavy package heavy, so the stack's severity never drops. |
| SortProperties.SortMonotone | sort.py:38-50 | Growing the measurements of a valid package keeps REJECTED as REJECTED. A package off STANDARD never goes back to it. |
| SortExamples.CoreRoutingCases | test_sort.py:21-36 | One clean case per stack gives the expected stack. |
| SortExamples.BulkyCases | test_sort.py:42-72 | Bulky by volume and by each single dimension, at, just above and just below the limits. |
| SortExamples.HeavyCases | test_sort.py:78-86 | Mass at 20, at 19.99 and at 100. |
| SortExamples.BoundaryAndCombinedCases | test_sort.py:92-136 | The four corners of the bulky/heavy space, and combined triggers. |
| SortExamples.EdgeCases | test_sort.py:142-174 | Zero, very large and fractional measurements, including a volume of exactly 1,000,000 and one of 999,920. |
| SortExamples.ErrorCases | test_sort.py:180-207 | Each negative argument gives a ValueError for its parameter. A string, a list and None each give a TypeError for theirs. |
| SortExamples.EarlierParameterWins | sort.py:30-35 | A negative width is reported ahead of a non-numeric height. A non-numeric width is reported ahead of a negative height. |
| SortExamples.LabelCases | test_sort.py:24-36 | The returned texts are "STANDARD", "SPECIAL" and "REJECTED". An invalid call returns no text. |

## Left out

- IEEE-754 floating point: measurements are exact reals. Rounding, NaN and infinities are not modelled. In Python, NaN passes the `value < 0` check and fails every `>=` test. On exact reals the test suite's fractional cases give the same stacks: 100 × 100 × 100.01 is 1,000,100, 125 × 100 × 80 is 1,000,000, and 124.99 × 100 × 80 is 999,920.
- Integer overflow when converting to float: multiplying a float by a Python int too large for a float raises OverflowError at sort.py:38. The model has no such error kind; it classifies the package from the exact volume instead.
- Python's `bool` is a subclass of `int`, so `sort` accepts `True` and `False` as 1 and 0. Here they are simply `Num` values.
- Error message text: the model keeps the kind of error and the parameter it names. It drops the message, which includes the value's type name or the value itself.
- The test suite is not modelled as executable code. Its cases appear as lemmas in `sort_examples.dfy`.
