# TwoD fakers

A model of the two-dimensional series fakers of `fakers/TwoD.py`. A faker is
built from a sequence of timestamps and an optional column name. It resolves
its column name once, at construction: an explicit override wins; otherwise
the concept's short name is used; otherwise the decimal numeral of the concept
id. `simulate` returns a table built from the dict
`{'timestamp': ts, colname: vals}`, with one drawn value per timestamp. Two
variants exist. `Lactate` has concept 3047181 "lactate" and draws from a
standard log-normal. `HeartRate` has concept 4239408 "hrate" and draws from a
normal of mean 90 and deviation 15.

Files:
- `wrappers.dfy`: `Option`, for Python's `None`-or-value.
- `faker.dfy`: the `ConceptKeys` record (id, short name, fully specified name).
- `decimal.dfy`: the decimal numeral `str` writes for an int, and a reference parser for canonical numerals. The two are proved mutually inverse.
- `two_d.dfy`: the variants, the column-name rule, the dict of columns, and the `TwoD` class with its constructor and `Simulate`.

Random draws are a parameter. `draw(law, i)` is the i-th value of the random
stream for the law `law`. The class's `Simulate` is a function of the object's
state and that stream.

## Model

| member | source | states |
|---|---|---|
| `Fakers.ResolveColname` | fakers/TwoD.py:32-40 | an explicit override is the name whatever the keys; with no override, a present short name is the name; otherwise the name is the numeral that parses back to the concept id |
| `Fakers.ResolveIdempotent` | fakers/TwoD.py:35-36 | resolving again with the resolved name as the override returns that name unchanged |
| `Fakers.FallbackNotTimestamp` | fakers/TwoD.py:39-40 | a name taken from the concept id is never "timestamp", so it cannot collide with the timestamp column |
| `Fakers.FallbackInjective` | fakers/TwoD.py:39-40 | two concepts without short names get the same default name only if their ids are equal |
| `Fakers.DefaultColumnName` | fakers/TwoD.py:43-60 | with no override the column is "lactate" for `Lactate` and "hrate" for `HeartRate`, neither of which is "timestamp" |
| `Fakers.Variant.Keys` | fakers/TwoD.py:45-60 | each variant's concept keys carry a positive id, a short name and a fully specified name |
| `Fakers.Variant.Law` | fakers/TwoD.py:50-65 | `Lactate` maps to LogNormal(0, 1) and `HeartRate` to Normal(90, 15); the contract states only that each law has a positive spread |
| `Fakers.Draws` | fakers/TwoD.py:52 | exactly one value per timestamp, the i-th being the i-th draw from the law |
| `Fakers.FromDict` | fakers/TwoD.py:53 | the dict literal's keys are "timestamp" and the name; the name maps to the values; the timestamps survive only when the name is not "timestamp" |
| `Fakers.FromDictTwoColumns` | fakers/TwoD.py:53 | the table has two columns if and only if the name is not "timestamp"; otherwise the single "timestamp" column holds the values |
| `Fakers.TwoD.constructor` | fakers/TwoD.py:15-19 | stores the value of `ts` unchanged (as a value, not a reference) and stores the resolution of the `colname` argument; re-running the resolution on the new object returns the stored name |
| `Fakers.TwoD.GenColname` | fakers/TwoD.py:32-36 | on an object whose name is set, `_gen_colname` returns that name |
| `Fakers.TwoD.Simulate` | fakers/TwoD.py:50-65 | the keys are "timestamp" and the resolved name; every column has one entry per timestamp; the value column holds the variant's draws in order; the timestamp column is `ts` in order when the name is not "timestamp" |
| `Fakers.TwoD.SimulateIgnoresCadence` | fakers/TwoD.py:50-65 | the table does not depend on `cadence` |
| `Fakers.TwoD.DefaultHasTwoColumns` | fakers/TwoD.py:43-65 | a faker built without an override yields exactly two columns, the timestamp column being `ts` |
| `Decimal.DecimalString` | fakers/TwoD.py:40 | `str(concept_id)` is a canonical numeral: digits with no leading zero, or '-' and such digits for a negative id |
| `Decimal.NatDigits` | fakers/TwoD.py:40 | the numeral of a natural number is all digits, and starts with '0' only for zero |
| `Decimal.DecimalRoundTrip` | fakers/TwoD.py:40 | parsing the numeral of any integer gives back that integer |
| `Decimal.DecimalStringParse` | fakers/TwoD.py:40 | every canonical numeral is the numeral of the integer it denotes |
| `Decimal.DecimalStringInjective` | fakers/TwoD.py:40 | distinct integers have distinct numerals |

## Left out

- The random draws (`np.random.lognormal()`, `np.random.normal(90, 15)`) are floating-point sampling. They are a parameter of `Simulate`. Positivity and finiteness of the values are not modelled.
- `pd.DataFrame.from_dict` is a foreign library. Only the dict of columns passed to it is modelled, as a map from column name to column. Column order is not modelled.
- The `ConceptKeys` definition lives in a module that is not part of this model. Only its three fields are modelled.
- The abstract-base machinery (`ABC`, `abstractproperty`) is replaced by a datatype of variants with a `Keys` function.
- The column-name override is modelled as a string. Python would accept any object there.
- The target-table and not-null-columns accessors are not in `fakers/TwoD.py`, so they are not part of this model.
- Resampling by `cadence` is not implemented in the source. The parameter is accepted and ignored.
- The commented-out usage example at the end of the file is not modelled.
- Faker.ConceptKeys: `conceptId` is an `int`, so it is always present, as the docstring at `fakers/TwoD.py:25` asks. The source does not check this. `ConceptKeys` is a named tuple, and with a `None` id the fallback `str(None)` would give the name `"None"`. The model cannot express that case.
- Fakers.ResolveColname: for the same reason, a `None` concept id, and the name `"None"` it would give, is not modelled.
- Decimal.DecimalString: never fails. Python 3.11 and later, and the 2022 security releases of 3.7 to 3.10, raise `ValueError` in `str()` for an int of more than 4300 digits. For such an id the source raises at `fakers/TwoD.py:40`, inside `__init__`, while the model returns a name.
- Fakers.TwoD.constructor: stores `ts` as a sequence value. Python keeps a reference to the caller's object (`fakers/TwoD.py:17`), and `simulate` reads it only when called. A list changed in place after construction would change the table in the source but not in the model.
- Fakers.TwoD.Simulate: takes the random stream `draw` as given. It does not advance numpy's global generator, so two calls with the same `draw` give the same values, where two calls in the source draw fresh values.
