# physics163 utility layer in Dafny

A model of the utility layer that the physics163 simulations are built on:

- the SI-prefix enum and its exponent detection (`util/math/Unit.py`, `util/math/Misc.py`);
- prefix scaling and its 21 helpers, in both copies (`util/math/Convert.py`, `helper/Convert.py`);
- the mutable three-component `Vector` (`util/math/Vector.py`);
- the drawable, labelable `PhysicalObject` and its one concrete kind, `Sphere` (`util/object/PhysicalObject.py`, `util/object/Sphere.py`);
- the `Simulation` base class: sim data, configuration, graph registry and main loop (`helper/Simulation.py`).

| file | module | what it holds |
|---|---|---|
| `wrappers.dfy` | `Wrappers` | `Option`, `Result`, `Outcome` (a raised exception is a `Failure`/`Fail` value) |
| `misc.dfy` | `Misc` | `Power`, the floor-of-logarithm exponent and its laws |
| `units.dfy` | `Units` | the prefix enum, its values and exponents, `DetermineUnit` |
| `convert.dfy` | `Convert` | `ScaleNumber`, the `To*` helpers, and conversion laws proved about `Scaled` |
| `helper_convert.dfy` | `HelperConvert` | the second copy, proved equal to the first |
| `vector.dfy` | `Vectors` | the `Vec3` value, the law functions, and the `Vector` class that updates itself in place |
| `physical_object.dfy` | `PhysicalObjects` | the `Sphere` class with its drawing and label state |
| `simulation.dfy` | `Simulations` | the `Simulation` class, graph records and the main loop |

Arithmetic is exact over the reals.

- Conversions are specified by `Convert.Scaled(n, u, w) = n * value(u) / value(w)`. The laws proved about it are: the quantity is kept, the round trip is the identity, and conversions compose.
- Vector methods are proved against value functions (`Plus`, `Minus`, `Scale`, `Quotient`, and for the cross product `CrossAsWritten`/`CrossSelfAsWritten` as written, `CrossProduct` for the corrected version). They change the receiver and return it, as the source's do.
- The object and simulation methods state their new state and every error they raise. An exception is a `Fail` result. Most failing methods change nothing. `Tick` and both reset methods change state before they raise, and their contracts say how.
- Three places where the code does not do what its names and comments promise are modelled both ways (see "## Findings").

## Model

| member | source | states |
|---|---|---|
| Misc.ExtractExponentBase | src/util/math/Misc.py:9-11 | extract_exponent_base: for base at least 2 and a non-zero value, the result e brackets the magnitude, base^e <= abs(value) < base^(e+1) (the floor of the logarithm) |
| Misc.ExtractExponentCommon | src/util/math/Misc.py:5-7 | extract_exponent_common: the same bracketing with base 10 |
| Misc.ExponentUnique | src/util/math/Misc.py:9-11 | any integer bracketing abs(value) this way is the exponent, so the exponent is exactly the floor of the logarithm |
| Misc.ExponentOfPower | src/util/math/Misc.py:9-11 | the exponent of base^k is k |
| Misc.ExponentMonotone | src/util/math/Misc.py:9-11 | a larger magnitude never has a smaller exponent |
| Misc.ExponentIgnoresSign | src/util/math/Misc.py:9-11 | the exponent of -v equals that of v, because only the absolute value counts |
| Units.Value | src/util/math/Unit.py:10-30 | every prefix's value is positive |
| Units.UnitWithExponent | src/util/math/Unit.py:10-30 | a prefix found for an exponent has that exponent |
| Units.PositivePowersOfTen | src/util/math/Unit.py:10-19 | the literals YOTTA to DEKA are exactly 10^24 down to 10^1 |
| Units.NegativePowersOfTen | src/util/math/Unit.py:21-30 | the literals DECI to YOCTO are exactly 10^-1 down to 10^-24 |
| Units.ValueIsPowerOfTen | src/util/math/Unit.py:10-30 | every prefix's value is ten to that prefix's exponent |
| Units.ExponentOfValue | src/util/math/Unit.py:40 | the floor-log exponent of each prefix's value is that prefix's exponent |
| Units.UnitWithExponentOf | src/util/math/Unit.py:10-30 | looking up a prefix's exponent gives the prefix back |
| Units.ExponentInjective | src/util/math/Unit.py:10-30 | two prefixes with equal exponents are the same prefix |
| Units.ValuesDistinct | src/util/math/Unit.py:10-30 | distinct prefixes have distinct values, so no enum member is an alias of another |
| Units.AllUnitsComplete | src/util/math/Unit.py:39 | iterating over the enum visits every prefix |
| Units.FindUnit | src/util/math/Unit.py:39-45 | the search loop returns None iff no listed prefix has the exponent; otherwise it returns a listed prefix with that exponent, and no earlier prefix has it |
| Units.FindUnitComplete | src/util/math/Unit.py:39-45 | searching any list that holds every prefix returns exactly the prefix with that exponent |
| Units.FindUnitInAllUnits | src/util/math/Unit.py:39-45 | searching in declaration order returns exactly the prefix with that exponent |
| Units.DetermineUnit | src/util/math/Unit.py:33-45 | determine_unit returns the prefix whose exponent is the floor-log exponent of the value, or None when no prefix has it |
| Units.DetermineUnitOfValue | src/util/math/Unit.py:33-45 | determine_unit recognises the value of every prefix |
| Units.DetermineUnitOfGap | src/util/math/Unit.py:33-45 | a power of ten with no prefix, such as 10^4 or 10^-4, is not recognised: the result is None |
| Convert.InBaseUnits | src/util/math/Convert.py:34-36 | bringing a number to base units multiplies it by its prefix's value; skipping the multiplication for BASE changes nothing |
| Convert.TimesReciprocal | src/util/math/Convert.py:49-51 | multiplying by the reciprocal of the prefix's value is dividing by that value |
| Convert.FromBase | src/util/math/Convert.py:38-51 | each of the three branches (BASE, positive exponent, negative exponent) divides the base-unit number by the desired prefix's value |
| Convert.ScaleFrom | src/util/math/Convert.py:34-51 | the result is Scaled(number, original, desired): the same quantity expressed in the desired prefix |
| Convert.ScaleNumber | src/util/math/Convert.py:8-51 | scale_number is Scaled(number, original, desired), with a None original read as BASE |
| Convert.ScaleToBase | src/util/math/Convert.py:38-40 | scaling into BASE gives the number times its original prefix's value |
| Convert.ScaleDefaults | src/util/math/Convert.py:8 | with both defaults (BASE to BASE) the number comes back unchanged |
| Convert.ScaleNoneIsBase | src/util/math/Convert.py:30-32 | a None original unit gives the same result as BASE |
| Convert.ScaledPreservesQuantity | src/util/math/Convert.py:8-51 | the converted number times the desired prefix's value equals the number times the original prefix's value |
| Convert.ScaledRoundTrip | src/util/math/Convert.py:8-51 | converting from u to w and back to u gives the original number |
| Convert.ScaledCompose | src/util/math/Convert.py:8-51 | converting u to v and then v to w is the same as converting u to w |
| Convert.ScaledSame | src/util/math/Convert.py:8-51 | converting to the number's own prefix is the identity |
| Convert.FivePicoInKilo | src/util/math/Convert.py:24-28 | the docstring's worked example holds: 5 PICO is 5e-15 KILO |
| HelperConvert.ScaleNumber | src/helper/Convert.py:8-36 | the second scale_number is also Scaled(number, original, desired), with None read as BASE |
| HelperConvert.SameAsUtilConvert | src/helper/Convert.py:8-36 | both copies of scale_number agree on every input |
| HelperConvert.OneNanoInBase | src/helper/Convert.py:89-91 | to_base(1, NANO) is exactly 1e-9 |
| Convert.ToYotta | src/util/math/Convert.py:54-56 | to_yotta: the result in YOTTA times the YOTTA value equals the number times its original prefix's value (None read as BASE): the quantity is kept |
| Convert.ToZetta | src/util/math/Convert.py:59-61 | to_zetta: the result in ZETTA times the ZETTA value equals the number times its original prefix's value (None read as BASE): the quantity is kept |
| Convert.ToExa | src/util/math/Convert.py:64-66 | to_exa: the result in EXA times the EXA value equals the number times its original prefix's value (None read as BASE): the quantity is kept |
| Convert.ToPeta | src/util/math/Convert.py:69-71 | to_peta: the result in PETA times the PETA value equals the number times its original prefix's value (None read as BASE): the quantity is kept |
| Convert.ToTera | src/util/math/Convert.py:74-76 | to_tera: the result in TERA times the TERA value equals the number times its original prefix's value (None read as BASE): the quantity is kept |
| Convert.ToGiga | src/util/math/Convert.py:79-81 | to_giga: the result in GIGA times the GIGA value equals the number times its original prefix's value (None read as BASE): the quantity is kept |
| Convert.ToMega | src/util/math/Convert.py:84-86 | to_mega: the result in MEGA times the MEGA value equals the number times its original prefix's value (None read as BASE): the quantity is kept |
| Convert.ToKilo | src/util/math/Convert.py:89-91 | to_kilo: the result in KILO times the KILO value equals the number times its original prefix's value (None read as BASE): the quantity is kept |
| Convert.ToHecto | src/util/math/Convert.py:94-96 | to_hecto: the result in HECTO times the HECTO value equals the number times its original prefix's value (None read as BASE): the quantity is kept |
| Convert.ToDeka | src/util/math/Convert.py:99-101 | to_deka: the result in DEKA times the DEKA value equals the number times its original prefix's value (None read as BASE): the quantity is kept |
| Convert.ToBase | src/util/math/Convert.py:104-106 | to_base: the result in BASE times the BASE value equals the number times its original prefix's value (None read as BASE): the quantity is kept |
| Convert.ToDeci | src/util/math/Convert.py:109-111 | to_deci: the result in DECI times the DECI value equals the number times its original prefix's value (None read as BASE): the quantity is kept |
| Convert.ToCenti | src/util/math/Convert.py:114-116 | to_centi: the result in CENTI times the CENTI value equals the number times its original prefix's value (None read as BASE): the quantity is kept |
| Convert.ToMilli | src/util/math/Convert.py:119-121 | to_milli: the result in MILLI times the MILLI value equals the number times its original prefix's value (None read as BASE): the quantity is kept |
| Convert.ToMicro | src/util/math/Convert.py:124-126 | to_micro: the result in MICRO times the MICRO value equals the number times its original prefix's value (None read as BASE): the quantity is kept |
| Convert.ToNano | src/util/math/Convert.py:129-131 | to_nano: the result in NANO times the NANO value equals the number times its original prefix's value (None read as BASE): the quantity is kept |
| Convert.ToPico | src/util/math/Convert.py:134-136 | to_pico: the result in PICO times the PICO value equals the number times its original prefix's value (None read as BASE): the quantity is kept |
| Convert.ToFemto | src/util/math/Convert.py:139-141 | to_femto: the result in FEMTO times the FEMTO value equals the number times its original prefix's value (None read as BASE): the quantity is kept |
| Convert.ToAtto | src/util/math/Convert.py:144-146 | to_atto: the result in ATTO times the ATTO value equals the number times its original prefix's value (None read as BASE): the quantity is kept |
| Convert.ToZepto | src/util/math/Convert.py:149-151 | to_zepto: the result in ZEPTO times the ZEPTO value equals the number times its original prefix's value (None read as BASE): the quantity is kept |
| Convert.ToYocto | src/util/math/Convert.py:154-156 | to_yocto: the result in YOCTO times the YOCTO value equals the number times its original prefix's value (None read as BASE): the quantity is kept |
| HelperConvert.ToYotta | src/helper/Convert.py:39-41 | to_yotta: the result in YOTTA times the YOTTA value equals the number times its original prefix's value (None read as BASE): the quantity is kept |
| HelperConvert.ToZetta | src/helper/Convert.py:44-46 | to_zetta: the result in ZETTA times the ZETTA value equals the number times its original prefix's value (None read as BASE): the quantity is kept |
| HelperConvert.ToExa | src/helper/Convert.py:49-51 | to_exa: the result in EXA times the EXA value equals the number times its original prefix's value (None read as BASE): the quantity is kept |
| HelperConvert.ToPeta | src/helper/Convert.py:54-56 | to_peta: the result in PETA times the PETA value equals the number times its original prefix's value (None read as BASE): the quantity is kept |
| HelperConvert.ToTera | src/helper/Convert.py:59-61 | to_tera: the result in TERA times the TERA value equals the number times its original prefix's value (None read as BASE): the quantity is kept |
| HelperConvert.ToGiga | src/helper/Convert.py:64-66 | to_giga: the result in GIGA times the GIGA value equals the number times its original prefix's value (None read as BASE): the quantity is kept |
| HelperConvert.ToMega | src/helper/Convert.py:69-71 | to_mega: the result in MEGA times the MEGA value equals the number times its original prefix's value (None read as BASE): the quantity is kept |
| HelperConvert.ToKilo | src/helper/Convert.py:74-76 | to_kilo: the result in KILO times the KILO value equals the number times its original prefix's value (None read as BASE): the quantity is kept |
| HelperConvert.ToHecto | src/helper/Convert.py:79-81 | to_hecto: the result in HECTO times the HECTO value equals the number times its original prefix's value (None read as BASE): the quantity is kept |
| HelperConvert.ToDeka | src/helper/Convert.py:84-86 | to_deka: the result in DEKA times the DEKA value equals the number times its original prefix's value (None read as BASE): the quantity is kept |
| HelperConvert.ToBase | src/helper/Convert.py:89-91 | to_base: the result in BASE times the BASE value equals the number times its original prefix's value (None read as BASE): the quantity is kept |
| HelperConvert.ToDeci | src/helper/Convert.py:94-96 | to_deci: the result in DECI times the DECI value equals the number times its original prefix's value (None read as BASE): the quantity is kept |
| HelperConvert.ToCenti | src/helper/Convert.py:99-101 | to_centi: the result in CENTI times the CENTI value equals the number times its original prefix's value (None read as BASE): the quantity is kept |
| HelperConvert.ToMilli | src/helper/Convert.py:104-106 | to_milli: the result in MILLI times the MILLI value equals the number times its original prefix's value (None read as BASE): the quantity is kept |
| HelperConvert.ToMicro | src/helper/Convert.py:109-111 | to_micro: the result in MICRO times the MICRO value equals the number times its original prefix's value (None read as BASE): the quantity is kept |
| HelperConvert.ToNano | src/helper/Convert.py:114-116 | to_nano: the result in NANO times the NANO value equals the number times its original prefix's value (None read as BASE): the quantity is kept |
| HelperConvert.ToPico | src/helper/Convert.py:119-121 | to_pico: the result in PICO times the PICO value equals the number times its original prefix's value (None read as BASE): the quantity is kept |
| HelperConvert.ToFemto | src/helper/Convert.py:124-126 | to_femto: the result in FEMTO times the FEMTO value equals the number times its original prefix's value (None read as BASE): the quantity is kept |
| HelperConvert.ToAtto | src/helper/Convert.py:129-131 | to_atto: the result in ATTO times the ATTO value equals the number times its original prefix's value (None read as BASE): the quantity is kept |
| HelperConvert.ToZepto | src/helper/Convert.py:134-136 | to_zepto: the result in ZEPTO times the ZEPTO value equals the number times its original prefix's value (None read as BASE): the quantity is kept |
| HelperConvert.ToYocto | src/helper/Convert.py:139-141 | to_yocto: the result in YOCTO times the YOCTO value equals the number times its original prefix's value (None read as BASE): the quantity is kept |
| Vectors.SubtractUndoesAdd | src/util/math/Vector.py:17-37 | subtracting b after adding b gives back the original, and so does adding b after subtracting it |
| Vectors.DivideUndoesMultiply | src/util/math/Vector.py:39-59 | dividing by a non-zero factor undoes multiplying by it |
| Vectors.DotSymmetric | src/util/math/Vector.py:61-63 | the dot product of two values is symmetric |
| Vectors.CrossProductPerpendicular | src/util/math/Vector.py:65-66 | the textbook cross product that `cross` is named for is perpendicular to both arguments |
| Vectors.CrossProductAntisymmetric | src/util/math/Vector.py:65-66 | the textbook cross product changes sign when its arguments are swapped |
| Vectors.CrossAsWrittenCounterexample | src/util/math/Vector.py:65-70 | as written, `cross` of the x and y unit vectors gives (-1, -1, -2) where the cross product is (0, 0, 1), and that result is not perpendicular to x |
| Vectors.Vector.constructor | src/util/math/Vector.py:12-15 | the new vector holds the given components, which default to 0 |
| Vectors.Vector.Add | src/util/math/Vector.py:17-26 | add: the receiver becomes the old receiver plus the old argument and is returned; a distinct argument is unchanged |
| Vectors.Vector.Subtract | src/util/math/Vector.py:28-37 | subtract: the receiver becomes the old receiver minus the old argument and is returned; a distinct argument is unchanged |
| Vectors.Vector.Multiply | src/util/math/Vector.py:39-48 | multiply: every component is scaled by the factor; the receiver is returned |
| Vectors.Vector.Divide | src/util/math/Vector.py:50-59 | divide: a zero divisor raises before any component is written; otherwise every component is divided and the receiver is returned |
| Vectors.Vector.Cross | src/util/math/Vector.py:65-70 | cross as written: the new value is CrossAsWritten(old receiver, old argument), or CrossSelfAsWritten when the argument is the receiver; a distinct argument is unchanged |
| Vectors.Vector.CrossCorrected | src/util/math/Vector.py:65-70 | cross as intended: the new value is the textbook cross product of the old values |
| Vectors.Vector.Hat | src/util/math/Vector.py:92-103 | hat, given a non-negative `mag` that is zero exactly for the zero vector: it fails iff the vector is zero, and leaves the vector unchanged when it does; otherwise every component is divided by `mag` (that `mag` is the length, and hence unit length afterwards, is not required; see Left out) |
| Vectors.Vector.Zero | src/util/math/Vector.py:105-110 | zero: the receiver becomes the origin and is returned |
| Vectors.Vector.SetX | src/util/math/Vector.py:112-115 | set_x: x is replaced, y and z are kept |
| Vectors.Vector.SetY | src/util/math/Vector.py:117-120 | set_y: y is replaced, x and z are kept |
| Vectors.Vector.SetZ | src/util/math/Vector.py:122-125 | set_z: z is replaced, x and y are kept |
| Vectors.Vector.Dot | src/util/math/Vector.py:61-63 | dot: the dot product of the two current values; neither vector changes |
| Vectors.Vector.MagSquared | src/util/math/Vector.py:76-78 | magSquared: the dot product of the value with itself, the exact square of the square-root length |
| Vectors.Vector.ScalarDistSquared | src/util/math/Vector.py:84-86 | scalarDistSquared: the dot product of the difference of the two values with itself |
| Vectors.Vector.Clone | src/util/math/Vector.py:127-129 | clone: a fresh vector with the same value |
| Vectors.Vector.Dist | src/util/math/Vector.py:88-90 | dist: a fresh vector holding this minus other, through clone and subtract, so neither input changes |
| Vectors.VectorDotSymmetric | src/util/math/Vector.py:61-63 | a.dot(b) equals b.dot(a), and both are the dot product of the two values |
| Vectors.DotSelfIsMagSquared | src/util/math/Vector.py:61-63 | a.dot(a) is the squared magnitude of a |
| Vectors.DistSquaredIsMagSquaredOfDist | src/util/math/Vector.py:84-90 | the squared scalar distance is the squared magnitude of the difference vector |
| Vectors.AddToItself | src/util/math/Vector.py:17-26 | v.add(v) doubles v, because the argument aliases the receiver |
| Vectors.AddThenSubtract | src/util/math/Vector.py:17-37 | v.add(w).subtract(w) with w distinct from v restores v and leaves w unchanged |
| PhysicalObjects.Sphere.constructor | src/util/object/PhysicalObject.py:11-18 | a new object has the given mass and position, no label text or offset, and nothing drawn |
| PhysicalObjects.Sphere.SetPosition | src/util/object/PhysicalObject.py:20-21 | set_position stores the given (possibly None) position vector itself, not a copy |
| PhysicalObjects.Sphere.SetLabelText | src/util/object/PhysicalObject.py:56-57 | set_label_text stores the text |
| PhysicalObjects.Sphere.SetLabelRelativePosition | src/util/object/PhysicalObject.py:59-60 | set_label_relative_position stores the given offset vector itself |
| PhysicalObjects.Sphere.Create | src/util/object/Sphere.py:11-15 | the sphere is shown at the stored position, whatever position argument is passed; a missing position fails and nothing is drawn |
| PhysicalObjects.Sphere.Draw | src/util/object/PhysicalObject.py:34-41 | draw fails with no position, then fails if already drawn, and otherwise creates the sphere at the stored position; it succeeds iff neither guard fires; a failure changes nothing |
| PhysicalObjects.Sphere.TickObject | src/util/object/PhysicalObject.py:43-50 | ticking the object succeeds iff a position is set and the object is drawn, and moves the shown object to the stored position |
| PhysicalObjects.Sphere.DrawLabel | src/util/object/PhysicalObject.py:62-77 | draw_label checks its guards in the source's order (object drawn, label non-empty, label not yet drawn). On success the label shows the text at the position moved by the offset, and the stored position vector itself has moved by the offset |
| PhysicalObjects.Sphere.TickLabel | src/util/object/PhysicalObject.py:79-92 | ticking the label succeeds iff the position is set and both the object and the label are drawn (for an object whose label is only drawn after the object, iff the position is set and the label drawn). The label moves to the position plus the offset, which is also added into the stored position |
| PhysicalObjects.Sphere.Tick | src/util/object/PhysicalObject.py:23-32 | tick stores the new position before any check, then ticks the object and then the label. The result covers every outcome: nothing moved and the new position vector is untouched, only the object moved (label not drawn), or both moved |
| PhysicalObjects.Sphere.DrawLabelCorrected | src/util/object/PhysicalObject.py:72-77 | draw_label as intended: the same guards, and the label at position plus offset, while the stored position vector is unchanged |
| PhysicalObjects.Sphere.TickLabelCorrected | src/util/object/PhysicalObject.py:84-89 | the label tick as intended: the label moves to position plus offset and the stored position is unchanged |
| PhysicalObjects.DrawSphereTwice | src/util/object/PhysicalObject.py:38-39 | drawing a sphere twice: the first draw succeeds, the second raises "already drawn" |
| PhysicalObjects.DrawLabelTwice | src/util/object/PhysicalObject.py:69-70 | drawing a label twice: the first succeeds, the second raises "label already drawn" |
| PhysicalObjects.LabelOffsetMovesObject | src/util/object/PhysicalObject.py:72-89 | as written, a sphere at the origin with a label offset of (1, 0, 0) ends at (2, 0, 0) after draw_label and one tick at its own position |
| PhysicalObjects.LabelOffsetKeepsObjectCorrected | src/util/object/PhysicalObject.py:72-89 | with the corrected label methods the sphere stays at the origin and its label is at (1, 0, 0) |
| Simulations.NewGraph | src/helper/Simulation.py:129-137 | a new entry carries the name; each graph and curve argument is the one given or, when omitted, the source's default for it |
| Simulations.NewGraphDefaults | src/helper/Simulation.py:131-136 | an entry created from its name alone has the source's defaults: "No title", "No x title", "No y title", 800 by 240, axes from -10 to 10, black foreground, white background, black curve |
| Simulations.FindGraphByName | src/helper/Simulation.py:139-141 | the graph found is the first entry with the name; None iff no entry has that name |
| Simulations.FindUniqueEntry | src/helper/Simulation.py:139-141 | when names are unique, looking up an entry's own name finds that entry |
| Simulations.AppendKeepsNamesUnique | src/helper/Simulation.py:122-127 | appending an entry under a name not yet in use keeps the names unique |
| Simulations.Simulation.constructor | src/helper/Simulation.py:6-20 | the registry is the graph hook's result; the sim data is just an empty physical-object table; the config holds exactly auto_run, paused and log_level |
| Simulations.Simulation.GetSimData | src/helper/Simulation.py:49-51 | get_sim_data: the stored value, or None for an absent name |
| Simulations.Simulation.SetSimData | src/helper/Simulation.py:53-55 | set_sim_data: the entry now reads back the value, and every other entry is unchanged |
| Simulations.Simulation.IncrSimData | src/helper/Simulation.py:57-65 | incr_sim_data raises for a missing or None entry, and fails for a value that is not a number, changing nothing. Otherwise the entry becomes its old number plus the amount (a boolean counts as 0 or 1) |
| Simulations.Simulation.ScaleBySimData | src/helper/Simulation.py:67-70 | scale_by_sim_data succeeds iff the stored factor is a number, and then returns the target times that number; otherwise it fails with a type error |
| Simulations.Simulation.AddObject | src/helper/Simulation.py:79-82 | __add_object__ fails unless the physical-object entry is a table; otherwise the sim data is exactly the old map with that table replaced by one that gains or replaces the one name |
| Simulations.Simulation.GetConfig | src/helper/Simulation.py:183-185 | __get_config__: the configured value, or None for an absent option |
| Simulations.Simulation.CheckConfig | src/helper/Simulation.py:179-181 | check_config holds iff the option is present with that value, or absent and the value is None |
| Simulations.Simulation.SetConfig | src/helper/Simulation.py:187-192 | __set_config__ succeeds iff the option exists and is not None. It then replaces the option, so check_config holds for the new value afterwards; the other options are unchanged |
| Simulations.Simulation.CreateGraph | src/helper/Simulation.py:116-137 | __create_graph__ raises for a missing name, then for a name already in use. Otherwise it appends exactly one entry: the one to recreate, or a new one with the source's defaults. Unique names are preserved when the entry to recreate is absent or carries the requested name |
| Simulations.Simulation.ResetGraphs | src/helper/Simulation.py:91-103 | reset_graphs as written: the registry ends empty, and a non-empty registry raises "nameless graph" at its first recreation |
| Simulations.Simulation.ResetGraphsCorrected | src/helper/Simulation.py:91-103 | reset_graphs as intended, with each entry recreated under its own name: it succeeds exactly when the names are unique, and then the registry comes back identical; a duplicate name fails with DuplicateGraph, leaving a proper prefix of the old registry |
| Simulations.ResetLosesGraphs | src/helper/Simulation.py:102-103 | as written, resetting a one-graph registry raises and leaves it empty |
| Simulations.ResetKeepsGraphsCorrected | src/helper/Simulation.py:102-103 | as intended, resetting a registry of two differently named graphs succeeds and keeps both |
| Simulations.RunSimulationLoop | src/helper/Simulation.py:146-159 | run_simulation_loop runs the tick only while the sentinel holds, and stops right after the first tick that returns False. The final state is the start ticked `steps` times, and the stop reason is characterised |

## Left out

- Floating point: all arithmetic is exact over the reals. Double rounding is not modelled. For instance `log(1000, 10)` can round below 3, so the floor-log exponent of an exact power of the base can come out one lower in doubles.
- Misc.ExtractExponentBase: `requires base >= 2.0` leaves out every base below 2. Bases in (0, 1) and (1, 2), which `log` accepts, are not modelled; base 0.5 and value 8, for example, give -3 in the source. Neither are bases at most 0 or equal to 1, where the source's `log` raises. The only caller passes 10. A zero value, where `log` raises a math domain error, is excluded by `requires`; that exception is not modelled.
- Misc.ExtractExponentCommon: a zero value is excluded by `requires`; the math domain error the source raises there is not modelled.
- Units.DetermineUnit: a zero value is excluded for the same reason. The informational `print` calls are left out.
- `util/math/Unit.py` imports `Misc`, but `util/math/Misc.py` defines the class `MathHelpers`. The model takes the import to name that class.
- Convert.FromBase: the source computes the desired exponent as floor(log10(value)). The model uses the prefix's exponent, which `Units.ExponentOfValue` proves equal.
- Convert.ScaleNumber and HelperConvert.ScaleNumber: the desired unit is a `Unit`, so passing None is not modelled. For None the source fails with an AttributeError on `None.value`.
- `helper/Unit.py` is not part of this model. `HelperConvert` uses the prefix enum of `util/math/Unit.py`.
- The docstring of the second `scale_number` (`helper/Convert.py:10-13`) says an omitted original unit is inferred from the number's exponent. The code reads it as BASE instead, and so does the model.
- `helper/LogLevel.py` is not part of this model. `LogLevel` has just the two levels the simulation names.
- Keyword arguments forwarded to the drawing library are not modelled, and neither are the label and sphere styling. The loops over `kwargs` in the tick methods iterate keys, not pairs; this is not modelled either.
- The drawing library is not modelled. A drawn sphere is the position it shows, a drawn label is its position and text, and a graph is the record of its creation arguments.
- The `__add__`, `__sub__`, `__mul__` and `__div__` aliases are the `Add`, `Subtract`, `Multiply` and `Divide` methods. `__div__` is not Python 3's `/` operator; that difference is not modelled.
- `mag` and `scalarDist` (square roots) are not modelled. `MagSquared` and `ScalarDistSquared` are the squares of those square roots, taken exactly.
- Vectors.Vector.Hat: the magnitude is a parameter. It is required to be non-negative and zero exactly for the zero vector, but not to be the vector's length (its square equal to `MagSquared`). So the model does not promise that the result has unit length. The source's guard `mag is 0` never holds for the float 0.0 that `sqrt` returns, so the zero vector raises on the first division instead. In both cases nothing is written; the two exception classes are one `ZeroDivision` error.
- `as_vec`, `from_vec` and `__str__` convert to and from the drawing library's vectors and strings. They are not modelled.
- The object's `mass` is stored and never used by the source; it has no operation.
- `PhysicalObject` and `Sphere` are one class, `PhysicalObjects.Sphere`. `Sphere` is the only concrete kind and supplies `create`.
- Python's `is` is modelled as equality. This covers `check_config`, `__find_graph_by_name__` (string identity, which interning usually makes equality) and the None checks.
- The constructor stores what the `create_graphs` hook returns, which are lists of graph arguments, as the registry itself; `run_simulation` then creates a graph from each of them. The model types that seed as graph entries (`seq<Graph>`), so it does not capture that the seeded registry holds arguments rather than entries.
- Graph entries are created as dictionaries but read with attribute access (`item.graph`, `obj.name`). The model reads them as records, and deleting the drawn graph in `reset_graphs` is not modelled.
- `run_simulation`, the `auto_run` start in the constructor, `plot`, `log` and `rate` are not modelled. They drive the subclass hooks, the drawing library, the console and the clock.
- Simulations.RunSimulationLoop: `fuel` bounds the number of ticks, so a loop that never stops is not modelled. The hooks are modelled as returning exactly True or False; other truthy values are not.
- Simulations.Simulation.ScaleBySimData: the target is a number. Scaling a `Vector` by sim data is not modelled.
- Simulations.Simulation.IncrSimData: a non-numeric value raises a `TypeError` in the source; here that is `NotANumber`. String concatenation through `+` is not modelled.

## Findings

| source | as written | input that shows it | evidently intended | confidence | as-written member | corrected member |
|---|---|---|---|---|---|---|
| src/util/math/Vector.py:65-70 | `cross` overwrites x before y and z read it. Each component also subtracts `(other.y - self.z)` where the product `other.y * self.z` belongs | the x and y unit vectors give (-1, -1, -2) | the cross product (0, 0, 1), perpendicular to both arguments | high; not executed | Vectors.CrossAsWrittenCounterexample | Vectors.Vector.CrossCorrected |
| src/util/object/PhysicalObject.py:72-77 | `position = self.position; position += offset` adds the label offset into the object's own position vector. The same happens at lines 84-89 in `__tick_label__` | a sphere at the origin with label offset (1, 0, 0): after draw_label and tick(p) it is at (2, 0, 0) | the label at position plus offset, the object where it was placed | high; not executed | PhysicalObjects.LabelOffsetMovesObject | PhysicalObjects.LabelOffsetKeepsObjectCorrected |
| src/helper/Simulation.py:102-103 | `reset_graphs` recreates each entry with only `to_recreate`. `__create_graph__` (lines 118-120) raises when no name is given | a registry holding one graph: reset raises and leaves the registry empty | every entry recreated under its own name | high; not executed | Simulations.ResetLosesGraphs | Simulations.ResetKeepsGraphsCorrected |
