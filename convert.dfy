/**
 * util/math/Convert.py: scaling a number between SI prefixes. Arithmetic is
 * exact over the reals, so the branch that divides by the target's value
 * and the branch that multiplies by its reciprocal give the same result.
 */
module Convert {
  import opened Wrappers
  import opened Misc
  import opened Units

  /**
   * What a conversion means: the quantity number * value(u), written as a
   * multiple of value(w).
   */
  function Scaled(number: real, u: Unit, w: Unit): real
  {
    number * Value(u) / Value(w)
  }

  /**
   * The first half of scale_number: a number in the given unit brought to
   * base units, that is multiplied by the unit's value, a step the source
   * skips for BASE, whose value is 1.
   */
  function InBaseUnits(number: real, original: Unit): (r: real)
    ensures r == number * Value(original)
  {
    if original != Base then number * Value(original)
    else DivideByOne(number, Value(Base)); number
  }

  /** Multiplying by the reciprocal of the prefix's value is dividing by it. */
  function TimesReciprocal(inBase: real, desiredUnit: Unit): (r: real)
    ensures r == inBase / Value(desiredUnit)
  {
    ReciprocalFactor(inBase, Value(desiredUnit));
    inBase * (1.0 / Value(desiredUnit))
  }

  /**
   * The second half of scale_number: a number in base units expressed in
   * the desired prefix. BASE returns it unchanged, a positive exponent
   * divides by the prefix's value, any other multiplies by its reciprocal.
   * The source takes the exponent as floor(log10(|value|)); by
   * Units.ExponentOfValue that is the prefix's exponent, used here.
   */
  function FromBase(inBase: real, desiredUnit: Unit): (r: real)
    ensures r == inBase / Value(desiredUnit)
  {
    if desiredUnit == Base then
      DivideByOne(inBase, Value(desiredUnit));
      inBase
    else if Exponent(desiredUnit) > 0 then
      inBase / Value(desiredUnit)
    else
      TimesReciprocal(inBase, desiredUnit)
  }

  /** scale_number once the original unit is known. */
  function ScaleFrom(number: real, original: Unit, desiredUnit: Unit): (r: real)
    ensures r == Scaled(number, original, desiredUnit)
  {
    FromBase(InBaseUnits(number, original), desiredUnit)
  }

  /**
   * scale_number: number, given in originalUnit (None counts as BASE), in
   * desiredUnit.
   */
  function ScaleNumber(number: real, originalUnit: Option<Unit> := Some(Base), desiredUnit: Unit := Base): (r: real)
    ensures originalUnit.Some? ==> r == Scaled(number, originalUnit.value, desiredUnit)
    ensures originalUnit.None? ==> r == Scaled(number, Base, desiredUnit)
  {
    if originalUnit.None? then
      ScaleFrom(number, Base, desiredUnit)
    else
      ScaleFrom(number, originalUnit.value, desiredUnit)
  }

  /** Scaling into BASE gives the number times the original prefix's value. */
  lemma ScaleToBase(number: real, u: Unit)
    ensures ScaleNumber(number, Some(u), Base) == number * Value(u)
  {
    DivideByOne(number * Value(u), Value(Base));
  }

  /** With both units left at their defaults the number comes back unchanged. */
  lemma ScaleDefaults(number: real)
    ensures ScaleNumber(number) == number
  {
    DivideByOne(number, Value(Base));
    DivideByOne(number * Value(Base), Value(Base));
  }

  /** A None original unit is read as BASE. */
  lemma ScaleNoneIsBase(number: real, w: Unit)
    ensures ScaleNumber(number, None, w) == ScaleNumber(number, Some(Base), w)
  {
  }

  /** Converting never changes the physical quantity: number times prefix value is kept. */
  lemma ScaledPreservesQuantity(number: real, u: Unit, w: Unit)
    ensures Scaled(number, u, w) * Value(w) == number * Value(u)
  {
    DivMul(number * Value(u), Value(w));
  }

  /** Converting from u to w and back from w to u is the identity. */
  lemma ScaledRoundTrip(number: real, u: Unit, w: Unit)
    ensures Scaled(Scaled(number, u, w), w, u) == number
  {
    ScaleBack(number, Value(u), Value(w));
  }

  /** Converting u to v and then v to w is converting u to w. */
  lemma ScaledCompose(number: real, u: Unit, v: Unit, w: Unit)
    ensures Scaled(Scaled(number, u, v), v, w) == Scaled(number, u, w)
  {
    CancelThrough(number * Value(u), Value(v), Value(w));
  }

  /** Converting into the same prefix is the identity. */
  lemma ScaledSame(number: real, u: Unit)
    ensures Scaled(number, u, u) == number
  {
    CancelSame(number, Value(u));
  }

  /** The worked example of the source's documentation: 5 pico is 5e-15 kilo. */
  lemma FivePicoInKilo()
    ensures ScaleNumber(5.0, Some(Pico), Kilo) == 0.000000000000005
  {
  }

  function ToYotta(number: real, originalUnit: Option<Unit> := Some(Base)): (r: real)
    ensures originalUnit.Some? ==> r * Value(Yotta) == number * Value(originalUnit.value)
    ensures originalUnit.None? ==> r * Value(Yotta) == number
  {
    ScaledPreservesQuantity(number, UnitOrBase(originalUnit), Yotta);
    DivideByOne(number, Value(Base));
    ScaleNumber(number, originalUnit, Yotta)
  }

  function ToZetta(number: real, originalUnit: Option<Unit> := Some(Base)): (r: real)
    ensures originalUnit.Some? ==> r * Value(Zetta) == number * Value(originalUnit.value)
    ensures originalUnit.None? ==> r * Value(Zetta) == number
  {
    ScaledPreservesQuantity(number, UnitOrBase(originalUnit), Zetta);
    DivideByOne(number, Value(Base));
    ScaleNumber(number, originalUnit, Zetta)
  }

  function ToExa(number: real, originalUnit: Option<Unit> := Some(Base)): (r: real)
    ensures originalUnit.Some? ==> r * Value(Exa) == number * Value(originalUnit.value)
    ensures originalUnit.None? ==> r * Value(Exa) == number
  {
    ScaledPreservesQuantity(number, UnitOrBase(originalUnit), Exa);
    DivideByOne(number, Value(Base));
    ScaleNumber(number, originalUnit, Exa)
  }

  function ToPeta(number: real, originalUnit: Option<Unit> := Some(Base)): (r: real)
    ensures originalUnit.Some? ==> r * Value(Peta) == number * Value(originalUnit.value)
    ensures originalUnit.None? ==> r * Value(Peta) == number
  {
    ScaledPreservesQuantity(number, UnitOrBase(originalUnit), Peta);
    DivideByOne(number, Value(Base));
    ScaleNumber(number, originalUnit, Peta)
  }

  function ToTera(number: real, originalUnit: Option<Unit> := Some(Base)): (r: real)
    ensures originalUnit.Some? ==> r * Value(Tera) == number * Value(originalUnit.value)
    ensures originalUnit.None? ==> r * Value(Tera) == number
  {
    ScaledPreservesQuantity(number, UnitOrBase(originalUnit), Tera);
    DivideByOne(number, Value(Base));
    ScaleNumber(number, originalUnit, Tera)
  }

  function ToGiga(number: real, originalUnit: Option<Unit> := Some(Base)): (r: real)
    ensures originalUnit.Some? ==> r * Value(Giga) == number * Value(originalUnit.value)
    ensures originalUnit.None? ==> r * Value(Giga) == number
  {
    ScaledPreservesQuantity(number, UnitOrBase(originalUnit), Giga);
    DivideByOne(number, Value(Base));
    ScaleNumber(number, originalUnit, Giga)
  }

  function ToMega(number: real, originalUnit: Option<Unit> := Some(Base)): (r: real)
    ensures originalUnit.Some? ==> r * Value(Mega) == number * Value(originalUnit.value)
    ensures originalUnit.None? ==> r * Value(Mega) == number
  {
    ScaledPreservesQuantity(number, UnitOrBase(originalUnit), Mega);
    DivideByOne(number, Value(Base));
    ScaleNumber(number, originalUnit, Mega)
  }

  function ToKilo(number: real, originalUnit: Option<Unit> := Some(Base)): (r: real)
    ensures originalUnit.Some? ==> r * Value(Kilo) == number * Value(originalUnit.value)
    ensures originalUnit.None? ==> r * Value(Kilo) == number
  {
    ScaledPreservesQuantity(number, UnitOrBase(originalUnit), Kilo);
    DivideByOne(number, Value(Base));
    ScaleNumber(number, originalUnit, Kilo)
  }

  function ToHecto(number: real, originalUnit: Option<Unit> := Some(Base)): (r: real)
    ensures originalUnit.Some? ==> r * Value(Hecto) == number * Value(originalUnit.value)
    ensures originalUnit.None? ==> r * Value(Hecto) == number
  {
    ScaledPreservesQuantity(number, UnitOrBase(originalUnit), Hecto);
    DivideByOne(number, Value(Base));
    ScaleNumber(number, originalUnit, Hecto)
  }

  function ToDeka(number: real, originalUnit: Option<Unit> := Some(Base)): (r: real)
    ensures originalUnit.Some? ==> r * Value(Deka) == number * Value(originalUnit.value)
    ensures originalUnit.None? ==> r * Value(Deka) == number
  {
    ScaledPreservesQuantity(number, UnitOrBase(originalUnit), Deka);
    DivideByOne(number, Value(Base));
    ScaleNumber(number, originalUnit, Deka)
  }

  function ToBase(number: real, originalUnit: Option<Unit> := Some(Base)): (r: real)
    ensures originalUnit.Some? ==> r * Value(Base) == number * Value(originalUnit.value)
    ensures originalUnit.None? ==> r * Value(Base) == number
  {
    ScaledPreservesQuantity(number, UnitOrBase(originalUnit), Base);
    DivideByOne(number, Value(Base));
    ScaleNumber(number, originalUnit, Base)
  }

  function ToDeci(number: real, originalUnit: Option<Unit> := Some(Base)): (r: real)
    ensures originalUnit.Some? ==> r * Value(Deci) == number * Value(originalUnit.value)
    ensures originalUnit.None? ==> r * Value(Deci) == number
  {
    ScaledPreservesQuantity(number, UnitOrBase(originalUnit), Deci);
    DivideByOne(number, Value(Base));
    ScaleNumber(number, originalUnit, Deci)
  }

  function ToCenti(number: real, originalUnit: Option<Unit> := Some(Base)): (r: real)
    ensures originalUnit.Some? ==> r * Value(Centi) == number * Value(originalUnit.value)
    ensures originalUnit.None? ==> r * Value(Centi) == number
  {
    ScaledPreservesQuantity(number, UnitOrBase(originalUnit), Centi);
    DivideByOne(number, Value(Base));
    ScaleNumber(number, originalUnit, Centi)
  }

  function ToMilli(number: real, originalUnit: Option<Unit> := Some(Base)): (r: real)
    ensures originalUnit.Some? ==> r * Value(Milli) == number * Value(originalUnit.value)
    ensures originalUnit.None? ==> r * Value(Milli) == number
  {
    ScaledPreservesQuantity(number, UnitOrBase(originalUnit), Milli);
    DivideByOne(number, Value(Base));
    ScaleNumber(number, originalUnit, Milli)
  }

  function ToMicro(number: real, originalUnit: Option<Unit> := Some(Base)): (r: real)
    ensures originalUnit.Some? ==> r * Value(Micro) == number * Value(originalUnit.value)
    ensures originalUnit.None? ==> r * Value(Micro) == number
  {
    ScaledPreservesQuantity(number, UnitOrBase(originalUnit), Micro);
    DivideByOne(number, Value(Base));
    ScaleNumber(number, originalUnit, Micro)
  }

  function ToNano(number: real, originalUnit: Option<Unit> := Some(Base)): (r: real)
    ensures originalUnit.Some? ==> r * Value(Nano) == number * Value(originalUnit.value)
    ensures originalUnit.None? ==> r * Value(Nano) == number
  {
    ScaledPreservesQuantity(number, UnitOrBase(originalUnit), Nano);
    DivideByOne(number, Value(Base));
    ScaleNumber(number, originalUnit, Nano)
  }

  function ToPico(number: real, originalUnit: Option<Unit> := Some(Base)): (r: real)
    ensures originalUnit.Some? ==> r * Value(Pico) == number * Value(originalUnit.value)
    ensures originalUnit.None? ==> r * Value(Pico) == number
  {
    ScaledPreservesQuantity(number, UnitOrBase(originalUnit), Pico);
    DivideByOne(number, Value(Base));
    ScaleNumber(number, originalUnit, Pico)
  }

  function ToFemto(number: real, originalUnit: Option<Unit> := Some(Base)): (r: real)
    ensures originalUnit.Some? ==> r * Value(Femto) == number * Value(originalUnit.value)
    ensures originalUnit.None? ==> r * Value(Femto) == number
  {
    ScaledPreservesQuantity(number, UnitOrBase(originalUnit), Femto);
    DivideByOne(number, Value(Base));
    ScaleNumber(number, originalUnit, Femto)
  }

  function ToAtto(number: real, originalUnit: Option<Unit> := Some(Base)): (r: real)
    ensures originalUnit.Some? ==> r * Value(Atto) == number * Value(originalUnit.value)
    ensures originalUnit.None? ==> r * Value(Atto) == number
  {
    ScaledPreservesQuantity(number, UnitOrBase(originalUnit), Atto);
    DivideByOne(number, Value(Base));
    ScaleNumber(number, originalUnit, Atto)
  }

  function ToZepto(number: real, originalUnit: Option<Unit> := Some(Base)): (r: real)
    ensures originalUnit.Some? ==> r * Value(Zepto) == number * Value(originalUnit.value)
    ensures originalUnit.None? ==> r * Value(Zepto) == number
  {
    ScaledPreservesQuantity(number, UnitOrBase(originalUnit), Zepto);
    DivideByOne(number, Value(Base));
    ScaleNumber(number, originalUnit, Zepto)
  }

  function ToYocto(number: real, originalUnit: Option<Unit> := Some(Base)): (r: real)
    ensures originalUnit.Some? ==> r * Value(Yocto) == number * Value(originalUnit.value)
    ensures originalUnit.None? ==> r * Value(Yocto) == number
  {
    ScaledPreservesQuantity(number, UnitOrBase(originalUnit), Yocto);
    DivideByOne(number, Value(Base));
    ScaleNumber(number, originalUnit, Yocto)
  }
}
