/**
 * helper/Convert.py: a second copy of the prefix scaling of
 * util/math/Convert.py with the same code and a different docstring. Its
 * prefix enum (helper/Unit.py) is not part of this model; it is taken to be
 * the enum of util/math/Unit.py, modelled in Units. The conversion steps
 * after the None rule are shared with Convert.ScaleFrom. The docstring says
 * an omitted original unit is inferred from the number's exponent; the code
 * reads it as BASE, and so does this model.
 */
module HelperConvert {
  import opened Wrappers
  import opened Misc
  import opened Units
  import Convert

  /**
   * scale_number: number, given in originalUnit (None counts as BASE), in
   * desiredUnit.
   */
  function ScaleNumber(number: real, originalUnit: Option<Unit> := Some(Base), desiredUnit: Unit := Base): (r: real)
    ensures originalUnit.Some? ==> r == Convert.Scaled(number, originalUnit.value, desiredUnit)
    ensures originalUnit.None? ==> r == Convert.Scaled(number, Base, desiredUnit)
  {
    if originalUnit.None? then
      Convert.ScaleFrom(number, Base, desiredUnit)
    else
      Convert.ScaleFrom(number, originalUnit.value, desiredUnit)
  }

  /** Both copies of scale_number compute the same number for every input. */
  lemma SameAsUtilConvert(number: real, originalUnit: Option<Unit>, desiredUnit: Unit)
    ensures ScaleNumber(number, originalUnit, desiredUnit) == Convert.ScaleNumber(number, originalUnit, desiredUnit)
  {
  }

  /** to_base(1, NANO) is 1e-9: one nanounit in base units. */
  lemma OneNanoInBase()
    ensures ToBase(1.0, Some(Nano)) == 0.000000001
  {
    DivideByOne(0.000000001, Value(Base));
  }

  function ToYotta(number: real, originalUnit: Option<Unit> := Some(Base)): (r: real)
    ensures originalUnit.Some? ==> r * Value(Yotta) == number * Value(originalUnit.value)
    ensures originalUnit.None? ==> r * Value(Yotta) == number
  {
    Convert.ScaledPreservesQuantity(number, UnitOrBase(originalUnit), Yotta);
    DivideByOne(number, Value(Base));
    ScaleNumber(number, originalUnit, Yotta)
  }

  function ToZetta(number: real, originalUnit: Option<Unit> := Some(Base)): (r: real)
    ensures originalUnit.Some? ==> r * Value(Zetta) == number * Value(originalUnit.value)
    ensures originalUnit.None? ==> r * Value(Zetta) == number
  {
    Convert.ScaledPreservesQuantity(number, UnitOrBase(originalUnit), Zetta);
    DivideByOne(number, Value(Base));
    ScaleNumber(number, originalUnit, Zetta)
  }

  function ToExa(number: real, originalUnit: Option<Unit> := Some(Base)): (r: real)
    ensures originalUnit.Some? ==> r * Value(Exa) == number * Value(originalUnit.value)
    ensures originalUnit.None? ==> r * Value(Exa) == number
  {
    Convert.ScaledPreservesQuantity(number, UnitOrBase(originalUnit), Exa);
    DivideByOne(number, Value(Base));
    ScaleNumber(number, originalUnit, Exa)
  }

  function ToPeta(number: real, originalUnit: Option<Unit> := Some(Base)): (r: real)
    ensures originalUnit.Some? ==> r * Value(Peta) == number * Value(originalUnit.value)
    ensures originalUnit.None? ==> r * Value(Peta) == number
  {
    Convert.ScaledPreservesQuantity(number, UnitOrBase(originalUnit), Peta);
    DivideByOne(number, Value(Base));
    ScaleNumber(number, originalUnit, Peta)
  }

  function ToTera(number: real, originalUnit: Option<Unit> := Some(Base)): (r: real)
    ensures originalUnit.Some? ==> r * Value(Tera) == number * Value(originalUnit.value)
    ensures originalUnit.None? ==> r * Value(Tera) == number
  {
    Convert.ScaledPreservesQuantity(number, UnitOrBase(originalUnit), Tera);
    DivideByOne(number, Value(Base));
    ScaleNumber(number, originalUnit, Tera)
  }

  function ToGiga(number: real, originalUnit: Option<Unit> := Some(Base)): (r: real)
    ensures originalUnit.Some? ==> r * Value(Giga) == number * Value(originalUnit.value)
    ensures originalUnit.None? ==> r * Value(Giga) == number
  {
    Convert.ScaledPreservesQuantity(number, UnitOrBase(originalUnit), Giga);
    DivideByOne(number, Value(Base));
    ScaleNumber(number, originalUnit, Giga)
  }

  function ToMega(number: real, originalUnit: Option<Unit> := Some(Base)): (r: real)
    ensures originalUnit.Some? ==> r * Value(Mega) == number * Value(originalUnit.value)
    ensures originalUnit.None? ==> r * Value(Mega) == number
  {
    Convert.ScaledPreservesQuantity(number, UnitOrBase(originalUnit), Mega);
    DivideByOne(number, Value(Base));
    ScaleNumber(number, originalUnit, Mega)
  }

  function ToKilo(number: real, originalUnit: Option<Unit> := Some(Base)): (r: real)
    ensures originalUnit.Some? ==> r * Value(Kilo) == number * Value(originalUnit.value)
    ensures originalUnit.None? ==> r * Value(Kilo) == number
  {
    Convert.ScaledPreservesQuantity(number, UnitOrBase(originalUnit), Kilo);
    DivideByOne(number, Value(Base));
    ScaleNumber(number, originalUnit, Kilo)
  }

  function ToHecto(number: real, originalUnit: Option<Unit> := Some(Base)): (r: real)
    ensures originalUnit.Some? ==> r * Value(Hecto) == number * Value(originalUnit.value)
    ensures originalUnit.None? ==> r * Value(Hecto) == number
  {
    Convert.ScaledPreservesQuantity(number, UnitOrBase(originalUnit), Hecto);
    DivideByOne(number, Value(Base));
    ScaleNumber(number, originalUnit, Hecto)
  }

  function ToDeka(number: real, originalUnit: Option<Unit> := Some(Base)): (r: real)
    ensures originalUnit.Some? ==> r * Value(Deka) == number * Value(originalUnit.value)
    ensures originalUnit.None? ==> r * Value(Deka) == number
  {
    Convert.ScaledPreservesQuantity(number, UnitOrBase(originalUnit), Deka);
    DivideByOne(number, Value(Base));
    ScaleNumber(number, originalUnit, Deka)
  }

  function ToBase(number: real, originalUnit: Option<Unit> := Some(Base)): (r: real)
    ensures originalUnit.Some? ==> r * Value(Base) == number * Value(originalUnit.value)
    ensures originalUnit.None? ==> r * Value(Base) == number
  {
    Convert.ScaledPreservesQuantity(number, UnitOrBase(originalUnit), Base);
    DivideByOne(number, Value(Base));
    ScaleNumber(number, originalUnit, Base)
  }

  function ToDeci(number: real, originalUnit: Option<Unit> := Some(Base)): (r: real)
    ensures originalUnit.Some? ==> r * Value(Deci) == number * Value(originalUnit.value)
    ensures originalUnit.None? ==> r * Value(Deci) == number
  {
    Convert.ScaledPreservesQuantity(number, UnitOrBase(originalUnit), Deci);
    DivideByOne(number, Value(Base));
    ScaleNumber(number, originalUnit, Deci)
  }

  function ToCenti(number: real, originalUnit: Option<Unit> := Some(Base)): (r: real)
    ensures originalUnit.Some? ==> r * Value(Centi) == number * Value(originalUnit.value)
    ensures originalUnit.None? ==> r * Value(Centi) == number
  {
    Convert.ScaledPreservesQuantity(number, UnitOrBase(originalUnit), Centi);
    DivideByOne(number, Value(Base));
    ScaleNumber(number, originalUnit, Centi)
  }

  function ToMilli(number: real, originalUnit: Option<Unit> := Some(Base)): (r: real)
    ensures originalUnit.Some? ==> r * Value(Milli) == number * Value(originalUnit.value)
    ensures originalUnit.None? ==> r * Value(Milli) == number
  {
    Convert.ScaledPreservesQuantity(number, UnitOrBase(originalUnit), Milli);
    DivideByOne(number, Value(Base));
    ScaleNumber(number, originalUnit, Milli)
  }

  function ToMicro(number: real, originalUnit: Option<Unit> := Some(Base)): (r: real)
    ensures originalUnit.Some? ==> r * Value(Micro) == number * Value(originalUnit.value)
    ensures originalUnit.None? ==> r * Value(Micro) == number
  {
    Convert.ScaledPreservesQuantity(number, UnitOrBase(originalUnit), Micro);
    DivideByOne(number, Value(Base));
    ScaleNumber(number, originalUnit, Micro)
  }

  function ToNano(number: real, originalUnit: Option<Unit> := Some(Base)): (r: real)
    ensures originalUnit.Some? ==> r * Value(Nano) == number * Value(originalUnit.value)
    ensures originalUnit.None? ==> r * Value(Nano) == number
  {
    Convert.ScaledPreservesQuantity(number, UnitOrBase(originalUnit), Nano);
    DivideByOne(number, Value(Base));
    ScaleNumber(number, originalUnit, Nano)
  }

  function ToPico(number: real, originalUnit: Option<Unit> := Some(Base)): (r: real)
    ensures originalUnit.Some? ==> r * Value(Pico) == number * Value(originalUnit.value)
    ensures originalUnit.None? ==> r * Value(Pico) == number
  {
    Convert.ScaledPreservesQuantity(number, UnitOrBase(originalUnit), Pico);
    DivideByOne(number, Value(Base));
    ScaleNumber(number, originalUnit, Pico)
  }

  function ToFemto(number: real, originalUnit: Option<Unit> := Some(Base)): (r: real)
    ensures originalUnit.Some? ==> r * Value(Femto) == number * Value(originalUnit.value)
    ensures originalUnit.None? ==> r * Value(Femto) == number
  {
    Convert.ScaledPreservesQuantity(number, UnitOrBase(originalUnit), Femto);
    DivideByOne(number, Value(Base));
    ScaleNumber(number, originalUnit, Femto)
  }

  function ToAtto(number: real, originalUnit: Option<Unit> := Some(Base)): (r: real)
    ensures originalUnit.Some? ==> r * Value(Atto) == number * Value(originalUnit.value)
    ensures originalUnit.None? ==> r * Value(Atto) == number
  {
    Convert.ScaledPreservesQuantity(number, UnitOrBase(originalUnit), Atto);
    DivideByOne(number, Value(Base));
    ScaleNumber(number, originalUnit, Atto)
  }

  function ToZepto(number: real, originalUnit: Option<Unit> := Some(Base)): (r: real)
    ensures originalUnit.Some? ==> r * Value(Zepto) == number * Value(originalUnit.value)
    ensures originalUnit.None? ==> r * Value(Zepto) == number
  {
    Convert.ScaledPreservesQuantity(number, UnitOrBase(originalUnit), Zepto);
    DivideByOne(number, Value(Base));
    ScaleNumber(number, originalUnit, Zepto)
  }

  function ToYocto(number: real, originalUnit: Option<Unit> := Some(Base)): (r: real)
    ensures originalUnit.Some? ==> r * Value(Yocto) == number * Value(originalUnit.value)
    ensures originalUnit.None? ==> r * Value(Yocto) == number
  {
    Convert.ScaledPreservesQuantity(number, UnitOrBase(originalUnit), Yocto);
    DivideByOne(number, Value(Base));
    ScaleNumber(number, originalUnit, Yocto)
  }
}
