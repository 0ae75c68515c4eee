/**
 * The SI prefixes of util/math/Unit.py. Each enum member's value is the
 * literal power of ten the source declares; the member's exponent is not
 * stored by the source but is what determine_unit recovers with the
 * floor-log helper, and is written out here to state properties about it.
 */
module Units {
  import opened Wrappers
  import opened Misc

  /** The members in declaration order: Yotta (10^24) down to Yocto (10^-24). */
  datatype Unit = Yotta | Zetta | Exa | Peta | Tera | Giga | Mega | Kilo | Hecto | Deka | Base | Deci | Centi | Milli | Micro | Nano | Pico | Femto | Atto | Zepto | Yocto

  /** The value the enum assigns to each member (1e24, 1e21, ..., 1e-24). */
  function Value(u: Unit): (r: real)
    ensures r > 0.0
  {
    match u
    case Yotta => 1000000000000000000000000.0
    case Zetta => 1000000000000000000000.0
    case Exa => 1000000000000000000.0
    case Peta => 1000000000000000.0
    case Tera => 1000000000000.0
    case Giga => 1000000000.0
    case Mega => 1000000.0
    case Kilo => 1000.0
    case Hecto => 100.0
    case Deka => 10.0
    case Base => 1.0
    case Deci => 0.1
    case Centi => 0.01
    case Milli => 0.001
    case Micro => 0.000001
    case Nano => 0.000000001
    case Pico => 0.000000000001
    case Femto => 0.000000000000001
    case Atto => 0.000000000000000001
    case Zepto => 0.000000000000000000001
    case Yocto => 0.000000000000000000000001
  }

  /** The power of ten each prefix stands for. */
  function Exponent(u: Unit): int
  {
    match u
    case Yotta => 24
    case Zetta => 21
    case Exa => 18
    case Peta => 15
    case Tera => 12
    case Giga => 9
    case Mega => 6
    case Kilo => 3
    case Hecto => 2
    case Deka => 1
    case Base => 0
    case Deci => -1
    case Centi => -2
    case Milli => -3
    case Micro => -6
    case Nano => -9
    case Pico => -12
    case Femto => -15
    case Atto => -18
    case Zepto => -21
    case Yocto => -24
  }

  /** Iteration order of the enum: the order of declaration. */
  const AllUnits: seq<Unit> := [Yotta, Zetta, Exa, Peta, Tera, Giga, Mega, Kilo, Hecto, Deka, Base, Deci, Centi, Milli, Micro, Nano, Pico, Femto, Atto, Zepto, Yocto]

  /** The prefix with a given exponent, if there is one. */
  function UnitWithExponent(e: int): (r: Option<Unit>)
    ensures r.Some? ==> Exponent(r.value) == e
  {
    match e
    case 24 => Some(Yotta)
    case 21 => Some(Zetta)
    case 18 => Some(Exa)
    case 15 => Some(Peta)
    case 12 => Some(Tera)
    case 9 => Some(Giga)
    case 6 => Some(Mega)
    case 3 => Some(Kilo)
    case 2 => Some(Hecto)
    case 1 => Some(Deka)
    case 0 => Some(Base)
    case -1 => Some(Deci)
    case -2 => Some(Centi)
    case -3 => Some(Milli)
    case -6 => Some(Micro)
    case -9 => Some(Nano)
    case -12 => Some(Pico)
    case -15 => Some(Femto)
    case -18 => Some(Atto)
    case -21 => Some(Zepto)
    case -24 => Some(Yocto)
    case _ => None
  }

  /** The enum's literals for positive exponents are the powers of ten. */
  lemma PositivePowersOfTen()
    ensures Power(10.0, 24) == 1000000000000000000000000.0
    ensures Power(10.0, 21) == 1000000000000000000000.0
    ensures Power(10.0, 18) == 1000000000000000000.0
    ensures Power(10.0, 15) == 1000000000000000.0
    ensures Power(10.0, 12) == 1000000000000.0
    ensures Power(10.0, 9) == 1000000000.0
    ensures Power(10.0, 6) == 1000000.0
    ensures Power(10.0, 3) == 1000.0
    ensures Power(10.0, 2) == 100.0
    ensures Power(10.0, 1) == 10.0
  {
  }

  /** The enum's literals for negative exponents are the powers of ten. */
  lemma NegativePowersOfTen()
    ensures Power(10.0, -1) == 0.1
    ensures Power(10.0, -2) == 0.01
    ensures Power(10.0, -3) == 0.001
    ensures Power(10.0, -6) == 0.000001
    ensures Power(10.0, -9) == 0.000000001
    ensures Power(10.0, -12) == 0.000000000001
    ensures Power(10.0, -15) == 0.000000000000001
    ensures Power(10.0, -18) == 0.000000000000000001
    ensures Power(10.0, -21) == 0.000000000000000000001
    ensures Power(10.0, -24) == 0.000000000000000000000001
  {
  }

  /** Every prefix value is exactly ten to the prefix's exponent. */
  lemma ValueIsPowerOfTen(u: Unit)
    ensures Value(u) == Power(10.0, Exponent(u))
  {
    if Exponent(u) > 0 {
      PositivePowersOfTen();
    } else if Exponent(u) < 0 {
      NegativePowersOfTen();
    }
  }

  /** The floor-log exponent of a prefix's value is the prefix's exponent. */
  lemma ExponentOfValue(u: Unit)
    ensures ExtractExponentCommon(Value(u)) == Exponent(u)
  {
    ValueIsPowerOfTen(u);
    ExponentOfPower(10.0, Exponent(u));
  }

  /** Looking a prefix's exponent up in the table gives the prefix back. */
  lemma UnitWithExponentOf(u: Unit)
    ensures UnitWithExponent(Exponent(u)) == Some(u)
  {
  }

  /** No two prefixes share an exponent. */
  lemma ExponentInjective(u: Unit, w: Unit)
    ensures Exponent(u) == Exponent(w) ==> u == w
  {
    UnitWithExponentOf(u);
    UnitWithExponentOf(w);
  }

  /** The enum values are pairwise distinct: no member is an alias of another. */
  lemma ValuesDistinct(u: Unit, w: Unit)
    requires u != w
    ensures Value(u) != Value(w)
  {
    ValueIsPowerOfTen(u);
    ValueIsPowerOfTen(w);
    ExponentInjective(u, w);
    if Exponent(u) < Exponent(w) {
      PowerStrictlyIncreasing(10.0, Exponent(u), Exponent(w));
    } else {
      PowerStrictlyIncreasing(10.0, Exponent(w), Exponent(u));
    }
  }

  /** Every prefix occurs in the iteration order. */
  lemma AllUnitsComplete(u: Unit)
    ensures u in AllUnits
  {
  }

  /**
   * The search loop of determine_unit: the first unit of `units` whose value
   * has floor-log exponent e, or None when the loop runs out.
   */
  function FindUnit(e: int, units: seq<Unit>): (r: Option<Unit>)
    ensures r.None? <==> forall i :: 0 <= i < |units| ==> Exponent(units[i]) != e
    ensures r.Some? ==> r.value in units && Exponent(r.value) == e
    ensures r.Some? ==> exists i :: 0 <= i < |units| && units[i] == r.value &&
                          forall j :: 0 <= j < i ==> Exponent(units[j]) != e
  {
    if units == [] then None
    else
      ExponentOfValue(units[0]);
      if ExtractExponentCommon(Value(units[0])) == e then
        Some(units[0])
      else
        var r := FindUnit(e, units[1..]);
        if r.Some? then
          var i :| 0 <= i < |units[1..]| && units[1..][i] == r.value &&
                   forall j :: 0 <= j < i ==> Exponent(units[1..][j]) != e;
          assert units[i + 1] == r.value;
          assert forall j :: 0 <= j < i + 1 ==> Exponent(units[j]) != e;
          r
        else
          r
  }

  /** Searching any list that holds every prefix finds exactly the prefix with that exponent. */
  lemma FindUnitComplete(e: int, units: seq<Unit>)
    requires forall u: Unit :: u in units
    ensures FindUnit(e, units) == UnitWithExponent(e)
  {
    var r := FindUnit(e, units);
    if UnitWithExponent(e).Some? {
      assert UnitWithExponent(e).value in units;
    }
    if r.Some? {
      UnitWithExponentOf(r.value);
    }
  }

  /** Searching all prefixes in order finds exactly the prefix with that exponent. */
  lemma FindUnitInAllUnits(e: int)
    ensures FindUnit(e, AllUnits) == UnitWithExponent(e)
  {
    forall u: Unit
      ensures u in AllUnits
    {
      AllUnitsComplete(u);
    }
    FindUnitComplete(e, AllUnits);
  }

  /**
   * determine_unit: the prefix whose exponent equals the floor-log exponent
   * of the value, or None when no prefix has that exponent.
   */
  function DetermineUnit(value: real): (r: Option<Unit>)
    requires value != 0.0
    ensures r == UnitWithExponent(ExtractExponentCommon(value))
  {
    var e := ExtractExponentCommon(value);
    FindUnitInAllUnits(e);
    FindUnit(e, AllUnits)
  }

  /** In exact arithmetic, determine_unit recognises the value of every prefix. */
  lemma DetermineUnitOfValue(u: Unit)
    ensures DetermineUnit(Value(u)) == Some(u)
  {
    ExponentOfValue(u);
    UnitWithExponentOf(u);
  }

  /**
   * A power of ten whose exponent no prefix has (4, 5, 7 or -4, for
   * instance) is not recognised.
   */
  lemma DetermineUnitOfGap(k: int)
    requires UnitWithExponent(k).None?
    ensures DetermineUnit(Power(10.0, k)) == None
  {
    ExponentOfPower(10.0, k);
  }

  /** The unit a None argument stands for: BASE. */
  function UnitOrBase(unit: Option<Unit>): Unit
  {
    if unit.None? then Base else unit.value
  }
}
