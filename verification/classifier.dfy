/** Placing a value in the bands of a range, and the icon of a status. */
module Classifier {
  import opened PoolTypes
  import opened Constants

  /** Ideal inside the closed ideal band; otherwise Acceptable inside the
      closed acceptable band when there is one; otherwise ActionRequired. */
  function GetStatus(v: real, range: Range): (s: Status)
    ensures s == Ideal <==> range.ideal.lo <= v <= range.ideal.hi
    ensures s == Acceptable <==>
              && !(range.ideal.lo <= v <= range.ideal.hi)
              && range.acceptable.Some?
              && range.acceptable.value.lo <= v <= range.acceptable.value.hi
    ensures range.acceptable.None? ==> s != Acceptable
    ensures WellFormed(range) ==> (s == ActionRequired <==> v < OuterBand(range).lo || OuterBand(range).hi < v)
  {
    if Contains(range.ideal, v) then Ideal
    else if range.acceptable.Some? && Contains(range.acceptable.value, v) then Acceptable
    else ActionRequired
  }

  /** The icon tag depends on the status alone. */
  function IconFor(s: Status): Icon
  {
    match s
    case Ideal => CheckCircle
    case Acceptable => ExclamationCircle
    case ActionRequired => XCircle
  }

  /** Distinct statuses get distinct icons. */
  lemma IconDistinguishesStatus(s: Status, t: Status)
    ensures IconFor(s) == IconFor(t) <==> s == t
  {
  }

  /** pH and calcium hardness have no middle tier. */
  lemma NoAcceptableTier(v: real)
    ensures GetStatus(v, RangeFor(Ph)) != Acceptable
    ensures GetStatus(v, RangeFor(CalciumHardness)) != Acceptable
  {
  }

  /** TDS is Acceptable exactly on (1500, 2000]; nothing below 400 passes. */
  lemma TdsTiers(v: real)
    ensures GetStatus(v, RangeFor(Tds)) == Acceptable <==> 1500.0 < v <= 2000.0
    ensures v < 400.0 ==> GetStatus(v, RangeFor(Tds)) == ActionRequired
  {
  }

  /** Classification against the LSI row does not depend on the sign of the index. */
  lemma LsiStatusSymmetric(v: real)
    ensures GetStatus(-v, RangeFor(Lsi)) == GetStatus(v, RangeFor(Lsi))
  {
  }

  /** The chlorine band edges belong to the bands. */
  lemma ChlorineBoundaries()
    ensures GetStatus(2.0, RangeFor(Chlorine)) == Ideal
    ensures GetStatus(1.0, RangeFor(Chlorine)) == Acceptable
    ensures GetStatus(0.99, RangeFor(Chlorine)) == ActionRequired
    ensures GetStatus(10.0, RangeFor(Chlorine)) == Acceptable
    ensures GetStatus(10.01, RangeFor(Chlorine)) == ActionRequired
  {
  }
}
