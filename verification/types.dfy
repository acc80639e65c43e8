/** The value types shared by the analyzer and its consumers: readings,
    statuses, ranges, analysis results and the per-bungalow record. */
module PoolTypes {

  datatype Option<+T> = None | Some(value: T)

  /** The three severity tiers of a parameter. */
  datatype Status = Ideal | Acceptable | ActionRequired

  /** The order used for worst-of aggregation: Ideal < Acceptable < ActionRequired. */
  function Severity(s: Status): nat
  {
    match s
    case Ideal => 0
    case Acceptable => 1
    case ActionRequired => 2
  }

  /** One snapshot of the seven measured fields; all finite reals. */
  datatype Readings = Readings(
    ph: real,
    chlorine: real,
    totalAlkalinity: real,
    calciumHardness: real,
    temperature: real,
    tds: real,
    flow: real)

  /** A closed interval [lo, hi]. */
  datatype Interval = Interval(lo: real, hi: real)

  predicate Contains(band: Interval, v: real)
  {
    band.lo <= v <= band.hi
  }

  /** An ideal band and an optional acceptable band. */
  datatype Range = Range(ideal: Interval, acceptable: Option<Interval>)

  /** The band whose bounds the remedy messages compare against: the
      acceptable band when there is one, otherwise the ideal band. */
  function OuterBand(range: Range): Interval
  {
    match range.acceptable
    case Some(a) => a
    case None => range.ideal
  }

  /** A range is well formed when its ideal band is not empty and its
      acceptable band, when present, contains the ideal band. */
  predicate WellFormed(range: Range)
  {
    && range.ideal.lo <= range.ideal.hi
    && (range.acceptable.Some? ==>
          range.acceptable.value.lo <= range.ideal.lo && range.ideal.hi <= range.acceptable.value.hi)
  }

  /** Which icon a result carries; the rendering of the icon is not modelled. */
  datatype Icon = CheckCircle | ExclamationCircle | XCircle

  /** One per-parameter verdict. `value` is the number before formatting (for the
      LSI, the rounded index) and `idealRange` the ideal band. */
  datatype AnalysisResult = AnalysisResult(
    parameter: string,
    value: real,
    status: Status,
    idealRange: Interval,
    message: string,
    icon: Icon)

  /** The stored state of one bungalow. */
  datatype BungalowState = BungalowState(
    readings: Readings,
    results: Option<seq<AnalysisResult>>,
    attendantName: string)
}
