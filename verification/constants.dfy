/** The static range table and the per-status style table. */
module Constants {
  import opened PoolTypes

  /** The eight keys of the range table. */
  datatype Param = Chlorine | Ph | TotalAlkalinity | CalciumHardness | Temperature | Tds | Lsi | Flow

  /** The range table. Every ideal band is non-empty, every acceptable band
      contains its ideal band, and exactly pH and calcium hardness lack an
      acceptable band. */
  function RangeFor(p: Param): (r: Range)
    ensures WellFormed(r)
    ensures r.acceptable.None? <==> p == Ph || p == CalciumHardness
  {
    match p
    case Chlorine => Range(Interval(2.0, 5.0), Some(Interval(1.0, 10.0)))
    case Ph => Range(Interval(7.2, 7.8), None)
    case TotalAlkalinity => Range(Interval(80.0, 120.0), Some(Interval(60.0, 180.0)))
    case CalciumHardness => Range(Interval(200.0, 400.0), None)
    case Temperature => Range(Interval(78.0, 95.0), Some(Interval(70.0, 104.0)))
    case Tds => Range(Interval(400.0, 1500.0), Some(Interval(400.0, 2000.0)))
    case Lsi => Range(Interval(-0.3, 0.3), Some(Interval(-0.5, 0.5)))
    case Flow => Range(Interval(40.0, 80.0), Some(Interval(30.0, 90.0)))
  }

  /** The LSI bands are symmetric about zero. */
  lemma LsiBandsSymmetric()
    ensures RangeFor(Lsi).ideal.lo == -RangeFor(Lsi).ideal.hi
    ensures RangeFor(Lsi).acceptable.Some?
    ensures RangeFor(Lsi).acceptable.value.lo == -RangeFor(Lsi).acceptable.value.hi
  {
  }

  /** The TDS bands share their lower bound. */
  lemma TdsBandsShareLowerBound()
    ensures RangeFor(Tds).acceptable.Some?
    ensures RangeFor(Tds).acceptable.value.lo == RangeFor(Tds).ideal.lo == 400.0
  {
  }

  /** Background, text and border classes of a status. */
  datatype Style = Style(bg: string, text: string, border: string)

  /** The style table, one entry for each of the three statuses. */
  function StatusStyle(s: Status): Style
  {
    match s
    case Ideal => Style("bg-green-100 dark:bg-green-900/50", "text-green-800 dark:text-green-300", "border-green-500")
    case Acceptable => Style("bg-yellow-100 dark:bg-yellow-900/50", "text-yellow-800 dark:text-yellow-300", "border-yellow-500")
    case ActionRequired => Style("bg-red-100 dark:bg-red-900/50", "text-red-800 dark:text-red-300", "border-red-500")
  }

  /** No two statuses share a style, so a rendered card's colours determine its status. */
  lemma StatusStylesDistinct(s: Status, t: Status)
    ensures StatusStyle(s) == StatusStyle(t) ==> s == t
  {
  }
}
