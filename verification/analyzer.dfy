/** The analysis of one reading snapshot into eight verdicts. */
module PoolAnalyzer {
  import opened PoolTypes
  import opened Constants
  import opened Classifier
  import opened LsiIndex
  import opened Messages
  import BungalowSelector

  /** The order of the results. */
  const ParamOrder: seq<Param> := [Chlorine, Ph, Temperature, Flow, TotalAlkalinity, CalciumHardness, Tds, Lsi]

  /** The name shown for a parameter. */
  function DisplayName(p: Param): string
  {
    match p
    case Chlorine => "Chlorine"
    case Ph => "pH"
    case Temperature => "Temperature"
    case Flow => "Flow Rate"
    case TotalAlkalinity => "Total Alkalinity"
    case CalciumHardness => "Calcium Hardness"
    case Tds => "Total Dissolved Solids (TDS)"
    case Lsi => "Langelier Saturation Index (LSI)"
  }

  /** The value a parameter is judged on: a reading field, or the rounded LSI. */
  function Measured(r: Readings, p: Param): real
  {
    match p
    case Chlorine => r.chlorine
    case Ph => r.ph
    case Temperature => r.temperature
    case Flow => r.flow
    case TotalAlkalinity => r.totalAlkalinity
    case CalciumHardness => r.calciumHardness
    case Tds => r.tds
    case Lsi => LsiValue(r)
  }

  /** The initial "Adjust ..." messages of analyzeReadings in services/poolAnalyzer.ts. */
  const Fallbacks: set<Advice> := {ChlorineAdjust, FlowAdjust, AlkalinityAdjust, CalciumAdjust}

  /** The message table of each parameter; no finite value selects a fallback. */
  function MessageFor(p: Param, v: real): (m: Advice)
    ensures m !in Fallbacks
  {
    match p
    case Chlorine => ChlorineMessage(v)
    case Ph => PhMessage(v)
    case Temperature => TemperatureMessage(v)
    case Flow => FlowMessage(v)
    case TotalAlkalinity => AlkalinityMessage(v)
    case CalciumHardness => CalciumMessage(v)
    case Tds => TdsMessage(v)
    case Lsi => LsiMessage(v)
  }

  /** One verdict: the parameter's name, the value it is judged on, its
      status against its own range, its ideal band, the wording of its
      table's message, and the icon of the status. */
  function ResultFor(r: Readings, p: Param): (res: AnalysisResult)
    ensures res.parameter == DisplayName(p)
    ensures res.value == Measured(r, p)
    ensures res.status == GetStatus(res.value, RangeFor(p))
    ensures res.idealRange == RangeFor(p).ideal
    ensures res.message == Text(MessageFor(p, res.value))
    ensures res.icon == IconFor(res.status)
  {
    var v := Measured(r, p);
    var status := GetStatus(v, RangeFor(p));
    AnalysisResult(DisplayName(p), v, status, RangeFor(p).ideal, Text(MessageFor(p, v)), IconFor(status))
  }

  /** Exactly eight results in the fixed order; each judged on its own field
      against its own range, with the icon of its status. */
  function AnalyzeReadings(r: Readings): (results: seq<AnalysisResult>)
    ensures |results| == |ParamOrder| == 8
    ensures forall i :: 0 <= i < 8 ==>
              && results[i].parameter == DisplayName(ParamOrder[i])
              && results[i].value == Measured(r, ParamOrder[i])
              && results[i].status == GetStatus(results[i].value, RangeFor(ParamOrder[i]))
              && results[i].idealRange == RangeFor(ParamOrder[i]).ideal
              && results[i].message == Text(MessageFor(ParamOrder[i], results[i].value))
              && results[i].icon == IconFor(results[i].status)
  {
    seq(|ParamOrder|, i requires 0 <= i < |ParamOrder| => ResultFor(r, ParamOrder[i]))
  }

  /** The value a parameter is judged on lies outside the widest band its
      range allows. */
  predicate OutOfBounds(r: Readings, p: Param)
  {
    var band := OuterBand(RangeFor(p));
    Measured(r, p) < band.lo || band.hi < Measured(r, p)
  }

  /** A verdict calls for action exactly when its value is outside the
      parameter's outer band, and only such a verdict shows the cross icon. */
  lemma ResultVerdict(r: Readings, p: Param)
    ensures ResultFor(r, p).status == ActionRequired <==> OutOfBounds(r, p)
    ensures ResultFor(r, p).icon == XCircle <==> OutOfBounds(r, p)
  {
    var res := ResultFor(r, p);
    assert WellFormed(RangeFor(p));
    IconDistinguishesStatus(res.status, ActionRequired);
  }

  /** The whole analysis calls for action exactly when some parameter's value
      is outside its outer band. */
  lemma AnalysisNeedsAction(r: Readings)
    ensures BungalowSelector.GetOverallStatus(Some(AnalyzeReadings(r))) == ActionRequired
            <==> exists i :: 0 <= i < 8 && OutOfBounds(r, ParamOrder[i])
  {
    var rs := AnalyzeReadings(r);
    var s := BungalowSelector.GetOverallStatus(Some(rs));
    if s == ActionRequired {
      var i :| 0 <= i < |rs| && rs[i].status == s;
      ResultVerdict(r, ParamOrder[i]);
      assert OutOfBounds(r, ParamOrder[i]);
    }
    if i :| 0 <= i < 8 && OutOfBounds(r, ParamOrder[i]) {
      ResultVerdict(r, ParamOrder[i]);
      assert rs[i].status == ActionRequired;
      assert Severity(ActionRequired) <= Severity(s);
    }
  }

  /** The eight result names are pairwise distinct, so they serve as card keys. */
  lemma ResultNamesDistinct(r: Readings)
    ensures forall i, j :: 0 <= i < j < 8 ==> AnalyzeReadings(r)[i].parameter != AnalyzeReadings(r)[j].parameter
  {
    var rs := AnalyzeReadings(r);
    forall i, j | 0 <= i < j < 8
      ensures rs[i].parameter != rs[j].parameter
    {
      assert rs[i].parameter == DisplayName(ParamOrder[i]);
      assert rs[j].parameter == DisplayName(ParamOrder[j]);
      OrderDistinct(i, j);
      NamesDiffer(ParamOrder[i], ParamOrder[j]);
    }
  }

  lemma OrderDistinct(i: int, j: int)
    requires 0 <= i < j < |ParamOrder|
    ensures ParamOrder[i] != ParamOrder[j]
  {
  }

  lemma NamesDiffer(p: Param, q: Param)
    requires p != q
    ensures DisplayName(p) != DisplayName(q)
  {
  }

  /** The worked example: factors 0.7, 2.1 and 2.0 with TDS factor 12.2 give
      an index of 0.1, which is Ideal and balanced. */
  lemma WorkedExample(chlorine: real, flow: real)
    ensures var r := Readings(7.5, chlorine, 100.0, 300.0, 85.0, 1000.0, flow);
            && Factor(85.0, TempPoints) == 0.7
            && Factor(300.0, CalciumPoints) == 2.1
            && Factor(100.0, AlkalinityPoints) == 2.0
            && TdsFactor(1000.0) == 12.2
            && LsiValue(r) == 0.1
            && AnalyzeReadings(r)[7].status == Ideal
            && AnalyzeReadings(r)[7].message == Text(LsiBalanced)
  {
    var r := Readings(7.5, chlorine, 100.0, 300.0, 85.0, 1000.0, flow);
    TempTableOrdered();
    CalciumTableOrdered();
    AlkalinityTableOrdered();
    FactorOfSegment(85.0, TempPoints, 7);
    FactorOfSegment(300.0, CalciumPoints, 6);
    FactorOfSegment(100.0, AlkalinityPoints, 3);
    assert LsiRaw(r) == 0.1;
    Round2Fixes(0.1);
  }

  /** The index is classified after rounding: a raw index of 0.304 is above
      the ideal band but its rounded value 0.3 is Ideal. */
  lemma ClassifiedAfterRounding()
    ensures GetStatus(0.304, RangeFor(Lsi)) == Acceptable
    ensures Round2(0.304) == 0.3
    ensures GetStatus(Round2(0.304), RangeFor(Lsi)) == Ideal
  {
    assert (0.304 * 100.0 + 0.5).Floor == 30;
  }
}
