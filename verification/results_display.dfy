/** The results panel: its own copy of the worst-of rule, the summary card,
    and one parameter card per result. */
module ResultsDisplay {
  import opened PoolTypes
  import opened Constants
  import BungalowSelector

  /** The panel's inline aggregation of a (never null) result list. */
  function OverallStatus(results: seq<AnalysisResult>): (s: Status)
    ensures s == BungalowSelector.GetOverallStatus(Some(results))
  {
    if exists i :: 0 <= i < |results| && results[i].status == ActionRequired then ActionRequired
    else if exists i :: 0 <= i < |results| && results[i].status == Acceptable then Acceptable
    else Ideal
  }

  const OutsideStandards := "One or more parameters are outside of our quality standards. See details below for required actions."
  const WithinStandards := "All readings are within quality standards. Great job maintaining the pristine water for our guests."

  const HeadingAction := "Action Required"
  const HeadingGood := "Overall Status: Good"

  /** The summary icon: a warning sign or a check mark. */
  datatype SummaryIcon = Warning | Check

  datatype SummaryCard = SummaryCard(status: Status, heading: string, message: string, icon: SummaryIcon, style: Style)

  /** One card per result; its key is the parameter name. */
  datatype ParameterCard = ParameterCard(key: string, result: AnalysisResult, style: Style)

  datatype Panel = Panel(summary: SummaryCard, cards: seq<ParameterCard>)

  /** The summary card of an overall status: the alarm heading, text and
      warning icon exactly for ActionRequired, and the status's own style. */
  function Summary(status: Status): (card: SummaryCard)
    ensures card.status == status
    ensures card.heading == (if status == ActionRequired then HeadingAction else HeadingGood)
    ensures card.message == (if status == ActionRequired then OutsideStandards else WithinStandards)
    ensures card.icon == (if status == ActionRequired then Warning else Check)
    ensures card.style == StatusStyle(status)
  {
    var alarm := status == ActionRequired;
    SummaryCard(status,
                if alarm then HeadingAction else HeadingGood,
                if alarm then OutsideStandards else WithinStandards,
                if alarm then Warning else Check,
                StatusStyle(status))
  }

  /** The panel says "outside of our quality standards" exactly when some
      result requires action, and renders one card per result in order. */
  function Render(results: seq<AnalysisResult>): (p: Panel)
    ensures p.summary.message == OutsideStandards <==>
              exists i :: 0 <= i < |results| && results[i].status == ActionRequired
    ensures p.summary.heading == HeadingGood <==>
              forall i :: 0 <= i < |results| ==> results[i].status != ActionRequired
    ensures p.summary.status == OverallStatus(results)
    ensures p.summary.style == StatusStyle(p.summary.status)
    ensures var alarm := exists i :: 0 <= i < |results| && results[i].status == ActionRequired;
            && p.summary.message == (if alarm then OutsideStandards else WithinStandards)
            && p.summary.heading == (if alarm then HeadingAction else HeadingGood)
            && p.summary.icon == (if alarm then Warning else Check)
    ensures |p.cards| == |results|
    ensures forall i :: 0 <= i < |results| ==>
              p.cards[i].result == results[i] && p.cards[i].key == results[i].parameter
              && p.cards[i].style == StatusStyle(results[i].status)
  {
    var status := OverallStatus(results);
    Panel(Summary(status),
          seq(|results|, i requires 0 <= i < |results| =>
            ParameterCard(results[i].parameter, results[i], StatusStyle(results[i].status))))
  }

  /** Acceptable and Ideal panels carry the same words and icon; only the colours differ. */
  lemma GoodSummariesAlike()
    ensures Summary(Acceptable).heading == Summary(Ideal).heading == HeadingGood
    ensures Summary(Acceptable).message == Summary(Ideal).message == WithinStandards
    ensures Summary(Acceptable).icon == Summary(Ideal).icon
    ensures Summary(Acceptable).style != Summary(Ideal).style
  {
  }
}
