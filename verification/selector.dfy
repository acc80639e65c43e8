/** The bungalow picker: worst-of aggregation of a bungalow's results and
    the status dot of each button. */
module BungalowSelector {
  import opened PoolTypes
  import Constants

  /** Some result has the given status. */
  predicate AnyHas(results: seq<AnalysisResult>, s: Status)
  {
    exists i :: 0 <= i < |results| && results[i].status == s
  }

  /** No results count as Ideal; otherwise ActionRequired wins over
      Acceptable, which wins over Ideal. The outcome is the most severe
      status present: it bounds every result and is attained by one. */
  function GetOverallStatus(results: Option<seq<AnalysisResult>>): (s: Status)
    ensures results.None? ==> s == Ideal
    ensures results.Some? ==>
              forall i :: 0 <= i < |results.value| ==> Severity(results.value[i].status) <= Severity(s)
    ensures results.Some? && |results.value| > 0 ==>
              exists i :: 0 <= i < |results.value| && results.value[i].status == s
    ensures results.Some? && |results.value| == 0 ==> s == Ideal
  {
    match results
    case None => Ideal
    case Some(rs) =>
      if AnyHas(rs, ActionRequired) then ActionRequired
      else if AnyHas(rs, Acceptable) then Acceptable
      else
        assert |rs| > 0 ==> rs[0].status == Ideal;
        Ideal
  }

  /** The most severe status of a list, as a left fold. */
  function Worst(results: seq<AnalysisResult>): Status
  {
    if |results| == 0 then Ideal
    else
      var rest := Worst(results[..|results| - 1]);
      var last := results[|results| - 1].status;
      if Severity(last) > Severity(rest) then last else rest
  }

  lemma SeverityInjective(s: Status, t: Status)
    ensures Severity(s) == Severity(t) ==> s == t
  {
  }

  /** The fold and the three-way test agree on every list. */
  lemma {:induction false} OverallIsFold(results: seq<AnalysisResult>)
    ensures GetOverallStatus(Some(results)) == Worst(results)
    decreases |results|
  {
    if |results| > 0 {
      var front := results[..|results| - 1];
      OverallIsFold(front);
      var o := GetOverallStatus(Some(results));
      var w := Worst(results);
      var k :| 0 <= k < |results| && results[k].status == o;
      if k < |results| - 1 {
        assert front[k] == results[k];
      }
      var f := GetOverallStatus(Some(front));
      if |front| > 0 {
        var j :| 0 <= j < |front| && front[j].status == f;
        assert results[j] == front[j];
      }
      forall i | 0 <= i < |front|
        ensures Severity(front[i].status) <= Severity(o)
      {
        assert front[i] == results[i];
      }
      SeverityInjective(o, w);
    }
  }

  /** Reordering the results does not change the aggregate. */
  lemma OverallPermutationInvariant(a: seq<AnalysisResult>, b: seq<AnalysisResult>)
    requires multiset(a) == multiset(b)
    ensures GetOverallStatus(Some(a)) == GetOverallStatus(Some(b))
  {
    var sa := GetOverallStatus(Some(a));
    var sb := GetOverallStatus(Some(b));
    assert |a| == |multiset(a)| == |multiset(b)| == |b|;
    if |a| > 0 {
      var i :| 0 <= i < |a| && a[i].status == sa;
      assert a[i] in multiset(b);
      var j :| 0 <= j < |b| && b[j] == a[i];
      var k :| 0 <= k < |b| && b[k].status == sb;
      assert b[k] in multiset(a);
      var l :| 0 <= l < |a| && a[l] == b[k];
      SeverityInjective(sa, sb);
    }
  }

  /** The dot colour of each overall status. */
  datatype DotColor = Green | Yellow | Red

  /** The dot has the colour family of the status's card border. */
  function StatusColor(s: Status): (c: DotColor)
    ensures c == Green <==> Constants.StatusStyle(s).border == "border-green-500"
    ensures c == Yellow <==> Constants.StatusStyle(s).border == "border-yellow-500"
    ensures c == Red <==> Constants.StatusStyle(s).border == "border-red-500"
  {
    match s
    case Ideal => Green
    case Acceptable => Yellow
    case ActionRequired => Red
  }

  /** One button of the picker. The dot is hidden when the bungalow has no results. */
  datatype Button = Button(id: int, selected: bool, dot: Option<DotColor>)

  /** The results a button reads: position id - 1 of the list, or none past its end. */
  function ResultsOf(bungalowResults: seq<Option<seq<AnalysisResult>>>, id: int): (r: Option<seq<AnalysisResult>>)
    requires id >= 1
    ensures id <= |bungalowResults| ==> r == bungalowResults[id - 1]
    ensures id > |bungalowResults| ==> r.None?
  {
    if id <= |bungalowResults| then bungalowResults[id - 1] else None
  }

  /** Buttons 1..count, each showing the aggregate of the results it reads. */
  function Buttons(count: nat, bungalowResults: seq<Option<seq<AnalysisResult>>>, selectedId: int): (bs: seq<Button>)
    ensures |bs| == count
    ensures forall i :: 0 <= i < count ==>
              && bs[i].id == i + 1
              && (bs[i].selected <==> i + 1 == selectedId)
              && (bs[i].dot.None? <==> ResultsOf(bungalowResults, i + 1).None?)
              && (bs[i].dot.Some? ==> bs[i].dot.value == StatusColor(GetOverallStatus(ResultsOf(bungalowResults, i + 1))))
  {
    seq(count, i requires 0 <= i < count =>
      var results := ResultsOf(bungalowResults, i + 1);
      Button(i + 1, i + 1 == selectedId,
             if results.None? then None else Some(StatusColor(GetOverallStatus(results)))))
  }
}
