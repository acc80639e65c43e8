/** The per-bungalow store of the application: initialisation, submission
    and the projection handed to the picker. */
module App {
  import opened PoolTypes
  import opened PoolAnalyzer
  import BungalowSelector

  const BungalowCount: nat := 20

  /** The store: bungalow id to its state. */
  type Store = map<int, BungalowState>

  /** The default readings of a fresh bungalow. The default record in App.tsx
      has no flow field, so the value standing in for it is a parameter. */
  function DefaultReadings(flow: real): Readings
  {
    Readings(7.5, 3.0, 100.0, 300.0, 85.0, 1000.0, flow)
  }

  function InitialState(flow: real): BungalowState
  {
    BungalowState(DefaultReadings(flow), None, "")
  }

  /** Ids 1..BungalowCount. */
  predicate IsId(i: int)
  {
    1 <= i <= BungalowCount
  }

  /** A store holds exactly the ids 1..BungalowCount. */
  ghost predicate Valid(store: Store)
  {
    forall i :: i in store <==> IsId(i)
  }

  /** Fills ids 1..BungalowCount with fresh states, one at a time. */
  method InitializeBungalows(defaultFlow: real) returns (store: Store)
    ensures forall i :: i in store <==> 1 <= i <= BungalowCount
    ensures forall i :: i in store ==>
              store[i].results.None? && store[i].attendantName == "" &&
              store[i].readings == DefaultReadings(defaultFlow)
  {
    store := map[];
    var i := 1;
    while i <= BungalowCount
      invariant 1 <= i <= BungalowCount + 1
      invariant forall k :: k in store <==> 1 <= k < i
      invariant forall k :: k in store ==> store[k] == InitialState(defaultFlow)
    {
      store := store[i := InitialState(defaultFlow)];
      i := i + 1;
    }
  }

  /** Submitting readings for the selected bungalow replaces its whole state
      with the readings, their analysis and the attendant's name; every other
      entry is left as it was. */
  function Submit(store: Store, selected: int, readings: Readings, attendantName: string): (next: Store)
    ensures next.Keys == store.Keys + {selected}
    ensures next[selected].readings == readings
    ensures next[selected].attendantName == attendantName
    ensures next[selected].results == Some(AnalyzeReadings(readings))
    ensures next[selected].results.Some? && |next[selected].results.value| == 8
    ensures forall k :: k in store && k != selected ==> next[k] == store[k]
  {
    store[selected := BungalowState(readings, Some(AnalyzeReadings(readings)), attendantName)]
  }

  /** A submit for a listed bungalow keeps the store valid. */
  lemma SubmitKeepsValid(store: Store, selected: int, readings: Readings, attendantName: string)
    requires Valid(store) && IsId(selected)
    ensures Valid(Submit(store, selected, readings, attendantName))
  {
  }

  /** Every entry is either still fresh or holds the analysis of its own readings. */
  ghost predicate Coherent(store: Store, flow: real)
  {
    forall i :: i in store ==>
      store[i] == InitialState(flow) || store[i].results == Some(AnalyzeReadings(store[i].readings))
  }

  /** Submitting keeps every entry coherent, because it replaces the whole entry. */
  lemma SubmitKeepsCoherent(store: Store, flow: real, selected: int, readings: Readings, attendantName: string)
    requires Coherent(store, flow)
    ensures Coherent(Submit(store, selected, readings, attendantName), flow)
  {
  }

  /** Position i holds the results of bungalow i + 1. */
  function AllBungalowResults(store: Store): (all: seq<Option<seq<AnalysisResult>>>)
    requires Valid(store)
    ensures |all| == BungalowCount
    ensures forall i :: 0 <= i < BungalowCount ==> all[i] == store[i + 1].results
  {
    seq(BungalowCount, i requires 0 <= i < BungalowCount && Valid(store) => store[i + 1].results)
  }

  /** After a submit the projection changes at the selected position only. */
  lemma SubmitChangesOnePosition(store: Store, selected: int, readings: Readings, attendantName: string)
    requires Valid(store) && IsId(selected)
    ensures Valid(Submit(store, selected, readings, attendantName))
    ensures var before := AllBungalowResults(store);
            var after := AllBungalowResults(Submit(store, selected, readings, attendantName));
            && after[selected - 1] == Some(AnalyzeReadings(readings))
            && forall i :: 0 <= i < BungalowCount && i != selected - 1 ==> after[i] == before[i]
  {
  }

  /** Each button of the picker shows the aggregate of its own bungalow's results. */
  lemma ButtonsShowOwnBungalow(store: Store, selectedId: int)
    requires Valid(store)
    ensures var bs := BungalowSelector.Buttons(BungalowCount, AllBungalowResults(store), selectedId);
            forall id :: IsId(id) ==>
              && bs[id - 1].id == id
              && (bs[id - 1].dot.None? <==> store[id].results.None?)
              && (store[id].results.Some? ==>
                    bs[id - 1].dot == Some(BungalowSelector.StatusColor(BungalowSelector.GetOverallStatus(store[id].results))))
  {
  }
}
