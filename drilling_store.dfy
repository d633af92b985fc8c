/**
 * The drilling store: the wells, which well is selected, loading and error flags, the chart
 * timeframe and the set of drilling parameters the charts show. Each action is a method
 * that updates the store's fields; the selection rules are stated on pure functions.
 */
module DrillingStore {
  import opened Wrappers
  import opened Sequences
  import opened DrillingTypes
  import opened DrillingData

  /** The parameters shown when the store is created. */
  const DefaultParameters: seq<string> := ["rop", "wob", "torque", "rpm"]

  /** `wells[0]?.wellId || null`: absent when there are no wells or the first id is empty. */
  function FirstWellId(wells: seq<WellDrillingData>): (r: Option<string>)
    ensures r.Some? <==> |wells| > 0 && wells[0].wellId != ""
    ensures r.Some? ==> r.value == wells[0].wellId
  {
    if |wells| > 0 && wells[0].wellId != "" then Some(wells[0].wellId) else None
  }

  /** `filter(q => q !== p)`: every element other than `p`, in order. */
  function Without(s: seq<string>, p: string): (r: seq<string>)
    ensures forall q :: q in r <==> q in s && q != p
    ensures p !in s ==> r == s
  {
    if |s| == 0 then []
    else if s[0] == p then Without(s[1..], p)
    else [s[0]] + Without(s[1..], p)
  }

  /** What is left after filtering is taken from the original in order. */
  lemma {:induction false} WithoutIsSubsequence(s: seq<string>, p: string)
    ensures IsSubsequence(Without(s, p), s)
  {
    if |s| > 0 {
      WithoutIsSubsequence(s[1..], p);
      if s[0] != p {
        assert Without(s, p)[1..] == Without(s[1..], p);
      } else {
        SubsequenceTail(Without(s, p), s[1..], s[0]);
        assert [s[0]] + s[1..] == s;
      }
    }
  }

  /** `toggleParameter`: remove a selected parameter unless it is the only one, else append it. */
  function Toggled(selected: seq<string>, p: string): seq<string> {
    if p in selected then
      if |selected| <= 1 then selected else Without(selected, p)
    else selected + [p]
  }

  lemma NoDuplicatesWithout(s: seq<string>, p: string)
    requires NoDuplicates(s)
    ensures NoDuplicates(Without(s, p))
  {
    WithoutIsSubsequence(s, p);
    SubsequenceNoDuplicates(Without(s, p), s);
  }

  /**
   * A non-empty selection without duplicates stays so: the last parameter cannot be
   * removed, and a parameter is only appended when it is not already selected.
   */
  lemma ToggledKeepsSelection(selected: seq<string>, p: string)
    requires |selected| >= 1 && NoDuplicates(selected)
    ensures |Toggled(selected, p)| >= 1 && NoDuplicates(Toggled(selected, p))
  {
    if p in selected && |selected| > 1 {
      NoDuplicatesWithout(selected, p);
      var i :| 0 <= i < |selected| && selected[i] == p;
      var j := if i == 0 then 1 else 0;
      assert selected[j] in Without(selected, p);
    }
  }

  /**
   * What toggling does to membership: a selected parameter (not the only one) is removed and
   * every other one kept in order; an unselected one is appended at the end; the only
   * selected parameter stays.
   */
  lemma ToggledMembership(selected: seq<string>, p: string)
    ensures p in selected && |selected| > 1 ==>
              p !in Toggled(selected, p)
              && (forall q :: q != p ==> (q in Toggled(selected, p) <==> q in selected))
              && IsSubsequence(Toggled(selected, p), selected)
    ensures p !in selected ==> Toggled(selected, p) == selected + [p]
    ensures selected == [p] ==> Toggled(selected, p) == selected
  {
    WithoutIsSubsequence(selected, p);
  }

  /** Toggling an unselected parameter twice restores the selection. */
  lemma ToggleTwiceRestores(selected: seq<string>, p: string)
    requires |selected| >= 1 && p !in selected
    ensures Toggled(Toggled(selected, p), p) == selected
  {
    WithoutAppended(selected, p);
  }

  lemma {:induction false} WithoutAppended(s: seq<string>, p: string)
    requires p !in s
    ensures Without(s + [p], p) == s
  {
    if |s| == 0 {
      assert [] + [p] == [p];
    } else {
      assert (s + [p])[1..] == s[1..] + [p];
      WithoutAppended(s[1..], p);
      assert [s[0]] + s[1..] == s;
    }
  }

  class Store {
    /** The data a fetch loads (the module's mock wells). */
    const seedWells: seq<WellDrillingData>

    var wells: seq<WellDrillingData>
    var selectedWellId: Option<string>
    var isLoading: bool
    var error: Option<string>
    var chartTimeframe: Timeframe
    var selectedParameters: seq<string>

    /** At least one parameter is always selected, and none twice. */
    predicate Valid()
      reads this
    {
      |selectedParameters| >= 1 && NoDuplicates(selectedParameters)
    }

    constructor(seed: seq<WellDrillingData>)
      ensures Valid()
      ensures seedWells == seed && wells == [] && selectedWellId == None
      ensures !isLoading && error == None
      ensures chartTimeframe == LastSixHours && selectedParameters == DefaultParameters
    {
      seedWells := seed;
      wells := [];
      selectedWellId := None;
      isLoading := false;
      error := None;
      chartTimeframe := LastSixHours;
      selectedParameters := DefaultParameters;
    }

    /** The first half of `fetchWells`, before the simulated delay. */
    method BeginFetchWells()
      requires Valid()
      modifies this
      ensures Valid()
      ensures isLoading && error == None
      ensures wells == old(wells) && selectedWellId == old(selectedWellId)
      ensures chartTimeframe == old(chartTimeframe) && selectedParameters == old(selectedParameters)
    {
      isLoading := true;
      error := None;
    }

    /** The second half of `fetchWells`: load the seed and select its first well. */
    method FinishFetchWells()
      requires Valid()
      modifies this
      ensures Valid()
      ensures wells == seedWells && !isLoading && selectedWellId == FirstWellId(seedWells)
      ensures error == old(error)
      ensures chartTimeframe == old(chartTimeframe) && selectedParameters == old(selectedParameters)
    {
      wells := seedWells;
      isLoading := false;
      selectedWellId := FirstWellId(seedWells);
    }

    /** `fetchWells` without the delay: the store ends loaded, not loading and without error. */
    method FetchWells()
      requires Valid()
      modifies this
      ensures Valid()
      ensures wells == seedWells && !isLoading && error == None
      ensures selectedWellId == FirstWellId(seedWells)
      ensures chartTimeframe == old(chartTimeframe) && selectedParameters == old(selectedParameters)
    {
      BeginFetchWells();
      FinishFetchWells();
    }

    /** `updateWellData`: nothing to do without wells, otherwise one tick of every well. */
    method UpdateWellData(draws: seq<WellDraws>, now: int)
      requires |draws| == |wells|
      requires forall i :: 0 <= i < |wells| ==> TickReady(wells[i], now)
      requires Valid()
      modifies this
      ensures Valid()
      ensures wells == if |old(wells)| == 0 then old(wells) else UpdateDrillingData(old(wells), draws, now)
      ensures selectedWellId == old(selectedWellId) && isLoading == old(isLoading) && error == old(error)
      ensures chartTimeframe == old(chartTimeframe) && selectedParameters == old(selectedParameters)
    {
      if |wells| == 0 {
        return;
      }
      var updatedWells := UpdateDrillingData(wells, draws, now);
      wells := updatedWells;
    }

    method SelectWell(wellId: string)
      requires Valid()
      modifies this
      ensures Valid()
      ensures selectedWellId == Some(wellId)
      ensures wells == old(wells) && isLoading == old(isLoading) && error == old(error)
      ensures chartTimeframe == old(chartTimeframe) && selectedParameters == old(selectedParameters)
    {
      selectedWellId := Some(wellId);
    }

    method SetChartTimeframe(timeframe: Timeframe)
      requires Valid()
      modifies this
      ensures Valid()
      ensures chartTimeframe == timeframe
      ensures wells == old(wells) && selectedWellId == old(selectedWellId)
      ensures isLoading == old(isLoading) && error == old(error)
      ensures selectedParameters == old(selectedParameters)
    {
      chartTimeframe := timeframe;
    }

    method ToggleParameter(parameter: string)
      requires Valid()
      modifies this
      ensures Valid()
      ensures selectedParameters == Toggled(old(selectedParameters), parameter)
      ensures wells == old(wells) && selectedWellId == old(selectedWellId)
      ensures isLoading == old(isLoading) && error == old(error) && chartTimeframe == old(chartTimeframe)
    {
      ToggledKeepsSelection(selectedParameters, parameter);
      var isSelected := parameter in selectedParameters;
      if isSelected {
        if |selectedParameters| <= 1 {
          return;
        }
        selectedParameters := Without(selectedParameters, parameter);
      } else {
        selectedParameters := selectedParameters + [parameter];
      }
    }
  }
}
