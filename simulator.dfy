/** The page that drives playback of a precomputed spread: which dataset a tab
    shows, the play/pause toggle, and the timer tick that advances the day and
    publishes that day's points. The points themselves are opaque (`P`). */
module Simulator {
  import opened Js

  /** The three JSON files the page can show. */
  datatype Dataset = Historical | HistoricalPercent | Output

  /** One entry of a dataset: an object whose key `day_<n>` holds the points of day n. */
  type DayRecord<P> = map<string, seq<P>>

  /** What a tab change sets: the country label and the dataset. */
  datatype Selection = Selection(country: string, dataset: Dataset)

  /** The tab effect: the historical tab shows China, from the cumulative file or,
      for any other display type, the percent file; the simulator tab shows India
      from the output file; any other tab value changes nothing. */
  function SelectDataset(tab: string, displayType: string): (r: Option<Selection>)
    ensures r.Some? <==> tab == "historical" || tab == "simulator"
    ensures r.Some? ==> (r.value.country == "China" <==> tab == "historical")
    ensures r.Some? ==> (r.value.country == "India" <==> tab == "simulator")
    ensures r.Some? ==> (r.value.dataset == Output <==> tab == "simulator")
    ensures tab == "historical" ==> (r.value.dataset == Historical <==> displayType == "cumulative_cases")
    ensures tab == "historical" ==> (r.value.dataset == HistoricalPercent <==> displayType != "cumulative_cases")
  {
    if tab == "historical" then
      Some(Selection("China", if displayType == "cumulative_cases" then Historical else HistoricalPercent))
    else if tab == "simulator" then
      Some(Selection("India", Output))
    else
      None
  }

  // The key of a day: the template literal `day_${simulationDay}`.

  function Digit(d: nat): char
    requires d < 10
  {
    "0123456789"[d]
  }

  /** The decimal numeral of n, as JavaScript prints a non-negative integer. */
  function Decimal(n: nat): (s: string)
    ensures |s| >= 1
    ensures n >= 10 <==> |s| >= 2
    decreases n
  {
    if n < 10 then [Digit(n)] else Decimal(n / 10) + [Digit(n % 10)]
  }

  function DayKey(day: nat): string {
    "day_" + Decimal(day)
  }

  /** Different numbers have different numerals. */
  lemma {:induction false} DecimalInjective(a: nat, b: nat)
    requires Decimal(a) == Decimal(b)
    ensures a == b
    decreases a
  {
    if a >= 10 {
      var sa, sb := Decimal(a), Decimal(b);
      assert sa[|sa| - 1] == Digit(a % 10) && sb[|sb| - 1] == Digit(b % 10);
      assert sa[..|sa| - 1] == Decimal(a / 10) && sb[..|sb| - 1] == Decimal(b / 10);
      DecimalInjective(a / 10, b / 10);
    }
  }

  /** Every day reads its own key: different days never share one. */
  lemma DayKeyInjective(a: nat, b: nat)
    requires DayKey(a) == DayKey(b)
    ensures a == b
  {
    assert Decimal(a) == DayKey(a)[4..] == DayKey(b)[4..] == Decimal(b);
    DecimalInjective(a, b);
  }

  /** `spreadData[day][dayKey]`: the points under the day's key, or `undefined`
      (None) when the record has no such key. */
  function PointsOfDay<P>(record: DayRecord<P>, day: nat): Option<seq<P>> {
    if DayKey(day) in record then Some(record[DayKey(day)]) else None
  }

  /** The playback part of the page state. */
  datatype Playback<P> = Playback(running: bool, day: nat, pointData: Option<seq<P>>)

  /** `toggleSimulation`: flips `running`; starting from stopped also restarts at
      day 1, stopping keeps the day. The points on display are untouched. */
  function Toggle<P>(p: Playback<P>): (q: Playback<P>)
    ensures q.running == !p.running
    ensures q.day == (if p.running then p.day else 1)
    ensures q.pointData == p.pointData
  {
    Playback(!p.running, if p.running then p.day else 1, p.pointData)
  }

  /** Two toggles in a row restart playback in the same running state at day 1. */
  lemma ToggleTwiceRestarts<P>(p: Playback<P>)
    ensures Toggle(Toggle(p)) == Playback(p.running, 1, p.pointData)
  {
  }

  /** One timer tick: while running with a day inside the dataset it shows that
      day's points and moves on by one day; otherwise it changes nothing. */
  function Tick<P>(p: Playback<P>, data: seq<DayRecord<P>>): (q: Playback<P>)
    ensures q.running == p.running
    ensures p.running && p.day < |data| ==> q.day == p.day + 1 && q.pointData == PointsOfDay(data[p.day], p.day)
    ensures !(p.running && p.day < |data|) ==> q == p
  {
    if p.running && p.day < |data| then Playback(p.running, p.day + 1, PointsOfDay(data[p.day], p.day))
    else p
  }

  /** n ticks in a row. */
  function Ticks<P>(p: Playback<P>, data: seq<DayRecord<P>>, n: nat): Playback<P>
    decreases n
  {
    if n == 0 then p else Tick(Ticks(p, data, n - 1), data)
  }

  /** From a day inside the dataset (or just past it), ticks never take the day
      beyond the dataset's length, and they never touch `running`. */
  lemma {:induction false} TicksStayWithinLength<P>(p: Playback<P>, data: seq<DayRecord<P>>, n: nat)
    requires p.day <= |data|
    ensures Ticks(p, data, n).day <= |data|
    ensures Ticks(p, data, n).running == p.running
    ensures p.day <= Ticks(p, data, n).day
  {
    if n > 0 {
      TicksStayWithinLength(p, data, n - 1);
    }
  }

  /** While running, n ticks that stay inside the dataset advance the day by exactly
      n and leave on display the points of the last day shown. */
  lemma {:induction false} RunningTicksReplayDays<P>(p: Playback<P>, data: seq<DayRecord<P>>, n: nat)
    requires p.running && p.day + n <= |data|
    ensures Ticks(p, data, n).day == p.day + n
    ensures Ticks(p, data, n).running
    ensures n > 0 ==> Ticks(p, data, n).pointData == PointsOfDay(data[p.day + n - 1], p.day + n - 1)
  {
    if n > 0 {
      RunningTicksReplayDays(p, data, n - 1);
    }
  }

  /** A stopped playback, or one that has reached the end of the dataset, stays as
      it is however many ticks fire. */
  lemma {:induction false} InertTicksChangeNothing<P>(p: Playback<P>, data: seq<DayRecord<P>>, n: nat)
    requires !p.running || p.day >= |data|
    ensures Ticks(p, data, n) == p
  {
    if n > 0 {
      InertTicksChangeNothing(p, data, n - 1);
    }
  }

  /** The page component's state. `spreadData` holds the contents of the selected
      dataset; `pointData` is None where the source would hold `undefined`. */
  class PandemicSimulator<P> {
    var selectedCountry: string
    var displayType: string
    var currTab: string
    var simulationRunning: bool
    var simulationDay: nat
    var pointData: Option<seq<P>>
    var spreadData: seq<DayRecord<P>>

    function State(): Playback<P>
      reads this
    {
      Playback(simulationRunning, simulationDay, pointData)
    }

    /** The initial `useState` values. */
    constructor()
      ensures selectedCountry == "China" && displayType == "cumulative_cases" && currTab == "historical"
      ensures State() == Playback(false, 1, Some([]))
      ensures spreadData == []
    {
      selectedCountry := "China";
      displayType := "cumulative_cases";
      currTab := "historical";
      simulationRunning := false;
      simulationDay := 1;
      pointData := Some([]);
      spreadData := [];
    }

    /** The display-type selector; it does not reload the dataset by itself. */
    method SetDisplayType(d: string)
      modifies this
      ensures displayType == d
      ensures selectedCountry == old(selectedCountry) && currTab == old(currTab)
      ensures State() == old(State()) && spreadData == old(spreadData)
    {
      displayType := d;
    }

    /** The tab effect for the current tab and display type; `files` gives each
        dataset's contents. React runs it once on mount and then whenever `currTab`
        changes: its dependency list is `[currTab]` alone. */
    method LoadTab(files: Dataset -> seq<DayRecord<P>>)
      modifies this
      ensures currTab == old(currTab) && displayType == old(displayType)
      ensures State() == old(State())
      ensures SelectDataset(currTab, displayType).Some? ==>
                var sel := SelectDataset(currTab, displayType).value;
                selectedCountry == sel.country && spreadData == files(sel.dataset)
      ensures SelectDataset(currTab, displayType).None? ==>
                selectedCountry == old(selectedCountry) && spreadData == old(spreadData)
    {
      if currTab == "historical" {
        selectedCountry := "China";
        if displayType == "cumulative_cases" {
          spreadData := files(Historical);
        } else {
          spreadData := files(HistoricalPercent);
        }
      }
      if currTab == "simulator" {
        selectedCountry := "India";
        spreadData := files(Output);
      }
    }

    /** A tab click: the tab is set, and the effect runs only if the tab changed, so
        choosing the current tab again reloads nothing. */
    method ChangeTab(tab: string, files: Dataset -> seq<DayRecord<P>>)
      modifies this
      ensures currTab == tab && displayType == old(displayType)
      ensures State() == old(State())
      ensures tab == old(currTab) ==>
                selectedCountry == old(selectedCountry) && spreadData == old(spreadData)
      ensures tab != old(currTab) && SelectDataset(tab, displayType).Some? ==>
                var sel := SelectDataset(tab, displayType).value;
                selectedCountry == sel.country && spreadData == files(sel.dataset)
      ensures tab != old(currTab) && SelectDataset(tab, displayType).None? ==>
                selectedCountry == old(selectedCountry) && spreadData == old(spreadData)
    {
      var changed := tab != currTab;
      currTab := tab;
      if changed {
        LoadTab(files);
      }
    }

    method ToggleSimulation()
      modifies this
      ensures State() == Toggle(old(State()))
      ensures selectedCountry == old(selectedCountry) && displayType == old(displayType)
      ensures currTab == old(currTab) && spreadData == old(spreadData)
    {
      var wasRunning := simulationRunning;
      simulationRunning := !simulationRunning;
      if !wasRunning {
        simulationDay := 1;
      }
    }

    /** The body of the interval callback. */
    method OnTick()
      modifies this
      ensures State() == Tick(old(State()), old(spreadData))
      ensures selectedCountry == old(selectedCountry) && displayType == old(displayType)
      ensures currTab == old(currTab) && spreadData == old(spreadData)
    {
      if simulationRunning && simulationDay < |spreadData| {
        var dayKey := DayKey(simulationDay);
        pointData := if dayKey in spreadData[simulationDay] then Some(spreadData[simulationDay][dayKey]) else None;
        simulationDay := simulationDay + 1;
      }
    }
  }
}
