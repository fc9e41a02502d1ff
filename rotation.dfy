/** The main loop: when the plant list is refreshed, what a failed refresh
    does, which plant is shown and how the index moves on, and how the loop
    ends.  Time is an input in whole seconds and every sleep is returned as
    a duration; the fetch and the display call are inputs too. */
module Rotation {
  import opened Wrappers
  import opened Prometheus

  /** The pause after a refresh that brought no plants. */
  const BackoffSeconds: nat := 10

  /** Running, or ended with a process exit status after clearing the
      display (0 for a keyboard interrupt, 1 for any other exception). */
  datatype Phase = Running | Stopped(exitCode: int)

  /** The loop's locals `plants_data`, `plant_index`, `last_data_update`,
      and whether the loop still runs. */
  datatype LoopState = LoopState(plants: seq<Plant>, index: nat, lastUpdate: int, phase: Phase)

  /** What one pass of the loop did: whether it fetched, which index it
      showed, and how long it then sleeps. */
  datatype TickReport = TickReport(refreshed: bool, shown: Option<nat>, sleep: nat)

  /** The index is in bounds whenever there is a list to index. */
  predicate ValidState(s: LoopState) {
    s.plants == [] || s.index < |s.plants|
  }

  const InitialState := LoopState([], 0, 0, Running)

  predicate RefreshDue(s: LoopState, queryInterval: int, now: int) {
    now - s.lastUpdate >= queryInterval || s.plants == []
  }

  /** The record's status can be read as the loop reads it: `is_online`
      first, and `time_since_update` only for an offline record. */
  predicate StatusReadable(p: Plant) {
    p.isOnline.Some? && (!p.isOnline.value ==> p.secondsSinceUpdate.Some?)
  }

  /** One pass of the loop body.  A fetch that raises, or a shown record
      whose status is missing (a KeyError), ends the loop with status 1. */
  function Step(s: LoopState, queryInterval: int, rotationInterval: nat, now: int, fetch: Result<seq<Plant>, Exception>)
    : (r: (LoopState, TickReport))
    requires s.phase == Running && ValidState(s)
    ensures ValidState(r.0)
    ensures r.1.refreshed <==> RefreshDue(s, queryInterval, now)
    ensures r.1.shown.Some? ==>
      && r.0.phase == Running
      && r.1.shown.value < |r.0.plants|
      && r.0.index == (r.1.shown.value + 1) % |r.0.plants|
      && r.1.sleep == rotationInterval
    ensures r.1.refreshed && fetch == Success([]) ==>
      r.0 == s.(plants := []) && r.1 == TickReport(true, None, BackoffSeconds)
    ensures r.1.refreshed && fetch.Success? && fetch.value != [] ==>
      && r.0.plants == fetch.value
      && r.0.lastUpdate == now
      && (StatusReadable(fetch.value[0]) ==> r.1.shown == Some(0))
    ensures !r.1.refreshed ==>
      && r.0.plants == s.plants
      && r.0.lastUpdate == s.lastUpdate
      && (StatusReadable(s.plants[s.index]) ==> r.1.shown == Some(s.index))
    ensures r.0.phase.Stopped? ==> r.0.phase == Stopped(1) && r.1.shown.None?
    ensures r.0.phase.Stopped? <==>
      || (r.1.refreshed && fetch.Failure?)
      || (r.1.refreshed && fetch.Success? && fetch.value != [] && !StatusReadable(fetch.value[0]))
      || (!r.1.refreshed && !StatusReadable(s.plants[s.index]))
  {
    var refresh := RefreshDue(s, queryInterval, now);
    if refresh && fetch.Failure? then
      (s.(phase := Stopped(1)), TickReport(true, None, 0))
    else if refresh && fetch.value == [] then
      (s.(plants := []), TickReport(true, None, BackoffSeconds))
    else
      var t := if refresh then s.(plants := fetch.value, lastUpdate := now, index := 0) else s;
      var plant := t.plants[t.index];
      if !StatusReadable(plant) then
        (t.(phase := Stopped(1)), TickReport(refresh, None, 0))
      else
        (t.(index := (t.index + 1) % |t.plants|), TickReport(refresh, Some(t.index), rotationInterval))
  }

  /** What the loop is given on one pass: the clock reading and what the
      fetch would return if it is made. */
  datatype TickInput = TickInput(now: int, fetch: Result<seq<Plant>, Exception>)

  /** Passes of the loop over a sequence of inputs, until it stops. */
  function Run(s: LoopState, queryInterval: int, rotationInterval: nat, inputs: seq<TickInput>)
    : (r: (LoopState, seq<TickReport>))
    requires ValidState(s)
    ensures ValidState(r.0) && |r.1| <= |inputs|
    decreases |inputs|
  {
    if inputs == [] || s.phase != Running then (s, [])
    else
      var (next, report) := Step(s, queryInterval, rotationInterval, inputs[0].now, inputs[0].fetch);
      var (last, reports) := Run(next, queryInterval, rotationInterval, inputs[1..]);
      (last, [report] + reports)
  }

  /** The index after `k` advances from `i` over a list of `n` plants. */
  function Advanced(i: nat, k: nat, n: nat): nat
    requires n > 0
    decreases k
  {
    if k == 0 then i else (Advanced(i, k - 1, n) + 1) % n
  }

  /** `(i + 1) % n` for an index in bounds: the next index, or 0 after the
      last. */
  lemma NextIndex(i: nat, n: nat)
    requires i < n
    ensures (i + 1) % n == if i + 1 < n then i + 1 else 0
  {
  }

  /** Within one round the index runs up to the end and wraps once. */
  lemma {:induction false} AdvancedWithinRound(i: nat, k: nat, n: nat)
    requires i < n && k <= n
    ensures Advanced(i, k, n) == if i + k < n then i + k else i + k - n
    decreases k
  {
    if k > 0 {
      AdvancedWithinRound(i, k - 1, n);
      NextIndex(Advanced(i, k - 1, n), n);
    }
  }

  /** Without a refresh and with readable records, k passes show the plants
      from the current index on, each pass one index further, and leave the
      list and the refresh time alone. */
  lemma {:induction false} RotationAdvances(s: LoopState, queryInterval: int, rotationInterval: nat, inputs: seq<TickInput>)
    requires s.phase == Running && s.plants != [] && s.index < |s.plants|
    requires forall i :: 0 <= i < |s.plants| ==> StatusReadable(s.plants[i])
    requires forall k :: 0 <= k < |inputs| ==> inputs[k].now - s.lastUpdate < queryInterval
    ensures var (last, reports) := Run(s, queryInterval, rotationInterval, inputs);
      && last == s.(index := Advanced(s.index, |inputs|, |s.plants|))
      && |reports| == |inputs|
      && forall k :: 0 <= k < |reports| ==>
           reports[k] == TickReport(false, Some(Advanced(s.index, k, |s.plants|)), rotationInterval)
    decreases |inputs|
  {
    var n := |s.plants|;
    if inputs != [] {
      var (next, report) := Step(s, queryInterval, rotationInterval, inputs[0].now, inputs[0].fetch);
      assert next == s.(index := (s.index + 1) % n);
      RotationAdvances(next, queryInterval, rotationInterval, inputs[1..]);
      AdvancedShift(s.index, |inputs| - 1, n);
      forall k | 0 <= k < |inputs| - 1
        ensures Advanced(next.index, k, n) == Advanced(s.index, k + 1, n)
      {
        AdvancedShift(s.index, k, n);
      }
    }
  }

  /** Advancing once and then k times is advancing k + 1 times. */
  lemma {:induction false} AdvancedShift(i: nat, k: nat, n: nat)
    requires n > 0
    ensures Advanced((i + 1) % n, k, n) == Advanced(i, k + 1, n)
    decreases k
  {
    if k > 0 {
      AdvancedShift(i, k - 1, n);
      assert Advanced(i, k + 1, n) == (Advanced(i, k, n) + 1) % n;
      assert Advanced((i + 1) % n, k, n) == (Advanced((i + 1) % n, k - 1, n) + 1) % n;
    } else {
      assert Advanced(i, 1, n) == (Advanced(i, 0, n) + 1) % n;
    }
  }

  /** A full round of as many passes as there are plants returns the index to
      where it started and shows every plant exactly once, in list order
      from the starting index. */
  lemma RotationIsCyclic(s: LoopState, queryInterval: int, rotationInterval: nat, inputs: seq<TickInput>)
    requires s.phase == Running && s.plants != [] && s.index < |s.plants|
    requires forall i :: 0 <= i < |s.plants| ==> StatusReadable(s.plants[i])
    requires forall k :: 0 <= k < |inputs| ==> inputs[k].now - s.lastUpdate < queryInterval
    requires |inputs| == |s.plants|
    ensures Run(s, queryInterval, rotationInterval, inputs).0 == s
    ensures |Run(s, queryInterval, rotationInterval, inputs).1| == |inputs|
    ensures forall k :: 0 <= k < |inputs| ==>
      Run(s, queryInterval, rotationInterval, inputs).1[k].shown
        == Some(if s.index + k < |s.plants| then s.index + k else s.index + k - |s.plants|)
    ensures forall j :: 0 <= j < |s.plants| ==>
      exists k :: 0 <= k < |inputs| && Run(s, queryInterval, rotationInterval, inputs).1[k].shown == Some(j)
  {
    var n := |s.plants|;
    RotationAdvances(s, queryInterval, rotationInterval, inputs);
    var reports := Run(s, queryInterval, rotationInterval, inputs).1;
    AdvancedWithinRound(s.index, n, n);
    forall k | 0 <= k < n
      ensures reports[k].shown == Some(if s.index + k < n then s.index + k else s.index + k - n)
    {
      AdvancedWithinRound(s.index, k, n);
    }
    forall j | 0 <= j < n
      ensures exists k :: 0 <= k < |inputs| && reports[k].shown == Some(j)
    {
      var k := if j >= s.index then j - s.index else j + n - s.index;
      assert reports[k].shown == Some(j);
    }
  }

  /** A refresh that brings no plants empties the list, so the next pass
      refreshes again however little time has passed. */
  lemma EmptyRefreshRetries(s: LoopState, queryInterval: int, rotationInterval: nat, now: int, later: int)
    requires s.phase == Running && ValidState(s) && RefreshDue(s, queryInterval, now)
    ensures var next := Step(s, queryInterval, rotationInterval, now, Success([])).0;
      next.phase == Running && next.lastUpdate == s.lastUpdate && RefreshDue(next, queryInterval, later)
  {
  }

  /** As written, the records `get_plant_humidity` returns have no online
      status, so the first pass that fetches plants stops the loop with
      status 1 before anything is shown. */
  lemma {:induction false} FetchedRecordsStopLoop(
    queryInterval: int, rotationInterval: nat, now: int,
    humidity: HttpOutcome, min: HttpOutcome, max: HttpOutcome, parse: Parse)
    requires PlantHumidity(humidity, min, max, parse).Success?
    requires PlantHumidity(humidity, min, max, parse).value != []
    ensures var r := Step(InitialState, queryInterval, rotationInterval, now, PlantHumidity(humidity, min, max, parse));
      r.0.phase == Stopped(1) && r.1.shown.None?
  {
    var body := Query(humidity).value;
    var mins, maxs := ThresholdsOf(min, parse).value, ThresholdsOf(max, parse).value;
    PlantsFieldDefaults(body.result, mins, maxs, parse);
    var plants := PlantHumidity(humidity, min, max, parse).value;
    assert plants[0] in plants;
  }

  /** Records completed with an online status are shown: the first pass
      after a successful fetch shows plant 0 and keeps running. */
  lemma StatusedRecordsAreShown(
    queryInterval: int, rotationInterval: nat, now: int,
    plants: seq<Plant>, online: string -> bool, age: string -> int)
    requires plants != []
    ensures var r := Step(InitialState, queryInterval, rotationInterval, now, Success(WithStatus(plants, online, age)));
      r.0.phase == Running && r.1.shown == Some(0) && r.0.index == 1 % |plants|
  {
  }

  /** A start with a failed fetch, then three plants: the display backs off
      for 10 s, then shows plants 0, 1, 2 and wraps to 0, with no second
      fetch inside the 60 s refresh interval. */
  lemma ThreePlantScenario(a: Plant, b: Plant, c: Plant)
    requires StatusReadable(a) && StatusReadable(b) && StatusReadable(c)
    ensures var r := Run(InitialState, 60, 5, [
        TickInput(0, Success([])), TickInput(10, Success([a, b, c])),
        TickInput(15, Success([])), TickInput(20, Success([])), TickInput(25, Success([]))]);
      && r.1 == [
        TickReport(true, None, 10), TickReport(true, Some(0), 5),
        TickReport(false, Some(1), 5), TickReport(false, Some(2), 5), TickReport(false, Some(0), 5)]
      && r.0 == LoopState([a, b, c], 1, 10, Running)
  {
    var plants := [a, b, c];
    var s0 := InitialState;
    var s1 := LoopState([], 0, 0, Running);
    var s2 := LoopState(plants, 1, 10, Running);
    var s3 := LoopState(plants, 2, 10, Running);
    var s4 := LoopState(plants, 0, 10, Running);
    var s5 := LoopState(plants, 1, 10, Running);
    assert Step(s0, 60, 5, 0, Success([])) == (s1, TickReport(true, None, 10));
    assert Step(s1, 60, 5, 10, Success(plants)) == (s2, TickReport(true, Some(0), 5));
    assert Step(s2, 60, 5, 15, Success([])) == (s3, TickReport(false, Some(1), 5));
    assert Step(s3, 60, 5, 20, Success([])) == (s4, TickReport(false, Some(2), 5));
    assert Step(s4, 60, 5, 25, Success([])) == (s5, TickReport(false, Some(0), 5));
    var inputs := [
      TickInput(0, Success([])), TickInput(10, Success(plants)),
      TickInput(15, Success([])), TickInput(20, Success([])), TickInput(25, Success([]))];
    assert inputs[4..] == [TickInput(25, Success([]))] && inputs[4..][1..] == [];
    assert Run(s5, 60, 5, []) == (s5, []);
    assert inputs[4..][0].now == 25 && inputs[4..][0].fetch == Success([]);
    assert Run(s4, 60, 5, inputs[4..]).0 == s5;
    assert Run(s4, 60, 5, inputs[4..]).1 == [TickReport(false, Some(0), 5)];
    assert inputs[3..][1..] == inputs[4..];
    assert Run(s3, 60, 5, inputs[3..]).1 == [TickReport(false, Some(2), 5), TickReport(false, Some(0), 5)];
    assert inputs[2..][1..] == inputs[3..];
    assert Run(s2, 60, 5, inputs[2..]).0 == s5;
    assert inputs[1..][1..] == inputs[2..];
    assert Run(s1, 60, 5, inputs[1..]).0 == s5;
  }

  /** The main loop's state as an object, one `Tick` per loop pass. */
  class Controller {
    const queryInterval: int
    const rotationInterval: nat
    var plants: seq<Plant>
    var index: nat
    var lastUpdate: int
    var phase: Phase

    function State(): LoopState
      reads this
    {
      LoopState(plants, index, lastUpdate, phase)
    }

    predicate Valid()
      reads this
    {
      ValidState(State())
    }

    /** The loop's start: no plants, index 0, never updated. */
    constructor (queryInterval: int, rotationInterval: nat)
      ensures Valid() && State() == InitialState
      ensures this.queryInterval == queryInterval && this.rotationInterval == rotationInterval
    {
      this.queryInterval := queryInterval;
      this.rotationInterval := rotationInterval;
      plants := [];
      index := 0;
      lastUpdate := 0;
      phase := Running;
    }

    /** One pass of the loop at time `now`.  `fetch` is what
        `get_plant_humidity` returns if it is called; `displayOk` is what
        `display_plant` reports, which is only logged: a failed display
        neither stops the rotation nor shortens the sleep. */
    method Tick(now: int, fetch: Result<seq<Plant>, Exception>, displayOk: bool) returns (report: TickReport)
      requires Valid() && phase == Running
      modifies this
      ensures Valid()
      ensures (State(), report) == Step(old(State()), queryInterval, rotationInterval, now, fetch)
    {
      if now - lastUpdate >= queryInterval || plants == [] {
        if fetch.Failure? {
          phase := Stopped(1);
          return TickReport(true, None, 0);
        }
        plants := fetch.value;
        if plants == [] {
          return TickReport(true, None, BackoffSeconds);
        }
        lastUpdate := now;
        index := 0;
        report := TickReport(true, None, rotationInterval);
      } else {
        report := TickReport(false, None, rotationInterval);
      }

      var plant := plants[index];
      if plant.isOnline.None? || (!plant.isOnline.value && plant.secondsSinceUpdate.None?) {
        phase := Stopped(1);
        return report.(shown := None, sleep := 0);
      }
      report := report.(shown := Some(index));
      index := (index + 1) % |plants|;
    }

    /** A keyboard interrupt: the display is cleared and the loop ends
        normally. */
    method Interrupt()
      requires phase == Running
      modifies this
      ensures State() == old(State()).(phase := Stopped(0))
    {
      phase := Stopped(0);
    }
  }
}
