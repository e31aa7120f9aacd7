/** The spread engine: the per-day effect of the `Globe` component, which resets,
    compacts or grows the list of infection sites. */
module Spread {
  import opened Js
  import opened Geo
  import opened Sites

  /** Sites are placed on a sphere slightly larger than the globe. */
  const SURFACE: real := 1.01

  /** The hard cap on new sites per simulated day. */
  const MAX_NEW_PER_STEP: int := 3

  /** The r0 used when the parameters carry no number. */
  const DEFAULT_R0: real := 2.0

  /** The largest list a running globe can reach: one short of compaction, plus a
      full batch. */
  const MAX_LIVE_SITES: nat := MAX_INFECTION_POINTS - 1 + MAX_NEW_PER_STEP

  /** Mitigation toggles as the props deliver them: any of them may be missing. */
  datatype PartialMeasures = PartialMeasures(
    travelRestrictions: Option<bool>,
    socialDistancing: Option<bool>,
    maskUsage: Option<bool>,
    vaccination: Option<real>)

  datatype Measures = Measures(
    travelRestrictions: bool,
    socialDistancing: bool,
    maskUsage: bool,
    vaccination: real)

  /** The props of `Globe` that the effect reads. `r0` is `parameters.r0`, which is
      `NonNumber` when the parameters or their r0 are missing. */
  datatype Props = Props(
    startLocation: Option<LatLng>,
    r0: Value,
    simulationDay: int,
    simulationRunning: bool,
    mitigationMeasures: PartialMeasures)

  /** The two conversions the engine makes, on the sphere of radius `SURFACE`. */
  datatype Mapper = Mapper(toSphere: (real, real) -> Vec3, toLatLng: Vec3 -> LatLng)

  /** The coordinate mapper of the globe as the source writes it: eastern
      longitudes come back shifted by -360 (see `Geo.AsWrittenShiftsEasternLongitudes`). */
  function AsWrittenMapper(t: Trig): Mapper {
    Mapper((lat, lng) => LatLngToVector3(t, Number(lat), Number(lng), Number(SURFACE)),
           p => Vector3ToLatLngAsWritten(t, Some(Lift(p)), Number(SURFACE)))
  }

  /** The coordinate mapper of the globe with the corrected inverse. */
  function GlobeMapper(t: Trig): Mapper {
    Mapper((lat, lng) => LatLngToVector3(t, Number(lat), Number(lng), Number(SURFACE)),
           p => Vector3ToLatLng(t, Some(Lift(p)), Number(SURFACE)))
  }

  /** `safeMeasures`: a missing toggle is off and a missing vaccination rate is 0. */
  function SafeMeasures(m: PartialMeasures): (r: Measures)
    ensures r.travelRestrictions <==> m.travelRestrictions == Some(true)
    ensures r.socialDistancing <==> m.socialDistancing == Some(true)
    ensures r.maskUsage <==> m.maskUsage == Some(true)
    ensures r.vaccination == if m.vaccination.Some? then m.vaccination.value else 0.0
  {
    Measures(
      m.travelRestrictions == Some(true),
      m.socialDistancing == Some(true),
      m.maskUsage == Some(true),
      match m.vaccination case Some(v) => v case None => 0.0)
  }

  /** The effective reproduction number: r0 (2.0 when it is not a number), times 0.7
      under social distancing, times 0.8 under mask usage, times the unvaccinated
      fraction. */
  function EffectiveR0(r0: Value, m: Measures): real
  {
    var base := OrDefault(r0, DEFAULT_R0);
    var distanced := if m.socialDistancing then base * 0.7 else base;
    var masked := if m.maskUsage then distanced * 0.8 else distanced;
    masked * (1.0 - m.vaccination / 100.0)
  }

  /** `Math.min(Math.floor(n * effectiveR0 / 5), 3)`: the whole part of n * effR0 / 5,
      but never more than 3. */
  function MaxNewLocations(n: nat, effectiveR0: real): (k: int)
    ensures k <= MAX_NEW_PER_STEP
    ensures k < MAX_NEW_PER_STEP ==> k as real <= n as real * (effectiveR0 / 5.0) < k as real + 1.0
    ensures k == MAX_NEW_PER_STEP ==> n as real * (effectiveR0 / 5.0) >= MAX_NEW_PER_STEP as real
    ensures effectiveR0 >= 0.0 ==> k >= 0
  {
    var whole := (n as real * (effectiveR0 / 5.0)).Floor;
    if whole <= MAX_NEW_PER_STEP then whole else MAX_NEW_PER_STEP
  }

  /** Measures given in full are taken as they are. */
  lemma CompleteMeasuresKept(m: Measures)
    ensures SafeMeasures(PartialMeasures(Some(m.travelRestrictions), Some(m.socialDistancing),
                                          Some(m.maskUsage), Some(m.vaccination))) == m
  {
  }

  /** Missing measures are no measures: the effective R0 is r0 itself (2 when it is
      not a number) and children may land up to 20 degrees away. */
  lemma MissingMeasuresAreNeutral(r0: Value)
    ensures var m := SafeMeasures(PartialMeasures(None, None, None, None));
            EffectiveR0(r0, m) == OrDefault(r0, DEFAULT_R0) && SpreadDistance(m) == 40.0
  {
  }

  /** How far, in degrees of latitude and of longitude, a child may land from its
      source: 20 under travel restrictions, 40 otherwise. */
  function SpreadDistance(m: Measures): real
  {
    if m.travelRestrictions then 20.0 else 40.0
  }

  /** Measures m2 are at least as strict as m1 in every factor of the effective R0. */
  predicate AtLeastAsStrict(m1: Measures, m2: Measures) {
    && (m1.socialDistancing ==> m2.socialDistancing)
    && (m1.maskUsage ==> m2.maskUsage)
    && m1.vaccination <= m2.vaccination
  }

  lemma ProductMonotone(a1: real, a2: real, b1: real, b2: real)
    requires 0.0 <= a2 <= a1 && 0.0 <= b2 <= b1
    ensures 0.0 <= a2 * b2 <= a1 * b1
  {
    assert a2 * b2 <= a1 * b2;
    assert a1 * b2 <= a1 * b1;
  }

  /** Each factor of the effective R0 as a number in [0, 1]. */
  function Factor(on: bool, f: real): real { if on then f else 1.0 }

  lemma EffectiveR0IsProduct(r0: Value, m: Measures)
    ensures EffectiveR0(r0, m)
         == OrDefault(r0, DEFAULT_R0) * (Factor(m.socialDistancing, 0.7) * (Factor(m.maskUsage, 0.8) * (1.0 - m.vaccination / 100.0)))
  {
    var base := OrDefault(r0, DEFAULT_R0);
    var sd, mk, u := Factor(m.socialDistancing, 0.7), Factor(m.maskUsage, 0.8), 1.0 - m.vaccination / 100.0;
    assert (if m.socialDistancing then base * 0.7 else base) == base * sd;
    assert (if m.maskUsage then base * sd * 0.8 else base * sd) == base * sd * mk;
    assert base * sd * mk * u == base * (sd * (mk * u));
  }

  lemma MaxNewMonotone(n: nat, e1: real, e2: real)
    requires e2 <= e1
    ensures MaxNewLocations(n, e2) <= MaxNewLocations(n, e1)
  {
    assert n as real * (e2 / 5.0) <= n as real * (e1 / 5.0);
  }

  lemma ProductOfThreeMonotone(base: real, a1: real, a2: real, b1: real, b2: real, c1: real, c2: real)
    requires base >= 0.0 && 0.0 <= a2 <= a1 && 0.0 <= b2 <= b1 && 0.0 <= c2 <= c1
    ensures 0.0 <= base * (a2 * (b2 * c2)) <= base * (a1 * (b1 * c1))
  {
    ProductMonotone(b1, b2, c1, c2);
    ProductMonotone(a1, a2, b1 * c1, b2 * c2);
    ProductMonotone(base, base, a1 * (b1 * c1), a2 * (b2 * c2));
  }

  /** More mitigation never raises the effective R0, for a non-negative r0 and
      vaccination rates between 0 and 100. */
  lemma StricterMeasuresLowerR0(r0: Value, m1: Measures, m2: Measures)
    requires OrDefault(r0, DEFAULT_R0) >= 0.0
    requires 0.0 <= m1.vaccination <= 100.0 && 0.0 <= m2.vaccination <= 100.0
    requires AtLeastAsStrict(m1, m2)
    ensures 0.0 <= EffectiveR0(r0, m2) <= EffectiveR0(r0, m1)
  {
    EffectiveR0IsProduct(r0, m1);
    EffectiveR0IsProduct(r0, m2);
    ProductOfThreeMonotone(OrDefault(r0, DEFAULT_R0),
      Factor(m1.socialDistancing, 0.7), Factor(m2.socialDistancing, 0.7),
      Factor(m1.maskUsage, 0.8), Factor(m2.maskUsage, 0.8),
      1.0 - m1.vaccination / 100.0, 1.0 - m2.vaccination / 100.0);
  }

  /** ... and so never raises the number of new sites a step may add. */
  lemma StricterMeasuresAllowFewer(r0: Value, m1: Measures, m2: Measures, n: nat)
    requires OrDefault(r0, DEFAULT_R0) >= 0.0
    requires 0.0 <= m1.vaccination <= 100.0 && 0.0 <= m2.vaccination <= 100.0
    requires AtLeastAsStrict(m1, m2)
    ensures 0 <= MaxNewLocations(n, EffectiveR0(r0, m2)) <= MaxNewLocations(n, EffectiveR0(r0, m1))
  {
    StricterMeasuresLowerR0(r0, m1, m2);
    MaxNewMonotone(n, EffectiveR0(r0, m1), EffectiveR0(r0, m2));
  }

  /** The k-th, (k+1)-th ... calls of `Math.random()` within one step. */
  type Draws = nat -> real

  /** Every draw lies in [0, 1), as `Math.random()` promises. */
  ghost predicate UnitDraws(rand: Draws) {
    forall i :: 0.0 <= rand(i) < 1.0
  }

  /** The values one iteration of the loop computes for a new site: which site it
      grew from, the jittered position, the position after clamping, and the two
      visual weights. */
  datatype Offspring = Offspring(
    sourceIndex: nat,
    newLat: real,
    newLng: real,
    clampedLat: real,
    clampedLng: real,
    intensity: real,
    radius: real)

  /** Where the source site of an offspring lies, as the engine reads it back. */
  function SourceLatLng(mp: Mapper, sites: seq<Site>, i: nat): LatLng
    requires i < |sites|
  {
    mp.toLatLng(sites[i].position)
  }

  /** One iteration of the loop, reading draws k, k+1, ...: `None` when the drawn
      index names no site (the loop `continue`s after one draw), otherwise the new
      site, made from five draws. */
  function Derive(mp: Mapper, sites: seq<Site>, spread: real, rand: Draws, k: nat): Option<Offspring>
  {
    var sourceIndex := (rand(k) * |sites| as real).Floor;
    if !(0 <= sourceIndex < |sites|) then None
    else
      var source := SourceLatLng(mp, sites, sourceIndex);
      var newLat := source.lat + (rand(k + 1) - 0.5) * spread;
      var newLng := source.lng + (rand(k + 2) - 0.5) * spread;
      Some(Offspring(sourceIndex, newLat, newLng, Clamp(-85.0, 85.0, newLat), Clamp(-180.0, 180.0, newLng),
                     rand(k + 3) * 0.8 + 0.2, rand(k + 4) * 0.02 + 0.01))
  }

  /** Draws consumed by one iteration. */
  function Consumed(o: Option<Offspring>): nat { if o.Some? then 5 else 1 }

  datatype Progress = Progress(born: seq<Offspring>, next: nat)

  /** What the loop has produced after j iterations, and the next draw to read. */
  function Iterate(mp: Mapper, sites: seq<Site>, spread: real, rand: Draws, j: nat): Progress
  {
    if j == 0 then Progress([], 0)
    else
      var p := Iterate(mp, sites, spread, rand, j - 1);
      var o := Derive(mp, sites, spread, rand, p.next);
      Progress(if o.Some? then p.born + [o.value] else p.born, p.next + Consumed(o))
  }

  /** The offspring of a whole step: `maxNew` iterations, none when the list is empty. */
  function NewOffspring(mp: Mapper, sites: seq<Site>, maxNew: int, spread: real, rand: Draws): seq<Offspring>
  {
    if |sites| == 0 || maxNew <= 0 then [] else Iterate(mp, sites, spread, rand, maxNew).born
  }

  function ToSite(mp: Mapper, o: Offspring, day: int): Site {
    Site(mp.toSphere(o.clampedLat, o.clampedLng), day, o.intensity, o.radius)
  }

  /** The sites made from a step's offspring, all of the step's day. */
  function Batch(mp: Mapper, born: seq<Offspring>, day: int): (b: seq<Site>)
    ensures |b| == |born|
    ensures forall i :: 0 <= i < |b| ==> b[i].day == day
    ensures forall i :: 0 <= i < |b| ==>
              && b[i].position == mp.toSphere(born[i].clampedLat, born[i].clampedLng)
              && b[i].intensity == born[i].intensity && b[i].radius == born[i].radius
  {
    seq(|born|, i requires 0 <= i < |born| => ToSite(mp, born[i], day))
  }

  lemma BatchAppend(mp: Mapper, born: seq<Offspring>, o: Offspring, day: int)
    ensures Batch(mp, born + [o], day) == Batch(mp, born, day) + [ToSite(mp, o, day)]
  {
  }

  /** The single site an idle globe shows: the start location (0, 0 when missing)
      on day 0, at full intensity and radius 0.03. */
  function OriginSite(mp: Mapper, start: Option<LatLng>): Site {
    var g := if start.Some? then start.value else LatLng(0.0, 0.0);
    Site(mp.toSphere(g.lat, g.lng), 0, 1.0, 0.03)
  }

  /** The new sites of a growing step. */
  function NewInfections(mp: Mapper, sites: seq<Site>, props: Props, rand: Draws): seq<Site> {
    var m := SafeMeasures(props.mitigationMeasures);
    var maxNew := MaxNewLocations(|sites|, EffectiveR0(props.r0, m));
    Batch(mp, NewOffspring(mp, sites, maxNew, SpreadDistance(m), rand), props.simulationDay)
  }

  /** The list after one run of the effect, with `prev` the current list. */
  function StepResult(mp: Mapper, sites: seq<Site>, props: Props, rand: Draws): seq<Site> {
    if !props.simulationRunning then [OriginSite(mp, props.startLocation)]
    else if props.simulationDay == 0 then sites
    else if |sites| >= MAX_INFECTION_POINTS then Compact(sites)
    else sites + NewInfections(mp, sites, props, rand)
  }

  // Properties of one iteration.

  lemma FloorInRange(x: real, n: nat)
    requires 0.0 <= x < 1.0 && n > 0
    ensures 0 <= (x * n as real).Floor < n
  {
    assert x * n as real < n as real;
  }

  /** A new site names an existing source, lies inside the clamping box, and is the
      jittered source position clamped; with draws in [0, 1) the drawn index is always
      valid, the jitter stays within half the spread distance, and the visual weights
      stay in [0.2, 1) and [0.01, 0.03). */
  lemma DeriveBounds(mp: Mapper, sites: seq<Site>, spread: real, rand: Draws, k: nat)
    ensures var o := Derive(mp, sites, spread, rand, k);
            o.Some? ==> OffspringOk(sites, o.value)
    ensures UnitDraws(rand) && |sites| > 0 ==> Derive(mp, sites, spread, rand, k).Some?
    ensures var o := Derive(mp, sites, spread, rand, k);
            UnitDraws(rand) && o.Some? ==> OffspringWithinDraws(mp, sites, spread, o.value)
  {
    if UnitDraws(rand) && |sites| > 0 {
      FloorInRange(rand(k), |sites|);
    }
    if UnitDraws(rand) {
      DeriveWithinDraws(mp, sites, spread, rand, k);
    }
  }

  lemma DeriveWithinDraws(mp: Mapper, sites: seq<Site>, spread: real, rand: Draws, k: nat)
    requires UnitDraws(rand)
    ensures var o := Derive(mp, sites, spread, rand, k);
            o.Some? ==> OffspringWithinDraws(mp, sites, spread, o.value)
  {
    var o := Derive(mp, sites, spread, rand, k);
    if o.Some? {
      var v := o.value;
      var src := SourceLatLng(mp, sites, v.sourceIndex);
      var u1, u2, u3, u4 := rand(k + 1), rand(k + 2), rand(k + 3), rand(k + 4);
      assert 0.0 <= u1 < 1.0 && 0.0 <= u2 < 1.0 && 0.0 <= u3 < 1.0 && 0.0 <= u4 < 1.0;
      assert v.newLat == src.lat + (u1 - 0.5) * spread;
      assert v.newLng == src.lng + (u2 - 0.5) * spread;
      assert v.intensity == u3 * 0.8 + 0.2 && v.radius == u4 * 0.02 + 0.01;
      if spread >= 0.0 {
        JitterBound(u1, spread);
        JitterBound(u2, spread);
      }
    }
  }

  lemma JitterBound(u: real, spread: real)
    requires 0.0 <= u < 1.0 && spread >= 0.0
    ensures -spread / 2.0 <= (u - 0.5) * spread <= spread / 2.0
  {
  }

  /** What holds of every new site whatever the draws. */
  predicate OffspringOk(sites: seq<Site>, o: Offspring) {
    && o.sourceIndex < |sites|
    && -85.0 <= o.clampedLat <= 85.0
    && -180.0 <= o.clampedLng <= 180.0
    && o.clampedLat == Clamp(-85.0, 85.0, o.newLat)
    && o.clampedLng == Clamp(-180.0, 180.0, o.newLng)
  }

  /** What holds of a new site made from draws in [0, 1). */
  predicate OffspringWithinDraws(mp: Mapper, sites: seq<Site>, spread: real, o: Offspring) {
    && o.sourceIndex < |sites|
    && (spread >= 0.0 ==>
         var src := SourceLatLng(mp, sites, o.sourceIndex);
         && src.lat - spread / 2.0 <= o.newLat <= src.lat + spread / 2.0
         && src.lng - spread / 2.0 <= o.newLng <= src.lng + spread / 2.0)
    && 0.2 <= o.intensity < 1.0
    && 0.01 <= o.radius < 0.03
  }

  // Properties of the whole loop.

  /** After j iterations at most j sites were made; with draws in [0, 1) and a
      non-empty list exactly j, each from five draws. Every site made meets the
      bounds of `DeriveBounds`. */
  lemma {:induction false} IterateFacts(mp: Mapper, sites: seq<Site>, spread: real, rand: Draws, j: nat)
    ensures var p := Iterate(mp, sites, spread, rand, j);
            && |p.born| <= j
            && (forall o :: o in p.born ==> OffspringOk(sites, o))
            && (UnitDraws(rand) ==> forall o :: o in p.born ==> OffspringWithinDraws(mp, sites, spread, o))
            && (UnitDraws(rand) && |sites| > 0 ==> |p.born| == j && p.next == 5 * j)
  {
    if j > 0 {
      IterateFacts(mp, sites, spread, rand, j - 1);
      var p := Iterate(mp, sites, spread, rand, j - 1);
      DeriveBounds(mp, sites, spread, rand, p.next);
    }
  }

  /** A step's batch holds at most `maxNew` (and so at most 3) sites; with draws in
      [0, 1) and a non-empty list exactly max(maxNew, 0). */
  lemma NewOffspringCount(mp: Mapper, sites: seq<Site>, maxNew: int, spread: real, rand: Draws)
    ensures |NewOffspring(mp, sites, maxNew, spread, rand)| <= if maxNew < 0 then 0 else maxNew
    ensures UnitDraws(rand) && |sites| > 0 ==>
              |NewOffspring(mp, sites, maxNew, spread, rand)| == if maxNew < 0 then 0 else maxNew
    ensures forall o :: o in NewOffspring(mp, sites, maxNew, spread, rand) ==> OffspringOk(sites, o)
    ensures UnitDraws(rand) ==>
              forall o :: o in NewOffspring(mp, sites, maxNew, spread, rand) ==> OffspringWithinDraws(mp, sites, spread, o)
  {
    if |sites| > 0 && maxNew > 0 {
      IterateFacts(mp, sites, spread, rand, maxNew);
    }
  }

  /** The loop of the effect: up to `maxNew` times, pick a random source site, read
      its position back as latitude/longitude, jitter and clamp it, and make a new
      site of the current day. */
  method GenerateNewInfections(mp: Mapper, sites: seq<Site>, maxNew: int, spread: real, day: int, rand: Draws)
    returns (newInfections: seq<Site>)
    ensures newInfections == Batch(mp, NewOffspring(mp, sites, maxNew, spread, rand), day)
    ensures |newInfections| <= if maxNew < 0 then 0 else maxNew
    ensures forall s :: s in newInfections ==> s.day == day
  {
    newInfections := [];
    ghost var born: seq<Offspring> := [];
    var i := 0;
    var k: nat := 0;
    while i < maxNew
      invariant 0 <= i <= if maxNew > 0 then maxNew else 0
      invariant |sites| == 0 ==> i == 0 && born == []
      invariant |sites| > 0 ==> Iterate(mp, sites, spread, rand, i) == Progress(born, k)
      invariant newInfections == Batch(mp, born, day)
    {
      if |sites| == 0 {
        break;
      }
      var sourceIndex := (rand(k) * |sites| as real).Floor;
      if !(0 <= sourceIndex < |sites|) {
        k := k + 1;
        i := i + 1;
        continue;
      }
      var source := sites[sourceIndex];
      var sourceLatLng := mp.toLatLng(source.position);
      var newLat := sourceLatLng.lat + (rand(k + 1) - 0.5) * spread;
      var newLng := sourceLatLng.lng + (rand(k + 2) - 0.5) * spread;
      var clampedLat := Clamp(-85.0, 85.0, newLat);
      var clampedLng := Clamp(-180.0, 180.0, newLng);
      var o := Offspring(sourceIndex, newLat, newLng, clampedLat, clampedLng,
                         rand(k + 3) * 0.8 + 0.2, rand(k + 4) * 0.02 + 0.01);
      assert Derive(mp, sites, spread, rand, k) == Some(o);
      BatchAppend(mp, born, o, day);
      newInfections := newInfections + [ToSite(mp, o, day)];
      born := born + [o];
      k := k + 5;
      i := i + 1;
    }
    NewOffspringCount(mp, sites, maxNew, spread, rand);
  }

  /** The globe's state: the current list of infection sites. */
  class Globe {
    var infectedLocations: seq<Site>

    constructor ()
      ensures infectedLocations == []
    {
      infectedLocations := [];
    }

    /** One run of the effect, reading positions back through `mp`: the source's
        behaviour is `mp == AsWrittenMapper(t)`, the intended one `GlobeMapper(t)`. */
    method Step(mp: Mapper, props: Props, rand: Draws)
      modifies this
      ensures infectedLocations == StepResult(mp, old(infectedLocations), props, rand)
    {
      if !props.simulationRunning {
        infectedLocations := [OriginSite(mp, props.startLocation)];
        return;
      }
      if props.simulationDay == 0 {
        return;
      }
      if |infectedLocations| >= MAX_INFECTION_POINTS {
        var sortedLocations := SortByDay(infectedLocations);
        infectedLocations := Prefix(sortedLocations, KEPT_POINTS);
        return;
      }
      var measures := SafeMeasures(props.mitigationMeasures);
      var maxNewLocations := MaxNewLocations(|infectedLocations|, EffectiveR0(props.r0, measures));
      var spreadDistance := SpreadDistance(measures);
      var newInfections := GenerateNewInfections(mp, infectedLocations, maxNewLocations, spreadDistance,
                                                 props.simulationDay, rand);
      infectedLocations := infectedLocations + newInfections;
    }
  }

  // Properties of a step.

  /** An idle globe shows exactly the origin site, whatever the list was. */
  lemma IdleShowsOrigin(t: Trig, mp: Mapper, sites: seq<Site>, props: Props, rand: Draws)
    requires mp == AsWrittenMapper(t) || mp == GlobeMapper(t)
    requires !props.simulationRunning
    ensures var r := StepResult(mp, sites, props, rand);
            var g := if props.startLocation.Some? then props.startLocation.value else LatLng(0.0, 0.0);
            && |r| == 1
            && r[0].position == LatLngToVector3(t, Number(g.lat), Number(g.lng), Number(SURFACE))
            && r[0].day == 0 && r[0].intensity == 1.0 && r[0].radius == 0.03
  {
  }

  /** Day 0 of a running simulation leaves the list alone. */
  lemma DayZeroKeepsList(mp: Mapper, sites: seq<Site>, props: Props, rand: Draws)
    requires props.simulationRunning && props.simulationDay == 0
    ensures StepResult(mp, sites, props, rand) == sites
  {
  }

  /** A full list is compacted to its 140 newest sites and nothing is added. */
  lemma FullListIsCompacted(mp: Mapper, sites: seq<Site>, props: Props, rand: Draws)
    requires props.simulationRunning && props.simulationDay != 0
    requires |sites| >= MAX_INFECTION_POINTS
    ensures var r := StepResult(mp, sites, props, rand);
            && |r| == KEPT_POINTS
            && multiset(r) <= multiset(sites)
            && NewestFirst(r)
            && multiset(r) + multiset(Dropped(sites)) == multiset(sites)
            && (forall i, j :: 0 <= i < |r| && 0 <= j < |Dropped(sites)| ==> r[i].day >= Dropped(sites)[j].day)
  {
    CompactKeepsNewest(sites);
  }

  /** Below the limit, a step keeps the old list as an unchanged prefix and appends
      at most `maxNewLocations` (never more than 3) sites of the current day, each
      grown from an existing site and clamped to the box. */
  lemma GrowthAppends(mp: Mapper, sites: seq<Site>, props: Props, rand: Draws)
    requires props.simulationRunning && props.simulationDay != 0
    requires |sites| < MAX_INFECTION_POINTS
    ensures var r := StepResult(mp, sites, props, rand);
            var m := SafeMeasures(props.mitigationMeasures);
            var maxNew := MaxNewLocations(|sites|, EffectiveR0(props.r0, m));
            && sites <= r
            && |r| - |sites| <= MAX_NEW_PER_STEP
            && |r| - |sites| <= (if maxNew < 0 then 0 else maxNew)
            && (UnitDraws(rand) && |sites| > 0 ==> |r| - |sites| == if maxNew < 0 then 0 else maxNew)
            && (forall i :: |sites| <= i < |r| ==> r[i].day == props.simulationDay)
  {
    var m := SafeMeasures(props.mitigationMeasures);
    var maxNew := MaxNewLocations(|sites|, EffectiveR0(props.r0, m));
    NewOffspringCount(mp, sites, maxNew, SpreadDistance(m), rand);
  }

  /** Every site a step adds is the site of an offspring whose source exists and
      whose clamped position lies in [-85, 85] x [-180, 180]; for draws in [0, 1)
      the jittered position lies within 10 degrees of the source under travel
      restrictions and within 20 otherwise. Every added site carries the current
      day and, for draws in [0, 1), an intensity in [0.2, 1) and a radius in
      [0.01, 0.03). */
  lemma NewSitesInBounds(mp: Mapper, sites: seq<Site>, props: Props, rand: Draws)
    ensures var m := SafeMeasures(props.mitigationMeasures);
            var maxNew := MaxNewLocations(|sites|, EffectiveR0(props.r0, m));
            var born := NewOffspring(mp, sites, maxNew, SpreadDistance(m), rand);
            && NewInfections(mp, sites, props, rand) == Batch(mp, born, props.simulationDay)
            && (forall o :: o in born ==> OffspringOk(sites, o))
            && (UnitDraws(rand) ==> forall o :: o in born ==> OffspringWithinDraws(mp, sites, SpreadDistance(m), o))
            && (UnitDraws(rand) ==> forall o :: o in born ==>
                  var src := SourceLatLng(mp, sites, o.sourceIndex);
                  var half := if m.travelRestrictions then 10.0 else 20.0;
                  src.lat - half <= o.newLat <= src.lat + half && src.lng - half <= o.newLng <= src.lng + half)
    ensures var added := NewInfections(mp, sites, props, rand);
            && (forall s :: s in added ==> s.day == props.simulationDay)
            && (UnitDraws(rand) ==> forall s :: s in added ==> 0.2 <= s.intensity < 1.0 && 0.01 <= s.radius < 0.03)
  {
    var m := SafeMeasures(props.mitigationMeasures);
    var maxNew := MaxNewLocations(|sites|, EffectiveR0(props.r0, m));
    var born := NewOffspring(mp, sites, maxNew, SpreadDistance(m), rand);
    NewOffspringCount(mp, sites, maxNew, SpreadDistance(m), rand);
    var added := NewInfections(mp, sites, props, rand);
    forall s | s in added ensures s.day == props.simulationDay
      && (UnitDraws(rand) ==> 0.2 <= s.intensity < 1.0 && 0.01 <= s.radius < 0.03)
    {
      var i :| 0 <= i < |added| && added[i] == s;
      assert born[i] in born;
    }
  }

  /** Switching on more mitigation (same r0, same draws in [0, 1)) never yields more
      new sites in a step. */
  lemma StricterMeasuresNeverSpreadMore(mp: Mapper, sites: seq<Site>, p1: Props, p2: Props, rand: Draws)
    requires p1.r0 == p2.r0 && OrDefault(p1.r0, DEFAULT_R0) >= 0.0
    requires var m1, m2 := SafeMeasures(p1.mitigationMeasures), SafeMeasures(p2.mitigationMeasures);
             && 0.0 <= m1.vaccination <= 100.0 && 0.0 <= m2.vaccination <= 100.0
             && AtLeastAsStrict(m1, m2)
    requires UnitDraws(rand)
    ensures |NewInfections(mp, sites, p2, rand)| <= |NewInfections(mp, sites, p1, rand)|
  {
    var m1, m2 := SafeMeasures(p1.mitigationMeasures), SafeMeasures(p2.mitigationMeasures);
    StricterMeasuresAllowFewer(p1.r0, m1, m2, |sites|);
    var k1 := MaxNewLocations(|sites|, EffectiveR0(p1.r0, m1));
    var k2 := MaxNewLocations(|sites|, EffectiveR0(p2.r0, m2));
    NewOffspringCount(mp, sites, k1, SpreadDistance(m1), rand);
    NewOffspringCount(mp, sites, k2, SpreadDistance(m2), rand);
  }

  /** The live list never exceeds 152 sites: 149 plus a batch of 3, since the
      compaction only triggers at 150. */
  lemma StepKeepsBound(mp: Mapper, sites: seq<Site>, props: Props, rand: Draws)
    requires |sites| <= MAX_LIVE_SITES
    ensures |StepResult(mp, sites, props, rand)| <= MAX_LIVE_SITES
  {
    if props.simulationRunning && props.simulationDay != 0 {
      if |sites| >= MAX_INFECTION_POINTS {
        CompactKeepsNewest(sites);
      } else {
        GrowthAppends(mp, sites, props, rand);
      }
    }
  }

  /** With the default r0 of 2 and no mitigation, a lone seed site does not spread:
      floor(1 * 2 / 5) = 0. */
  lemma LoneSeedWaits(mp: Mapper, site: Site, props: Props, rand: Draws)
    requires props.simulationRunning && props.simulationDay != 0
    requires props.r0 == Number(2.0) || props.r0 == NonNumber
    requires props.mitigationMeasures == PartialMeasures(None, None, None, None)
    ensures StepResult(mp, [site], props, rand) == [site]
  {
    assert EffectiveR0(props.r0, SafeMeasures(props.mitigationMeasures)) == 2.0;
    assert MaxNewLocations(1, 2.0) == 0;
  }

  // What the longitude shift of the as-written inverse does to the spread.

  /** Every offspring of a step comes from one iteration of the loop. */
  lemma {:induction false} BornFromDerive(mp: Mapper, sites: seq<Site>, spread: real, rand: Draws, j: nat)
    ensures forall o :: o in Iterate(mp, sites, spread, rand, j).born ==>
              exists k :: Derive(mp, sites, spread, rand, k) == Some(o)
  {
    if j > 0 {
      BornFromDerive(mp, sites, spread, rand, j - 1);
      var p := Iterate(mp, sites, spread, rand, j - 1);
      var o := Derive(mp, sites, spread, rand, p.next);
      if o.Some? {
        assert Derive(mp, sites, spread, rand, p.next) == Some(o.value);
      }
    }
  }

  /** Every site of the list sits at the point the forward map gives for (lat, lng),
      as after the idle globe's origin was placed there. */
  predicate SeededAt(t: Trig, sites: seq<Site>, lat: real, lng: real) {
    forall i :: 0 <= i < |sites| ==> sites[i].position == LatLngToVector3(t, Number(lat), Number(lng), Number(SURFACE))
  }

  /** Read back through the as-written inverse, a source at an eastern longitude
      below 160 lies at lng - 360 < -200, so a jitter of at most 20 degrees still
      leaves the child west of -180, where it is clamped: it lands on the
      antimeridian. */
  lemma DeriveAsWrittenEastern(t: Trig, sites: seq<Site>, spread: real, rand: Draws, k: nat, lat: real, lng: real)
    requires UnitDraws(rand) && 0.0 <= spread <= 40.0
    requires 0.0 < lng < 160.0 && InvertsAt(t, lat, lng, SURFACE)
    requires SeededAt(t, sites, lat, lng)
    ensures var o := Derive(AsWrittenMapper(t), sites, spread, rand, k);
            o.Some? ==> o.value.clampedLng == -180.0
  {
    var mp := AsWrittenMapper(t);
    var o := Derive(mp, sites, spread, rand, k);
    if o.Some? {
      var i := o.value.sourceIndex;
      DeriveBounds(mp, sites, spread, rand, k);
      AsWrittenShiftsEasternLongitudes(t, lat, lng, SURFACE);
      assert SourceLatLng(mp, sites, i) == LatLng(lat, lng - 360.0);
      JitterBound(rand(k + 2), spread);
    }
  }

  /** Through the corrected inverse the same child stays within half the spread
      distance of its source's longitude, and no clamping takes place. */
  lemma DeriveCorrectedEastern(t: Trig, sites: seq<Site>, spread: real, rand: Draws, k: nat, lat: real, lng: real)
    requires UnitDraws(rand) && 0.0 <= spread <= 40.0
    requires 0.0 < lng < 160.0 && InvertsAt(t, lat, lng, SURFACE)
    requires SeededAt(t, sites, lat, lng)
    ensures var o := Derive(GlobeMapper(t), sites, spread, rand, k);
            o.Some? ==> o.value.clampedLng == o.value.newLng
                        && lng - spread / 2.0 <= o.value.clampedLng <= lng + spread / 2.0
  {
    var mp := GlobeMapper(t);
    var o := Derive(mp, sites, spread, rand, k);
    if o.Some? {
      var i := o.value.sourceIndex;
      DeriveBounds(mp, sites, spread, rand, k);
      RoundTrip(t, lat, lng, SURFACE);
      assert SourceLatLng(mp, sites, i) == LatLng(lat, lng);
      JitterBound(rand(k + 2), spread);
    }
  }

  /** A step of the source on a list seeded at an eastern longitude in (0, 160):
      every new site is clamped to longitude -180. */
  lemma AsWrittenEasternSpreadLandsOnAntimeridian(t: Trig, sites: seq<Site>, props: Props, rand: Draws, lat: real, lng: real)
    requires UnitDraws(rand)
    requires 0.0 < lng < 160.0 && InvertsAt(t, lat, lng, SURFACE)
    requires SeededAt(t, sites, lat, lng)
    ensures var m := SafeMeasures(props.mitigationMeasures);
            var maxNew := MaxNewLocations(|sites|, EffectiveR0(props.r0, m));
            forall o :: o in NewOffspring(AsWrittenMapper(t), sites, maxNew, SpreadDistance(m), rand) ==> o.clampedLng == -180.0
  {
    var mp := AsWrittenMapper(t);
    var m := SafeMeasures(props.mitigationMeasures);
    var maxNew := MaxNewLocations(|sites|, EffectiveR0(props.r0, m));
    var spread := SpreadDistance(m);
    if |sites| > 0 && maxNew > 0 {
      BornFromDerive(mp, sites, spread, rand, maxNew);
      forall o | o in NewOffspring(mp, sites, maxNew, spread, rand) ensures o.clampedLng == -180.0 {
        var k :| Derive(mp, sites, spread, rand, k) == Some(o);
        DeriveAsWrittenEastern(t, sites, spread, rand, k, lat, lng);
      }
    }
  }

  /** The same step with the corrected inverse: every new site lies within half the
      spread distance (10 or 20 degrees) of the seed's longitude. */
  lemma CorrectedEasternSpreadStaysNear(t: Trig, sites: seq<Site>, props: Props, rand: Draws, lat: real, lng: real)
    requires UnitDraws(rand)
    requires 0.0 < lng < 160.0 && InvertsAt(t, lat, lng, SURFACE)
    requires SeededAt(t, sites, lat, lng)
    ensures var m := SafeMeasures(props.mitigationMeasures);
            var maxNew := MaxNewLocations(|sites|, EffectiveR0(props.r0, m));
            var spread := SpreadDistance(m);
            forall o :: o in NewOffspring(GlobeMapper(t), sites, maxNew, spread, rand) ==>
                          lng - spread / 2.0 <= o.clampedLng <= lng + spread / 2.0
  {
    var mp := GlobeMapper(t);
    var m := SafeMeasures(props.mitigationMeasures);
    var maxNew := MaxNewLocations(|sites|, EffectiveR0(props.r0, m));
    var spread := SpreadDistance(m);
    if |sites| > 0 && maxNew > 0 {
      BornFromDerive(mp, sites, spread, rand, maxNew);
      forall o | o in NewOffspring(mp, sites, maxNew, spread, rand)
        ensures lng - spread / 2.0 <= o.clampedLng <= lng + spread / 2.0
      {
        var k :| Derive(mp, sites, spread, rand, k) == Some(o);
        DeriveCorrectedEastern(t, sites, spread, rand, k, lat, lng);
      }
    }
  }
}
