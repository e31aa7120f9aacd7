/** Infection sites as the globe stores them, the compaction that keeps the most
    recent ones, and the slice the renderer draws. */
module Sites {
  import opened Js
  import opened Geo

  /** One rendered infection event: where it sits on the sphere, the simulated day
      that created it, and two purely visual weights. */
  datatype Site = Site(position: Vec3, day: int, intensity: real, radius: real)

  /** `MAX_INFECTION_POINTS`: at or above this many sites the list is compacted. */
  const MAX_INFECTION_POINTS: nat := 150

  /** Compaction keeps `MAX_INFECTION_POINTS - 10` sites. */
  const KEPT_POINTS: nat := MAX_INFECTION_POINTS - 10

  /** `InfectionPoints` draws at most this many sites. */
  const RENDERED_POINTS: nat := 150

  // Sorting by day, newest first. `Array.prototype.sort` is stable and the
  // comparator is `b.day - a.day`, so among sites of the same day the input order
  // survives. Insertion sort has exactly that behaviour.

  function InsertByDay(x: Site, s: seq<Site>): seq<Site>
  {
    if s == [] || x.day >= s[0].day then [x] + s else [s[0]] + InsertByDay(x, s[1..])
  }

  function SortByDay(s: seq<Site>): seq<Site>
  {
    if s == [] then [] else InsertByDay(s[0], SortByDay(s[1..]))
  }

  predicate NewestFirst(s: seq<Site>) {
    forall i, j :: 0 <= i < j < |s| ==> s[i].day >= s[j].day
  }

  /** The sites of day d, in their order in s. */
  function OfDay(s: seq<Site>, d: int): seq<Site>
  {
    if s == [] then [] else (if s[0].day == d then [s[0]] else []) + OfDay(s[1..], d)
  }

  lemma {:induction false} OfDayAppend(a: seq<Site>, b: seq<Site>, d: int)
    ensures OfDay(a + b, d) == OfDay(a, d) + OfDay(b, d)
  {
    if a != [] {
      var h := if a[0].day == d then [a[0]] else [];
      assert (a + b)[0] == a[0];
      assert (a + b)[1..] == a[1..] + b;
      OfDayAppend(a[1..], b, d);
      calc {
        OfDay(a + b, d);
        h + OfDay(a[1..] + b, d);
        h + (OfDay(a[1..], d) + OfDay(b, d));
        (h + OfDay(a[1..], d)) + OfDay(b, d);
        OfDay(a, d) + OfDay(b, d);
      }
    } else {
      assert a + b == b;
    }
  }

  lemma {:induction false} InsertByDayPermutes(x: Site, s: seq<Site>)
    ensures multiset(InsertByDay(x, s)) == multiset(s) + multiset{x}
    ensures |InsertByDay(x, s)| == |s| + 1
  {
    if s != [] && x.day < s[0].day {
      InsertByDayPermutes(x, s[1..]);
      assert s == [s[0]] + s[1..];
    }
  }

  /** Inserting never brings in a day later than both x and every day of s. */
  lemma {:induction false} InsertByDayBounded(x: Site, s: seq<Site>, b: int)
    requires x.day <= b && forall i :: 0 <= i < |s| ==> s[i].day <= b
    ensures forall i :: 0 <= i < |InsertByDay(x, s)| ==> InsertByDay(x, s)[i].day <= b
  {
    if s != [] && x.day < s[0].day {
      InsertByDayBounded(x, s[1..], b);
    }
  }

  lemma {:induction false} InsertByDaySorted(x: Site, s: seq<Site>)
    requires NewestFirst(s)
    ensures NewestFirst(InsertByDay(x, s))
  {
    if s != [] && x.day < s[0].day {
      InsertByDaySorted(x, s[1..]);
      InsertByDayBounded(x, s[1..], s[0].day);
    }
  }

  lemma {:induction false} InsertByDayStable(x: Site, s: seq<Site>, d: int)
    ensures OfDay(InsertByDay(x, s), d) == OfDay([x], d) + OfDay(s, d)
  {
    if s == [] || x.day >= s[0].day {
      OfDayAppend([x], s, d);
    } else {
      var rest := InsertByDay(x, s[1..]);
      InsertByDayStable(x, s[1..], d);
      assert s == [s[0]] + s[1..];
      OfDayAppend([s[0]], rest, d);
      OfDayAppend([s[0]], s[1..], d);
    }
  }

  /** The compaction's sort is a permutation of its input ... */
  lemma {:induction false} SortByDayPermutes(s: seq<Site>)
    ensures multiset(SortByDay(s)) == multiset(s)
    ensures |SortByDay(s)| == |s|
  {
    if s != [] {
      SortByDayPermutes(s[1..]);
      InsertByDayPermutes(s[0], SortByDay(s[1..]));
      assert s == [s[0]] + s[1..];
    }
  }

  /** ... newest first ... */
  lemma {:induction false} SortByDaySorted(s: seq<Site>)
    ensures NewestFirst(SortByDay(s))
  {
    if s != [] {
      SortByDaySorted(s[1..]);
      InsertByDaySorted(s[0], SortByDay(s[1..]));
    }
  }

  /** ... and stable: the sites of each day appear in the order they had in the input. */
  lemma {:induction false} SortByDayStable(s: seq<Site>, d: int)
    ensures OfDay(SortByDay(s), d) == OfDay(s, d)
  {
    if s != [] {
      SortByDayStable(s[1..], d);
      InsertByDayStable(s[0], SortByDay(s[1..]), d);
      OfDayAppend([s[0]], s[1..], d);
      assert s == [s[0]] + s[1..];
    }
  }

  lemma {:induction false} OfDayPrefix(s: seq<Site>, n: nat, d: int)
    requires n <= |s|
    ensures OfDay(s[..n], d) <= OfDay(s, d)
  {
    assert s == s[..n] + s[n..];
    OfDayAppend(s[..n], s[n..], d);
  }

  /** The list after compaction: `[...sites].sort((a, b) => b.day - a.day).slice(0, 140)`. */
  function Compact(s: seq<Site>): seq<Site>
  {
    Prefix(SortByDay(s), KEPT_POINTS)
  }

  /** What compaction drops. */
  function Dropped(s: seq<Site>): seq<Site>
  {
    var sorted := SortByDay(s);
    if |sorted| < KEPT_POINTS then [] else sorted[KEPT_POINTS..]
  }

  /** Compacting a full list keeps exactly 140 of its sites, the newest ones, newest
      first; together with what it drops they are the input again; no dropped site
      is newer than a kept one; and within each day the kept sites are the first
      ones of that day in input order. */
  lemma CompactKeepsNewest(s: seq<Site>)
    requires |s| >= MAX_INFECTION_POINTS
    ensures |Compact(s)| == KEPT_POINTS
    ensures multiset(Compact(s)) + multiset(Dropped(s)) == multiset(s)
    ensures multiset(Compact(s)) <= multiset(s)
    ensures NewestFirst(Compact(s))
    ensures forall i, j :: 0 <= i < |Compact(s)| && 0 <= j < |Dropped(s)| ==> Compact(s)[i].day >= Dropped(s)[j].day
    ensures forall d :: OfDay(Compact(s), d) <= OfDay(s, d)
  {
    var sorted := SortByDay(s);
    SortByDayPermutes(s);
    SortByDaySorted(s);
    assert sorted == sorted[..KEPT_POINTS] + sorted[KEPT_POINTS..];
    assert Compact(s) == sorted[..KEPT_POINTS];
    assert Dropped(s) == sorted[KEPT_POINTS..];
    forall i, j | 0 <= i < |Compact(s)| && 0 <= j < |Dropped(s)| ensures Compact(s)[i].day >= Dropped(s)[j].day {
      assert Compact(s)[i] == sorted[i] && Dropped(s)[j] == sorted[KEPT_POINTS + j];
    }
    forall d ensures OfDay(Compact(s), d) <= OfDay(s, d) {
      OfDayPrefix(sorted, KEPT_POINTS, d);
      SortByDayStable(s, d);
    }
  }

  /** `infectionLocations.slice(0, 150)` in `InfectionPoints`: the renderer draws
      the first 150 sites in list order: exactly 150 when there are more, all of
      them otherwise. */
  function VisibleLocations(s: seq<Site>): (r: seq<Site>)
    ensures |r| == if |s| < RENDERED_POINTS then |s| else RENDERED_POINTS
    ensures r <= s
    ensures |s| <= RENDERED_POINTS ==> r == s
  {
    Prefix(s, RENDERED_POINTS)
  }
}
