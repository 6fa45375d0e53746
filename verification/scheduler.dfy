/** The refresh cycle. Each completed fetch is a tick that commits into the
    cache; a run of the server is the fold of its ticks in completion order.
    The startup loop completes one fetch of every configured station before
    the server listens; interval fetches of stations already started may
    complete in between. */
module Scheduler {
  import opened Options
  import opened Journeys
  import opened Board
  import opened ReadService

  /** One completed `fetchStationBoard(station)`: the upstream outcome and
      the time the commit happened. */
  datatype Tick = Tick(station: Station, outcome: FetchResult, now: int)

  function Step(cache: Cache, t: Tick): Cache {
    Commit(cache, t.station.evaId, t.outcome, t.now)
  }

  /** The cache after the ticks, applied in order. */
  function Run(cache: Cache, ticks: seq<Tick>): (cache': Cache)
    ensures CacheInvariant(cache) ==> CacheInvariant(cache')
    decreases |ticks|
  {
    if ticks == [] then cache else Run(Step(cache, ticks[0]), ticks[1..])
  }

  /** The station ids the ticks commit to. */
  function Ids(ticks: seq<Tick>): set<int> {
    if ticks == [] then {} else {ticks[0].station.evaId} + Ids(ticks[1..])
  }

  /** The ticks of one station, in order. */
  function For(ticks: seq<Tick>, evaId: int): (fs: seq<Tick>)
    ensures forall i :: 0 <= i < |fs| ==> fs[i].station.evaId == evaId
  {
    if ticks == [] then []
    else if ticks[0].station.evaId == evaId then [ticks[0]] + For(ticks[1..], evaId)
    else For(ticks[1..], evaId)
  }

  /** The evolution of a single entry under its own station's ticks. */
  function RunEntry(entry: Option<Entry>, ticks: seq<Tick>): Option<Entry>
    decreases |ticks|
  {
    if ticks == [] then entry
    else RunEntry(Some(CommitEntry(entry, ticks[0].outcome, ticks[0].now)), ticks[1..])
  }

  /** The cache gains exactly the keys that were ticked. */
  lemma {:induction false} RunKeys(cache: Cache, ticks: seq<Tick>)
    ensures Run(cache, ticks).Keys == cache.Keys + Ids(ticks)
    decreases |ticks|
  {
    if ticks != [] {
      RunKeys(Step(cache, ticks[0]), ticks[1..]);
    }
  }

  /** Stations are independent: a station's entry after a run depends only
      on its own entry before and its own ticks, so another station's
      failures never affect it. */
  lemma {:induction false} RunIsPerStation(cache: Cache, ticks: seq<Tick>, evaId: int)
    ensures Lookup(Run(cache, ticks), evaId) == RunEntry(Lookup(cache, evaId), For(ticks, evaId))
    decreases |ticks|
  {
    if ticks != [] {
      var t, rest := ticks[0], ticks[1..];
      RunIsPerStation(Step(cache, t), rest, evaId);
      if t.station.evaId == evaId {
        assert ([t] + For(rest, evaId))[1..] == For(rest, evaId);
      }
    }
  }

  /** Failures alone keep a station's journeys and timestamp. */
  lemma {:induction false} FailuresKeepSnapshot(cache: Cache, ticks: seq<Tick>, evaId: int)
    requires evaId in cache
    requires forall i :: 0 <= i < |ticks| && ticks[i].station.evaId == evaId ==> ticks[i].outcome.FetchFailed?
    ensures evaId in Run(cache, ticks)
    ensures Run(cache, ticks)[evaId].journeys == cache[evaId].journeys
    ensures Run(cache, ticks)[evaId].lastUpdate == cache[evaId].lastUpdate
    decreases |ticks|
  {
    if ticks != [] {
      var c := Step(cache, ticks[0]);
      assert Lookup(c, evaId).Some?;
      FailuresKeepSnapshot(c, ticks[1..], evaId);
    }
  }

  /** The latest success is what is cached: if tick `i` is a success for a
      station and every later tick for it failed, the entry holds that
      success's journeys and time. */
  lemma {:induction false} LatestSuccessKept(cache: Cache, ticks: seq<Tick>, i: nat)
    requires i < |ticks| && ticks[i].outcome.Fetched?
    requires forall j :: i < j < |ticks| && ticks[j].station.evaId == ticks[i].station.evaId ==>
               ticks[j].outcome.FetchFailed?
    ensures ticks[i].station.evaId in Run(cache, ticks)
    ensures Run(cache, ticks)[ticks[i].station.evaId].journeys == NormaliseBoard(ticks[i].outcome.journey)
    ensures Run(cache, ticks)[ticks[i].station.evaId].lastUpdate == Some(ticks[i].now)
    decreases |ticks|
  {
    var c := Step(cache, ticks[0]);
    if i == 0 {
      var k := ticks[0].station.evaId;
      assert Lookup(c, k).Some?;
      var rest := ticks[1..];
      forall j | 0 <= j < |rest| && rest[j].station.evaId == k
        ensures rest[j].outcome.FetchFailed?
      {
        assert rest[j] == ticks[j + 1];
      }
      FailuresKeepSnapshot(c, rest, k);
    } else {
      LatestSuccessKept(c, ticks[1..], i - 1);
    }
  }

  /** Reads keep serving the latest non-empty snapshot through later failures. */
  lemma LatestSnapshotServed(cache: Cache, ticks: seq<Tick>, i: nat, query: Option<int>)
    requires i < |ticks| && ticks[i].outcome.Fetched?
    requires NormaliseBoard(ticks[i].outcome.journey) != []
    requires ResolveEvaId(query) == ticks[i].station.evaId
    requires forall j :: i < j < |ticks| && ticks[j].station.evaId == ticks[i].station.evaId ==>
               ticks[j].outcome.FetchFailed?
    ensures Read(Run(cache, ticks), query) == Ok(Some(ticks[i].now), NormaliseBoard(ticks[i].outcome.journey))
  {
    LatestSuccessKept(cache, ticks, i);
  }

  /** The startup loop's own fetches: one per configured station, in
      configuration order. */
  function StartupTicks(results: seq<(FetchResult, int)>): (ticks: seq<Tick>)
    requires |results| == |Stations|
    ensures |ticks| == |Stations|
    ensures forall i :: 0 <= i < |ticks| ==> ticks[i].station == Stations[i]
    ensures forall s :: s in Stations ==> |For(ticks, s.evaId)| == 1
  {
    var ticks := seq(|Stations|, i requires 0 <= i < |Stations| => Tick(Stations[i], results[i].0, results[i].1));
    var rest := ticks[1..];
    assert rest[1..] == [];
    assert For(rest, Stations[0].evaId) == [];
    assert For(rest, Stations[1].evaId) == [ticks[1]];
    assert For(ticks, Stations[0].evaId) == [ticks[0]];
    assert For(ticks, Stations[1].evaId) == [ticks[1]];
    ticks
  }

  /** The startup loop's fetches reach every configured station. */
  lemma StartupTicksCoverStations(results: seq<(FetchResult, int)>)
    requires |results| == |Stations|
    ensures forall s :: s in Stations ==> s.evaId in Ids(StartupTicks(results))
  {
    var ticks := StartupTicks(results);
    forall s | s in Stations
      ensures s.evaId in Ids(ticks)
    {
      var i :| 0 <= i < |Stations| && Stations[i] == s;
      IdsContains(ticks, i);
    }
  }

  /** The server listens only after the startup loop, by which time every
      configured station has completed a fetch, whatever interval fetches
      completed in between. From then on no read of a configured station,
      the default included, finds it unloaded, whatever the fetches returned. */
  lemma NeverUnloadedAfterStartup(ticks: seq<Tick>, query: Option<int>)
    requires forall s :: s in Stations ==> s.evaId in Ids(ticks)
    requires ResolveEvaId(query) in ConfiguredIds()
    ensures !Read(Run(map[], ticks), query).NotLoaded?
  {
    RunKeys(map[], ticks);
  }

  lemma {:induction false} IdsContains(ticks: seq<Tick>, i: nat)
    requires i < |ticks|
    ensures ticks[i].station.evaId in Ids(ticks)
    decreases |ticks|
  {
    if i > 0 {
      IdsContains(ticks[1..], i - 1);
    }
  }

  /** A success at T1 with journeys, then a failure: the read still serves
      the T1 journeys, because the error response needs an empty list. */
  lemma SuccessThenFailureScenario(cache: Cache, station: Station, raws: seq<RawJourney>,
                                   t1: int, t2: int, message: string, query: Option<int>)
    requires raws != []
    requires ResolveEvaId(query) == station.evaId
    ensures var c := Run(cache, [Tick(station, Fetched(Some(raws)), t1),
                                 Tick(station, FetchFailed(message), t2)]);
            && Read(c, query) == Ok(Some(t1), NormaliseAll(raws))
            && c[station.evaId].lastError == Some(message)
  {
    var ticks := [Tick(station, Fetched(Some(raws)), t1), Tick(station, FetchFailed(message), t2)];
    LatestSnapshotServed(cache, ticks, 0, query);
    var c1 := Step(cache, ticks[0]);
    assert Run(cache, ticks) == Run(c1, ticks[1..]);
    assert ticks[1..][1..] == [];
    assert Run(c1, ticks[1..]) == Run(Step(c1, ticks[1]), []);
  }
}
