/** The station-board cache: one entry per station, keyed by evaId, and the
    two ways a fetch cycle commits into it. A successful fetch replaces the
    entry wholesale; a failed fetch keeps the last good journeys and
    timestamp and records only the error message. */
module Board {
  import opened Options
  import opened Journeys

  /** A monitored station: its evaId and its human-readable label (`label` in the source). */
  datatype Station = Station(evaId: int, name: string)

  /** The configured stations, in the order the server loads them. */
  const Stations: seq<Station> := [
    Station(1370165, "Innsbruck Sillpark"),
    Station(8100108, "Innsbruck Hauptbahnhof")
  ]

  /** The station served when a request names none. */
  const DefaultEvaId: int := Stations[0].evaId

  /** The ids of the configured stations. */
  function ConfiguredIds(): (ids: set<int>)
    ensures DefaultEvaId in ids
    ensures forall s :: s in Stations ==> s.evaId in ids
    ensures forall k :: k in ids ==> exists s :: s in Stations && s.evaId == k
  {
    set s | s in Stations :: s.evaId
  }

  /** One cache entry. `lastUpdate` is the time of the last success (absent
      before the first success); `lastError` is the message of the last
      failure (absent after a success). */
  datatype Entry = Entry(journeys: seq<Journey>, lastUpdate: Option<int>, lastError: Option<string>)

  /** What the upstream client gives back for one station: the board's
      (possibly missing) journey list, or a failure message. */
  datatype FetchResult = Fetched(journey: Option<seq<RawJourney>>) | FetchFailed(message: string)

  type Cache = map<int, Entry>

  /** `stationBoards.get(evaId)`. */
  function Lookup(cache: Cache, evaId: int): Option<Entry> {
    if evaId in cache then Some(cache[evaId]) else None
  }

  /** What every committed entry satisfies: an entry without a timestamp was
      created by a failure, so it has no journeys and carries an error; and
      every journey is consistent. */
  predicate EntryInvariant(e: Entry) {
    && (e.lastUpdate.None? ==> e.journeys == [] && e.lastError.Some?)
    && forall i :: 0 <= i < |e.journeys| ==> Consistent(e.journeys[i])
  }

  predicate CacheInvariant(cache: Cache) {
    forall k :: k in cache ==> EntryInvariant(cache[k])
  }

  /** The entry written after a successful fetch at time `now`. */
  function SucceededEntry(journey: Option<seq<RawJourney>>, now: int): (e: Entry)
    ensures e.lastError == None && e.lastUpdate == Some(now)
    ensures e.journeys == NormaliseBoard(journey)
    ensures journey.None? ==> e.journeys == []
    ensures EntryInvariant(e)
  {
    Entry(NormaliseBoard(journey), Some(now), None)
  }

  /** The entry written after a failed fetch, from the current one if any. */
  function FailedEntry(current: Option<Entry>, message: string): (e: Entry)
    ensures e.lastError == Some(message)
    ensures current.Some? ==> e.journeys == current.value.journeys
    ensures current.Some? ==> e.lastUpdate == current.value.lastUpdate
    ensures current.None? ==> e.journeys == [] && e.lastUpdate == None
    ensures current.Some? && EntryInvariant(current.value) ==> EntryInvariant(e)
    ensures current.None? ==> EntryInvariant(e)
  {
    var c := current.GetOr(Entry([], None, None));
    Entry(c.journeys, c.lastUpdate, Some(message))
  }

  /** The entry a fetch cycle leaves behind, given the one before it. */
  function CommitEntry(current: Option<Entry>, outcome: FetchResult, now: int): (e: Entry)
    ensures outcome.Fetched? ==> e == SucceededEntry(outcome.journey, now)
    ensures outcome.FetchFailed? ==> e == FailedEntry(current, outcome.message)
    ensures (current.None? || EntryInvariant(current.value)) ==> EntryInvariant(e)
  {
    match outcome
    case Fetched(journey) => SucceededEntry(journey, now)
    case FetchFailed(message) => FailedEntry(current, message)
  }

  /** `fetchStationBoard(station)` once the upstream call has returned:
      writes exactly one key of the cache. */
  function Commit(cache: Cache, evaId: int, outcome: FetchResult, now: int): (cache': Cache)
    ensures cache'.Keys == cache.Keys + {evaId}
    ensures Lookup(cache', evaId) == Some(CommitEntry(Lookup(cache, evaId), outcome, now))
    ensures forall k :: k != evaId ==> Lookup(cache', k) == Lookup(cache, k)
    ensures CacheInvariant(cache) ==> CacheInvariant(cache')
  {
    cache[evaId := CommitEntry(Lookup(cache, evaId), outcome, now)]
  }

  /** After a success nothing of the previous entry survives: the result does
      not depend on what was cached for that station before. */
  lemma SuccessForgetsPrevious(a: Cache, b: Cache, evaId: int, journey: Option<seq<RawJourney>>, now: int)
    ensures Lookup(Commit(a, evaId, Fetched(journey), now), evaId)
         == Lookup(Commit(b, evaId, Fetched(journey), now), evaId)
    ensures Lookup(Commit(a, evaId, Fetched(journey), now), evaId)
         == Some(Entry(NormaliseBoard(journey), Some(now), None))
  {
  }

  /** A failure after a failure only replaces the message. */
  lemma RepeatedFailureKeepsData(cache: Cache, evaId: int, m1: string, m2: string, t1: int, t2: int)
    ensures var c1 := Commit(cache, evaId, FetchFailed(m1), t1);
            var c2 := Commit(c1, evaId, FetchFailed(m2), t2);
            c2 == c1[evaId := c1[evaId].(lastError := Some(m2))]
  {
  }
}
