/** The read path of `/api/journeys`: resolve the requested station, then
    select one of four responses from its cache entry, checked in order. */
module ReadService {
  import opened Options
  import opened Journeys
  import opened Board

  /** The four outcomes of a read. `FetchError` carries the stored message
      as `details`; `Ok` carries `updatedAt` and the journeys. */
  datatype Response =
    | NotLoaded
    | FetchError(details: string)
    | NoJourneys
    | Ok(updatedAt: Option<int>, journeys: seq<Journey>)

  const NotLoadedMessage: string := "Noch keine Verbindungen gefunden (Station nicht geladen)."
  const FetchErrorLabel: string := "Error fetching station board data."
  const NoJourneysMessage: string := "Aktuell keine Verbindungen gefunden."

  /** `Number(req.query.evaId) || STATIONS[0].evaId`, where the query has
      already been read as a number: `None` stands for a missing or
      non-numeric parameter (`NaN`). */
  function ResolveEvaId(query: Option<int>): (evaId: int)
    ensures query.None? ==> evaId == DefaultEvaId
    ensures query == Some(0) ==> evaId == DefaultEvaId
    ensures query.Some? && query.value != 0 ==> evaId == query.value
  {
    NumberOr(query, DefaultEvaId)
  }

  /** The response-selection policy, first match wins. */
  function Select(board: Option<Entry>): (r: Response)
    ensures r.NotLoaded? <==> board.None?
    ensures r.FetchError? <==>
              board.Some? && board.value.journeys == [] && TextTruthy(board.value.lastError)
    ensures r.FetchError? ==> Some(r.details) == board.value.lastError
    ensures r.NoJourneys? <==>
              board.Some? && board.value.journeys == [] && !TextTruthy(board.value.lastError)
    ensures r.Ok? <==> board.Some? && board.value.journeys != []
    ensures r.Ok? ==> r.updatedAt == board.value.lastUpdate && r.journeys == board.value.journeys
  {
    match board
    case None => NotLoaded
    case Some(Entry(journeys, lastUpdate, lastError)) =>
      if journeys == [] && TextTruthy(lastError) then FetchError(lastError.value)
      else if journeys == [] then NoJourneys
      else Ok(lastUpdate, journeys)
  }

  /** A read of `/api/journeys?evaId=...` against the cache. */
  function Read(cache: Cache, query: Option<int>): (r: Response)
    ensures r.NotLoaded? <==> ResolveEvaId(query) !in cache
    ensures r.Ok? ==> r.journeys == cache[ResolveEvaId(query)].journeys
    ensures r.Ok? ==> r.updatedAt == cache[ResolveEvaId(query)].lastUpdate
    ensures !r.NotLoaded? ==> r == Select(Some(cache[ResolveEvaId(query)]))
  {
    Select(Lookup(cache, ResolveEvaId(query)))
  }

  /** The HTTP status code each response is sent with. */
  function HttpStatus(r: Response): (code: int)
    ensures code == 200 <==> r.Ok?
    ensures code == 500 <==> r.FetchError?
    ensures code == 404 <==> r.NotLoaded? || r.NoJourneys?
  {
    match r
    case NotLoaded => 404
    case FetchError(_) => 500
    case NoJourneys => 404
    case Ok(_, _) => 200
  }

  /** Stale data beats an error: as long as an entry holds journeys, the read
      succeeds whatever `lastError` says. */
  lemma StaleDataWins(e: Entry, error: Option<string>)
    requires e.journeys != []
    ensures Select(Some(e.(lastError := error))) == Ok(e.lastUpdate, e.journeys)
  {
  }

  /** In a cache built by commits, a successful read always has a timestamp. */
  lemma OkHasTimestamp(cache: Cache, query: Option<int>)
    requires CacheInvariant(cache)
    ensures Read(cache, query).Ok? ==> Read(cache, query).updatedAt.Some?
  {
    var k := ResolveEvaId(query);
    if k in cache {
      assert EntryInvariant(cache[k]);
    }
  }

  /** In a cache built by commits, every journey served is consistent. */
  lemma ServedJourneysConsistent(cache: Cache, query: Option<int>)
    requires CacheInvariant(cache)
    ensures var r := Read(cache, query);
            r.Ok? ==> forall i :: 0 <= i < |r.journeys| ==> Consistent(r.journeys[i])
  {
    var k := ResolveEvaId(query);
    if k in cache {
      assert EntryInvariant(cache[k]);
    }
  }
}
