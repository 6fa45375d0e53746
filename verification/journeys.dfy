/** The journey normaliser: one raw station-board record from the upstream
    client becomes one normalised journey, with a status classified by an
    ordered rule (cancellation first, then delay, else on time). */
module Journeys {
  import opened Options

  /** The real-time status value the upstream uses for a cancelled departure. */
  const CancelledMarker: string := "Ausfall"

  /** The optional real-time block `rt` of a raw record. */
  datatype RealTime = RealTime(status: Option<string>, dlm: Option<int>, dlt: Option<string>)

  /** `journey.rt || {}`: a missing block reads as one with every field absent. */
  const NoRealTime: RealTime := RealTime(None, None, None)

  /** A raw record: planned time `ti`, date `da`, line `pr`, station `st`,
      final destination `lastStop` and the real-time block `rt`. */
  datatype RawJourney = RawJourney(
    ti: Option<string>,
    da: Option<string>,
    pr: Option<string>,
    st: Option<string>,
    lastStop: Option<string>,
    rt: Option<RealTime>)

  datatype Status = OnTime | Delayed | Cancelled

  /** The normalised journey served to clients. */
  datatype Journey = Journey(
    departure: Option<string>,
    date: Option<string>,
    tram: Option<string>,
    from: Option<string>,
    to: Option<string>,
    status: Status,
    delayMinutes: int,
    realtimeTime: Option<string>)

  /** The wire name of a status in the JSON response. */
  function StatusName(s: Status): string {
    match s
    case OnTime => "on-time"
    case Delayed => "delayed"
    case Cancelled => "cancelled"
  }

  lemma StatusNamesDistinct(s: Status, t: Status)
    ensures StatusName(s) == StatusName(t) <==> s == t
  {
  }

  function RealTimeOf(raw: RawJourney): RealTime {
    raw.rt.GetOr(NoRealTime)
  }

  /** The record carries the cancellation marker (strict equality). */
  predicate MarkedCancelled(raw: RawJourney) {
    RealTimeOf(raw).status == Some(CancelledMarker)
  }

  /** The record reports a delay: `dlm` present and non-zero. */
  predicate ReportsDelay(raw: RawJourney) {
    NumberTruthy(RealTimeOf(raw).dlm)
  }

  /** What every normalised journey satisfies: the status agrees with the
      delay, and a real-time departure, when given, is a non-empty string. */
  predicate Consistent(j: Journey) {
    && (j.status == Delayed ==> j.delayMinutes != 0)
    && (j.status == OnTime ==> j.delayMinutes == 0)
    && (j.realtimeTime.Some? ==> j.realtimeTime.value != "")
  }

  /** The ordered classification rule; first match wins. */
  function Classify(raw: RawJourney): (s: Status)
    ensures s == Cancelled <==> MarkedCancelled(raw)
    ensures s == Delayed <==> !MarkedCancelled(raw) && ReportsDelay(raw)
    ensures s == OnTime <==> !MarkedCancelled(raw) && !ReportsDelay(raw)
  {
    if MarkedCancelled(raw) then Cancelled
    else if ReportsDelay(raw) then Delayed
    else OnTime
  }

  /** The mapping applied to each raw record. */
  function Normalise(raw: RawJourney): (j: Journey)
    ensures j.departure == raw.ti && j.date == raw.da && j.tram == raw.pr
    ensures j.from == raw.st && j.to == raw.lastStop
    ensures j.status == Classify(raw)
    ensures ReportsDelay(raw) ==> j.delayMinutes == RealTimeOf(raw).dlm.value
    ensures !ReportsDelay(raw) ==> j.delayMinutes == 0
    ensures j.realtimeTime.Some? <==> TextTruthy(RealTimeOf(raw).dlt)
    ensures j.realtimeTime.Some? ==> j.realtimeTime == RealTimeOf(raw).dlt
    ensures Consistent(j)
  {
    var rt := RealTimeOf(raw);
    Journey(
      raw.ti, raw.da, raw.pr, raw.st, raw.lastStop,
      Classify(raw),
      NumberOr(rt.dlm, 0),
      TextOrNull(rt.dlt))
  }

  /** `journeys.map(...)`: one-to-one and order-preserving. */
  function NormaliseAll(raws: seq<RawJourney>): (js: seq<Journey>)
    ensures |js| == |raws|
    ensures forall i :: 0 <= i < |raws| ==> js[i] == Normalise(raws[i])
  {
    if raws == [] then []
    else [Normalise(raws[0])] + NormaliseAll(raws[1..])
  }

  /** `boardData.journey || []` followed by the mapping. */
  function NormaliseBoard(journey: Option<seq<RawJourney>>): (js: seq<Journey>)
    ensures journey.None? ==> js == []
    ensures journey.Some? ==> |js| == |journey.value|
    ensures journey.Some? ==> forall i :: 0 <= i < |js| ==> js[i] == Normalise(journey.value[i])
  {
    NormaliseAll(journey.GetOr([]))
  }

  /** A cancelled record stays cancelled whatever its delay says. */
  lemma CancelledWhateverDelay(raw: RawJourney, dlm: Option<int>)
    requires MarkedCancelled(raw)
    ensures Normalise(raw.(rt := Some(RealTimeOf(raw).(dlm := dlm)))).status == Cancelled
  {
  }

  /** Normalisation distributes over concatenation of the raw list. */
  lemma NormaliseAllAppend(a: seq<RawJourney>, b: seq<RawJourney>)
    ensures NormaliseAll(a + b) == NormaliseAll(a) + NormaliseAll(b)
  {
  }

  /** Every normalised journey of a board is consistent. */
  lemma NormaliseBoardConsistent(journey: Option<seq<RawJourney>>)
    ensures forall j :: j in NormaliseBoard(journey) ==> Consistent(j)
  {
  }

  /** A delayed record: `dlm` 5, no `dlt`. */
  lemma DelayedExample()
    ensures Normalise(RawJourney(Some("08:15"), Some("2024-01-01"), Some("T1"), Some("A"), Some("B"),
                                 Some(RealTime(None, Some(5), None))))
         == Journey(Some("08:15"), Some("2024-01-01"), Some("T1"), Some("A"), Some("B"),
                    Delayed, 5, None)
  {
  }
}
