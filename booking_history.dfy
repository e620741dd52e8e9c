/** The history panel: the ledger's entries newest first, a total, a
    coloured success rate, and a clear button guarded by a confirmation. */
module BookingHistory {
  import opened Wrappers
  import opened KeyValue
  import opened Storage

  const ID_PREFIX_LENGTH: nat := 8
  const GREEN_FROM: int := 70
  const AMBER_FROM: int := 40

  /** The colour of the success rate. */
  datatype Band = Red | Amber | Green

  function BandRank(b: Band): nat
  {
    match b
    case Red => 0
    case Amber => 1
    case Green => 2
  }

  /** `successRate >= 70 ? green : successRate >= 40 ? amber : red`. */
  function ColourBand(rate: int): (b: Band)
    ensures b == Green <==> rate >= GREEN_FROM
    ensures b == Amber <==> AMBER_FROM <= rate < GREEN_FROM
    ensures b == Red <==> rate < AMBER_FROM
  {
    if rate >= GREEN_FROM then Green else if rate >= AMBER_FROM then Amber else Red
  }

  /** A higher rate never gets a worse colour. */
  lemma ColourBandMonotone(rate1: int, rate2: int)
    requires rate1 <= rate2
    ensures BandRank(ColourBand(rate1)) <= BandRank(ColourBand(rate2))
  {
  }

  /** `requestId.slice(0, 8)`: the first eight characters, or all of a
      shorter id. */
  function ShortId(requestId: string): (p: string)
    ensures p <= requestId
    ensures |p| == Min(ID_PREFIX_LENGTH, |requestId|)
  {
    if |requestId| <= ID_PREFIX_LENGTH then requestId else requestId[..ID_PREFIX_LENGTH]
  }

  /** What one ledger entry shows. */
  datatype EntryView = EntryView(
    confirmed: bool,
    numSeats: int,
    seats: Option<seq<string>>,
    message: Option<string>,
    queuePosition: Option<int>,
    shortId: string)

  /** The render of one record: seats only when present and non-empty, the
      message only when non-empty, the queue position whenever defined
      (position 0 included). */
  function ShowEntry(record: BookingRecord): (v: EntryView)
    ensures v.confirmed <==> record.status == Confirmed
    ensures v.numSeats == record.numSeats
    ensures v.seats.Some? <==> record.allocatedSeats.Some? && record.allocatedSeats.value != []
    ensures v.seats.Some? ==> v.seats == record.allocatedSeats
    ensures v.message.Some? <==> record.message.Some? && record.message.value != ""
    ensures v.message.Some? ==> v.message == record.message
    ensures v.queuePosition == record.queuePosition
    ensures v.shortId <= record.requestId && |v.shortId| == Min(ID_PREFIX_LENGTH, |record.requestId|)
  {
    EntryView(
      record.status == Confirmed,
      record.numSeats,
      if record.allocatedSeats.Some? && |record.allocatedSeats.value| > 0 then record.allocatedSeats else None,
      if record.message.Some? && record.message.value != "" then record.message else None,
      record.queuePosition,
      ShortId(record.requestId))
  }

  /** What the panel shows. */
  datatype HistoryView =
    | EmptyState
    | Listing(total: nat, successRate: nat, band: Band, entries: seq<EntryView>)

  /** The render for the `history` state; the success rate is read afresh
      from the store, and only when the state is non-empty. */
  function Render(history: seq<BookingRecord>, stored: HistoryEntries): (v: HistoryView)
    ensures v == EmptyState <==> history == []
    ensures v.Listing? ==> v.total == |history| && |v.entries| == |history|
    ensures v.Listing? ==> forall i :: 0 <= i < |history| ==> v.entries[i] == ShowEntry(history[i])
    ensures v.Listing? ==> v.successRate <= 100 && v.band == ColourBand(v.successRate)
    ensures v.Listing? ==> v.successRate == GetSuccessRate(stored)
  {
    if |history| == 0 then EmptyState
    else
      var rate := GetSuccessRate(stored);
      Listing(|history|, rate, ColourBand(rate), seq(|history|, i requires 0 <= i < |history| => ShowEntry(history[i])))
  }

  /** Straight after a load the panel's rate is that of the list it shows. */
  lemma LoadedRateMatchesShownList(stored: HistoryEntries)
    requires GetHistory(stored) != []
    ensures var v := Render(GetHistory(stored), stored);
            var h := GetHistory(stored);
            v.Listing? && v.total == |h| && v.successRate == SuccessRate(CountConfirmed(h), |h|)
  {
  }

  /** The panel component and its one piece of state. */
  class Panel {
    var history: seq<BookingRecord>

    /** `useState([])`. */
    constructor ()
      ensures history == []
    {
      history := [];
    }

    function Current(stored: HistoryEntries): HistoryView
      reads this
    {
      Render(history, stored)
    }

    /** `loadHistory`, run once on mount. */
    method LoadHistory(store: LocalStore<seq<BookingRecord>>)
      modifies this
      ensures history == GetHistory(store.entries)
    {
      history := GetHistory(store.entries);
    }

    /** `handleClearHistory`, given the user's answer to `confirm`: on yes
        the store and the state are both cleared; on no nothing changes. */
    method HandleClearHistory(store: LocalStore<seq<BookingRecord>>, confirmed: bool)
      modifies this, store
      ensures confirmed ==> history == [] && store.entries == Cleared(old(store.entries))
      ensures confirmed ==> Current(store.entries) == EmptyState && GetHistory(store.entries) == []
      ensures !confirmed ==> history == old(history) && store.entries == old(store.entries)
    {
      if confirmed {
        ClearHistory(store);
        history := [];
      }
    }
  }
}
