/** The status panel: polls one booking request every two seconds until the
    server reports a terminal status, and shows what the latest answer says. */
module BookingStatus {
  import opened Wrappers
  import opened Api

  const POLL_INTERVAL_MS: nat := 2000
  const DEFAULT_FAILURE_TEXT: string := "Unable to allocate seats"

  /** JavaScript truthiness of the `requestId` prop: `null` and `""` are falsy.
      It decides both `enabled` and whether anything is rendered. */
  predicate HasRequest(requestId: Option<string>)
    ensures HasRequest(requestId) <==> requestId != None && requestId != Some("")
  {
    requestId.Some? && requestId.value != ""
  }

  predicate IsTerminal(s: RequestStatus)
  {
    s == Confirmed || s == Failed
  }

  /** What `refetchInterval` returns: a delay in milliseconds, or `false`. */
  datatype Refetch = Every(ms: nat) | Stop

  /** `refetchInterval` over the latest data (`undefined` before any arrives). */
  function RefetchInterval(data: Option<BookingStatusResponse>): (r: Refetch)
    ensures r == Stop <==> data.Some? && IsTerminal(data.value.status)
    ensures r != Stop ==> r == Every(POLL_INTERVAL_MS)
  {
    if data.Some? && (data.value.status == Confirmed || data.value.status == Failed) then Stop
    else Every(POLL_INTERVAL_MS)
  }

  /** The outcome of one status fetch: an answer, or a network or HTTP error. */
  datatype FetchResult = Fetched(response: BookingStatusResponse) | FetchError

  /** A fetch whose answer is terminal. */
  predicate EndsPolling(f: FetchResult)
  {
    f.Fetched? && IsTerminal(f.response.status)
  }

  /** The query's data after a fetch: an error keeps the previous data. */
  function Latest(data: Option<BookingStatusResponse>, f: FetchResult): (next: Option<BookingStatusResponse>)
    ensures f.Fetched? ==> next == Some(f.response)
    ensures f.FetchError? ==> next == data
    ensures data.Some? ==> next.Some?
  {
    match f
    case Fetched(r) => Some(r)
    case FetchError => data
  }

  /** The fetches actually issued, given the results the server would give
      in turn: after each one `refetchInterval` is asked about the latest
      data, and polling goes on only while it answers with a delay. */
  function Poll(data: Option<BookingStatusResponse>, results: seq<FetchResult>): (fetched: seq<FetchResult>)
    requires RefetchInterval(data) != Stop
    ensures fetched <= results
    ensures forall i :: 0 <= i < |fetched| - 1 ==> !EndsPolling(fetched[i])
    ensures |fetched| < |results| ==> fetched != [] && EndsPolling(fetched[|fetched| - 1])
    decreases |results|
  {
    if results == [] then []
    else
      var next := Latest(data, results[0]);
      if RefetchInterval(next) == Stop then [results[0]]
      else [results[0]] + Poll(next, results[1..])
  }

  /** The fetches of the component for one `requestId`: none at all when it
      is unset (`enabled: !!requestId`), otherwise polling from no data. */
  function StatusFetches(requestId: Option<string>, results: seq<FetchResult>): (fetched: seq<FetchResult>)
    ensures !HasRequest(requestId) ==> fetched == []
    ensures fetched <= results
  {
    if HasRequest(requestId) then Poll(None, results) else []
  }

  /** Polling stops right after the first terminal answer, which is the last
      one fetched; before it, every result is fetched. */
  lemma PollStopsAtFirstTerminal(requestId: Option<string>, results: seq<FetchResult>, k: nat)
    requires HasRequest(requestId)
    requires k < |results| && EndsPolling(results[k])
    requires forall j :: 0 <= j < k ==> !EndsPolling(results[j])
    ensures StatusFetches(requestId, results) == results[..k + 1]
  {
  }

  /** With no terminal answer among the results, every one is fetched. */
  lemma PollWithoutTerminalFetchesAll(requestId: Option<string>, results: seq<FetchResult>)
    requires HasRequest(requestId)
    requires forall j :: 0 <= j < |results| ==> !EndsPolling(results[j])
    ensures StatusFetches(requestId, results) == results
  {
  }

  /** The three flags the panel derives from the latest data. */
  datatype Flags = Flags(isPending: bool, isConfirmed: bool, isFailed: bool)

  function Classify(data: Option<BookingStatusResponse>): (f: Flags)
    ensures data.None? ==> !f.isPending && !f.isConfirmed && !f.isFailed
    ensures data.Some? ==> (f.isPending <==> !IsTerminal(data.value.status))
    ensures data.Some? ==> (f.isConfirmed || f.isFailed <==> IsTerminal(data.value.status))
    ensures f.isConfirmed <==> data.Some? && data.value.status == Confirmed
    ensures f.isFailed <==> data.Some? && data.value.status == Failed
  {
    var s := if data.Some? then Some(data.value.status) else None;
    Flags(s == Some(Pending) || s == Some(Processing), s == Some(Confirmed), s == Some(Failed))
  }

  /** The flags never hold together, and for a defined status exactly one holds. */
  lemma FlagsAreExclusive(data: Option<BookingStatusResponse>)
    ensures var f := Classify(data);
            !(f.isPending && f.isConfirmed) && !(f.isPending && f.isFailed) && !(f.isConfirmed && f.isFailed)
    ensures data.Some? ==> var f := Classify(data); f.isPending || f.isConfirmed || f.isFailed
  {
  }

  /** `status.message || 'Unable to allocate seats'`. */
  function FailureText(message: Option<string>): (text: string)
    ensures message.Some? && message.value != "" ==> text == message.value
    ensures message.None? || message.value == "" ==> text == DEFAULT_FAILURE_TEXT
    ensures text != ""
  {
    if message.Some? && message.value != "" then message.value else DEFAULT_FAILURE_TEXT
  }

  /** What the panel renders. */
  datatype StatusView =
    | Nothing
    | LoadingStatus
    | Panel(requestId: string, flags: Flags, confirmedSeats: Option<seq<string>>,
            failureText: Option<string>, resetButton: bool)

  /** The render of `BookingStatus` for a prop, the query's loading flag and
      its latest data. An empty seat array is truthy, so it is still shown. */
  function Render(requestId: Option<string>, isLoading: bool, data: Option<BookingStatusResponse>): (v: StatusView)
    ensures v == Nothing <==> !HasRequest(requestId)
    ensures v == LoadingStatus <==> HasRequest(requestId) && isLoading
    ensures v.Panel? ==> (v.resetButton <==> data.Some? && IsTerminal(data.value.status))
    ensures v.Panel? ==> (v.failureText.Some? <==> data.Some? && data.value.status == Failed)
    ensures v.Panel? && v.failureText.Some? ==> v.failureText.value == FailureText(data.value.message)
    ensures v.Panel? ==> (v.confirmedSeats.Some? <==>
              data.Some? && data.value.status == Confirmed && data.value.allocatedSeats.Some?)
    ensures v.Panel? && v.confirmedSeats.Some? ==> v.confirmedSeats == data.value.allocatedSeats
    ensures v.Panel? ==> v.requestId == requestId.value && v.flags == Classify(data)
  {
    if !HasRequest(requestId) then Nothing
    else if isLoading then LoadingStatus
    else
      var flags := Classify(data);
      Panel(
        requestId.value,
        flags,
        if flags.isConfirmed && data.value.allocatedSeats.Some? then data.value.allocatedSeats else None,
        if flags.isFailed then Some(FailureText(data.value.message)) else None,
        flags.isConfirmed || flags.isFailed)
  }
}
