/** The booking form: a seat-count field, a submit guard that keeps the
    count in 1..4 before any request is sent, and the dispatch of the
    server's answer. */
module BookingForm {
  import opened Wrappers
  import opened Api

  const MIN_SEATS: int := 1
  const MAX_SEATS: int := 4

  /** The submit check: `numSeats < 1 || numSeats > 4` rejects. */
  predicate ValidSeatCount(n: int)
  {
    MIN_SEATS <= n <= MAX_SEATS
  }

  /** `parseInt(e.target.value) || 1`: NaN (`None`) and 0 are falsy and
      become 1; every other integer, negative or above 4, is kept. */
  function NormaliseSeats(parsed: Option<int>): (n: int)
    ensures n != 0
    ensures parsed.None? || parsed.value == 0 ==> n == 1
    ensures parsed.Some? && parsed.value != 0 ==> n == parsed.value
  {
    if parsed.Some? && parsed.value != 0 then parsed.value else 1
  }

  /** After normalisation the submit check passes exactly for no input,
      0, or a parsed value in 1..4. */
  lemma NormalisedPassesCheckIff(parsed: Option<int>)
    ensures ValidSeatCount(NormaliseSeats(parsed)) <==>
            parsed.None? || parsed.value == 0 || ValidSeatCount(parsed.value)
  {
  }

  /** How the submission request settled: `onSuccess` or `onError`. */
  datatype MutationOutcome = Succeeded(response: BookingResponse) | Errored

  /** The argument passed to `onBookingStarted`: the response's request id
      on success; on error only a toast is shown and nothing is called. */
  function BookingStarted(outcome: MutationOutcome): (requestId: Option<string>)
    ensures requestId.Some? <==> outcome.Succeeded?
    ensures requestId.Some? ==> requestId.value == outcome.response.requestId
  {
    match outcome
    case Succeeded(response) => Some(response.requestId)
    case Errored => None
  }

  /** The form component and its one piece of state. */
  class Form {
    var numSeats: int

    /** `useState(1)`. */
    constructor ()
      ensures numSeats == 1 && ValidSeatCount(numSeats)
    {
      numSeats := 1;
    }

    /** The input's `onChange`, given what `parseInt` made of the text. */
    method OnChange(parsed: Option<int>)
      modifies this
      ensures numSeats == NormaliseSeats(parsed)
    {
      numSeats := if parsed.Some? && parsed.value != 0 then parsed.value else 1;
    }

    /** `handleSubmit`: the request handed to `mutate`, or `None` when the
        count is out of range and only an error toast is shown. */
    method HandleSubmit() returns (request: Option<BookingRequest>)
      ensures request.Some? <==> MIN_SEATS <= numSeats <= MAX_SEATS
      ensures request.Some? ==> request.value == BookingRequest(numSeats)
    {
      if numSeats < 1 || numSeats > 4 {
        return None;
      }
      return Some(BookingRequest(numSeats));
    }
  }

  /** A whole submit from a given count: the request id reported upward,
      which requires both a valid count and a successful response. */
  function SubmitFlow(numSeats: int, outcome: MutationOutcome): (started: Option<string>)
    ensures started.Some? <==> ValidSeatCount(numSeats) && outcome.Succeeded?
    ensures started.Some? ==> started.value == outcome.response.requestId
  {
    if ValidSeatCount(numSeats) then BookingStarted(outcome) else None
  }
}
