/** The main page: the session gate, the booking-or-status switch and the
    key that remounts the history panel. */
module IndexPage {
  import opened Wrappers
  import opened KeyValue
  import opened Auth
  import opened BookingStatus

  /** Which panels the page renders. */
  datatype Screen =
    | AuthScreen
    | Dashboard(bookingForm: bool, statusFor: Option<string>, historyKey: nat)

  /** The render decision: only the auth form without a user; otherwise the
      booking form when `currentRequestId` is falsy, the status panel for it
      when truthy, and the history panel keyed by `historyKey`. */
  function View(user: Option<User>, currentRequestId: Option<string>, historyKey: nat): (s: Screen)
    ensures s == AuthScreen <==> user.None?
    ensures s.Dashboard? ==> (s.bookingForm <==> !HasRequest(currentRequestId))
    ensures s.Dashboard? ==> (s.statusFor.Some? <==> HasRequest(currentRequestId))
    ensures s.Dashboard? && s.statusFor.Some? ==> currentRequestId == s.statusFor
    ensures s.Dashboard? ==> s.historyKey == historyKey
  {
    if user.None? then AuthScreen
    else Dashboard(!HasRequest(currentRequestId),
                   if HasRequest(currentRequestId) then currentRequestId else None,
                   historyKey)
  }

  /** The form and the status panel are never shown together, and one of
      them always is. */
  lemma FormXorStatus(user: Option<User>, currentRequestId: Option<string>, historyKey: nat)
    requires user.Some?
    ensures var s := View(user, currentRequestId, historyKey);
            s.Dashboard? && (s.bookingForm <==> s.statusFor.None?)
  {
  }

  /** The page's state fields. */
  class Page {
    var user: Option<User>
    var currentRequestId: Option<string>
    var queuePosition: int
    var numSeats: int
    var historyKey: nat

    /** Mount: the user read from the session store, no request, zeros. */
    constructor (session: AuthEntries)
      ensures user == GetCurrentUser(session)
      ensures currentRequestId == None && queuePosition == 0 && numSeats == 0 && historyKey == 0
    {
      user := GetCurrentUser(session);
      currentRequestId := None;
      queuePosition := 0;
      numSeats := 0;
      historyKey := 0;
    }

    function Current(): Screen
      reads this
    {
      View(user, currentRequestId, historyKey)
    }

    /** `handleBookingStarted`: stores exactly the three given values. */
    method HandleBookingStarted(requestId: string, position: int, seats: int)
      modifies this
      ensures currentRequestId == Some(requestId) && queuePosition == position && numSeats == seats
      ensures user == old(user) && historyKey == old(historyKey)
    {
      currentRequestId := Some(requestId);
      queuePosition := position;
      numSeats := seats;
    }

    /** `handleReset`: back to no request from any state; the history key
        and the user stay. */
    method HandleReset()
      modifies this
      ensures currentRequestId == None && queuePosition == 0 && numSeats == 0
      ensures user == old(user) && historyKey == old(historyKey)
      ensures user.Some? ==> Current() == Dashboard(true, None, historyKey)
    {
      currentRequestId := None;
      queuePosition := 0;
      numSeats := 0;
    }

    /** The `onHistoryUpdate` callback: the history key goes up by one. */
    method OnHistoryUpdate()
      modifies this
      ensures historyKey == old(historyKey) + 1
      ensures user == old(user) && currentRequestId == old(currentRequestId)
      ensures queuePosition == old(queuePosition) && numSeats == old(numSeats)
    {
      historyKey := historyKey + 1;
    }

    /** The header's `onLogout`: the page forgets the user. */
    method OnLogout()
      modifies this
      ensures user == None && Current() == AuthScreen
      ensures currentRequestId == old(currentRequestId) && historyKey == old(historyKey)
      ensures queuePosition == old(queuePosition) && numSeats == old(numSeats)
    {
      user := None;
    }

    /** The auth form's `onAuthSuccess`: the user is read again from the
        session store. */
    method OnAuthSuccess(session: AuthEntries)
      modifies this
      ensures user == GetCurrentUser(session)
      ensures currentRequestId == old(currentRequestId) && historyKey == old(historyKey)
      ensures queuePosition == old(queuePosition) && numSeats == old(numSeats)
    {
      user := GetCurrentUser(session);
    }
  }
}
