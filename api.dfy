/** The record shapes exchanged with the booking server. The `fetch` calls
    themselves are network I/O and are not part of this model. */
module Api {
  import opened Wrappers

  /** `BookingRequest`: the body of a submission. */
  datatype BookingRequest = BookingRequest(numSeats: int)

  /** `BookingResponse`: the server's answer to a submission. */
  datatype BookingResponse = BookingResponse(requestId: string, message: string, totalInQueue: int)

  /** The four states a booking request goes through on the server. */
  datatype RequestStatus = Pending | Processing | Confirmed | Failed

  /** `BookingStatusResponse`: one answer to a status poll. */
  datatype BookingStatusResponse = BookingStatusResponse(
    requestId: string,
    status: RequestStatus,
    allocatedSeats: Option<seq<string>>,
    message: Option<string>)

  /** The three states of a seat in the coach. */
  datatype SeatStatus = Available | Locked | Booked

  /** One value of `CoachLayoutResponse`, keyed by seat id. */
  datatype SeatInfo = SeatInfo(status: SeatStatus, bookingId: Option<string>)

  type CoachLayoutResponse = map<string, SeatInfo>
}
