/**
 * The all-bookings page: the whole booking list, unfiltered, with the same
 * update and delete callbacks as the dashboard.
 */
module AllBookings {
  import opened Base
  import opened Records
  import opened ListCache

  const FetchFailed: string := "Failed to fetch bookings"
  const DeleteFailed: string := "Failed to delete booking"

  /** The page's state. */
  class AllBookingsPage {
    var bookings: seq<Record>
    var error: string

    constructor()
      ensures bookings == [] && error == ""
    {
      bookings := [];
      error := "";
    }

    /** `fetchBookings`, run on mount. */
    method Fetched(reply: Reply<seq<Record>>)
      modifies this
      ensures reply.Success? ==> bookings == reply.body && error == old(error)
      ensures !reply.Success? ==> bookings == old(bookings) && error == FixedMessage(reply, FetchFailed)
    {
      if reply.Success? {
        bookings := reply.body;
      } else {
        error := FixedMessage(reply, FetchFailed);
      }
    }

    /** `handleUpdateBooking`. */
    method UpdateBooking(updated: Record)
      modifies this
      ensures bookings == ReplaceById(old(bookings), "booking_id", updated)
      ensures error == old(error)
    {
      bookings := ReplaceById(bookings, "booking_id", updated);
    }

    /** `handleDeleteBooking`: on an ok response the bookings with that id go. */
    method DeleteBooking(bookingId: Option<Value>, reply: Reply<()>)
      modifies this
      ensures reply.Success? ==> bookings == RemoveById(old(bookings), "booking_id", bookingId) && error == old(error)
      ensures !reply.Success? ==> bookings == old(bookings) && error == FixedMessage(reply, DeleteFailed)
    {
      if reply.Success? {
        bookings := RemoveById(bookings, "booking_id", bookingId);
      } else {
        error := FixedMessage(reply, DeleteFailed);
      }
    }

    /** The bookings shown: all of them, whatever their status. */
    method Displayed() returns (shown: seq<Record>)
      ensures shown == bookings
      ensures forall b :: b in bookings ==> b in shown
    {
      shown := bookings;
    }
  }
}
