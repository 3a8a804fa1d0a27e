/**
 * The dashboard page: the cached lists of bookings, services and
 * professionals, the callbacks the forms and cards call to change them, and the
 * three-item previews it shows.
 */
module Dashboard {
  import opened Base
  import opened Records
  import opened ListCache

  const BookingsFetchFailed: string := "Failed to fetch bookings"
  const ServicesFetchFailed: string := "Failed to fetch services"
  const ProfessionalsFetchFailed: string := "Failed to fetch professionals"
  const ServiceDeleteFailed: string := "Failed to delete service"
  const ProfessionalDeleteFailed: string := "Failed to delete professional"
  const BookingDeleteFailed: string := "Failed to delete booking"

  /** The page's state. A delete is applied to its list only once the server
      has answered with an ok response. */
  class DashboardPage {
    var bookings: seq<Record>
    var services: seq<Record>
    var professionals: seq<Record>
    var error: string

    constructor()
      ensures bookings == [] && services == [] && professionals == [] && error == ""
    {
      bookings, services, professionals := [], [], [];
      error := "";
    }

    /** `fetchBookings`, run on mount. */
    method BookingsFetched(reply: Reply<seq<Record>>)
      modifies this
      ensures reply.Success? ==> bookings == reply.body && error == old(error)
      ensures !reply.Success? ==> bookings == old(bookings) && error == FixedMessage(reply, BookingsFetchFailed)
      ensures services == old(services) && professionals == old(professionals)
    {
      if reply.Success? {
        bookings := reply.body;
      } else {
        error := FixedMessage(reply, BookingsFetchFailed);
      }
    }

    /** `fetchServices`, run on mount. */
    method ServicesFetched(reply: Reply<seq<Record>>)
      modifies this
      ensures reply.Success? ==> services == reply.body && error == old(error)
      ensures !reply.Success? ==> services == old(services) && error == FixedMessage(reply, ServicesFetchFailed)
      ensures bookings == old(bookings) && professionals == old(professionals)
    {
      if reply.Success? {
        services := reply.body;
      } else {
        error := FixedMessage(reply, ServicesFetchFailed);
      }
    }

    /** `fetchProfessionals`, run on mount. */
    method ProfessionalsFetched(reply: Reply<seq<Record>>)
      modifies this
      ensures reply.Success? ==> professionals == reply.body && error == old(error)
      ensures !reply.Success? ==> professionals == old(professionals) && error == FixedMessage(reply, ProfessionalsFetchFailed)
      ensures bookings == old(bookings) && services == old(services)
    {
      if reply.Success? {
        professionals := reply.body;
      } else {
        error := FixedMessage(reply, ProfessionalsFetchFailed);
      }
    }

    /** `addService`: the new service goes at the end. */
    method AddService(service: Record)
      modifies this
      ensures services == Append(old(services), service)
      ensures bookings == old(bookings) && professionals == old(professionals) && error == old(error)
    {
      services := services + [service];
    }

    /** `updateService`: every service with the same `service_id` is replaced. */
    method UpdateService(updated: Record)
      modifies this
      ensures services == ReplaceById(old(services), "service_id", updated)
      ensures bookings == old(bookings) && professionals == old(professionals) && error == old(error)
    {
      services := ReplaceById(services, "service_id", updated);
    }

    /** `deleteService`: on an ok response the services with that id go;
        otherwise the list stays and the message is shown. */
    method DeleteService(serviceId: Option<Value>, reply: Reply<()>)
      modifies this
      ensures reply.Success? ==> services == RemoveById(old(services), "service_id", serviceId) && error == old(error)
      ensures !reply.Success? ==> services == old(services) && error == FixedMessage(reply, ServiceDeleteFailed)
      ensures bookings == old(bookings) && professionals == old(professionals)
    {
      if reply.Success? {
        services := RemoveById(services, "service_id", serviceId);
      } else {
        error := FixedMessage(reply, ServiceDeleteFailed);
      }
    }

    /** `addProfessional`: the new professional goes at the end. */
    method AddProfessional(professional: Record)
      modifies this
      ensures professionals == Append(old(professionals), professional)
      ensures bookings == old(bookings) && services == old(services) && error == old(error)
    {
      professionals := professionals + [professional];
    }

    /** `updateProfessional`: every professional with the same
        `professional_id` is replaced. */
    method UpdateProfessional(updated: Record)
      modifies this
      ensures professionals == ReplaceById(old(professionals), "professional_id", updated)
      ensures bookings == old(bookings) && services == old(services) && error == old(error)
    {
      professionals := ReplaceById(professionals, "professional_id", updated);
    }

    /** `deleteProfessional`. */
    method DeleteProfessional(professionalId: Option<Value>, reply: Reply<()>)
      modifies this
      ensures reply.Success? ==>
                professionals == RemoveById(old(professionals), "professional_id", professionalId) &&
                error == old(error)
      ensures !reply.Success? ==>
                professionals == old(professionals) && error == FixedMessage(reply, ProfessionalDeleteFailed)
      ensures bookings == old(bookings) && services == old(services)
    {
      if reply.Success? {
        professionals := RemoveById(professionals, "professional_id", professionalId);
      } else {
        error := FixedMessage(reply, ProfessionalDeleteFailed);
      }
    }

    /** `handleUpdateBooking`: every booking with the same `booking_id` is
        replaced. */
    method UpdateBooking(updated: Record)
      modifies this
      ensures bookings == ReplaceById(old(bookings), "booking_id", updated)
      ensures services == old(services) && professionals == old(professionals) && error == old(error)
    {
      bookings := ReplaceById(bookings, "booking_id", updated);
    }

    /** `handleDeleteBooking`. */
    method DeleteBooking(bookingId: Option<Value>, reply: Reply<()>)
      modifies this
      ensures reply.Success? ==> bookings == RemoveById(old(bookings), "booking_id", bookingId) && error == old(error)
      ensures !reply.Success? ==> bookings == old(bookings) && error == FixedMessage(reply, BookingDeleteFailed)
      ensures services == old(services) && professionals == old(professionals)
    {
      if reply.Success? {
        bookings := RemoveById(bookings, "booking_id", bookingId);
      } else {
        error := FixedMessage(reply, BookingDeleteFailed);
      }
    }

    /** What the page shows: the three previews and whether each section
        offers "View All" (for bookings, counted over the pending ones). */
    method View() returns (active: seq<Record>, shownServices: seq<Record>, shownProfessionals: seq<Record>,
                           allBookings: bool, allServices: bool, allProfessionals: bool)
      ensures active == ActivePreview(bookings)
      ensures shownServices == Preview(services) && shownProfessionals == Preview(professionals)
      ensures allBookings <==> ShowViewAll(|PendingBookings(bookings)|)
      ensures allServices <==> ShowViewAll(|services|)
      ensures allProfessionals <==> ShowViewAll(|professionals|)
    {
      active := ActivePreview(bookings);
      shownServices := Preview(services);
      shownProfessionals := Preview(professionals);
      allBookings := |PendingBookings(bookings)| > 3;
      allServices := |services| > 3;
      allProfessionals := |professionals| > 3;
    }
  }
}
