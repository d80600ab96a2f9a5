/** client/src/components/pages/ProfessionalDetailPage.jsx: the booking form
    of a professional's page. Its state (`bookingData`, the loaded services
    and slots) is replaced by each handler; submitting sends a create request
    to the bookings route. */
module ProfessionalDetail {
  import opened Common
  import opened Seqs
  import opened Docs
  import opened Model
  import opened Availability
  import Bookings

  function IsActive(): Doc<Service> -> bool {
    (d: Doc<Service>) => d.val.isActive
  }

  /** The services the page offers: the active ones among those fetched, in order. */
  function ActiveServices(fetched: seq<Doc<Service>>): (r: seq<Doc<Service>>)
    ensures forall d :: d in r ==> d.val.isActive
    ensures forall d :: d in fetched ==> (d in r <==> d.val.isActive)
    ensures IsSubseq(r, fetched)
  {
    FilterIsSubseq(fetched, IsActive());
    Bookings.FilterMembers(fetched, IsActive());
    Filter(fetched, IsActive())
  }

  class BookingForm {
    var serviceId: Option<Id>         // '' is None
    var date: string
    var hour: string
    var services: seq<Doc<Service>>
    var slots: seq<Slot>

    constructor ()
      ensures serviceId == None && date == "" && hour == ""
      ensures services == [] && slots == []
    {
      serviceId, date, hour := None, "", "";
      services, slots := [], [];
    }

    /** The services fetch: keeps the active services. */
    method LoadServices(fetched: seq<Doc<Service>>)
      modifies this`services
      ensures services == ActiveServices(fetched)
    {
      services := ActiveServices(fetched);
    }

    /** Clicking a service card or choosing it in the select: only the
        service changes. */
    method SelectService(id: Option<Id>)
      modifies this`serviceId
      ensures serviceId == id
    {
      serviceId := id;
    }

    /** Choosing a date: the hour is cleared and the service is kept. */
    method ChangeDate(newDate: string)
      modifies this`date, this`hour
      ensures date == newDate && hour == ""
    {
      date, hour := newDate, "";
    }

    /** The slots fetch for the chosen date: the answer's slots, or none when
        the fetch fails or the answer is not ok. */
    method LoadSlots(answer: Option<Result<seq<Slot>>>)
      modifies this`slots
      ensures answer.Some? && answer.value.Ok? ==> slots == answer.value.value
      ensures !(answer.Some? && answer.value.Ok?) ==> slots == []
    {
      if answer.Some? && answer.value.Ok? {
        slots := answer.value.value;
      } else {
        slots := [];
      }
    }

    /** Clicking a slot button: the hour becomes the slot's time only when the
        slot is available. */
    method ClickSlot(slot: Slot)
      modifies this`hour
      ensures slot.available ==> hour == slot.time
      ensures !slot.available ==> hour == old(hour)
    {
      if slot.available {
        hour := slot.time;
      }
    }

    /** The submit button is enabled only when service, date and hour are all chosen. */
    predicate SubmitEnabled()
      reads this
    {
      serviceId.Some? && Truthy(date) && Truthy(hour)
    }

    /** `handleBooking`: nothing is sent without a stored token or when the
        chosen service is not one of the offered ones; otherwise the create
        request for the professional of the page, at the chosen hour, with
        empty notes. A request sent from an enabled form carries every field
        the route requires, and names an active service. */
    method HandleBooking(hasToken: bool, professionalId: Id) returns (req: Option<Bookings.CreateRequest>)
      ensures !hasToken ==> req.None?
      ensures serviceId.None? || serviceId.value !in Ids(services) ==> req.None?
      ensures hasToken && serviceId.Some? && serviceId.value in Ids(services) ==>
        req == Some(Bookings.CreateRequest(Some(professionalId), serviceId, date, hour, ""))
      ensures req.Some? && SubmitEnabled() ==> Bookings.HasRequiredFields(req.value)
      ensures req.Some? ==> exists d :: d in services && d.id == req.value.serviceId.value
    {
      if !hasToken {
        return None;
      }
      if serviceId.None? {
        return None;
      }
      var selected := Find(services, serviceId.value);
      if selected.None? {
        return None;
      }
      return Some(Bookings.CreateRequest(Some(professionalId), serviceId, date, hour, ""));
    }
  }

  /** A form filled through the handlers, with an available slot picked, can
      be submitted, and its request names the chosen service, date and
      time. */
  method FillAndSubmit(fetched: seq<Doc<Service>>, service: Doc<Service>, day: string, slot: Slot, professionalId: Id)
    returns (req: Option<Bookings.CreateRequest>)
    requires service in fetched && service.val.isActive
    requires day != "" && slot.available && slot.time != ""
    ensures req.Some? && Bookings.HasRequiredFields(req.value)
    ensures req.value.serviceId == Some(service.id) && req.value.date == day && req.value.time == slot.time
  {
    var form := new BookingForm();
    form.LoadServices(fetched);
    form.SelectService(Some(service.id));
    form.ChangeDate(day);
    form.ClickSlot(slot);
    assert service in form.services;
    assert form.SubmitEnabled();
    req := form.HandleBooking(true, professionalId);
  }
}
