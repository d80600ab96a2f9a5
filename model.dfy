/** The documents of the MongoDB collections the routes share (`users`,
    `services`, `bookings`, `reviews`, `events`, `availability_settings`) and
    the database object that holds them. Timestamps (`createdAt`, `updatedAt`)
    are not modelled. */
module Model {
  import opened Common
  import opened Docs
  import opened Clock

  /** The four booking statuses; stored as the strings of `StatusName`. */
  datatype BookingStatus = Pending | Confirmed | Cancelled | Completed

  function StatusName(s: BookingStatus): string {
    match s
    case Pending => "pending"
    case Confirmed => "confirmed"
    case Cancelled => "cancelled"
    case Completed => "completed"
  }

  /** The enum check of update-status: the status text must be one of the four names. */
  function ParseStatus(text: string): (r: Option<BookingStatus>)
    ensures r.Some? ==> StatusName(r.value) == text
  {
    if text == "pending" then Some(Pending)
    else if text == "confirmed" then Some(Confirmed)
    else if text == "cancelled" then Some(Cancelled)
    else if text == "completed" then Some(Completed)
    else None
  }

  /** Every status name is accepted and read back as that status. */
  lemma StatusRoundTrip(s: BookingStatus)
    ensures ParseStatus(StatusName(s)) == Some(s)
  {
  }

  datatype User = User(
    prenom: string,
    nom: string,
    dateDeNaissance: string,
    email: string,
    password: string,            // the bcrypt hash, never the clear text
    profession: Option<string>,
    companyName: Option<string>,
    siret: Option<string>,
    isClient: bool,
    isAdmin: bool,               // absent on registered users: false
    phone: Option<string>,
    averageRating: real,         // absent until a review exists: 0
    totalReviews: nat)

  datatype Service = Service(
    professionalId: Id,
    name: string,
    description: string,
    duration: int,               // minutes
    price: int,
    category: string,
    isActive: bool)

  /** A booking, with the snapshot of client, professional and service taken
      when it was created. */
  datatype Booking = Booking(
    clientId: Id,
    clientName: string,
    clientEmail: string,
    clientPhone: Option<string>,
    professionalId: Id,
    professionalName: string,
    serviceId: Id,
    serviceName: string,
    servicePrice: int,
    serviceDuration: int,
    date: string,                // YYYY-MM-DD
    time: string,                // HH:MM
    notes: string,
    status: BookingStatus)

  datatype Review = Review(
    professionalId: Id,
    clientId: Id,
    rating: int,
    comment: string,
    serviceId: Option<Id>)

  /** A planning event; every field is the request's text. */
  datatype Event = Event(userId: string, date: string, hour: string, name: string)

  /** A stored break bound, compared as JavaScript compares a time text with
      it: `undefined`/`null` (Missing) fails both `>=` and `<`; the empty text
      (Blank) is below every time; otherwise a time of day. */
  datatype TimeField = Missing | Blank | At(m: Minute)

  /** One professional's weekly schedule (`availability_settings`). */
  datatype Settings = Settings(
    workingDays: seq<string>,    // French day names, e.g. "Lundi"
    start: Minute,               // hours.start
    end: Minute,                 // hours.end
    slotDuration: int,           // minutes
    breakStart: TimeField,
    breakEnd: TimeField)

  /** The database: every collection in natural order, and the source of
      fresh ObjectIds. */
  class Db {
    var users: seq<Doc<User>>
    var services: seq<Doc<Service>>
    var bookings: seq<Doc<Booking>>
    var reviews: seq<Doc<Review>>
    var events: seq<Doc<Event>>
    var settings: map<Id, Settings>   // keyed by professionalId (upserted)
    var nextId: nat

    ghost predicate Valid()
      reads this
    {
      && UniqueIds(users) && IdsBelow(users, nextId)
      && UniqueIds(services) && IdsBelow(services, nextId)
      && UniqueIds(bookings) && IdsBelow(bookings, nextId)
      && UniqueIds(reviews) && IdsBelow(reviews, nextId)
      && UniqueIds(events) && IdsBelow(events, nextId)
    }

    constructor ()
      ensures Valid()
      ensures users == [] && services == [] && bookings == [] && reviews == [] && events == []
      ensures settings == map[]
    {
      users, services, bookings, reviews, events := [], [], [], [], [];
      settings := map[];
      nextId := 0;
    }

    /** The `_id` of the next inserted document. */
    method FreshId() returns (id: Id)
      requires Valid()
      modifies this`nextId
      ensures id == old(nextId) && nextId == id + 1 && Valid()
      ensures id !in Ids(users) && id !in Ids(services) && id !in Ids(bookings)
      ensures id !in Ids(reviews) && id !in Ids(events)
    {
      id := nextId;
      nextId := nextId + 1;
    }
  }
}
