/** client/src/components/pages/BookingsPage.jsx: the status filter of the
    bookings list and the action buttons each booking offers. The buttons are
    the only place where the allowed status transitions are written down:
    the server accepts any status from any status. */
module BookingsPage {
  import opened Common
  import opened Seqs
  import opened Docs
  import opened Model
  import Bookings

  predicate StatusIs(d: Doc<Booking>, filter: string) {
    StatusName(d.val.status) == filter
  }

  /** `filteredBookings`: every booking for 'all', otherwise the bookings
      whose status text is the filter, in the loaded order. */
  function FilteredBookings(bookings: seq<Doc<Booking>>, filter: string): (r: seq<Doc<Booking>>)
    ensures filter == "all" ==> r == bookings
    ensures filter != "all" ==> IsSubseq(r, bookings)
    ensures filter != "all" ==> forall d :: d in bookings ==> (d in r <==> StatusIs(d, filter))
  {
    if filter == "all" then bookings
    else
      var p := (d: Doc<Booking>) => StatusIs(d, filter);
      FilterIsSubseq(bookings, p);
      Bookings.FilterMembers(bookings, p);
      Filter(bookings, p)
  }

  /** The buttons of a booking card. */
  datatype Action = Confirm | Complete | Cancel | Delete

  /** Whether the card shows the button, for the viewer's role and the
      booking's status. */
  predicate Offered(isClient: bool, status: BookingStatus, a: Action) {
    match a
    case Confirm => !isClient && status == Pending
    case Complete => !isClient && status == Confirmed
    case Cancel => status == Pending || status == Confirmed
    case Delete => !isClient
  }

  /** The status a button requests; deleting requests none. */
  function Target(a: Action): (r: Option<BookingStatus>)
    ensures r.None? <==> a == Delete
  {
    match a
    case Confirm => Some(Confirmed)
    case Complete => Some(Completed)
    case Cancel => Some(Cancelled)
    case Delete => None
  }

  /** The booking life cycle as a table: a professional confirms or cancels a
      pending booking and completes or cancels a confirmed one; a client can
      only cancel a pending or confirmed booking. */
  predicate LifeCycle(isClient: bool, from: BookingStatus, to: BookingStatus) {
    if isClient then (from, to) in {(Pending, Cancelled), (Confirmed, Cancelled)}
    else (from, to) in {(Pending, Confirmed), (Pending, Cancelled), (Confirmed, Completed), (Confirmed, Cancelled)}
  }

  /** A status change the page can request. */
  predicate CanRequest(isClient: bool, from: BookingStatus, to: BookingStatus) {
    exists a :: Offered(isClient, from, a) && Target(a) == Some(to)
  }

  /** The buttons implement exactly the life-cycle table. */
  lemma ButtonsFollowLifeCycle(isClient: bool, from: BookingStatus, to: BookingStatus)
    ensures CanRequest(isClient, from, to) <==> LifeCycle(isClient, from, to)
  {
    if LifeCycle(isClient, from, to) {
      var a := if to == Cancelled then Cancel else if to == Confirmed then Confirm else Complete;
      assert Offered(isClient, from, a) && Target(a) == Some(to);
    }
  }

  /** Completed and cancelled bookings offer no status button: both are final. */
  lemma FinalStatuses(isClient: bool, from: BookingStatus, a: Action)
    requires from == Completed || from == Cancelled
    ensures Offered(isClient, from, a) ==> a == Delete
  {
  }

  /** Every status a button requests is one the server's enum check accepts. */
  lemma ButtonsPassEnumCheck(a: Action)
    requires a != Delete
    ensures ParseStatus(StatusName(Target(a).value)) == Target(a)
  {
    StatusRoundTrip(Target(a).value);
  }

  /** Only professionals see the delete button, whatever the status. */
  lemma DeleteOnlyForProfessionals(isClient: bool, status: BookingStatus)
    ensures Offered(isClient, status, Delete) <==> !isClient
  {
  }

  /** The page asks for statistics only when the viewer is not a client. */
  predicate LoadsStats(user: User) {
    !user.isClient
  }

  /** A viewer for whom the page loads statistics is never refused them. */
  lemma LoadedStatsAreAnswered(users: seq<Doc<User>>, bookings: seq<Doc<Booking>>, user: User, caller: Id)
    requires Find(users, caller) == Some(user) && LoadsStats(user)
    ensures Bookings.Stats(users, bookings, caller).Ok?
  {
  }
}
