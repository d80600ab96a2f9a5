/** server/routes/bookings.js: the booking lifecycle. A booking is created
    `pending` with a snapshot of its client, professional and service; its
    status may then be set to any of the four statuses by either party, and
    either party may delete it. The professional's statistics count the
    bookings by status and sum the revenue of the completed ones. */
module Bookings {
  import opened Common
  import opened Seqs
  import opened Docs
  import opened Model

  /** The body of `POST /create`. A missing identifier is `None`; a missing
      or empty text is "". */
  datatype CreateRequest = CreateRequest(
    professionalId: Option<Id>,
    serviceId: Option<Id>,
    date: string,
    time: string,
    notes: string)

  /** All four required fields of `POST /create` are present. */
  predicate HasRequiredFields(req: CreateRequest) {
    req.professionalId.Some? && req.serviceId.Some? && Truthy(req.date) && Truthy(req.time)
  }

  /** The professional's display name: the company name when it is set,
      otherwise "prenom nom". */
  function ProfessionalName(pro: User): (r: string)
    ensures TruthyOpt(pro.companyName) ==> r == pro.companyName.value
    ensures !TruthyOpt(pro.companyName) ==> r == pro.prenom + " " + pro.nom
  {
    if TruthyOpt(pro.companyName) then pro.companyName.value else pro.prenom + " " + pro.nom
  }

  /** What `POST /create` decides from the stored users and services: the
      first failing check, or the booking it inserts. The bookings already
      stored take no part: there is no conflict check. */
  function CreateOutcome(users: seq<Doc<User>>, services: seq<Doc<Service>>, caller: Id, req: CreateRequest): Result<Booking>
  {
    if !HasRequiredFields(req) then Err(BadRequest)
    else match (Find(services, req.serviceId.value), Find(users, req.professionalId.value), Find(users, caller))
      case (None, _, _) => Err(NotFound)
      case (Some(_), None, _) => Err(NotFound)
      case (Some(_), Some(_), None) => Err(ServerError)   // `client.prenom` of a missing client
      case (Some(service), Some(pro), Some(client)) =>
        Ok(Booking(
          caller,
          client.prenom + " " + client.nom,
          client.email,
          OrNull(client.phone),
          req.professionalId.value,
          ProfessionalName(pro),
          req.serviceId.value,
          service.name,
          service.price,
          service.duration,
          req.date,
          req.time,
          OrElse(req.notes, ""),
          Pending))
  }

  /** The checks of `POST /create` in their order: missing fields (400), then
      the service (404), then the professional (404); a created booking is
      `pending`, belongs to the caller, copies the service and the
      professional's name and has notes "" by default. */
  lemma CreateOutcomeSpec(users: seq<Doc<User>>, services: seq<Doc<Service>>, caller: Id, req: CreateRequest)
    ensures !HasRequiredFields(req) ==> CreateOutcome(users, services, caller, req) == Err(BadRequest)
    ensures HasRequiredFields(req) && req.serviceId.value !in Ids(services)
      ==> CreateOutcome(users, services, caller, req) == Err(NotFound)
    ensures HasRequiredFields(req) && req.serviceId.value in Ids(services) && req.professionalId.value !in Ids(users)
      ==> CreateOutcome(users, services, caller, req) == Err(NotFound)
    ensures CreateOutcome(users, services, caller, req).Ok? <==>
      HasRequiredFields(req) && req.serviceId.value in Ids(services)
      && req.professionalId.value in Ids(users) && caller in Ids(users)
    ensures CreateOutcome(users, services, caller, req).Ok? ==>
      var b := CreateOutcome(users, services, caller, req).value;
      && b.status == Pending && b.clientId == caller
      && b.professionalId == req.professionalId.value && b.serviceId == req.serviceId.value
      && b.date == req.date && b.time == req.time
      && b.notes == req.notes
      && (var service := Find(services, req.serviceId.value).value;
          b.serviceName == service.name && b.servicePrice == service.price && b.serviceDuration == service.duration)
      && (var client := Find(users, caller).value;
          b.clientName == client.prenom + " " + client.nom && b.clientEmail == client.email
          && b.clientPhone == OrNull(client.phone))
      && b.professionalName == ProfessionalName(Find(users, b.professionalId).value)
  {
  }

  /** `POST /create`: inserts the booking `CreateOutcome` decides, under a
      fresh identifier, and answers with that identifier; on an error nothing
      is stored. */
  method Create(db: Db, caller: Id, req: CreateRequest) returns (r: Result<Id>)
    requires db.Valid()
    modifies db
    ensures db.Valid()
    ensures db.users == old(db.users) && db.services == old(db.services) && db.reviews == old(db.reviews)
    ensures db.events == old(db.events) && db.settings == old(db.settings)
    ensures var outcome := CreateOutcome(old(db.users), old(db.services), caller, req);
      && (outcome.Err? ==> r == Err(outcome.error) && db.bookings == old(db.bookings))
      && (outcome.Ok? ==> r.Ok? && r.value !in Ids(old(db.bookings))
                          && db.bookings == old(db.bookings) + [Doc(r.value, outcome.value)])
  {
    var outcome := CreateOutcome(db.users, db.services, caller, req);
    if outcome.Err? {
      return Err(outcome.error);
    }
    var id := db.FreshId();
    AppendFresh(db.bookings, id, outcome.value);
    db.bookings := db.bookings + [Doc(id, outcome.value)];
    return Ok(id);
  }

  /** There is no conflict check: once one booking of a slot succeeds, the
      same request succeeds again and the slot holds two bookings. */
  method CreateTwice(db: Db, caller: Id, req: CreateRequest) returns (first: Result<Id>, second: Result<Id>)
    requires db.Valid()
    modifies db
    ensures first.Ok? <==> second.Ok?
    ensures first.Ok? ==>
      && first.value != second.value
      && |db.bookings| == |old(db.bookings)| + 2
      && db.bookings[|db.bookings| - 2].val == db.bookings[|db.bookings| - 1].val
      && db.bookings[|db.bookings| - 1].val.date == req.date
      && db.bookings[|db.bookings| - 1].val.time == req.time
  {
    first := Create(db, caller, req);
    ghost var between := db.bookings;
    second := Create(db, caller, req);
    if first.Ok? {
      assert first.value in Ids(between) by {
        assert between[|between| - 1].id == first.value;
      }
    }
  }

  /** `PUT /update-status/:id`: the status text is checked before the store
      is read; then the booking must exist (404) and the caller must be its
      client or its professional (403). Any of the four statuses may be set,
      whatever the current one; only that booking's status changes. */
  method UpdateStatus(db: Db, caller: Id, id: Id, status: string) returns (r: Result<BookingStatus>)
    requires db.Valid()
    modifies db`bookings
    ensures db.Valid()
    ensures ParseStatus(status).None? ==> r == Err(BadRequest)
    ensures ParseStatus(status).Some? && Find(old(db.bookings), id).None? ==> r == Err(NotFound)
    ensures ParseStatus(status).Some? && Find(old(db.bookings), id).Some? ==>
      var b := Find(old(db.bookings), id).value;
      r == (if b.clientId != caller && b.professionalId != caller then Err(Forbidden) else Ok(ParseStatus(status).value))
    ensures r.Err? ==> db.bookings == old(db.bookings)
    ensures r.Ok? ==>
      && StatusName(r.value) == status
      && Ids(db.bookings) == Ids(old(db.bookings))
      && |db.bookings| == |old(db.bookings)|
      && forall i :: 0 <= i < |db.bookings| ==>
           db.bookings[i] == (if old(db.bookings)[i].id == id
                              then Doc(id, old(db.bookings)[i].val.(status := r.value))
                              else old(db.bookings)[i])
  {
    var parsed := ParseStatus(status);
    if parsed.None? {
      return Err(BadRequest);
    }
    var booking := Find(db.bookings, id);
    if booking.None? {
      return Err(NotFound);
    }
    if booking.value.clientId != caller && booking.value.professionalId != caller {
      return Err(Forbidden);
    }
    var newStatus := parsed.value;
    var updated := Update(db.bookings, id, WithStatus(newStatus));
    UpdateSpec(db.bookings, id, WithStatus(newStatus));
    forall i | 0 <= i < |updated| ensures updated[i].id < db.nextId {
      assert updated[i].id == db.bookings[i].id;
    }
    db.bookings := updated;
    return Ok(newStatus);
  }

  /** The `$set: { status }` of update-status. */
  function WithStatus(st: BookingStatus): Booking -> Booking {
    (b: Booking) => b.(status := st)
  }

  /** `DELETE /delete/:id`: 404 for an unknown booking, 403 unless the caller
      is its client or its professional; otherwise exactly that booking is
      removed. */
  method Delete(db: Db, caller: Id, id: Id) returns (r: Result<Id>)
    requires db.Valid()
    modifies db`bookings
    ensures db.Valid()
    ensures Find(old(db.bookings), id).None? ==> r == Err(NotFound)
    ensures Find(old(db.bookings), id).Some? ==>
      var b := Find(old(db.bookings), id).value;
      r == (if b.clientId != caller && b.professionalId != caller then Err(Forbidden) else Ok(id))
    ensures r.Err? ==> db.bookings == old(db.bookings)
    ensures r.Ok? ==>
      && db.bookings == Without(old(db.bookings), id)
      && Ids(db.bookings) == Ids(old(db.bookings)) - {id}
      && |db.bookings| == |old(db.bookings)| - 1
      && forall d :: d in db.bookings <==> d in old(db.bookings) && d.id != id
  {
    var booking := Find(db.bookings, id);
    if booking.None? {
      return Err(NotFound);
    }
    if booking.value.clientId != caller && booking.value.professionalId != caller {
      return Err(Forbidden);
    }
    WithoutSpec(db.bookings, id);
    db.bookings := Without(db.bookings, id);
    ForallIdsBelowSub(db.bookings, old(db.bookings), db.nextId);
    return Ok(id);
  }

  /** A sub-collection of a collection whose identifiers are below `next`
      has its identifiers below `next` too. */
  lemma ForallIdsBelowSub<T>(sub: seq<Doc<T>>, docs: seq<Doc<T>>, next: nat)
    requires IdsBelow(docs, next)
    requires forall d :: d in sub ==> d in docs
    ensures IdsBelow(sub, next)
  {
    forall i | 0 <= i < |sub| ensures sub[i].id < next {
      assert sub[i] in docs;
    }
  }

  // ----- queries ------------------------------------------------------------

  function IsClientOf(caller: Id): Doc<Booking> -> bool {
    (d: Doc<Booking>) => d.val.clientId == caller
  }

  function IsProfessionalOf(caller: Id): Doc<Booking> -> bool {
    (d: Doc<Booking>) => d.val.professionalId == caller
  }

  function HasStatus(st: BookingStatus): Doc<Booking> -> bool {
    (d: Doc<Booking>) => d.val.status == st
  }

  /** `GET /my-bookings`: the caller's user record decides the side. A client
      sees the bookings it made, anyone else the bookings made with them, in
      stored order. Reading `isClient` of a missing caller is a server error. */
  function MyBookings(users: seq<Doc<User>>, bookings: seq<Doc<Booking>>, caller: Id): (r: Result<seq<Doc<Booking>>>)
    ensures Find(users, caller).None? <==> r == Err(ServerError)
    ensures r.Ok? ==> IsSubseq(r.value, bookings)
    ensures r.Ok? && Find(users, caller).value.isClient ==>
      forall d :: d in bookings ==> (d in r.value <==> d.val.clientId == caller)
    ensures r.Ok? && !Find(users, caller).value.isClient ==>
      forall d :: d in bookings ==> (d in r.value <==> d.val.professionalId == caller)
  {
    match Find(users, caller)
    case None => Err(ServerError)
    case Some(u) =>
      var p := if u.isClient then IsClientOf(caller) else IsProfessionalOf(caller);
      FilterIsSubseq(bookings, p);
      FilterMembers(bookings, p);
      Ok(Filter(bookings, p))
  }

  /** Membership in a filtered list is membership in the list plus the predicate. */
  lemma FilterMembers<T>(s: seq<T>, p: T -> bool)
    ensures forall x :: x in s ==> (x in Filter(s, p) <==> p(x))
  {
    forall x | x in s ensures x in Filter(s, p) <==> p(x) {
      if x in Filter(s, p) {
        var i :| 0 <= i < |Filter(s, p)| && Filter(s, p)[i] == x;
      }
    }
  }

  datatype BookingStats = BookingStats(
    total: nat,
    pending: nat,
    confirmed: nat,
    completed: nat,
    cancelled: nat,
    totalRevenue: int)

  /** `reduce((sum, b) => sum + b.servicePrice, 0)`. */
  function SumPrices(s: seq<Doc<Booking>>): int {
    if s == [] then 0 else s[0].val.servicePrice + SumPrices(s[1..])
  }

  /** Revenue of the completed bookings among `s`. */
  function Revenue(s: seq<Doc<Booking>>): int {
    SumPrices(Filter(s, HasStatus(Completed)))
  }

  lemma {:induction false} SumPricesAppend(a: seq<Doc<Booking>>, b: seq<Doc<Booking>>)
    ensures SumPrices(a + b) == SumPrices(a) + SumPrices(b)
  {
    if a == [] {
      assert a + b == b;
    } else {
      assert (a + b)[1..] == a[1..] + b;
      SumPricesAppend(a[1..], b);
    }
  }

  /** Revenue adds up over a split of the bookings, so each completed booking
      contributes its price exactly once and every other booking nothing. */
  lemma RevenueAppend(a: seq<Doc<Booking>>, b: seq<Doc<Booking>>)
    ensures Revenue(a + b) == Revenue(a) + Revenue(b)
  {
    FilterAppend(a, b, HasStatus(Completed));
    SumPricesAppend(Filter(a, HasStatus(Completed)), Filter(b, HasStatus(Completed)));
  }

  /** Revenue of a single booking: its price when completed, otherwise 0. */
  lemma RevenueOne(d: Doc<Booking>)
    ensures Revenue([d]) == if d.val.status == Completed then d.val.servicePrice else 0
  {
    assert [d][1..] == [];
    assert Filter([d], HasStatus(Completed)) == if d.val.status == Completed then [d] else [];
    assert SumPrices([d]) == d.val.servicePrice + SumPrices([]);
  }

  /** The four status counts of a list add up to its length. */
  lemma {:induction false} StatusCountsSum(s: seq<Doc<Booking>>)
    ensures Count(s, HasStatus(Pending)) + Count(s, HasStatus(Confirmed))
          + Count(s, HasStatus(Completed)) + Count(s, HasStatus(Cancelled)) == |s|
  {
    if s != [] {
      StatusCountsSum(s[1..]);
    }
  }

  /** `GET /stats`: the caller's user record is read first; a client gets 403
      (and a missing caller a server error). Otherwise each status count is
      the number of the professional's bookings with that status, the counts
      add up to their total, and the revenue is the sum of the prices of the
      completed ones. */
  function Stats(users: seq<Doc<User>>, bookings: seq<Doc<Booking>>, caller: Id): (r: Result<BookingStats>)
    ensures Find(users, caller).None? ==> r == Err(ServerError)
    ensures Find(users, caller).Some? && Find(users, caller).value.isClient ==> r == Err(Forbidden)
    ensures r.Ok? <==> Find(users, caller).Some? && !Find(users, caller).value.isClient
    ensures r.Ok? ==> r.value.total == |Filter(bookings, IsProfessionalOf(caller))|
    ensures r.Ok? ==> r.value.pending == Count(Filter(bookings, IsProfessionalOf(caller)), HasStatus(Pending))
    ensures r.Ok? ==> r.value.confirmed == Count(Filter(bookings, IsProfessionalOf(caller)), HasStatus(Confirmed))
    ensures r.Ok? ==> r.value.completed == Count(Filter(bookings, IsProfessionalOf(caller)), HasStatus(Completed))
    ensures r.Ok? ==> r.value.cancelled == Count(Filter(bookings, IsProfessionalOf(caller)), HasStatus(Cancelled))
    ensures r.Ok? ==> r.value.pending + r.value.confirmed + r.value.completed + r.value.cancelled == r.value.total
    ensures r.Ok? ==> r.value.totalRevenue == Revenue(Filter(bookings, IsProfessionalOf(caller)))
  {
    match Find(users, caller)
    case None => Err(ServerError)
    case Some(u) =>
      if u.isClient then Err(Forbidden)
      else
        var mine := Filter(bookings, IsProfessionalOf(caller));
        StatusCountsSum(mine);
        Ok(BookingStats(
          |mine|,
          Count(mine, HasStatus(Pending)),
          Count(mine, HasStatus(Confirmed)),
          Count(mine, HasStatus(Completed)),
          Count(mine, HasStatus(Cancelled)),
          Revenue(mine)))
  }
}
