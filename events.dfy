/** server/routes/events.js: a user's planning events. Every field of an
    event is the text the request carries; the user id is not checked
    against the users. */
module Events {
  import opened Common
  import opened Seqs
  import opened Docs
  import opened Model
  import Bookings

  function BelongsTo(userId: string): Doc<Event> -> bool {
    (d: Doc<Event>) => d.val.userId == userId
  }

  /** `GET /userEvents`: 400 without a user id; otherwise that user's events,
      in stored order. */
  function UserEvents(events: seq<Doc<Event>>, userId: string): (r: Result<seq<Doc<Event>>>)
    ensures r.Err? <==> userId == ""
    ensures r.Err? ==> r.error == BadRequest
    ensures r.Ok? ==> IsSubseq(r.value, events)
    ensures r.Ok? ==> forall d :: d in events ==> (d in r.value <==> d.val.userId == userId)
  {
    if userId == "" then Err(BadRequest)
    else
      FilterIsSubseq(events, BelongsTo(userId));
      Bookings.FilterMembers(events, BelongsTo(userId));
      Ok(Filter(events, BelongsTo(userId)))
  }

  /** `POST /addEvent`: 400 when the user id, date, hour or name is missing,
      and nothing is stored; otherwise the event with exactly those four
      fields is appended under a fresh identifier. */
  method AddEvent(db: Db, userId: string, date: string, hour: string, name: string) returns (r: Result<Id>)
    requires db.Valid()
    modifies db
    ensures db.Valid()
    ensures r.Err? <==> userId == "" || date == "" || hour == "" || name == ""
    ensures r.Err? ==> r.error == BadRequest && db.events == old(db.events)
    ensures r.Ok? ==>
      && r.value !in Ids(old(db.events))
      && db.events == old(db.events) + [Doc(r.value, Event(userId, date, hour, name))]
    ensures db.users == old(db.users) && db.services == old(db.services) && db.bookings == old(db.bookings)
    ensures db.reviews == old(db.reviews) && db.settings == old(db.settings)
  {
    if userId == "" || date == "" || hour == "" || name == "" {
      return Err(BadRequest);
    }
    var event := Event(userId, date, hour, name);
    var id := db.FreshId();
    AppendFresh(db.events, id, event);
    db.events := db.events + [Doc(id, event)];
    return Ok(id);
  }

  /** `DELETE /deleteEvent`: 400 without an id, 404 when no event has it
      (nothing changes in either case); otherwise exactly that event is
      removed. */
  method DeleteEvent(db: Db, id: Option<Id>) returns (r: Result<Id>)
    requires db.Valid()
    modifies db`events
    ensures db.Valid()
    ensures id.None? ==> r == Err(BadRequest)
    ensures id.Some? && id.value !in Ids(old(db.events)) ==> r == Err(NotFound)
    ensures r.Ok? <==> id.Some? && id.value in Ids(old(db.events))
    ensures r.Err? ==> db.events == old(db.events)
    ensures r.Ok? ==>
      && r.value == id.value
      && db.events == Without(old(db.events), id.value)
      && Ids(db.events) == Ids(old(db.events)) - {id.value}
      && forall d :: d in db.events <==> d in old(db.events) && d.id != id.value
  {
    if id.None? {
      return Err(BadRequest);
    }
    if Find(db.events, id.value).None? {
      return Err(NotFound);
    }
    WithoutSpec(db.events, id.value);
    var rest := Without(db.events, id.value);
    forall i | 0 <= i < |rest| ensures rest[i].id < db.nextId {
      assert rest[i] in db.events;
    }
    db.events := rest;
    return Ok(id.value);
  }

  /** An added event is listed among its user's events, and deleting it
      takes it off that list. */
  lemma AddedEventListed(events: seq<Doc<Event>>, id: Id, e: Event)
    requires UniqueIds(events) && id !in Ids(events) && e.userId != ""
    ensures var after := events + [Doc(id, e)];
      && Doc(id, e) in UserEvents(after, e.userId).value
      && Doc(id, e) !in UserEvents(Without(after, id), e.userId).value
  {
    var after := events + [Doc(id, e)];
    forall i, j | 0 <= i < j < |after| ensures after[i].id != after[j].id {
      if j == |events| {
        assert events[i].id in Ids(events);
      }
    }
    WithoutSpec(after, id);
  }
}
