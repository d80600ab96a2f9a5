/** server/routes/services.js: the catalogue of a professional's services.
    Anybody may read the fixed category list; a professional adds services
    (with defaults for the optional fields), edits them field by field and
    deletes them, and only their own. */
module Services {
  import opened Common
  import opened Seqs
  import opened Docs
  import opened Model
  import Bookings

  /** `GET /categories`: the fixed category list, in its display order. */
  const Categories: seq<string> := [
    "Coiffure", "Coupe Femme", "Coupe Homme", "Coupe Enfant", "Barbier",
    "Coloration", "Mèches & Balayage", "Lissage & Défrisage", "Soins Capillaires",
    "Extensions Capillaires", "Manucure", "Pédicure", "Onglerie", "Épilation",
    "Épilation Définitive", "Beauté du Regard", "Maquillage", "Soins du Visage",
    "Soins du Corps", "Massage", "Spa & Balnéo", "Tatouage", "Piercing",
    "Bien-être", "Autre"]

  /** The category given to a service added without one. */
  const DefaultCategory := "Autre"

  /** Twenty-five categories, from "Coiffure" to "Autre"; the default
      category is the last of them. */
  lemma CategoriesSpec()
    ensures |Categories| == 25
    ensures Categories[0] == "Coiffure" && Categories[24] == DefaultCategory
    ensures DefaultCategory in Categories
  {
  }

  /** A number field of a request body: left out, sent as a JSON number, or
      sent as the text of a form input (as the service form does). A text
      carries the number `parseInt`/`parseFloat` reads from it, which is what
      the route stores. */
  datatype BodyNum = Absent | Number(n: int) | Text(text: string, parsed: int)

  /** JavaScript truthiness of a body number: a missing field and the number
      0 are falsy, while every non-empty text, "0" included, is truthy. */
  predicate TruthyNum(f: BodyNum) {
    match f
    case Absent => false
    case Number(n) => n != 0
    case Text(t, _) => t != ""
  }

  /** The number stored for a given body number. */
  function NumValue(f: BodyNum): int
    requires f != Absent
  {
    match f
    case Number(n) => n
    case Text(_, v) => v
  }

  function OwnedBy(caller: Id): Doc<Service> -> bool {
    (d: Doc<Service>) => d.val.professionalId == caller
  }

  /** `GET /my-services`: the caller's services, in stored order. */
  function MyServices(services: seq<Doc<Service>>, caller: Id): (r: seq<Doc<Service>>)
    ensures forall d :: d in r ==> d in services && d.val.professionalId == caller
    ensures forall d :: d in services && d.val.professionalId == caller ==> d in r
    ensures IsSubseq(r, services)
  {
    FilterIsSubseq(services, OwnedBy(caller));
    Bookings.FilterMembers(services, OwnedBy(caller));
    Filter(services, OwnedBy(caller))
  }

  /** The body of `POST /add`; `None` is a missing field. */
  datatype AddRequest = AddRequest(
    name: string,
    description: string,
    duration: BodyNum,
    price: BodyNum,
    category: string)

  /** `name`, `duration` and `price` are all truthy: a price sent as the
      number 0 is refused, one sent as the text "0" is not. */
  predicate HasRequiredFields(req: AddRequest) {
    Truthy(req.name) && TruthyNum(req.duration) && TruthyNum(req.price)
  }

  /** The service `POST /add` stores: owned by the caller, active, with
      description "" and category "Autre" when they are not given. */
  function NewService(caller: Id, req: AddRequest): (s: Service)
    requires HasRequiredFields(req)
    ensures s.professionalId == caller && s.isActive
    ensures s.name == req.name && s.duration == NumValue(req.duration) && s.price == NumValue(req.price)
    ensures s.description == (if Truthy(req.description) then req.description else "")
    ensures s.category == (if Truthy(req.category) then req.category else DefaultCategory)
  {
    Service(caller, req.name, OrElse(req.description, ""), NumValue(req.duration), NumValue(req.price),
            OrElse(req.category, DefaultCategory), true)
  }

  /** A caller who may add services: a stored user who is not a client. */
  predicate IsProfessional(users: seq<Doc<User>>, caller: Id) {
    Find(users, caller).Some? && !Find(users, caller).value.isClient
  }

  /** `POST /add`: missing fields give 400 before the store is read; a caller
      who is unknown or a client gets 403; otherwise the new service is
      appended under a fresh identifier. On an error nothing is stored. */
  method Add(db: Db, caller: Id, req: AddRequest) returns (r: Result<Id>)
    requires db.Valid()
    modifies db
    ensures db.Valid()
    ensures !HasRequiredFields(req) ==> r == Err(BadRequest)
    ensures HasRequiredFields(req) && !IsProfessional(old(db.users), caller) ==> r == Err(Forbidden)
    ensures r.Ok? <==> HasRequiredFields(req) && IsProfessional(old(db.users), caller)
    ensures r.Err? ==> db.services == old(db.services)
    ensures r.Ok? ==>
      && r.value !in Ids(old(db.services))
      && db.services == old(db.services) + [Doc(r.value, NewService(caller, req))]
    ensures db.users == old(db.users) && db.bookings == old(db.bookings) && db.reviews == old(db.reviews)
    ensures db.events == old(db.events) && db.settings == old(db.settings)
  {
    if !HasRequiredFields(req) {
      return Err(BadRequest);
    }
    var user := Find(db.users, caller);
    if user.None? || user.value.isClient {
      return Err(Forbidden);
    }
    var service := NewService(caller, req);
    var id := db.FreshId();
    AppendFresh(db.services, id, service);
    db.services := db.services + [Doc(id, service)];
    return Ok(id);
  }

  /** The body of `PUT /update/:id`; `None` is a field left `undefined`. */
  datatype Patch = Patch(
    name: Option<string>,
    description: Option<string>,
    duration: BodyNum,
    price: BodyNum,
    category: Option<string>,
    isActive: Option<bool>)

  /** The `$set` document of `PUT /update/:id` (`updateData` without its
      timestamp): each field is present or absent. */
  datatype ServiceSet = ServiceSet(
    name: Option<string>,
    description: Option<string>,
    duration: Option<int>,
    price: Option<int>,
    category: Option<string>,
    isActive: Option<bool>)

  /** `$set`: every present field overwrites the stored one. */
  function Apply(u: ServiceSet, s: Service): Service {
    s.(
      name := if u.name.Some? then u.name.value else s.name,
      description := if u.description.Some? then u.description.value else s.description,
      duration := if u.duration.Some? then u.duration.value else s.duration,
      price := if u.price.Some? then u.price.value else s.price,
      category := if u.category.Some? then u.category.value else s.category,
      isActive := if u.isActive.Some? then u.isActive.value else s.isActive)
  }

  /** The `$set` of a patch: name, duration, price and category are present
      when truthy, description and isActive whenever given, even as "" or
      false; applied to any service it has the patch's effect. */
  function SetOf(p: Patch): (u: ServiceSet)
    ensures u.name.Some? <==> TruthyOpt(p.name)
    ensures u.description == p.description
    ensures u.duration.Some? <==> TruthyNum(p.duration)
    ensures u.price.Some? <==> TruthyNum(p.price)
    ensures u.category.Some? <==> TruthyOpt(p.category)
    ensures u.isActive == p.isActive
    ensures forall s :: Apply(u, s) == Patched(p)(s)
  {
    ServiceSet(
      if TruthyOpt(p.name) then p.name else None,
      p.description,
      if TruthyNum(p.duration) then Some(NumValue(p.duration)) else None,
      if TruthyNum(p.price) then Some(NumValue(p.price)) else None,
      if TruthyOpt(p.category) then p.category else None,
      p.isActive)
  }

  /** `updateData`, built field by field as the route does. */
  method BuildUpdate(p: Patch) returns (u: ServiceSet)
    ensures u == SetOf(p)
  {
    u := ServiceSet(None, None, None, None, None, None);
    if TruthyOpt(p.name) {
      u := u.(name := p.name);
    }
    if p.description.Some? {
      u := u.(description := p.description);
    }
    if TruthyNum(p.duration) {
      u := u.(duration := Some(NumValue(p.duration)));
    }
    if TruthyNum(p.price) {
      u := u.(price := Some(NumValue(p.price)));
    }
    if TruthyOpt(p.category) {
      u := u.(category := p.category);
    }
    if p.isActive.Some? {
      u := u.(isActive := p.isActive);
    }
  }

  /** The service after the `$set` of the patch `p`. */
  function Patched(p: Patch): Service -> Service {
    (s: Service) => s.(
      name := if TruthyOpt(p.name) then p.name.value else s.name,
      description := if p.description.Some? then p.description.value else s.description,
      duration := if TruthyNum(p.duration) then NumValue(p.duration) else s.duration,
      price := if TruthyNum(p.price) then NumValue(p.price) else s.price,
      category := if TruthyOpt(p.category) then p.category.value else s.category,
      isActive := if p.isActive.Some? then p.isActive.value else s.isActive)
  }

  /** What a patch does, field by field: a truthy name, duration, price or
      category and any given description or isActive replace the stored
      value; every other field keeps it, and the owner never changes. */
  lemma PatchedSpec(p: Patch, s: Service)
    ensures var t := Patched(p)(s);
      && t.professionalId == s.professionalId
      && (TruthyOpt(p.name) ==> t.name == p.name.value) && (!TruthyOpt(p.name) ==> t.name == s.name)
      && (p.description.Some? ==> t.description == p.description.value)
      && (p.description.None? ==> t.description == s.description)
      && (TruthyNum(p.duration) ==> t.duration == NumValue(p.duration))
      && (!TruthyNum(p.duration) ==> t.duration == s.duration)
      && (TruthyNum(p.price) ==> t.price == NumValue(p.price)) && (!TruthyNum(p.price) ==> t.price == s.price)
      && (TruthyOpt(p.category) ==> t.category == p.category.value)
      && (!TruthyOpt(p.category) ==> t.category == s.category)
      && (p.isActive.Some? ==> t.isActive == p.isActive.value)
      && (p.isActive.None? ==> t.isActive == s.isActive)
  {
  }

  /** Sending the same edit twice leaves the service as after the first. */
  lemma PatchedIdempotent(p: Patch, s: Service)
    ensures Patched(p)(Patched(p)(s)) == Patched(p)(s)
  {
  }

  /** An edit with every field left out changes nothing but the timestamp. */
  lemma EmptyPatchKeeps(s: Service)
    ensures Patched(Patch(None, None, Absent, Absent, None, None))(s) == s
  {
  }

  /** `findOne({ _id: id, professionalId: caller })` on the services. */
  function FindOwned(services: seq<Doc<Service>>, id: Id, caller: Id): (r: Option<Service>)
    ensures r.Some? <==> Find(services, id).Some? && Find(services, id).value.professionalId == caller
    ensures r.Some? ==> r == Find(services, id)
  {
    match Find(services, id)
    case Some(s) => if s.professionalId == caller then Some(s) else None
    case None => None
  }

  /** `PUT /update/:id`: 404 unless the service exists and belongs to the
      caller, and then nothing changes; otherwise the patch rewrites that
      service alone. */
  method UpdateService(db: Db, caller: Id, id: Id, p: Patch) returns (r: Result<ServiceSet>)
    requires db.Valid()
    modifies db`services
    ensures db.Valid()
    ensures FindOwned(old(db.services), id, caller).None? <==> r == Err(NotFound)
    ensures r.Err? ==> db.services == old(db.services)
    ensures r.Ok? ==>
      && r.value == SetOf(p)
      && Ids(db.services) == Ids(old(db.services))
      && |db.services| == |old(db.services)|
      && forall i :: 0 <= i < |db.services| ==>
           db.services[i] == (if old(db.services)[i].id == id
                              then Doc(id, Patched(p)(old(db.services)[i].val))
                              else old(db.services)[i])
  {
    var service := FindOwned(db.services, id, caller);
    if service.None? {
      return Err(NotFound);
    }
    var updated := BuildUpdate(p);
    PatchStored(db, id, p);
    return Ok(updated);
  }

  /** `updateOne` with the `$set` of `p`: only the service `id` is patched. */
  method PatchStored(db: Db, id: Id, p: Patch)
    requires db.Valid()
    modifies db`services
    ensures db.Valid()
    ensures Ids(db.services) == Ids(old(db.services))
    ensures |db.services| == |old(db.services)|
    ensures forall i :: 0 <= i < |db.services| ==>
      db.services[i] == (if old(db.services)[i].id == id
                         then Doc(id, Patched(p)(old(db.services)[i].val))
                         else old(db.services)[i])
  {
    UpdateSpec(db.services, id, Patched(p));
    UpdateIdsBelow(db.services, id, Patched(p), db.nextId);
    db.services := Update(db.services, id, Patched(p));
  }

  /** `DELETE /delete/:id`: `deleteOne` on both the identifier and the owner;
      404 when nothing matched (unknown or someone else's service), and then
      nothing changes; otherwise exactly that service is removed. */
  method DeleteService(db: Db, caller: Id, id: Id) returns (r: Result<Id>)
    requires db.Valid()
    modifies db`services
    ensures db.Valid()
    ensures FindOwned(old(db.services), id, caller).None? <==> r == Err(NotFound)
    ensures r.Err? ==> db.services == old(db.services)
    ensures r.Ok? ==>
      && db.services == Without(old(db.services), id)
      && Ids(db.services) == Ids(old(db.services)) - {id}
      && forall d :: d in db.services <==> d in old(db.services) && d.id != id
  {
    var service := FindOwned(db.services, id, caller);
    if service.None? {
      return Err(NotFound);
    }
    WithoutSpec(db.services, id);
    var rest := Without(db.services, id);
    forall i | 0 <= i < |rest| ensures rest[i].id < db.nextId {
      assert rest[i] in db.services;
    }
    db.services := rest;
    return Ok(id);
  }

  /** A service added by a professional is among their services and can be
      edited and deleted by them and by nobody else. */
  lemma AddedIsOwned(services: seq<Doc<Service>>, caller: Id, req: AddRequest, id: Id, other: Id)
    requires UniqueIds(services) && id !in Ids(services) && HasRequiredFields(req) && other != caller
    ensures var after := services + [Doc(id, NewService(caller, req))];
      && Doc(id, NewService(caller, req)) in MyServices(after, caller)
      && FindOwned(after, id, caller) == Some(NewService(caller, req))
      && FindOwned(after, id, other).None?
  {
    var after := services + [Doc(id, NewService(caller, req))];
    forall i | 0 <= i < |services| ensures after[i].id != id {
      assert services[i].id in Ids(services);
    }
    FindUnique(after, |services|);
  }

  /** The service form sends its inputs' text, so a price typed as "0" is
      accepted and a free service is stored, while the JSON number 0 is
      refused. */
  lemma ZeroPriceText(caller: Id, name: string, duration: BodyNum)
    requires Truthy(name) && TruthyNum(duration)
    ensures HasRequiredFields(AddRequest(name, "", duration, Text("0", 0), ""))
    ensures NewService(caller, AddRequest(name, "", duration, Text("0", 0), "")).price == 0
    ensures !HasRequiredFields(AddRequest(name, "", duration, Number(0), ""))
  {
  }
}
