/** server/routes/admin.js: the administrator's routes. Both pass the
    `verifyAdmin` check first; deleting a user also deletes every booking in
    which that user is the client or the professional. */
module Admin {
  import opened Common
  import opened Seqs
  import opened Docs
  import opened Model
  import Bookings

  /** `verifyAdmin`: the caller is a stored user whose `isAdmin` is true;
      otherwise 403. */
  function VerifyAdmin(users: seq<Doc<User>>, caller: Id): (r: Option<ErrorKind>)
    requires UniqueIds(users)
    ensures r.None? <==> exists d :: d in users && d.id == caller && d.val.isAdmin
    ensures r.Some? ==> r.value == Forbidden
  {
    FindMembers(users);
    match Find(users, caller)
    case None => Some(Forbidden)
    case Some(u) => if u.isAdmin then None else Some(Forbidden)
  }

  /** A user as the list shows it: every field but the password. */
  datatype PublicUser = PublicUser(
    prenom: string,
    nom: string,
    dateDeNaissance: string,
    email: string,
    profession: Option<string>,
    companyName: Option<string>,
    siret: Option<string>,
    isClient: bool,
    isAdmin: bool,
    phone: Option<string>,
    averageRating: real,
    totalReviews: nat)

  /** The projection `{ password: 0 }`. */
  function Public(u: User): PublicUser {
    PublicUser(u.prenom, u.nom, u.dateDeNaissance, u.email, u.profession, u.companyName, u.siret,
               u.isClient, u.isAdmin, u.phone, u.averageRating, u.totalReviews)
  }

  /** The projection drops the password and nothing else: two users look the
      same in the list exactly when they differ at most in their password. */
  lemma PublicDropsOnlyPassword(u: User, v: User)
    ensures Public(u) == Public(v) <==> u.(password := v.password) == v
  {
  }

  /** `GET /users`: every user, in stored order, without their password;
      403 for a caller who is not an administrator. */
  function UserList(users: seq<Doc<User>>, caller: Id): (r: Result<seq<Doc<PublicUser>>>)
    requires UniqueIds(users)
    ensures VerifyAdmin(users, caller).Some? <==> r == Err(Forbidden)
    ensures r.Ok? ==> |r.value| == |users|
    ensures r.Ok? ==> forall i :: 0 <= i < |users| ==>
      r.value[i].id == users[i].id && r.value[i].val == Public(users[i].val)
  {
    if VerifyAdmin(users, caller).Some? then Err(Forbidden)
    else Ok(seq(|users|, i requires 0 <= i < |users| => Doc(users[i].id, Public(users[i].val))))
  }

  /** The booking involves user `id` neither as client nor as professional. */
  function NotInvolving(id: Id): Doc<Booking> -> bool {
    (d: Doc<Booking>) => d.val.clientId != id && d.val.professionalId != id
  }

  /** `deleteMany({ $or: [{ clientId: id }, { professionalId: id }] })`:
      every such booking goes, every other stays, in order. */
  function Cascade(bookings: seq<Doc<Booking>>, id: Id): (r: seq<Doc<Booking>>)
    ensures forall d :: d in r ==> d.val.clientId != id && d.val.professionalId != id
    ensures forall d :: d in bookings ==> (d in r <==> d.val.clientId != id && d.val.professionalId != id)
    ensures IsSubseq(r, bookings)
  {
    FilterIsSubseq(bookings, NotInvolving(id));
    Bookings.FilterMembers(bookings, NotInvolving(id));
    var r := Filter(bookings, NotInvolving(id));
    assert forall d :: d in r ==> NotInvolving(id)(d) by {
      forall d | d in r ensures NotInvolving(id)(d) {
        var i :| 0 <= i < |r| && r[i] == d;
      }
    }
    r
  }

  /** `DELETE /users/:id`: 403 for a caller who is not an administrator, and
      nothing changes. Otherwise the user is removed (an unknown id removes
      nothing and still succeeds), then every booking of that user, as
      client or as professional; no other booking is touched. */
  method DeleteUser(db: Db, caller: Id, id: Id) returns (r: Result<Id>)
    requires db.Valid()
    modifies db`users, db`bookings
    ensures db.Valid()
    ensures VerifyAdmin(old(db.users), caller).Some? <==> r == Err(Forbidden)
    ensures r.Err? ==> db.users == old(db.users) && db.bookings == old(db.bookings)
    ensures r.Ok? ==>
      && db.users == Without(old(db.users), id)
      && Ids(db.users) == Ids(old(db.users)) - {id}
      && db.bookings == Cascade(old(db.bookings), id)
      && (forall d :: d in db.bookings ==> d.val.clientId != id && d.val.professionalId != id)
      && (forall d :: d in old(db.bookings) && d.val.clientId != id && d.val.professionalId != id
                    ==> d in db.bookings)
  {
    if VerifyAdmin(db.users, caller).Some? {
      return Err(Forbidden);
    }
    WithoutSpec(db.users, id);
    var users := Without(db.users, id);
    forall i | 0 <= i < |users| ensures users[i].id < db.nextId {
      assert users[i] in db.users;
    }
    db.users := users;
    var kept := Cascade(db.bookings, id);
    KeptDocsStayValid(db.bookings, kept, db.nextId);
    db.bookings := kept;
    return Ok(id);
  }

  /** A sub-list of a collection with unique identifiers below `next` has
      unique identifiers below `next` too. */
  lemma {:induction false} KeptDocsStayValid<T>(docs: seq<Doc<T>>, kept: seq<Doc<T>>, next: nat)
    requires UniqueIds(docs) && IdsBelow(docs, next) && IsSubseq(kept, docs)
    ensures UniqueIds(kept) && IdsBelow(kept, next)
    decreases |docs|
  {
    if kept != [] {
      if kept[0] == docs[0] && IsSubseq(kept[1..], docs[1..]) {
        KeptDocsStayValid(docs[1..], kept[1..], next);
        SubseqMembers(kept[1..], docs[1..]);
        forall j | 0 < j < |kept| ensures kept[0].id != kept[j].id {
          assert kept[j] == kept[1..][j - 1] && kept[j] in kept[1..];
          var k :| 0 <= k < |docs[1..]| && docs[1..][k] == kept[j];
          assert docs[k + 1] == kept[j];
        }
        forall i, j | 0 <= i < j < |kept| ensures kept[i].id != kept[j].id {
          if i > 0 {
            assert kept[i] == kept[1..][i - 1] && kept[j] == kept[1..][j - 1];
          }
        }
        forall i | 0 <= i < |kept| ensures kept[i].id < next {
          if i > 0 { assert kept[i] == kept[1..][i - 1]; }
        }
      } else {
        KeptDocsStayValid(docs[1..], kept, next);
      }
    }
  }

  /** Every element of a sub-list is at some index of the list. */
  lemma {:induction false} SubseqMembers<T>(r: seq<T>, s: seq<T>)
    requires IsSubseq(r, s)
    ensures forall x :: x in r ==> exists k :: 0 <= k < |s| && s[k] == x
    decreases |s|
  {
    if r != [] {
      if r[0] == s[0] && IsSubseq(r[1..], s[1..]) {
        SubseqMembers(r[1..], s[1..]);
        forall x | x in r ensures exists k :: 0 <= k < |s| && s[k] == x {
          if x == r[0] {
            assert s[0] == x;
          } else {
            assert x in r[1..];
            var k :| 0 <= k < |s[1..]| && s[1..][k] == x;
            assert s[k + 1] == x;
          }
        }
      } else {
        SubseqMembers(r, s[1..]);
        forall x | x in r ensures exists k :: 0 <= k < |s| && s[k] == x {
          var k :| 0 <= k < |s[1..]| && s[1..][k] == x;
          assert s[k + 1] == x;
        }
      }
    }
  }
}
