/** server/routes/records.js: account registration and login. bcrypt is
    taken as two given functions: `hashOf` (hashing a password) and `check`
    (comparing a password with a stored hash). The issued JWT is not part of
    this model. */
module Records {
  import opened Common
  import opened Docs
  import opened Model

  /** The body of `POST /register`; a missing field is "". */
  datatype RegisterRequest = RegisterRequest(
    prenom: string,
    nom: string,
    dateDeNaissance: string,
    email: string,
    password: string,
    profession: string,
    companyName: string,
    siret: string,
    kind: string)                // `type`: 'client' or 'professional'

  /** Some stored user has this email. */
  predicate EmailTaken(users: seq<Doc<User>>, email: string) {
    exists i :: 0 <= i < |users| && users[i].val.email == email
  }

  /** `users.findOne({ email })`: the first user with that email. */
  function FindByEmail(users: seq<Doc<User>>, email: string): (r: Option<Doc<User>>)
    ensures r.None? <==> !EmailTaken(users, email)
    ensures r.Some? ==> r.value in users && r.value.val.email == email
    ensures r.Some? ==> exists i :: (0 <= i < |users| && users[i] == r.value
                                     && forall j :: 0 <= j < i ==> users[j].val.email != email)
  {
    if users == [] then None
    else if users[0].val.email == email then Some(users[0])
    else
      var r := FindByEmail(users[1..], email);
      assert forall j :: 1 <= j < |users| ==> users[j] == users[1..][j - 1];
      if r.Some? then
        var i :| 0 <= i < |users[1..]| && users[1..][i] == r.value
          && forall j :: 0 <= j < i ==> users[1..][j].val.email != email;
        assert users[i + 1] == r.value;
        r
      else
        r
  }

  /** The fields every account needs. */
  predicate ClientFieldsGiven(req: RegisterRequest) {
    Truthy(req.prenom) && Truthy(req.nom) && Truthy(req.dateDeNaissance)
    && Truthy(req.email) && Truthy(req.password)
  }

  /** A professional account also needs a profession, a company and a SIRET. */
  predicate ProfessionalFieldsGiven(req: RegisterRequest) {
    ClientFieldsGiven(req) && Truthy(req.profession) && Truthy(req.companyName) && Truthy(req.siret)
  }

  /** `x || null`. */
  function NullIfEmpty(s: string): (r: Option<string>)
    ensures r.None? <==> s == ""
    ensures r.Some? ==> r.value == s
  {
    if s == "" then None else Some(s)
  }

  /** The user `POST /register` stores: a client exactly for the type
      'client', the optional fields `null` when empty, and the password only
      as its hash; not an administrator, no reviews yet. */
  function NewUser(req: RegisterRequest, hashOf: string -> string): (u: User)
    ensures u.isClient <==> req.kind == "client"
    ensures u.password == hashOf(req.password) && u.email == req.email
    ensures u.prenom == req.prenom && u.nom == req.nom && u.dateDeNaissance == req.dateDeNaissance
    ensures u.profession == NullIfEmpty(req.profession) && u.companyName == NullIfEmpty(req.companyName)
    ensures u.siret == NullIfEmpty(req.siret)
    ensures !u.isAdmin && u.totalReviews == 0 && u.averageRating == 0.0
  {
    User(req.prenom, req.nom, req.dateDeNaissance, req.email, hashOf(req.password),
         NullIfEmpty(req.profession), NullIfEmpty(req.companyName), NullIfEmpty(req.siret),
         req.kind == "client", false, None, 0.0, 0)
  }

  /** The checks of `POST /register`, in their order: the email first, then
      the type and its required fields. */
  function RegisterCheck(users: seq<Doc<User>>, req: RegisterRequest): (r: Option<ErrorKind>)
    ensures EmailTaken(users, req.email) ==> r == Some(EmailUsed)
    ensures !EmailTaken(users, req.email) && req.kind != "client" && req.kind != "professional"
      ==> r == Some(BadRequest)
    ensures r.None? <==>
      && !EmailTaken(users, req.email)
      && ((req.kind == "client" && ClientFieldsGiven(req))
          || (req.kind == "professional" && ProfessionalFieldsGiven(req)))
    ensures r.Some? ==> r.value == EmailUsed || r.value == BadRequest
  {
    if FindByEmail(users, req.email).Some? then Some(EmailUsed)
    else if req.kind == "client" then
      if ClientFieldsGiven(req) then None else Some(BadRequest)
    else if req.kind == "professional" then
      if ProfessionalFieldsGiven(req) then None else Some(BadRequest)
    else Some(BadRequest)
  }

  /** `POST /register`: a taken email gives `emailUsed` whatever the rest
      of the body; a missing field or an unknown type gives 400; otherwise
      the new user is appended under a fresh identifier. On an error nothing
      is stored. */
  method Register(db: Db, req: RegisterRequest, hashOf: string -> string) returns (r: Result<Id>)
    requires db.Valid()
    modifies db
    ensures db.Valid()
    ensures RegisterCheck(old(db.users), req).Some? ==> r == Err(RegisterCheck(old(db.users), req).value)
    ensures r.Err? ==> db.users == old(db.users)
    ensures r.Ok? <==> RegisterCheck(old(db.users), req).None?
    ensures r.Ok? ==>
      && r.value !in Ids(old(db.users))
      && db.users == old(db.users) + [Doc(r.value, NewUser(req, hashOf))]
    ensures db.services == old(db.services) && db.bookings == old(db.bookings)
    ensures db.reviews == old(db.reviews) && db.events == old(db.events) && db.settings == old(db.settings)
  {
    var error := RegisterCheck(db.users, req);
    if error.Some? {
      return Err(error.value);
    }
    var user := NewUser(req, hashOf);
    var id := db.FreshId();
    AppendFresh(db.users, id, user);
    db.users := db.users + [Doc(id, user)];
    return Ok(id);
  }

  /** No two users share an email. */
  predicate UniqueEmails(users: seq<Doc<User>>) {
    forall i, j :: 0 <= i < j < |users| ==> users[i].val.email != users[j].val.email
  }

  /** Registration keeps emails unique: a user is only added under an email
      nobody has. */
  lemma RegisterKeepsEmailsUnique(users: seq<Doc<User>>, req: RegisterRequest, hashOf: string -> string, id: Id)
    requires UniqueEmails(users) && RegisterCheck(users, req).None?
    ensures UniqueEmails(users + [Doc(id, NewUser(req, hashOf))])
  {
    var after := users + [Doc(id, NewUser(req, hashOf))];
    forall i, j | 0 <= i < j < |after| ensures after[i].val.email != after[j].val.email {
      if j == |users| {
        assert after[i] == users[i];
      } else {
        assert after[i] == users[i] && after[j] == users[j];
      }
    }
  }

  /** `POST /login`: 400 when the email or the password is missing, 401
      when no user has the email or the password does not match its hash;
      otherwise the identifier of that user. */
  function Login(users: seq<Doc<User>>, email: string, password: string, check: (string, string) -> bool)
    : (r: Result<Id>)
    ensures r == Err(BadRequest) <==> !Truthy(email) || !Truthy(password)
    ensures Truthy(email) && Truthy(password) && !EmailTaken(users, email) ==> r == Err(Unauthorized)
    ensures r.Ok? ==> exists i :: (0 <= i < |users| && users[i].id == r.value
                                   && users[i].val.email == email && check(password, users[i].val.password))
    ensures Truthy(email) && Truthy(password) && EmailTaken(users, email)
      ==> var d := FindByEmail(users, email).value;
          r == if check(password, d.val.password) then Ok(d.id) else Err(Unauthorized)
    ensures r.Ok? || r == Err(BadRequest) || r == Err(Unauthorized)
  {
    if !Truthy(email) || !Truthy(password) then Err(BadRequest)
    else match FindByEmail(users, email)
      case None => Err(Unauthorized)
      case Some(d) => if check(password, d.val.password) then Ok(d.id) else Err(Unauthorized)
  }

  /** A freshly registered account can log in with the email and password it
      registered with, whenever bcrypt accepts a password against its own
      hash. */
  lemma RegisterThenLogin(users: seq<Doc<User>>, req: RegisterRequest, hashOf: string -> string,
                          check: (string, string) -> bool, id: Id)
    requires RegisterCheck(users, req).None?
    requires check(req.password, hashOf(req.password))
    ensures Login(users + [Doc(id, NewUser(req, hashOf))], req.email, req.password, check) == Ok(id)
  {
    var after := users + [Doc(id, NewUser(req, hashOf))];
    var found := FindByEmail(after, req.email);
    assert after[|users|].val.email == req.email;
    assert found.Some?;
    var i :| 0 <= i < |after| && after[i] == found.value
      && forall j :: 0 <= j < i ==> after[j].val.email != req.email;
    assert i == |users|;
  }
}
