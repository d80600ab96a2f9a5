/** client/src/components/pages/RegisterPage.jsx: the registration form.
    Each change stores the field and its error message; `validate` decides
    the message, and the two submit handlers send the form to
    `POST /register` only when the fields they require are filled. Today's
    date is a parameter (`new Date()`). */
module RegisterPage {
  import opened Common
  import opened Calendar
  import Records

  /** The eight fields of the form, in their declared order. */
  const FieldNames: seq<string> :=
    ["prenom", "nom", "dateDeNaissance", "email", "password", "profession", "companyName", "siret"]

  // ----- age --------------------------------------------------------------

  /** The birthday of this year has not come yet: an earlier month, or the
      same month and an earlier day. */
  predicate BeforeBirthday(today: Date, birth: Date) {
    today.month < birth.month || (today.month == birth.month && today.day < birth.day)
  }

  /** The age in whole years: the difference of the years, minus one before
      this year's birthday. */
  function Age(today: Date, birth: Date): (age: int)
    ensures age == today.year - birth.year - (if BeforeBirthday(today, birth) then 1 else 0)
  {
    var age := today.year - birth.year;
    if BeforeBirthday(today, birth) then age - 1 else age
  }

  /** `(y, m, d)` is on or before `(y', m', d')` in calendar order. */
  predicate OnOrBefore(a: Date, b: Date) {
    a.year < b.year || (a.year == b.year && (a.month < b.month || (a.month == b.month && a.day <= b.day)))
  }

  /** Being `n` or older means the `n`-th birthday (same month and day, `n`
      years later) is on or before today. */
  lemma AgeMeansBirthdayPassed(today: Date, birth: Date, n: int)
    ensures Age(today, birth) >= n <==> OnOrBefore(Date(birth.year + n, birth.month, birth.day), today)
  {
  }

  // ----- validate -----------------------------------------------------------

  /** The message `validate` returns: a required message for an empty field,
      the length messages for the first and last names, the age message for
      a birth date under 18 years; "" otherwise, for an unknown field name,
      and always for `email` and `password`. A birth date `new Date` cannot
      read gives `NaN` for the age, which is not below 18: "". */
  function Validate(name: string, value: string, today: Date): (m: string)
    ensures name == "email" || name == "password" || name !in FieldNames ==> m == ""
  {
    if name == "prenom" then NameMessage("prenom", value)
    else if name == "nom" then NameMessage("nom", value)
    else if name == "dateDeNaissance" then
      if value == "" then "Date de naissance Obligatoire."
      else match ParseDate(value)
        case None => ""
        case Some(birth) => if Age(today, birth) < 18 then "Vous devez avoir au moins 18 ans." else ""
    else if name == "profession" then (if value == "" then "Profession obligatoire." else "")
    else if name == "companyName" then (if value == "" then "Nom de l'entreprise obligatoire." else "")
    else if name == "siret" then (if value == "" then "Siret obligatoire." else "")
    else ""
  }

  function NameMessage(field: string, value: string): string {
    if value == "" then field + " Obligatoire."
    else if |value| < 3 then "le " + field + " doit contenir au moins 3 caractères."
    else if |value| > 20 then "le " + field + " doit contenir au plus 20 caractères."
    else ""
  }

  /** The name rules: a first or last name is accepted exactly when it has
      3 to 20 characters; an empty one gets the required message, a shorter
      or a longer one its length message. */
  lemma NameRules(name: string, value: string, today: Date)
    requires name == "prenom" || name == "nom"
    ensures Validate(name, value, today) == "" <==> 3 <= |value| <= 20
    ensures value == "" ==> Validate(name, value, today) == name + " Obligatoire."
    ensures 0 < |value| < 3 ==> Validate(name, value, today) == "le " + name + " doit contenir au moins 3 caractères."
    ensures |value| > 20 ==> Validate(name, value, today) == "le " + name + " doit contenir au plus 20 caractères."
  {
    assert |"le "| == 3;
  }

  /** The birth date rules: an empty date gets the required message; a
      readable date is accepted exactly when the 18th birthday is on or
      before today, and otherwise gets the age message. */
  lemma BirthDateRules(value: string, today: Date, birth: Date)
    ensures value == "" ==> Validate("dateDeNaissance", value, today) == "Date de naissance Obligatoire."
    ensures ParseDate(value) == Some(birth) ==>
      (Validate("dateDeNaissance", value, today) == ""
       <==> OnOrBefore(Date(birth.year + 18, birth.month, birth.day), today))
    ensures ParseDate(value) == Some(birth) && !OnOrBefore(Date(birth.year + 18, birth.month, birth.day), today) ==>
      Validate("dateDeNaissance", value, today) == "Vous devez avoir au moins 18 ans."
  {
    AgeMeansBirthdayPassed(today, birth, 18);
  }

  /** The three professional fields are refused exactly when empty, each
      with its own required message. */
  lemma ProfessionalFieldRules(name: string, value: string, today: Date)
    requires name == "profession" || name == "companyName" || name == "siret"
    ensures Validate(name, value, today) == "" <==> value != ""
    ensures value == "" ==>
      Validate(name, value, today)
      == (if name == "profession" then "Profession obligatoire."
          else if name == "companyName" then "Nom de l'entreprise obligatoire."
          else "Siret obligatoire.")
  {
  }

  /** The message `validate` queues itself, with `setErrorMessages`, for the
      email and password fields. */
  function QueuedMessage(name: string, value: string): (m: Option<string>)
    ensures m.Some? <==> name == "email" || name == "password"
  {
    if name == "email" then Some(if value == "" then "Email est obligatoire." else "")
    else if name == "password" then Some(if value == "" then "Password is required." else "")
    else None
  }

  /** The message a field is evidently meant to show: `validate`'s own
      message, and for email and password the message it queues. */
  function IntendedMessage(name: string, value: string, today: Date): (m: string)
    ensures name == "email" ==> (m == "" <==> value != "")
    ensures name == "password" ==> (m == "" <==> value != "")
    ensures name != "email" && name != "password" ==> m == Validate(name, value, today)
  {
    match QueuedMessage(name, value)
    case Some(msg) => msg
    case None => Validate(name, value, today)
  }

  /** The form's state: the field values and their error messages. */
  class RegisterForm {
    var formData: map<string, string>
    var errors: map<string, string>

    /** Every field of the form has a value and a message. */
    predicate Complete()
      reads this
    {
      forall f :: f in FieldNames ==> f in formData && f in errors
    }

    constructor ()
      ensures Complete()
      ensures forall f :: f in FieldNames ==> formData[f] == "" && errors[f] == ""
    {
      var empty := map f | f in FieldNames :: "";
      formData, errors := empty, empty;
    }

    function Field(name: string): string
      reads this
    {
      if name in formData then formData[name] else ""
    }

    /** `handleChange` as written: the value is stored; `validate` queues its
        own message for email and password, and then the handler queues
        `validate`'s return value for the same field. React applies the
        queued updates in order, so the second one wins. */
    method HandleChange(name: string, value: string, today: Date)
      requires Complete()
      modifies this
      ensures Complete()
      ensures formData == old(formData)[name := value]
      ensures errors == old(errors)[name := Validate(name, value, today)]
    {
      formData := formData[name := value];
      var queued := QueuedMessage(name, value);
      if queued.Some? {
        errors := errors[name := queued.value];
      }
      errors := errors[name := Validate(name, value, today)];
    }

    /** `handleChange` as evidently intended: the field's message is the one
        for its new value, so an emptied email or password is flagged. */
    method HandleChangeIntended(name: string, value: string, today: Date)
      requires Complete()
      modifies this
      ensures Complete()
      ensures formData == old(formData)[name := value]
      ensures errors == old(errors)[name := IntendedMessage(name, value, today)]
    {
      formData := formData[name := value];
      errors := errors[name := IntendedMessage(name, value, today)];
    }

    /** `handleClientRegister`: nothing is sent unless the five account
        fields are filled; otherwise the form as a client registration. */
    method SubmitClient() returns (req: Option<Records.RegisterRequest>)
      ensures req.None? <==> Field("prenom") == "" || Field("nom") == "" || Field("dateDeNaissance") == ""
                             || Field("email") == "" || Field("password") == ""
      ensures req.Some? ==> req.value == Request("client") && Records.ClientFieldsGiven(req.value)
    {
      if Field("prenom") == "" || Field("nom") == "" || Field("dateDeNaissance") == ""
        || Field("email") == "" || Field("password") == ""
      {
        return None;
      }
      return Some(Request("client"));
    }

    /** `handleProfessionaleRegister`: nothing is sent unless all eight
        fields are filled; otherwise the form as a professional
        registration. */
    method SubmitProfessional() returns (req: Option<Records.RegisterRequest>)
      ensures req.None? <==> Field("prenom") == "" || Field("nom") == "" || Field("dateDeNaissance") == ""
                             || Field("email") == "" || Field("password") == ""
                             || Field("profession") == "" || Field("companyName") == "" || Field("siret") == ""
      ensures req.Some? ==> req.value == Request("professional") && Records.ProfessionalFieldsGiven(req.value)
    {
      if Field("prenom") == "" || Field("nom") == "" || Field("dateDeNaissance") == ""
        || Field("email") == "" || Field("password") == ""
        || Field("profession") == "" || Field("companyName") == "" || Field("siret") == ""
      {
        return None;
      }
      return Some(Request("professional"));
    }

    /** `{ ...formData, type }`. */
    function Request(kind: string): Records.RegisterRequest
      reads this
    {
      Records.RegisterRequest(Field("prenom"), Field("nom"), Field("dateDeNaissance"), Field("email"),
        Field("password"), Field("profession"), Field("companyName"), Field("siret"), kind)
    }
  }

  /** As written, emptying the email field leaves its message empty: the
      required message `validate` queues is overwritten by its return value. */
  method EmailMessageLost(today: Date) returns (form: RegisterForm)
    ensures form.Field("email") == "" && "email" in form.errors && form.errors["email"] == ""
    ensures QueuedMessage("email", "") == Some("Email est obligatoire.")
  {
    form := new RegisterForm();
    form.HandleChange("email", "", today);
  }

  /** As intended, emptying the email field shows its required message. */
  method EmailMessageShown(today: Date) returns (form: RegisterForm)
    ensures form.Field("email") == "" && "email" in form.errors && form.errors["email"] == "Email est obligatoire."
  {
    form := new RegisterForm();
    form.HandleChangeIntended("email", "", today);
  }

  /** With the intended handler, a required field's message is empty exactly
      when the field is acceptable: filled for email, password and the
      professional fields, of 3 to 20 characters for the names. */
  lemma IntendedMessageFlagsEmpty(name: string, value: string, today: Date)
    requires name in FieldNames && name != "dateDeNaissance"
    ensures IntendedMessage(name, value, today) == "" <==>
      (if name == "prenom" || name == "nom" then 3 <= |value| <= 20 else value != "")
  {
    if name == "prenom" || name == "nom" {
      NameRules(name, value, today);
    }
  }
}
