/**
 * The submit gate chain of the account-creation screen ("Valider"): a fixed
 * sequence of checks whose first failure is reported, and which on success
 * builds the `User` record and hands it, with the picked image, to the
 * remote store.
 *
 * The two remote lookups (is the e-mail taken? is the pseudo taken?) are not
 * executed: their answers are inputs. The handler's effects on the remote
 * store are recorded, in the order it issues them, as a list of `Request`s.
 */
module Registration {
  import opened Text
  import opened Validators

  /** The eleven text fields of the form. */
  datatype Form = Form(
    nom: string,
    prenom: string,
    adresse: string,
    dateNaissance: string,
    anneeLisen: string,
    numero: string,
    description: string,
    pseudo: string,
    email: string,
    password: string,
    confirmPassword: string)

  /** The record written to the user store. The password is stored as typed. */
  datatype User = User(
    adresse: string,
    anneeALisen: string,
    dateNaissance: string,
    description: string,
    email: string,
    nom: string,
    numero: string,
    prenom: string,
    pseudo: string,
    password: string)

  /** What a remote equality query on the user store reported: matching
      records exist, none exist, or the query was cancelled. */
  datatype Lookup = Found | NotFound | Failed

  /** The value the lookup hands to its callback: `dataSnapshot.exists()`
      when data arrives, `false` when the query is cancelled. */
  predicate AlreadyUsed(l: Lookup)
  {
    match l
    case Found => true
    case NotFound => false
    case Failed => false
  }

  /** Everything one press of the button depends on. */
  datatype Submission = Submission(
    form: Form,
    photoUri: Option<Uri>,
    emailLookup: Lookup,
    pseudoLookup: Lookup)

  /** The result of one press: the error reported, or the account built. */
  datatype Outcome =
    | NoImage
    | MissingField
    | BadDate
    | BadPhone
    | BadEmail
    | EmailTaken
    | PseudoTaken
    | WeakPassword
    | Mismatch
    | Created(user: User)

  /** A call the handler makes on the remote services. */
  datatype Request =
    | EmailQuery(email: string)
    | PseudoQuery(pseudo: string)
    | SaveUser(user: User, photoUri: Option<Uri>)
    | UploadImage(imageUri: Uri)

  datatype Attempt = Attempt(outcome: Outcome, requests: seq<Request>)

  /** The combined non-blank gate: nine fields; the date of birth and the
      phone number are not among them. */
  predicate RequiredFieldsFilled(k: CharClasses, f: Form)
  {
    && IsValidField(k, f.nom)
    && IsValidField(k, f.prenom)
    && IsValidField(k, f.adresse)
    && IsValidField(k, f.anneeLisen)
    && IsValidField(k, f.description)
    && IsValidField(k, f.pseudo)
    && IsValidField(k, f.email)
    && IsValidField(k, f.password)
    && IsValidField(k, f.confirmPassword)
  }

  /** The `User(...)` built from the form on success. */
  function ToUser(f: Form): User
  {
    User(
      adresse := f.adresse,
      anneeALisen := f.anneeLisen,
      dateNaissance := f.dateNaissance,
      description := f.description,
      email := f.email,
      nom := f.nom,
      numero := f.numero,
      prenom := f.prenom,
      pseudo := f.pseudo,
      password := f.password)
  }

  /** The five checks made before any remote call. */
  predicate SynchronousGatesPass(k: CharClasses, f: Form, photoUri: Option<Uri>)
  {
    && IsImageSelected(photoUri)
    && RequiredFieldsFilled(k, f)
    && IsValidDateOfBirth(f.dateNaissance)
    && IsValidPhoneNumber(k, f.numero)
    && IsValidEmail(f.email)
  }

  /** The "Valider" handler: nested checks, each guarding the next; when the
      synchronous ones pass it queries the e-mail and continues in the
      lookup's callback. */
  function Submit(k: CharClasses, s: Submission): Attempt
  {
    var f := s.form;
    if !IsImageSelected(s.photoUri) then Attempt(NoImage, [])
    else if !RequiredFieldsFilled(k, f) then Attempt(MissingField, [])
    else if !IsValidDateOfBirth(f.dateNaissance) then Attempt(BadDate, [])
    else if !IsValidPhoneNumber(k, f.numero) then Attempt(BadPhone, [])
    else if !IsValidEmail(f.email) then Attempt(BadEmail, [])
    else
      var next := EmailCallback(f, s.photoUri, AlreadyUsed(s.emailLookup), s.pseudoLookup);
      Attempt(next.outcome, [EmailQuery(f.email)] + next.requests)
  }

  /** The e-mail lookup's callback: stop if the e-mail is taken, otherwise
      query the pseudo and continue in that lookup's callback. */
  function EmailCallback(f: Form, photoUri: Option<Uri>, isEmailUsed: bool, pseudoLookup: Lookup): Attempt
  {
    if isEmailUsed then Attempt(EmailTaken, [])
    else
      var next := PseudoCallback(f, photoUri, AlreadyUsed(pseudoLookup));
      Attempt(next.outcome, [PseudoQuery(f.pseudo)] + next.requests)
  }

  /** The pseudo lookup's callback: the remaining checks, then the user is
      saved with the picked image and, the image being present, an upload of
      it is started. */
  function PseudoCallback(f: Form, photoUri: Option<Uri>, isPseudoUsed: bool): Attempt
  {
    if isPseudoUsed then Attempt(PseudoTaken, [])
    else if !IsValidPassword(f.password) then Attempt(WeakPassword, [])
    else if f.password != f.confirmPassword then Attempt(Mismatch, [])
    else
      var user := ToUser(f);
      Attempt(Created(user), [SaveUser(user, photoUri)] + UploadOf(photoUri))
  }

  /** `photoUri?.let { uploadImageToFirebaseStorage(...) }` */
  function UploadOf(photoUri: Option<Uri>): seq<Request>
  {
    match photoUri
    case Some(uri) => [UploadImage(uri)]
    case None => []
  }

  // ---------------------------------------------------------------------
  // Reference: the gates as a table, decided by the first one that fails

  datatype Gate =
    | ImageGate
    | FieldsGate
    | DateGate
    | PhoneGate
    | EmailShapeGate
    | EmailFreeGate
    | PseudoFreeGate
    | PasswordGate
    | MatchGate

  function GateOrder(): seq<Gate>
  {
    [ImageGate, FieldsGate, DateGate, PhoneGate, EmailShapeGate,
     EmailFreeGate, PseudoFreeGate, PasswordGate, MatchGate]
  }

  predicate Passes(k: CharClasses, g: Gate, s: Submission)
  {
    match g
    case ImageGate => IsImageSelected(s.photoUri)
    case FieldsGate => RequiredFieldsFilled(k, s.form)
    case DateGate => IsValidDateOfBirth(s.form.dateNaissance)
    case PhoneGate => IsValidPhoneNumber(k, s.form.numero)
    case EmailShapeGate => IsValidEmail(s.form.email)
    case EmailFreeGate => !AlreadyUsed(s.emailLookup)
    case PseudoFreeGate => !AlreadyUsed(s.pseudoLookup)
    case PasswordGate => IsValidPassword(s.form.password)
    case MatchGate => s.form.password == s.form.confirmPassword
  }

  /** The error each gate reports when it fails. */
  function Rejection(g: Gate): (o: Outcome)
    ensures !o.Created?
  {
    match g
    case ImageGate => NoImage
    case FieldsGate => MissingField
    case DateGate => BadDate
    case PhoneGate => BadPhone
    case EmailShapeGate => BadEmail
    case EmailFreeGate => EmailTaken
    case PseudoFreeGate => PseudoTaken
    case PasswordGate => WeakPassword
    case MatchGate => Mismatch
  }

  /** The remote query a gate needs in order to be evaluated. */
  function GateQuery(g: Gate, f: Form): seq<Request>
  {
    match g
    case EmailFreeGate => [EmailQuery(f.email)]
    case PseudoFreeGate => [PseudoQuery(f.pseudo)]
    case _ => []
  }

  function Queries(gates: seq<Gate>, f: Form): seq<Request>
  {
    if gates == [] then [] else GateQuery(gates[0], f) + Queries(gates[1..], f)
  }

  /** The index of the first gate that fails, if any. */
  function FirstFailing(k: CharClasses, gates: seq<Gate>, s: Submission): (r: Option<nat>)
    ensures r.None? <==> forall i :: 0 <= i < |gates| ==> Passes(k, gates[i], s)
    ensures r.Some? ==>
              && r.value < |gates|
              && !Passes(k, gates[r.value], s)
              && forall i :: 0 <= i < r.value ==> Passes(k, gates[i], s)
  {
    if gates == [] then None
    else if !Passes(k, gates[0], s) then Some(0)
    else match FirstFailing(k, gates[1..], s)
      case None => None
      case Some(i) => Some(i + 1)
  }

  /** The attempt as the gate table describes it: the first failing gate is
      reported after the queries of the gates up to it; if none fails, every
      query is made and the user is saved and the image uploaded. */
  function Decide(k: CharClasses, s: Submission): Attempt
  {
    var gates := GateOrder();
    match FirstFailing(k, gates, s)
    case Some(i) => Attempt(Rejection(gates[i]), Queries(gates[..i + 1], s.form))
    case None =>
      assert Passes(k, gates[0], s);
      var user := ToUser(s.form);
      Attempt(Created(user), Queries(gates, s.form) + [SaveUser(user, s.photoUri), UploadImage(s.photoUri.value)])
  }

  // ---------------------------------------------------------------------
  // Properties of the gate chain

  /** The nested handler is the first-failure decision over the gates, taken
      in the fixed order image, fields, date, phone, e-mail shape, e-mail
      lookup, pseudo lookup, password policy, password match. */
  lemma SubmitFollowsGateOrder(k: CharClasses, s: Submission)
    ensures Submit(k, s) == Decide(k, s)
  {
    match FirstFailing(k, GateOrder(), s)
    case Some(i) => SubmitRejected(k, s, i);
    case None => SubmitAccepted(k, s);
  }

  /** The queries made by the gates up to each position of the table. */
  lemma QueriesTable(f: Form)
    ensures var gates := GateOrder();
            && (forall n :: 0 <= n <= 5 ==> Queries(gates[..n], f) == [])
            && Queries(gates[..6], f) == [EmailQuery(f.email)]
            && (forall n :: 7 <= n <= 9 ==>
                  Queries(gates[..n], f) == [EmailQuery(f.email), PseudoQuery(f.pseudo)])
  {
    var gates := GateOrder();
    assert gates[..0] == [];
    QueriesSnoc(gates, 0, f);
    QueriesSnoc(gates, 1, f);
    QueriesSnoc(gates, 2, f);
    QueriesSnoc(gates, 3, f);
    QueriesSnoc(gates, 4, f);
    QueriesSnoc(gates, 5, f);
    QueriesSnoc(gates, 6, f);
    QueriesSnoc(gates, 7, f);
    QueriesSnoc(gates, 8, f);
  }

  lemma SubmitRejected(k: CharClasses, s: Submission, i: nat)
    requires FirstFailing(k, GateOrder(), s) == Some(i)
    ensures Submit(k, s) == Attempt(Rejection(GateOrder()[i]), Queries(GateOrder()[..i + 1], s.form))
  {
    QueriesTable(s.form);
    if i < 5 {
      SynchronousGateRejected(k, s, i);
    } else {
      LookupOrPasswordGateRejected(k, s, i);
    }
  }

  lemma SynchronousGateRejected(k: CharClasses, s: Submission, i: nat)
    requires FirstFailing(k, GateOrder(), s) == Some(i) && i < 5
    ensures Submit(k, s) == Attempt(Rejection(GateOrder()[i]), [])
  {
    var gates := GateOrder();
    assert !Passes(k, gates[i], s);
    assert forall j :: 0 <= j < i ==> Passes(k, gates[j], s);
    if i >= 1 { assert Passes(k, gates[0], s); }
    if i >= 2 { assert Passes(k, gates[1], s); }
    if i >= 3 { assert Passes(k, gates[2], s); }
    if i >= 4 { assert Passes(k, gates[3], s); }
  }

  lemma LookupOrPasswordGateRejected(k: CharClasses, s: Submission, i: nat)
    requires FirstFailing(k, GateOrder(), s) == Some(i) && i >= 5
    ensures Submit(k, s) ==
              Attempt(Rejection(GateOrder()[i]),
                      if i == 5 then [EmailQuery(s.form.email)]
                      else [EmailQuery(s.form.email), PseudoQuery(s.form.pseudo)])
  {
    var gates := GateOrder();
    assert !Passes(k, gates[i], s);
    assert forall j :: 0 <= j < i ==> Passes(k, gates[j], s);
    FirstGatesSynchronous(k, s);
    if i >= 6 { assert Passes(k, gates[5], s); }
    if i >= 7 { assert Passes(k, gates[6], s); }
    if i >= 8 { assert Passes(k, gates[7], s); }
  }

  lemma SubmitAccepted(k: CharClasses, s: Submission)
    requires FirstFailing(k, GateOrder(), s).None?
    ensures Submit(k, s) == Decide(k, s)
  {
    var gates := GateOrder();
    QueriesTable(s.form);
    assert gates[..9] == gates;
    FirstGatesSynchronous(k, s);
    assert Passes(k, gates[5], s) && Passes(k, gates[6], s);
    assert Passes(k, gates[7], s) && Passes(k, gates[8], s);
    AllGatesPassSubmit(k, s);
  }

  lemma AllGatesPassSubmit(k: CharClasses, s: Submission)
    requires SynchronousGatesPass(k, s.form, s.photoUri)
    requires !AlreadyUsed(s.emailLookup) && !AlreadyUsed(s.pseudoLookup)
    requires IsValidPassword(s.form.password) && s.form.password == s.form.confirmPassword
    ensures var u := ToUser(s.form);
            Submit(k, s) ==
              Attempt(Created(u), [EmailQuery(s.form.email), PseudoQuery(s.form.pseudo),
                                   SaveUser(u, s.photoUri), UploadImage(s.photoUri.value)])
  {
  }

  /** The first five gates of the table are the synchronous checks. */
  lemma FirstGatesSynchronous(k: CharClasses, s: Submission)
    requires forall j :: 0 <= j < 5 ==> Passes(k, GateOrder()[j], s)
    ensures SynchronousGatesPass(k, s.form, s.photoUri)
  {
    var gates := GateOrder();
    assert Passes(k, gates[0], s);
    assert Passes(k, gates[1], s);
    assert Passes(k, gates[2], s);
    assert Passes(k, gates[3], s);
    assert Passes(k, gates[4], s);
  }

  lemma QueriesSnoc(gates: seq<Gate>, n: nat, f: Form)
    requires n < |gates|
    ensures Queries(gates[..n + 1], f) == Queries(gates[..n], f) + GateQuery(gates[n], f)
  {
    assert gates[..n + 1] == gates[..n] + [gates[n]];
    QueriesAppend(gates[..n], [gates[n]], f);
  }

  lemma {:induction false} QueriesAppend(a: seq<Gate>, b: seq<Gate>, f: Form)
    ensures Queries(a + b, f) == Queries(a, f) + Queries(b, f)
  {
    if a == [] {
      assert a + b == b;
    } else {
      assert (a + b)[1..] == a[1..] + b;
      QueriesAppend(a[1..], b, f);
    }
  }

  /** The first failing gate alone decides the outcome: any other submission
      on which the gates up to that one give the same verdicts is reported
      the same way, whatever the later gates would say. */
  lemma LaterGatesNotConsulted(k: CharClasses, s: Submission, s': Submission, i: nat)
    requires FirstFailing(k, GateOrder(), s) == Some(i)
    requires forall j :: 0 <= j <= i ==> (Passes(k, GateOrder()[j], s) <==> Passes(k, GateOrder()[j], s'))
    ensures Submit(k, s').outcome == Submit(k, s).outcome == Rejection(GateOrder()[i])
  {
    SubmitFollowsGateOrder(k, s);
    SubmitFollowsGateOrder(k, s');
    assert !Passes(k, GateOrder()[i], s');
    assert forall j :: 0 <= j < i ==> Passes(k, GateOrder()[j], s');
    assert FirstFailing(k, GateOrder(), s') == Some(i);
  }

  /** An account is created exactly when all nine gates pass. */
  lemma CreatedIffAllGatesPass(k: CharClasses, s: Submission)
    ensures Submit(k, s).outcome.Created? <==>
            && IsImageSelected(s.photoUri)
            && RequiredFieldsFilled(k, s.form)
            && IsValidDateOfBirth(s.form.dateNaissance)
            && IsValidPhoneNumber(k, s.form.numero)
            && IsValidEmail(s.form.email)
            && !AlreadyUsed(s.emailLookup)
            && !AlreadyUsed(s.pseudoLookup)
            && IsValidPassword(s.form.password)
            && s.form.password == s.form.confirmPassword
  {
  }

  /** Every rule an admitted account satisfies. */
  predicate Admissible(k: CharClasses, u: User)
  {
    && IsValidField(k, u.nom)
    && IsValidField(k, u.prenom)
    && IsValidField(k, u.adresse)
    && IsValidField(k, u.anneeALisen)
    && IsValidField(k, u.description)
    && IsValidField(k, u.pseudo)
    && IsValidDateOfBirth(u.dateNaissance)
    && IsValidPhoneNumber(k, u.numero)
    && IsValidEmail(u.email)
    && MeetsPasswordPolicy(u.password)
  }

  /** On success the user copies the ten form fields verbatim (the password
      unchanged and equal to its confirmation), satisfies every rule, and the
      handler has queried e-mail then pseudo, saved the user with the picked
      image and started the image upload, in that order. */
  lemma CreatedUser(k: CharClasses, s: Submission)
    requires Submit(k, s).outcome.Created?
    ensures var u := Submit(k, s).outcome.user;
            && u.nom == s.form.nom && u.prenom == s.form.prenom
            && u.adresse == s.form.adresse && u.dateNaissance == s.form.dateNaissance
            && u.anneeALisen == s.form.anneeLisen && u.numero == s.form.numero
            && u.description == s.form.description && u.pseudo == s.form.pseudo
            && u.email == s.form.email && u.password == s.form.password
            && s.form.password == s.form.confirmPassword
            && Admissible(k, u)
            && s.photoUri.Some?
            && Submit(k, s).requests ==
                 [EmailQuery(u.email), PseudoQuery(u.pseudo), SaveUser(u, s.photoUri), UploadImage(s.photoUri.value)]
  {
    AdmittedUserAdmissible(k, s.form, s.photoUri);
  }

  /** A form that passes the synchronous gates and the password policy
      gives an account that satisfies every rule. */
  lemma AdmittedUserAdmissible(k: CharClasses, f: Form, photoUri: Option<Uri>)
    requires SynchronousGatesPass(k, f, photoUri) && IsValidPassword(f.password)
    ensures Admissible(k, ToUser(f))
  {
    PasswordPattern(f.password);
  }

  /** The five synchronous gates fail without any remote call, and whatever
      the lookups would have answered. */
  lemma SyncRejectionIsLocal(k: CharClasses, s: Submission, emailLookup: Lookup, pseudoLookup: Lookup)
    ensures var o := Submit(k, s).outcome;
            (o == NoImage || o == MissingField || o == BadDate || o == BadPhone || o == BadEmail)
            <==> Submit(k, s).requests == []
    ensures var o := Submit(k, s).outcome;
            (o == NoImage || o == MissingField || o == BadDate || o == BadPhone || o == BadEmail) ==>
            Submit(k, s.(emailLookup := emailLookup, pseudoLookup := pseudoLookup)) == Submit(k, s)
  {
  }

  /** The e-mail lookup is made exactly when the synchronous gates pass, and
      the pseudo lookup exactly when, in addition, the e-mail is not taken. */
  lemma LookupsIssued(k: CharClasses, s: Submission)
    ensures var sync := && IsImageSelected(s.photoUri) && RequiredFieldsFilled(k, s.form)
                        && IsValidDateOfBirth(s.form.dateNaissance)
                        && IsValidPhoneNumber(k, s.form.numero) && IsValidEmail(s.form.email);
            && (EmailQuery(s.form.email) in Submit(k, s).requests <==> sync)
            && (PseudoQuery(s.form.pseudo) in Submit(k, s).requests <==>
                  sync && !AlreadyUsed(s.emailLookup))
  {
  }

  /** A lookup cancelled at the transport level counts as "not used". */
  lemma FailedLookupFailsOpen(k: CharClasses, s: Submission)
    ensures Submit(k, s.(emailLookup := Failed)) == Submit(k, s.(emailLookup := NotFound))
    ensures Submit(k, s.(pseudoLookup := Failed)) == Submit(k, s.(pseudoLookup := NotFound))
  {
  }

  /** With an image picked, a blank pseudo (empty or whitespace only) is
      reported as a missing field before any remote call. */
  lemma BlankPseudoRejected(k: CharClasses, s: Submission)
    requires s.photoUri.Some? && !IsValidField(k, s.form.pseudo)
    ensures Submit(k, s) == Attempt(MissingField, [])
  {
  }

  /** A taken e-mail stops the chain after the e-mail lookup: the pseudo is
      never looked up and nothing is saved. */
  lemma TakenEmailStopsChain(k: CharClasses, s: Submission)
    requires IsImageSelected(s.photoUri) && RequiredFieldsFilled(k, s.form)
    requires IsValidDateOfBirth(s.form.dateNaissance) && IsValidPhoneNumber(k, s.form.numero)
    requires IsValidEmail(s.form.email) && s.emailLookup == Found
    ensures Submit(k, s) == Attempt(EmailTaken, [EmailQuery(s.form.email)])
  {
  }

  /** The phone number is not a required field: emptying it keeps every
      synchronous gate passing. */
  lemma EmptyPhonePassesSynchronousGates(k: CharClasses, f: Form, photoUri: Option<Uri>)
    requires SynchronousGatesPass(k, f, photoUri)
    ensures SynchronousGatesPass(k, f.(numero := ""), photoUri)
  {
  }

  /** A form filled in by a user. */
  function SampleForm(numero: string): Form
  {
    Form(
      nom := "Dupont",
      prenom := "Jean",
      adresse := "1 rue Victor Hugo",
      dateNaissance := "31/02/2099",
      anneeLisen := "CIR1",
      numero := numero,
      description := "Hello",
      pseudo := "jdupont",
      email := "jean@isen.fr",
      password := "Abcdefghi1@",
      confirmPassword := "Abcdefghi1@")
  }

  lemma SampleFormFilled(k: CharClasses, numero: string)
    requires Consistent(k)
    ensures RequiredFieldsFilled(k, SampleForm(numero))
  {
    var f := SampleForm(numero);
    VisibleMakesNonBlank(k, f.nom, 0);
    VisibleMakesNonBlank(k, f.prenom, 0);
    VisibleMakesNonBlank(k, f.adresse, 0);
    VisibleMakesNonBlank(k, f.anneeLisen, 0);
    VisibleMakesNonBlank(k, f.description, 0);
    VisibleMakesNonBlank(k, f.pseudo, 0);
    VisibleMakesNonBlank(k, f.email, 0);
    VisibleMakesNonBlank(k, f.password, 0);
  }

  lemma SampleEmailValid()
    ensures IsValidEmail(SampleForm("").email)
  {
    var e := SampleForm("").email;
    assert OccursAt(e, "@", 4) && OccursAt(e, ".fr", 9);
  }

  /** The phone number is not a required field: an empty one passes every
      gate, and so does an impossible date of birth. */
  lemma EmptyPhoneAccepted(k: CharClasses, photo: Uri)
    requires Consistent(k)
    ensures Submit(k, Submission(SampleForm(""), Some(photo), NotFound, Failed)).outcome.Created?
  {
    SampleFormFilled(k, "");
    SampleEmailValid();
    AcceptedDateExamples();
    StrongPasswordExample();
    CreatedIffAllGatesPass(k, Submission(SampleForm(""), Some(photo), NotFound, Failed));
  }
}
