/**
 * The state of the account-creation screen and the handlers that change it:
 * the "Valider" button, the error-dialog setter, the image picker's result,
 * and the two dialogs' dismiss buttons.
 */
module Screen {
  import opened Validators
  import opened Registration

  const NoImageMessage: string := "Veuillez sélectionner une image."
  const MissingFieldMessage: string := "Veuillez remplir tous les champs."
  const BadDateMessage: string := "Veuillez entrer une date de naissance au format JJ/MM/AAAA."
  const BadPhoneMessage: string := "Veuillez entrer un numéro de téléphone valide."
  const BadEmailMessage: string := "Veuillez entrer une adresse e-mail valide."
  const EmailTakenMessage: string := "Cette adresse e-mail est déjà associée à un compte."
  const PseudoTakenMessage: string := "Ce pseudo est déjà utilisé."
  const WeakPasswordMessage: string :=
    "Le mot de passe doit contenir au moins 10 caractères, une majuscule, une minuscule, un chiffre et un caractère spécial."
  const MismatchMessage: string := "Les mots de passe ne correspondent pas."

  /** The text shown in the error dialog for each rejection. */
  function ErrorMessage(o: Outcome): string
    requires !o.Created?
  {
    match o
    case NoImage => NoImageMessage
    case MissingField => MissingFieldMessage
    case BadDate => BadDateMessage
    case BadPhone => BadPhoneMessage
    case BadEmail => BadEmailMessage
    case EmailTaken => EmailTakenMessage
    case PseudoTaken => PseudoTakenMessage
    case WeakPassword => WeakPasswordMessage
    case Mismatch => MismatchMessage
  }

  /** Each rejection has its own message, so the dialog tells which gate
      failed. */
  lemma ErrorMessageIdentifiesRejection(o1: Outcome, o2: Outcome)
    requires !o1.Created? && !o2.Created?
    requires ErrorMessage(o1) == ErrorMessage(o2)
    ensures o1 == o2
  {
  }

  class CreateAccountPage {
    /** Kotlin's character tests, as the screen's code sees them. */
    const chars: CharClasses

    /** The eleven text fields, as typed so far. */
    var form: Form
    var photoUri: Option<Uri>

    /** The "account created" dialog. */
    var showDialog: bool
    /** The error dialog and its text. */
    var showErrorDialog: bool
    var errorMessage: string

    /** Every user handed to the remote store by this screen, in order. */
    ghost var saved: seq<User>

    /** Only accounts that satisfy every rule are ever handed to the store. */
    ghost predicate Valid()
      reads this
    {
      forall i :: 0 <= i < |saved| ==> Admissible(chars, saved[i])
    }

    /** The screen as first composed: empty fields, no image, no dialog. */
    constructor (k: CharClasses)
      ensures Valid() && saved == [] && chars == k
      ensures form == Form("", "", "", "", "", "", "", "", "", "", "")
      ensures photoUri == None
      ensures !showDialog && !showErrorDialog && errorMessage == ""
    {
      chars := k;
      form := Form("", "", "", "", "", "", "", "", "", "", "");
      photoUri := None;
      showDialog, showErrorDialog, errorMessage := false, false, "";
      saved := [];
    }

    /** `showErrorDialog(message)`: set the text and open the error dialog. */
    method ShowError(message: string)
      modifies this`errorMessage, this`showErrorDialog
      ensures errorMessage == message && showErrorDialog
    {
      errorMessage := message;
      showErrorDialog := true;
    }

    /** The image picker's result replaces the selection; a cancelled pick
        (no URI) clears it. */
    method OnPhotoPicked(uri: Option<Uri>)
      modifies this`photoUri
      ensures photoUri == uri
    {
      photoUri := uri;
    }

    /** Dismissing the error dialog closes it and keeps its text. */
    method DismissErrorDialog()
      modifies this`showErrorDialog
      ensures !showErrorDialog
    {
      showErrorDialog := false;
    }

    /** Dismissing the "account created" dialog closes it. */
    method DismissSuccessDialog()
      modifies this`showDialog
      ensures !showDialog
    {
      showDialog := false;
    }

    /** How the screen reports an outcome: a created account opens the
        success dialog, records the user as handed to the store and leaves
        the error state alone; a rejection shows its message in the error
        dialog and changes nothing else. */
    twostate predicate Reports(o: Outcome)
      reads this
    {
      && (o.Created? ==>
            && showDialog
            && errorMessage == old(errorMessage) && showErrorDialog == old(showErrorDialog)
            && saved == old(saved) + [o.user])
      && (!o.Created? ==>
            && errorMessage == ErrorMessage(o) && showErrorDialog
            && showDialog == old(showDialog)
            && saved == old(saved))
    }

    /** The "Valider" button. `emailLookup` and `pseudoLookup` are what the
        two remote queries report; `requests` lists the remote calls made, in
        order. The form itself is left as it is. */
    method OnValiderClick(emailLookup: Lookup, pseudoLookup: Lookup) returns (requests: seq<Request>)
      requires Valid()
      modifies this`errorMessage, this`showErrorDialog, this`showDialog, this`saved
      ensures Valid()
      ensures var a := Submit(chars, Submission(form, photoUri, emailLookup, pseudoLookup));
              requests == a.requests && Reports(a.outcome)
    {
      requests := [];
      if IsImageSelected(photoUri) {
        // `isValidField` on the nine required fields, in the screen's order
        if RequiredFieldsFilled(chars, form)
        {
          if IsValidDateOfBirth(form.dateNaissance) {
            if IsValidPhoneNumber(chars, form.numero) {
              if IsValidEmail(form.email) {
                assert SynchronousGatesPass(chars, form, photoUri);
                requests := [EmailQuery(form.email)];
                var isEmailUsed := AlreadyUsed(emailLookup);
                var later := OnEmailChecked(isEmailUsed, pseudoLookup);
                requests := requests + later;
              } else {
                ShowError(BadEmailMessage);
              }
            } else {
              ShowError(BadPhoneMessage);
            }
          } else {
            ShowError(BadDateMessage);
          }
        } else {
          ShowError(MissingFieldMessage);
        }
      } else {
        ShowError(NoImageMessage);
      }
    }

    /** The e-mail lookup's callback. It only runs once the synchronous
        checks have passed. */
    method OnEmailChecked(isEmailUsed: bool, pseudoLookup: Lookup) returns (requests: seq<Request>)
      requires Valid() && SynchronousGatesPass(chars, form, photoUri)
      modifies this`errorMessage, this`showErrorDialog, this`showDialog, this`saved
      ensures Valid()
      ensures var a := EmailCallback(form, photoUri, isEmailUsed, pseudoLookup);
              requests == a.requests && Reports(a.outcome)
    {
      requests := [];
      if !isEmailUsed {
        requests := [PseudoQuery(form.pseudo)];
        var isPseudoUsed := AlreadyUsed(pseudoLookup);
        var later := OnPseudoChecked(isPseudoUsed);
        requests := requests + later;
      } else {
        ShowError(EmailTakenMessage);
      }
    }

    /** The pseudo lookup's callback. It only runs once the synchronous
        checks have passed and the e-mail was found free. */
    method OnPseudoChecked(isPseudoUsed: bool) returns (requests: seq<Request>)
      requires Valid() && SynchronousGatesPass(chars, form, photoUri)
      modifies this`errorMessage, this`showErrorDialog, this`showDialog, this`saved
      ensures Valid()
      ensures var a := PseudoCallback(form, photoUri, isPseudoUsed);
              requests == a.requests && Reports(a.outcome)
    {
      if !isPseudoUsed {
        requests := CheckPasswords();
      } else {
        requests := [];
        ShowError(PseudoTakenMessage);
      }
    }

    /** The password policy, then the confirmation, with the pseudo found
        free. */
    method CheckPasswords() returns (requests: seq<Request>)
      requires Valid() && SynchronousGatesPass(chars, form, photoUri)
      modifies this`errorMessage, this`showErrorDialog, this`showDialog, this`saved
      ensures Valid()
      ensures var a := PseudoCallback(form, photoUri, false);
              requests == a.requests && Reports(a.outcome)
    {
      requests := [];
      if IsValidPassword(form.password) {
        if form.password == form.confirmPassword {
          requests := CreateAccount();
        } else {
          ShowError(MismatchMessage);
        }
      } else {
        ShowError(WeakPasswordMessage);
      }
    }

    /** Every check has passed: build the user from the form, hand it and
        the selected image to the store, upload the image on its own, and
        open the "account created" dialog. */
    method CreateAccount() returns (requests: seq<Request>)
      requires Valid() && SynchronousGatesPass(chars, form, photoUri)
      requires IsValidPassword(form.password) && form.password == form.confirmPassword
      modifies this`showDialog, this`saved
      ensures Valid()
      ensures requests == [SaveUser(ToUser(form), photoUri)] + UploadOf(photoUri)
      ensures showDialog && saved == old(saved) + [ToUser(form)]
    {
      var user := User(
        adresse := form.adresse,
        anneeALisen := form.anneeLisen,
        dateNaissance := form.dateNaissance,
        description := form.description,
        email := form.email,
        nom := form.nom,
        numero := form.numero,
        prenom := form.prenom,
        pseudo := form.pseudo,
        password := form.password);
      requests := [SaveUser(user, photoUri)];
      AdmittedUserAdmissible(chars, form, photoUri);
      saved := saved + [user];
      match photoUri {
        case Some(uri) => requests := requests + [UploadImage(uri)];
        case None =>
      }
      showDialog := true;
    }
  }
}
