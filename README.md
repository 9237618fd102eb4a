# Account creation in CrushIsen, modelled in Dafny

CrushIsen is an Android app. Its account-creation screen (`CreateAccountPage`
in `MainActivity.kt`) collects eleven text fields and a profile picture. When
the "Valider" button is pressed it runs a fixed chain of checks:

1. an image is picked;
2. nine fields are non-blank;
3. the date of birth has the shape `JJ/MM/AAAA`;
4. the phone number is all digits;
5. the e-mail has a loose shape;
6. the e-mail is not already in the remote user store;
7. the pseudo is not already in the store;
8. the password meets its policy;
9. the confirmation matches the password.

The first check that fails is reported in an error dialog. When all pass, a
`User` record is built, handed to the store with the picture, the picture is
uploaded, and a success dialog opens.

The project has four modules:

- `Text` (`text.dfy`) models `CharSequence.all` and `CharSequence.contains`.
- `Validators` (`validators.dfy`) models the six field validators. The two
  regular expressions are modelled with the semantics of java.util.regex
  under default flags. Kotlin's Unicode-wide `Char.isDigit` and
  `Char.isWhitespace` are an abstract `CharClasses` value. Only its ASCII part
  is pinned down, by `Consistent`.
- `Registration` (`registration.dfy`) models the gate chain as a pure function
  `Submit`. It returns the outcome and the remote calls made, in order. The
  two remote lookups are inputs (`Found`, `NotFound` or `Failed`). `Submit` is
  proved equal to an independent reference: a table of the nine gates decided
  by the first one that fails (`Decide`).
- `Screen` (`screen.dfy`) models the screen's state as a class. The
  "Valider" handler and its two lookup callbacks are imperative methods, each
  proved to report exactly what `Submit` (or its callback part) decides. The
  class invariant `Valid` says that every user ever handed to the store
  satisfies every rule (`Admissible`).

The password rule follows the code's regex. The regex rejects the ASCII
whitespace of `\s` and the line terminators U+000A, U+000D, U+0085, U+2028
and U+2029 (which `.` does not match). Other Unicode spaces, such as U+00A0,
are accepted, although the policy is usually described as "no whitespace
anywhere".

## Model

| member | source | states |
|---|---|---|
| Text.ContainsInContext | app/src/main/java/fr/isen/mullot/crushisen/MainActivity.kt:487-490 | `contains` is preserved by adding text on either side of the searched string |
| Text.ContainsChar | app/src/main/java/fr/isen/mullot/crushisen/MainActivity.kt:489 | `s.contains("c")` holds exactly when the character c is an element of s |
| Text.ContainedCharAppears | app/src/main/java/fr/isen/mullot/crushisen/MainActivity.kt:489 | a string missing any character of t cannot contain t |
| Validators.AsciiPhoneNumber | app/src/main/java/fr/isen/mullot/crushisen/MainActivity.kt:113-115 | on ASCII text the phone check accepts exactly strings of '0'..'9'; the empty number passes |
| Validators.AsciiFieldNonBlank | app/src/main/java/fr/isen/mullot/crushisen/MainActivity.kt:127-129 | on ASCII text a field is valid iff it has a character outside space, tab, LF, VT, FF, CR and U+001C..U+001F; the empty field is invalid |
| Validators.VisibleMakesNonBlank | app/src/main/java/fr/isen/mullot/crushisen/MainActivity.kt:127-129 | any visible ASCII character ('!'..'~') makes a field valid |
| Validators.SpacesAndTabsBlank | app/src/main/java/fr/isen/mullot/crushisen/MainActivity.kt:127-129 | every string made only of spaces and tabs is blank, so the field is invalid |
| Validators.Repeat | app/src/main/java/fr/isen/mullot/crushisen/MainActivity.kt:118 | the regex quantifier `{n}` on one atom is n copies of that atom |
| Validators.DateOfBirthShape | app/src/main/java/fr/isen/mullot/crushisen/MainActivity.kt:117-120 | the date regex accepts exactly ten characters with '/' at positions 2 and 5 and ASCII digits elsewhere |
| Validators.AcceptedDateExamples | app/src/main/java/fr/isen/mullot/crushisen/MainActivity.kt:117-120 | impossible dates such as "99/99/9999" and "31/02/2099" pass: there is no calendar check |
| Validators.RejectedDateExamples | app/src/main/java/fr/isen/mullot/crushisen/MainActivity.kt:117-120 | unpadded ("1/1/2000") and dash-separated ("01-01-2000") dates fail |
| Validators.DateOfBirthNonBlank | app/src/main/java/fr/isen/mullot/crushisen/MainActivity.kt:117-120 | a date that passes is never blank, so its absence from the non-blank gate loses nothing |
| Validators.LookaheadOnDots | app/src/main/java/fr/isen/mullot/crushisen/MainActivity.kt:132 | on text without line terminators, `(?=.*[cls])` holds iff some character is in cls |
| Validators.LookaheadNonSpaceOnDots | app/src/main/java/fr/isen/mullot/crushisen/MainActivity.kt:132 | on text without line terminators, `(?=\S+$)` holds iff the text is non-empty and has no `\s` character |
| Validators.PasswordPattern | app/src/main/java/fr/isen/mullot/crushisen/MainActivity.kt:131-134 | the password regex matches exactly when the password has at least 10 characters, one ASCII digit, one lower-case and one upper-case letter, one symbol of `@#$%^&+!?=`, and no `\s` character or line terminator |
| Validators.PasswordNonBlank | app/src/main/java/fr/isen/mullot/crushisen/MainActivity.kt:131-134 | a password that passes the policy is never blank |
| Validators.StrongPasswordExample | app/src/main/java/fr/isen/mullot/crushisen/MainActivity.kt:131-134 | "Abcdefghi1@" passes |
| Validators.WeakPasswordExamples | app/src/main/java/fr/isen/mullot/crushisen/MainActivity.kt:131-134 | "abcdefghij" (no upper-case letter) and "Short1@" (under ten characters) fail |
| Validators.SpacedPasswordExample | app/src/main/java/fr/isen/mullot/crushisen/MainActivity.kt:131-134 | a password with an inner space fails even with every class present |
| Validators.EmailShape | app/src/main/java/fr/isen/mullot/crushisen/MainActivity.kt:487-490 | the e-mail check holds iff '@' occurs and ".com" or ".fr" occurs at some position, anywhere |
| Validators.EmailInContext | app/src/main/java/fr/isen/mullot/crushisen/MainActivity.kt:487-490 | a valid e-mail stays valid whatever text is added on either side |
| Validators.AcceptedEmailExamples | app/src/main/java/fr/isen/mullot/crushisen/MainActivity.kt:487-490 | "a@b.com", "a@b.fr.evil" and ".fr@x" pass |
| Validators.RejectedEmailExamples | app/src/main/java/fr/isen/mullot/crushisen/MainActivity.kt:487-490 | "a.com" (no '@') and "a@b.xyz" (neither suffix) fail |
| Validators.EmailNonBlank | app/src/main/java/fr/isen/mullot/crushisen/MainActivity.kt:487-490 | a valid e-mail is never blank |
| Registration.Rejection | app/src/main/java/fr/isen/mullot/crushisen/MainActivity.kt:331-440 | every gate's failure is a rejection, never a created account |
| Registration.FirstFailing | app/src/main/java/fr/isen/mullot/crushisen/MainActivity.kt:331-440 | the index returned is the first gate that fails, with all earlier gates passing; none is returned iff every gate passes |
| Registration.SubmitFollowsGateOrder | app/src/main/java/fr/isen/mullot/crushisen/MainActivity.kt:331-440 | the nested handler equals the first-failure decision over the gate table, outcome and remote calls alike |
| Registration.SubmitRejected | app/src/main/java/fr/isen/mullot/crushisen/MainActivity.kt:331-440 | when gate i fails first, the handler reports that gate's error after making the queries of gates up to i |
| Registration.SubmitAccepted | app/src/main/java/fr/isen/mullot/crushisen/MainActivity.kt:331-440 | when no gate fails, the handler and the gate table agree |
| Registration.AllGatesPassSubmit | app/src/main/java/fr/isen/mullot/crushisen/MainActivity.kt:352-386 | when all nine checks pass, the account is created and the calls are: e-mail query, pseudo query, save with the image, upload of the image |
| Registration.QueriesTable | app/src/main/java/fr/isen/mullot/crushisen/MainActivity.kt:352-355 | no query before the e-mail lookup gate, the e-mail query from it, both queries from the pseudo gate on |
| Registration.LaterGatesNotConsulted | app/src/main/java/fr/isen/mullot/crushisen/MainActivity.kt:331-440 | the first failing gate alone decides the outcome, whatever later gates would say |
| Registration.CreatedIffAllGatesPass | app/src/main/java/fr/isen/mullot/crushisen/MainActivity.kt:331-440 | an account is created iff all nine checks pass |
| Registration.CreatedUser | app/src/main/java/fr/isen/mullot/crushisen/MainActivity.kt:360-386 | on success the user copies the ten fields verbatim, the password equals its confirmation, the user is admissible, an image is present, and the calls are made in order |
| Registration.AdmittedUserAdmissible | app/src/main/java/fr/isen/mullot/crushisen/MainActivity.kt:331-386 | a form past the synchronous gates and the password policy yields a user meeting every rule |
| Registration.SyncRejectionIsLocal | app/src/main/java/fr/isen/mullot/crushisen/MainActivity.kt:333-350 | the five synchronous rejections are exactly the outcomes with no remote call, and they do not depend on the lookups |
| Registration.LookupsIssued | app/src/main/java/fr/isen/mullot/crushisen/MainActivity.kt:350-356 | the e-mail lookup is made iff the synchronous gates pass; the pseudo lookup iff, in addition, the e-mail is free |
| Registration.FailedLookupFailsOpen | app/src/main/java/fr/isen/mullot/crushisen/MainActivity.kt:146-149 | a cancelled lookup is treated exactly like "no record found" |
| Registration.BlankPseudoRejected | app/src/main/java/fr/isen/mullot/crushisen/MainActivity.kt:335-343 | with an image picked, a blank pseudo (empty or whitespace only) is reported as a missing field before any remote call |
| Registration.TakenEmailStopsChain | app/src/main/java/fr/isen/mullot/crushisen/MainActivity.kt:352-414 | a taken e-mail is reported after the e-mail query alone: no pseudo lookup, nothing saved |
| Registration.EmptyPhonePassesSynchronousGates | app/src/main/java/fr/isen/mullot/crushisen/MainActivity.kt:335-348 | for every form, emptying the phone number keeps all five synchronous gates passing |
| Registration.EmptyPhoneAccepted | app/src/main/java/fr/isen/mullot/crushisen/MainActivity.kt:335-348 | the phone number is not a required field: a form with an empty phone and an impossible date creates an account |
| Screen.ErrorMessageIdentifiesRejection | app/src/main/java/fr/isen/mullot/crushisen/MainActivity.kt:389-437 | each rejection has its own error text |
| Screen.CreateAccountPage.constructor | app/src/main/java/fr/isen/mullot/crushisen/MainActivity.kt:88-104 | the screen starts with empty fields, no image and both dialogs closed |
| Screen.CreateAccountPage.ShowError | app/src/main/java/fr/isen/mullot/crushisen/MainActivity.kt:107-110 | sets the error text and opens the error dialog, changing nothing else |
| Screen.CreateAccountPage.OnPhotoPicked | app/src/main/java/fr/isen/mullot/crushisen/MainActivity.kt:172-173 | the picker's result replaces the selected image, a cancelled pick clearing it |
| Screen.CreateAccountPage.DismissErrorDialog | app/src/main/java/fr/isen/mullot/crushisen/MainActivity.kt:451-455 | closes the error dialog only |
| Screen.CreateAccountPage.DismissSuccessDialog | app/src/main/java/fr/isen/mullot/crushisen/MainActivity.kt:465-475 | closes the success dialog only |
| Screen.CreateAccountPage.OnValiderClick | app/src/main/java/fr/isen/mullot/crushisen/MainActivity.kt:331-440 | the remote calls made are those `Submit` gives; a created account opens the success dialog and is recorded as saved; a rejection shows its own message; every saved user stays admissible |
| Screen.CreateAccountPage.OnEmailChecked | app/src/main/java/fr/isen/mullot/crushisen/MainActivity.kt:352-414 | the e-mail callback reports what the reference callback decides and keeps every saved user admissible |
| Screen.CreateAccountPage.OnPseudoChecked | app/src/main/java/fr/isen/mullot/crushisen/MainActivity.kt:355-408 | the pseudo callback reports what the reference callback decides and keeps every saved user admissible |
| Screen.CreateAccountPage.CheckPasswords | app/src/main/java/fr/isen/mullot/crushisen/MainActivity.kt:358-400 | the password policy and confirmation checks report what the reference callback decides for a free pseudo |
| Screen.CreateAccountPage.CreateAccount | app/src/main/java/fr/isen/mullot/crushisen/MainActivity.kt:360-386 | the user built from the form is saved with the image, the image upload follows, the success dialog opens, and the saved user is admissible |

## Left out

- The Compose layout, text-field rendering, image preview (`loadPhoto`) and
  navigation back to the first page are not modelled; they do not affect
  which account is created.
- The eleven `onValueChange` handlers are not modelled as methods: each is a
  plain assignment of one field of `form`, with nothing to prove.
- `saveUserToFirebase` and `uploadImageToFirebaseStorage` are recorded as
  requests (`SaveUser`, `UploadImage`) and not executed. The key generation,
  the second upload inside `saveUserToFirebase` and the later write of the
  photo URL are not part of this model, nor is any failure of these writes.
- `Log.e` calls are not modelled; they only write to the device log.
- Screen.CreateAccountPage.OnEmailChecked: in the app the two lookups are
  asynchronous and their callbacks read the fields as they are when the
  answer arrives. The model takes the answers as inputs of the click and
  assumes the fields are not edited meanwhile.
- The lookups' answers and their cancellation are inputs (`Lookup`); the
  query itself, its case-sensitive matching and the race between lookup and
  write are not modelled.
- Validators.IsValidPhoneNumber and Validators.IsValidField: Kotlin's
  `isDigit` and `isWhitespace` are abstract outside ASCII (`CharClasses`);
  only their ASCII behaviour is fixed.
- Strings are sequences of Unicode scalar values, not UTF-16 code units;
  characters outside the Basic Multilingual Plane count once, not twice.
- Registration.ToUser keeps the password as typed, as the app does; no
  hashing is modelled.
