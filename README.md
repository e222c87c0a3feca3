# Owujupe tenancy app — a Dafny model of its session, data and form logic

Owujupe is an iOS app for tenants: they sign up and sign in with e-mail and
password, submit tenancy complaints, keep a list of vendors they can call,
send messages and edit their profile (name, contact number, profile photo).
The app keeps its data in a Firebase document store and its sessions in
Firebase authentication, and remembers sign-in credentials in the device's
preferences store.

This project models the app's own logic around those services:

- `FireAuthHelper` (singleton; sign-up, sign-in, sign-out, profile write and
  the auth-state listener) — `FireAuth` in `fire_auth.dfy`;
- `FireDBHelper` (singleton; complaint insert, the per-user and all-user
  complaint listeners, profile read and update) — `FireDB` in `fire_db.dfy`;
- the document shapes of complaints, profiles, vendors and messages, and how
  a snapshot document is decoded into them — `Records` in `records.dfy`;
- the sign-up form's input validation, including the e-mail pattern as a
  scanner proved equal to the pattern's definition — `EmailFormat` in
  `email.dfy` and `SignUpScreen` in `sign_up.dfy`;
- the sign-in screen and its remember-me credentials — `SignInScreen` in
  `sign_in.dfy`;
- the vendor list, its listener and the add-vendor form —
  `ContactVendorScreen` in `contact_vendor.dfy`;
- complaint submission, message sending and the profile view model —
  `SubmitComplaintScreen`, `SendMessageScreen`, `ProfileModel` in
  `screens.dfy`;
- a few end-to-end runs stated from the contracts alone — `Scenarios` in
  `scenarios.dfy`.

The services themselves are state plus oracles (`Backend` in `backend.dfy`):
the document store is a map collection → document id → field map held in a
`Firestore` object, the preferences store a map in a `UserDefaults` object,
and the signed-in user (`Auth.auth().currentUser`) a parameter. Whether a
remote call succeeds, what a snapshot listener delivers, the id the store
generates for a new document and the current time are all parameters of the
operation that uses them, so every outcome the backend can produce is
covered. Completion handlers are run at the point of the call; a snapshot
listener is recorded when installed and its callback is a separate method
(`ReceiveComplaints`, `ReceiveVendors`) taking the error and snapshot
delivered.

Views whose `@State` the code updates are classes with those fields; their
button actions and callbacks are methods whose `ensures` give the whole new
state. The document encodings and decodings, validation and preference
transformations are functions, and the properties relating them
(round trips, what a listener keeps and drops, which input the validation
accepts) are lemmas.

Three behaviours of the code are worth knowing. The password length check
(at least 6 characters) is made by the sign-up form before any account is
created. `signUp` reports failure when the profile write fails, even though
the account was created and stays signed in. A message is written with its
text under the key `message`, while the `Message` record reads `content`, so
a sent message never decodes as a `Message`
(`SendMessageScreen.SentMessageIsNotAMessageRecord`).

## Model

| member | source | states |
|---|---|---|
| Snapshots.CompactMap | Owujupe/controllers/FireDBHelper.swift:79-87 | decoding a snapshot never yields more records than documents |
| Snapshots.CompactMapAppend | Owujupe/controllers/FireDBHelper.swift:79-87 | decoding a concatenation of snapshots is the concatenation of their decodings |
| Snapshots.CompactMapSingle | Owujupe/controllers/FireDBHelper.swift:79-87 | a single document decodes to its record or to nothing |
| Snapshots.CompactMapDropsFailure | Owujupe/controllers/FireDBHelper.swift:79-87 | a document that does not decode is skipped without affecting the others |
| Snapshots.CompactMapAllPresent | Owujupe/controllers/FireDBHelper.swift:79-87 | when every document decodes, the list has one record per document, in order |
| Snapshots.CompactMapSource | Owujupe/controllers/FireDBHelper.swift:79-87 | every decoded record is the decoding of some document of the snapshot |
| Snapshots.CompactMapKeeps | Owujupe/controllers/FireDBHelper.swift:79-87 | every document that decodes contributes its record to the list |
| Backend.StringField | Owujupe/views/ContactVendorView.swift:112-114 | a field read as a string is present exactly when the field holds a string, and yields that string |
| Backend.ErrorText | Owujupe/views/SignUpView.swift:81 | the alert shows the error's description, or the fallback text when there is no error |
| Backend.Firestore.UpdateData | Owujupe/Model/ProfileViewModel.swift:60-70 | a missing document fails with the service's error and changes nothing; otherwise the named fields are overwritten and the others kept, unless the write fails |
| Backend.Uid | Owujupe/controllers/FireDBHelper.swift:61-64 | a uid is available exactly when a user is signed in, and it is that user's |
| Records.EncodeComplaint | Owujupe/controllers/FireDBHelper.swift:45-47 | a complaint is written as exactly its subject, message and userId fields; its id is not stored |
| Records.DecodeComplaint | Owujupe/Model/Complaint.swift:10-22 | a document decodes as a complaint exactly when subject, message and userId are strings; the id is the document's |
| Records.ComplaintRoundTrip | Owujupe/Model/Complaint.swift:10-22 | an encoded complaint stored under an id decodes back to the complaint with that id |
| Records.EncodeProfile | Owujupe/Model/UserProfile.swift:11-26 | a profile is written as exactly its name, email, contactNumber and photo fields; its id is not stored |
| Records.DecodeProfile | Owujupe/Model/UserProfile.swift:11-26 | a document decodes as a profile exactly when photo, name, email and contactNumber are strings |
| Records.ProfileIgnoresOtherFields | Owujupe/Model/ProfileViewModel.swift:108-118 | writing a field outside the profile's four (such as profileImagePath) leaves the decoded profile unchanged |
| Records.ProfileRoundTrip | Owujupe/Model/UserProfile.swift:11-26 | an encoded profile decodes back to itself under the document id |
| Records.VendorFields | Owujupe/views/ContactVendorView.swift:83-88 | a vendor is written as exactly its name, role, phone and the owner's uid as userId |
| Records.DecodeVendor | Owujupe/views/ContactVendorView.swift:111-118 | a vendor document decodes exactly when name, role and phone are strings, under the document id |
| Records.VendorRoundTrip | Owujupe/views/ContactVendorView.swift:76-94 | a saved vendor document decodes back to the vendor |
| Records.DecodeMessage | Owujupe/Model/Message.swift:10-22 | a document decodes as a message only when it has a content field; the id is the document's |
| EmailFormat.IndexOf | Owujupe/views/SignUpView.swift:134-138 | the position of the first occurrence of a character, or the length when absent |
| EmailFormat.LastIndexOf | Owujupe/views/SignUpView.swift:134-138 | the position of the last occurrence of a character, or -1 when absent |
| EmailFormat.IsValidEmail | Owujupe/views/SignUpView.swift:134-135 | the e-mail check as a scan: the local part ends at the first @, the top-level part starts after the last dot; its meaning is stated by IsValidEmailCorrect |
| EmailFormat.IsValidEmailSound | Owujupe/views/SignUpView.swift:134-138 | every address the scanner accepts matches the e-mail pattern |
| EmailFormat.IsValidEmailComplete | Owujupe/views/SignUpView.swift:134-138 | every address matching the e-mail pattern is accepted by the scanner |
| EmailFormat.IsValidEmailCorrect | Owujupe/views/SignUpView.swift:134-138 | the scanner accepts exactly the addresses matching the pattern |
| SignUpScreen.FirstFailure | Owujupe/views/SignUpView.swift:123-156 | the reported problem is a check that fails and no earlier check fails; nothing is reported only when every check passes |
| SignUpScreen.AcceptedInputIsWellFormed | Owujupe/views/SignUpView.swift:123-156 | accepted input has all fields non-empty, a well-formed e-mail and a password of at least 6 characters |
| SignUpScreen.WellFormedInputIsAccepted | Owujupe/views/SignUpView.swift:123-156 | such input is always accepted |
| SignUpScreen.MalformedEmailReportedBeforePassword | Owujupe/views/SignUpView.swift:134-148 | a non-empty malformed e-mail is reported even when the password is also bad |
| SignUpScreen.EnabledButtonLeavesFormatChecks | Owujupe/views/SignUpView.swift:109 | with the button enabled, no emptiness check can fail; only the e-mail format and password length remain |
| SignUpScreen.SignUpView.constructor | Owujupe/views/SignUpView.swift:11-18 | the form starts empty, not loading, without an alert |
| SignUpScreen.SignUpView.ValidateInputs | Owujupe/views/SignUpView.swift:123-156 | returns whether the input is accepted and otherwise shows the first failing check's message |
| SignUpScreen.SignUpView.SubmitSignUp | Owujupe/views/SignUpView.swift:68-84 | the loading flag is cleared afterwards; a created account becomes the user with its e-mail remembered and its profile written (AccountSetUp); success goes to login keeping the alert, failure alerts the error or "Sign up failed" |
| SignUpScreen.SignUpView.CreateAccountTapped | Owujupe/views/SignUpView.swift:67-88 | a disabled button does nothing; invalid input only alerts; valid input signs up: a created account becomes the user, has its e-mail remembered and its profile written, and the screen goes to login keeping the alert, or alerts the error or "Sign up failed" |
| FireAuth.ProfileFields | Owujupe/controllers/FireAuthHelper.swift:86-91 | the profile document written is the encoding of the profile with the given fields |
| FireAuth.RememberEmail | Owujupe/controllers/FireAuthHelper.swift:48-49 | the user's e-mail is stored under KEY_EMAIL, or the key removed when there is none; nothing else changes |
| FireAuth.SignUpCompletion | Owujupe/controllers/FireAuthHelper.swift:40-53 | sign-up succeeds only when an account is created and its profile write succeeds, reporting the first error otherwise |
| FireAuth.FireAuthHelper.constructor | Owujupe/controllers/FireAuthHelper.swift:29-31 | a new helper holds the current user and has installed no auth-state listener yet |
| FireAuth.FireAuthHelper.ListenToAuthState | Owujupe/controllers/FireAuthHelper.swift:33-38 | installs one more auth-state listener |
| FireAuth.FireAuthHelper.AuthStateDidChange | Owujupe/controllers/FireAuthHelper.swift:34-37 | with a listener installed the helper's user follows the reported user |
| FireAuth.FireAuthHelper.SignUp | Owujupe/controllers/FireAuthHelper.swift:40-53 | a created account becomes the user and has its e-mail remembered and its profile written; the result is SignUpCompletion's |
| FireAuth.FireAuthHelper.SignIn | Owujupe/controllers/FireAuthHelper.swift:55-66 | a successful sign-in sets the user and remembers its e-mail; a failed one changes nothing and reports the error |
| FireAuth.FireAuthHelper.SignOut | Owujupe/controllers/FireAuthHelper.swift:68-76 | success clears the user; failure keeps it and reports the error |
| FireAuth.FireAuthHelper.SaveUserProfile | Owujupe/controllers/FireAuthHelper.swift:78-98 | without a user fails with "No user logged in"; otherwise writes the profile document under the uid, succeeding exactly when the write does |
| FireAuth.FireAuthHelperSingleton.GetInstance | Owujupe/controllers/FireAuthHelper.swift:21-27 | the first call creates a helper with one listener; later calls return that same helper unchanged |
| FireAuth.SignUpProfileReadsBack | Owujupe/controllers/FireAuthHelper.swift:86-93 | the profile written at sign-up decodes to exactly the given fields under the uid |
| FireDB.DecodeComplaints | Owujupe/controllers/FireDBHelper.swift:79-87 | a snapshot yields at most one complaint per document |
| FireDB.MalformedComplaintDropped | Owujupe/controllers/FireDBHelper.swift:79-87 | a complaint document missing a field is skipped without affecting the others |
| FireDB.AllValidComplaintsKept | Owujupe/controllers/FireDBHelper.swift:79-87 | when every document is a complaint, all are listed in order with their document ids |
| FireDB.DecodedComplaintsKeepOwner | Owujupe/controllers/FireDBHelper.swift:66-68 | a snapshot holding only a user's complaints lists only complaints of that user |
| FireDB.FireDBHelper.constructor | Owujupe/controllers/FireDBHelper.swift:13-29 | a new helper has no complaints, no profile and no listeners |
| FireDB.FireDBHelper.IsUserLoggedIn | Owujupe/controllers/FireDBHelper.swift:40-42 | true exactly when a user is signed in |
| FireDB.FireDBHelper.InsertComplaint | Owujupe/controllers/FireDBHelper.swift:45-57 | the complaint is added under the generated id unless the write fails |
| FireDB.FireDBHelper.GetUserComplaints | Owujupe/controllers/FireDBHelper.swift:60-91 | without a user nothing happens; otherwise one listener on that user's complaints is installed |
| FireDB.FireDBHelper.GetAllComplaints | Owujupe/controllers/FireDBHelper.swift:137-161 | installs one listener on all complaints |
| FireDB.FireDBHelper.ReceiveComplaints | Owujupe/controllers/FireDBHelper.swift:68-90 | an error or a missing snapshot keeps the list; otherwise the list becomes the snapshot's decoded complaints |
| FireDB.FireDBHelper.GetUserProfile | Owujupe/controllers/FireDBHelper.swift:94-114 | the profile becomes the user's decoded document when it exists, reads without error and decodes; otherwise it is kept |
| FireDB.FireDBHelper.UpdateUserProfile | Owujupe/controllers/FireDBHelper.swift:117-134 | without a user nothing happens; otherwise the profile document under the uid is replaced unless the write fails |
| FireDB.FireDBHelperSingleton.GetInstance | Owujupe/controllers/FireDBHelper.swift:32-37 | the first call creates a helper; later calls return the same helper |
| ContactVendorScreen.DecodeVendors | Owujupe/views/ContactVendorView.swift:111-119 | a snapshot yields at most one vendor per document |
| ContactVendorScreen.DecodedVendorsComeFromSnapshot | Owujupe/views/ContactVendorView.swift:111-119 | every listed vendor is the decoding of a document of the snapshot |
| ContactVendorScreen.DecodableVendorListed | Owujupe/views/ContactVendorView.swift:111-119 | every document that decodes as a vendor is listed |
| ContactVendorScreen.SavedVendorListed | Owujupe/views/ContactVendorView.swift:76-119 | a vendor this screen saves is listed when a snapshot delivers its document |
| ContactVendorScreen.ContactVendorView.constructor | Owujupe/views/ContactVendorView.swift:13-18 | the list starts with the one built-in vendor, no error and no sheet |
| ContactVendorScreen.ContactVendorView.FetchVendors | Owujupe/views/ContactVendorView.swift:98-104 | without a user reports "You are not signed in." and installs nothing; otherwise installs one listener for that user |
| ContactVendorScreen.ContactVendorView.ReceiveVendors | Owujupe/views/ContactVendorView.swift:107-120 | an error is shown and the list kept; otherwise the list is the decoded snapshot (empty when missing) and the error cleared |
| ContactVendorScreen.ContactVendorView.SaveVendorToFirestore | Owujupe/views/ContactVendorView.swift:76-94 | with a user, the vendor is stored under its id with its owner's uid unless the write fails; otherwise nothing changes |
| ContactVendorScreen.ContactVendorView.AddNewVendor | Owujupe/views/ContactVendorView.swift:125-129 | the vendor is appended to the list under the new id and saved |
| ContactVendorScreen.ContactVendorView.ToggleAddingVendor | Owujupe/views/ContactVendorView.swift:47-49 | the Add New Vendor button flips whether the sheet is shown |
| ContactVendorScreen.AddVendorForm.constructor | Owujupe/views/ContactVendorView.swift:60-65 | the sheet is bound to the vendor screen that shows it, with empty fields |
| ContactVendorScreen.AddVendorForm.Cancel | Owujupe/views/ContactVendorView.swift:152-156 | Cancel closes the vendor screen's sheet through the binding |
| ContactVendorScreen.AddVendorForm.Save | Owujupe/views/ContactVendorView.swift:158-163 | only with no empty field is the vendor added to the vendor screen's list and saved, and the vendor screen's sheet closed |
| SignInScreen.WithCredentials | Owujupe/views/SignInView.swift:151-154 | both credentials are stored and every other key kept |
| SignInScreen.WithoutCredentials | Owujupe/views/SignInView.swift:156-159 | both credentials are removed and every other key kept |
| SignInScreen.SavedCredentials | Owujupe/views/SignInView.swift:140-147 | credentials are restored exactly when both are stored |
| SignInScreen.SavedCredentialsRestored | Owujupe/views/SignInView.swift:151-154 | saved credentials are restored as saved |
| SignInScreen.ClearedCredentialsGone | Owujupe/views/SignInView.swift:156-159 | after clearing, neither credential is stored and nothing is restored |
| SignInScreen.ClearUndoesSave | Owujupe/views/SignInView.swift:151-159 | saving then clearing leaves the store as clearing alone |
| SignInScreen.RememberMeEffect | Owujupe/views/SignInView.swift:60-67 | the flag is stored, and the current credentials are saved when it is on and removed when off |
| SignInScreen.SignInView.constructor | Owujupe/views/SignInView.swift:12-17 | the screen starts with empty fields, remember-me off, no alert |
| SignInScreen.SignInView.SaveLoginCredentials | Owujupe/views/SignInView.swift:151-154 | stores both credentials |
| SignInScreen.SignInView.ClearLoginCredentials | Owujupe/views/SignInView.swift:156-159 | removes both credentials |
| SignInScreen.SignInView.SetRememberMe | Owujupe/views/SignInView.swift:60-67 | the toggle takes the new value; only a change runs the remember-me effect |
| SignInScreen.SignInView.OnAppear | Owujupe/views/SignInView.swift:140-147 | stored credentials fill the fields and switch remember-me on; otherwise nothing changes |
| SignInScreen.SignInView.SignInTapped | Owujupe/views/SignInView.swift:70-89 | empty fields alert; a failed sign-in alerts its error; success goes home and saves or clears the credentials per remember-me; the auth-state listener is kept in every case |
| SubmitComplaintScreen.SubmitComplaintView.constructor | Owujupe/views/SubmitComplaintView.swift:12-16 | the form starts empty, not submitting, without an alert |
| SubmitComplaintScreen.SubmitComplaintView.SubmitComplaint | Owujupe/views/SubmitComplaintView.swift:71-93 | without a user only the login alert shows; otherwise the complaint is written under the user's uid, the form reset and success shown |
| SubmitComplaintScreen.SubmittedComplaintListed | Owujupe/views/SubmitComplaintView.swift:78-85 | a submitted complaint, delivered back, lists with its subject, message and owner |
| SendMessageScreen.MessageFields | Owujupe/views/SendMessageView.swift:50-55 | a message is written as exactly recipient, message, timestamp and the sender's uid |
| SendMessageScreen.SentMessageIsNotAMessageRecord | Owujupe/views/SendMessageView.swift:50-55 | the document written for a message has no content field, so it never decodes as a Message |
| SendMessageScreen.SendMessageView.constructor | Owujupe/views/SendMessageView.swift:14-15 | the form starts empty |
| SendMessageScreen.SendMessageView.SendMessage | Owujupe/views/SendMessageView.swift:43-63 | with a user, the message is added with the sender's uid and the time, and the fields cleared only on success |
| ProfileModel.ProfileImagePath | Owujupe/Model/ProfileViewModel.swift:91 | the image path is users/, the uid, then /profile.jpg, and the uid reads back from between them |
| ProfileModel.ProfileImagePathInjective | Owujupe/Model/ProfileViewModel.swift:91 | distinct users get distinct image paths |
| ProfileModel.ShownProfile | Owujupe/Model/ProfileViewModel.swift:48-52 | name and contact shown are the stored strings, or "No name" and "No phone number" |
| ProfileModel.ProfileUpdate | Owujupe/Model/ProfileViewModel.swift:60-63 | an update writes exactly the name and contactNumber fields |
| ProfileModel.UpdatedProfileShown | Owujupe/Model/ProfileViewModel.swift:57-69 | after an update, the fetched name and contact are the ones written |
| ProfileModel.ProfileViewModel.constructor | Owujupe/Model/ProfileViewModel.swift:29-37 | with a user, takes its e-mail and photo URL and fetches its data; without one everything stays empty |
| ProfileModel.ProfileViewModel.FetchUserData | Owujupe/Model/ProfileViewModel.swift:40-54 | a read error is shown; an existing document sets name and contact with their defaults; otherwise nothing changes |
| ProfileModel.ProfileViewModel.UpdateUserProfile | Owujupe/Model/ProfileViewModel.swift:57-71 | with a user, name and contact are merged into the user's document and shown; a missing document or failed write is reported with the service's error text after "Error updating profile: " |
| ProfileModel.ProfileViewModel.UpdateProfileImageUrlInFirestore | Owujupe/Model/ProfileViewModel.swift:108-118 | with a user, the image URL is merged into the user's document under profileImagePath, or the failure is reported |
| ProfileModel.ProfileViewModel.UploadImage | Owujupe/Model/ProfileViewModel.swift:83-105 | a loaded image is stored at the user's image path; its URL is shown and recorded in the user's document; failures are reported |
| Scenarios.SignOutTwice | Owujupe/controllers/FireAuthHelper.swift:68-76 | signing out twice succeeds both times and leaves no user |
| Scenarios.FailedSignInKeepsSession | Owujupe/controllers/FireAuthHelper.swift:55-66 | a failed sign-in keeps the session and the preferences |
| Scenarios.SignUpThenGetProfile | Owujupe/controllers/FireAuthHelper.swift:40-53 | after a full sign-up, fetching the profile yields exactly the fields given |
| Scenarios.SignUpPartialFailure | Owujupe/controllers/FireAuthHelper.swift:47-51 | a failed profile write reports failure while the new user stays signed in |
| Scenarios.LeakyFaucet | Owujupe/controllers/FireDBHelper.swift:60-91 | a user's inserted complaint is listed when the listener delivers it |
| Scenarios.ShortPasswordRefused | Owujupe/views/SignUpView.swift:145-148 | a form with a name and a well-formed e-mail but a password shorter than 6 characters is refused with the length message |

## Left out

- Firebase authentication, Firestore and Storage internals: modelled only by what the app observes (a store map, the signed-in user, call outcomes passed as parameters); query filtering and ordering are the service's, so a snapshot is any sequence of documents.
- Asynchrony: completion handlers, `DispatchQueue.main.async` and listener callbacks run at a point chosen by the caller; interleavings of concurrent callbacks are not modelled.
- Listener lifetimes: listeners are recorded as installed and never removed, as the app never removes them.
- SwiftUI layout, navigation stacks, `CustomTextField`, `ComplaintListView`, `HomeView`, `ProfileView` and `OwujupeApp`: presentation only; `HomeView`'s name lookup, the password-reset sheet in `SignInView`, the call-vendor link and logout buttons are not part of this model.
- Generated document ids (`addDocument`, `UUID()`) and `Timestamp()`: parameters.
- `print` logging: no observable effect.
- SignUpScreen.FirstFailure: `password.count` counts grapheme clusters, the model counts the characters of a `seq<char>`; a password of fewer than six grapheme clusters made of more than six characters (such as "e" followed by a combining accent, three times) is refused by the app and accepted by the model.
- The e-mail `NSPredicate` regex: modelled with ASCII character classes and no Unicode case folding.
- `insertComplaint`'s and `updateUserProfile`'s encoding `try` (`addDocument(from:)`, `setData(from:)`): encoding a record cannot fail in the model, so neither catch branch is modelled.
- Photo picking and the profile change request: `loadTransferable` is the `ImageLoad` parameter and the upload, download-URL and profile-change calls are one `StorageReply` parameter.
- The `RootView` enumeration is not part of this model; its cases are taken from the screens that use it.
- `FireAuthHelper.user` and `Auth.auth().currentUser` are separate: the helper's field is state, the service's user a parameter, and the model does not force them to agree.
- `UserDefaults` boolean-to-string conversion: `string(forKey:)` on a stored boolean is modelled as "1" or "0".
- SignUpScreen.SignUpView: the `photo` field is never edited by the form and is passed as stored.
