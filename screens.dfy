/** The complaint form: one complaint per submit, owned by the signed-in user. */
module SubmitComplaintScreen {
  import opened Wrappers
  import opened Backend
  import opened Records
  import opened FireDB

  const MustBeLoggedIn := "You must be logged in to submit a complaint."
  const Submitted := "Complaint submitted successfully!"

  class SubmitComplaintView {
    var subject: string
    var message: string
    var isSubmitting: bool
    var alertMessage: string
    var showAlert: bool

    constructor ()
      ensures subject == "" && message == "" && !isSubmitting && alertMessage == "" && !showAlert
    {
      subject, message, isSubmitting, alertMessage, showAlert := "", "", false, "", false;
    }

    /**
     * `submitComplaint`. Without a user only the login alert shows. Otherwise
     * the complaint is sent, the form is reset and the success alert shows,
     * whatever becomes of the write.
     */
    method SubmitComplaint(currentUser: Option<User>, dbHelper: FireDBHelper, db: Firestore,
                           newId: string, failure: Option<Error>)
      modifies this, db
      ensures currentUser.None? ==>
        showAlert && alertMessage == MustBeLoggedIn && subject == old(subject) && message == old(message) &&
        isSubmitting == old(isSubmitting) && db.collections == old(db.collections)
      ensures currentUser.Some? ==>
        subject == "" && message == "" && !isSubmitting && showAlert && alertMessage == Submitted
      ensures currentUser.Some? ==>
        var sent := Complaint(None, old(subject), old(message), currentUser.value.uid);
        db.collections == if failure.None? then Put(old(db.collections), ComplaintsCollection, newId, EncodeComplaint(sent))
          else old(db.collections)
    {
      var uid := Uid(currentUser);
      if uid.None? {
        alertMessage := MustBeLoggedIn;
        showAlert := true;
        return;
      }
      isSubmitting := true;
      var newComplaint := Complaint(None, subject, message, uid.value);
      dbHelper.InsertComplaint(newComplaint, db, newId, failure);
      isSubmitting := false;
      subject := "";
      message := "";
      alertMessage := Submitted;
      showAlert := true;
    }
  }

  /** A submitted complaint is listed, with its subject and message, by a snapshot that delivers it. */
  lemma SubmittedComplaintListed(subject: string, message: string, uid: string, newId: string)
    ensures DecodeComplaints([Document(newId, EncodeComplaint(Complaint(None, subject, message, uid)))])
      == [Complaint(Some(newId), subject, message, uid)]
  {
    AllValidComplaintsKept([Document(newId, EncodeComplaint(Complaint(None, subject, message, uid)))]);
  }
}

/** The message form: writes one message document from the signed-in user. */
module SendMessageScreen {
  import opened Wrappers
  import opened Backend
  import opened Records

  /** The document `sendMessage` writes. */
  function MessageFields(recipient: string, message: string, timestamp: int, sender: string): (r: Fields)
    ensures r.Keys == {"recipient", "message", "timestamp", "sender"} && r["sender"] == Str(sender)
  {
    map["recipient" := Str(recipient), "message" := Str(message), "timestamp" := Time(timestamp), "sender" := Str(sender)]
  }

  /**
   * The message document stores the text under `message`, while the
   * `Message` record expects `content`: such a document does not decode as
   * a `Message`.
   */
  lemma SentMessageIsNotAMessageRecord(id: string, recipient: string, message: string, timestamp: int, sender: string)
    ensures DecodeMessage(Document(id, MessageFields(recipient, message, timestamp, sender))).None?
  {
  }

  class SendMessageView {
    var recipient: string
    var message: string

    constructor ()
      ensures recipient == "" && message == ""
    {
      recipient, message := "", "";
    }

    /**
     * `sendMessage`, with the store-generated id and the timestamp given.
     * The fields are cleared only once the write has succeeded.
     */
    method SendMessage(currentUser: Option<User>, db: Firestore, newId: string, timestamp: int, failure: Option<Error>)
      modifies this, db
      ensures currentUser.None? || failure.Some? ==>
        recipient == old(recipient) && message == old(message) && db.collections == old(db.collections)
      ensures currentUser.Some? && failure.None? ==>
        recipient == "" && message == "" &&
        db.collections == Put(old(db.collections), MessagesCollection, newId,
                              MessageFields(old(recipient), old(message), timestamp, currentUser.value.uid))
    {
      var uid := Uid(currentUser);
      if uid.None? {
        return;
      }
      var error := db.AddDocument(MessagesCollection, newId, MessageFields(recipient, message, timestamp, uid.value), failure);
      if error.None? {
        recipient := "";
        message := "";
      }
    }
  }
}

/**
 * The profile screen's model: the e-mail, name and contact it shows, its
 * error text, and the profile-image URL; each database call is for the
 * signed-in user's own `users` document.
 */
module ProfileModel {
  import opened Wrappers
  import opened Backend

  const NoName := "No name"
  const NoPhoneNumber := "No phone number"

  /** Where the profile image of `uid` is stored. */
  function ProfileImagePath(uid: string): (r: string)
    ensures |r| == |uid| + |"users/"| + |"/profile.jpg"|
    ensures r[..|"users/"|] == "users/" && r[|r| - |"/profile.jpg"|..] == "/profile.jpg"
    ensures r[|"users/"|..|r| - |"/profile.jpg"|] == uid
  {
    "users/" + uid + "/profile.jpg"
  }

  /** The uid can be read back from the path, so two users never share an image. */
  lemma ProfileImagePathInjective(a: string, b: string)
    requires ProfileImagePath(a) == ProfileImagePath(b)
    ensures a == b
  {
  }

  /** The name and contact a fetched document shows, with their defaults. */
  function ShownProfile(data: Fields): (r: (string, string))
    ensures r.0 == (if StringField(data, "name").Some? then data["name"].s else NoName)
    ensures r.1 == (if StringField(data, "contactNumber").Some? then data["contactNumber"].s else NoPhoneNumber)
  {
    (StringField(data, "name").GetOr(NoName), StringField(data, "contactNumber").GetOr(NoPhoneNumber))
  }

  /** The fields `updateUserProfile` writes. */
  function ProfileUpdate(name: string, contact: string): (r: Fields)
    ensures r.Keys == {"name", "contactNumber"}
  {
    map["name" := Str(name), "contactNumber" := Str(contact)]
  }

  /** After an update, a fetch shows exactly what was written. */
  lemma UpdatedProfileShown(data: Fields, name: string, contact: string)
    ensures ShownProfile(data + ProfileUpdate(name, contact)) == (name, contact)
  {
  }

  /** What the image picker hands over. */
  datatype ImageLoad = NotSelected | LoadFailed(error: Error) | NoData | Loaded

  /** What the storage upload, download-URL and profile-change calls come to. */
  datatype StorageReply = StorageFailed(error: Error) | Stored(downloadUrl: string)

  class ProfileViewModel {
    var userEmail: string
    var name: string
    var contact: string
    var profileImageUrl: Option<string>
    var errorMessage: Option<string>

    /** `init`: only with a signed-in user are the e-mail, the data and the photo URL taken. */
    constructor (currentUser: Option<User>, db: Firestore, readError: Option<Error>)
      ensures currentUser.None? ==>
        userEmail == "" && name == "" && contact == "" && profileImageUrl.None? && errorMessage.None?
      ensures currentUser.Some? ==>
        userEmail == currentUser.value.email.GetOr("") && profileImageUrl == currentUser.value.photoUrl
      ensures currentUser.Some? && readError.Some? ==>
        errorMessage == Some("Error fetching user data: " + readError.value.description) && name == "" && contact == ""
      ensures currentUser.Some? && readError.None? ==>
        errorMessage.None? &&
        var doc := db.Get(UsersCollection, currentUser.value.uid);
        (name, contact) == if doc.Some? then ShownProfile(doc.value) else ("", "")
    {
      userEmail, name, contact, profileImageUrl, errorMessage := "", "", "", None, None;
      new;
      if currentUser.Some? {
        userEmail := currentUser.value.email.GetOr("");
        FetchUserData(currentUser, db, readError);
        if currentUser.value.photoUrl.Some? {
          profileImageUrl := currentUser.value.photoUrl;
        }
      }
    }

    /**
     * `fetchUserData`: a read error is reported and the fields kept; a missing
     * document changes nothing; otherwise name and contact are shown, with
     * their defaults for a missing or non-string field.
     */
    method FetchUserData(currentUser: Option<User>, db: Firestore, readError: Option<Error>)
      modifies this`name, this`contact, this`errorMessage
      ensures currentUser.None? ==>
        name == old(name) && contact == old(contact) && errorMessage == old(errorMessage)
      ensures currentUser.Some? && readError.Some? ==>
        errorMessage == Some("Error fetching user data: " + readError.value.description) &&
        name == old(name) && contact == old(contact)
      ensures currentUser.Some? && readError.None? ==>
        errorMessage == old(errorMessage) &&
        var doc := db.Get(UsersCollection, currentUser.value.uid);
        (name, contact) == if doc.Some? then ShownProfile(doc.value) else (old(name), old(contact))
    {
      var uid := Uid(currentUser);
      if uid.None? {
        return;
      }
      if readError.Some? {
        errorMessage := Some("Error fetching user data: " + readError.value.description);
        return;
      }
      var data := db.Get(UsersCollection, uid.value);
      if data.None? {
        return;
      }
      name := StringField(data.value, "name").GetOr(NoName);
      contact := StringField(data.value, "contactNumber").GetOr(NoPhoneNumber);
    }

    /** `updateUserProfile`: the shown fields follow the store only when the update succeeds. */
    method UpdateUserProfile(newName: string, newContact: string, currentUser: Option<User>, db: Firestore,
                             notFound: Error, failure: Option<Error>)
      modifies this`name, this`contact, this`errorMessage, db
      ensures currentUser.None? ==>
        name == old(name) && contact == old(contact) && errorMessage == old(errorMessage) && db.collections == old(db.collections)
      ensures currentUser.Some? ==>
        var uid := currentUser.value.uid;
        var present := old(db.Get(UsersCollection, uid)).Some?;
        if present && failure.None? then
          name == newName && contact == newContact && errorMessage == old(errorMessage) &&
          db.collections == Put(old(db.collections), UsersCollection, uid,
                                old(db.Get(UsersCollection, uid)).value + ProfileUpdate(newName, newContact))
        else
          name == old(name) && contact == old(contact) && db.collections == old(db.collections) &&
          errorMessage == Some("Error updating profile: " + (if present then failure.value.description else notFound.description))
    {
      var uid := Uid(currentUser);
      if uid.None? {
        return;
      }
      var error := db.UpdateData(UsersCollection, uid.value, ProfileUpdate(newName, newContact), notFound, failure);
      if error.Some? {
        errorMessage := Some("Error updating profile: " + error.value.description);
      } else {
        name := newName;
        contact := newContact;
      }
    }

    /** `updateProfileImageURLInFirestore`: records the URL in the user's document. */
    method UpdateProfileImageUrlInFirestore(url: string, currentUser: Option<User>, db: Firestore,
                                            notFound: Error, failure: Option<Error>)
      modifies this`errorMessage, db
      ensures currentUser.None? ==> errorMessage == old(errorMessage) && db.collections == old(db.collections)
      ensures currentUser.Some? ==>
        var uid := currentUser.value.uid;
        var present := old(db.Get(UsersCollection, uid)).Some?;
        if present && failure.None? then
          errorMessage == old(errorMessage) &&
          db.collections == Put(old(db.collections), UsersCollection, uid,
                                old(db.Get(UsersCollection, uid)).value + map["profileImagePath" := Str(url)])
        else
          db.collections == old(db.collections) &&
          errorMessage == Some("Error updating profile image URL: " + (if present then failure.value.description else notFound.description))
    {
      var uid := Uid(currentUser);
      if uid.None? {
        return;
      }
      var error := db.UpdateData(UsersCollection, uid.value, map["profileImagePath" := Str(url)], notFound, failure);
      if error.Some? {
        errorMessage := Some("Error updating profile image URL: " + error.value.description);
      }
    }

    /**
     * `uploadImage`: the image goes to `ProfileImagePath(uid)` (returned as
     * `path`); its download URL becomes the profile image and is recorded in
     * the user's document.
     */
    method UploadImage(load: ImageLoad, currentUser: Option<User>, storage: StorageReply,
                       db: Firestore, notFound: Error, writeFailure: Option<Error>)
      returns (path: Option<string>)
      modifies this`profileImageUrl, this`errorMessage, db
      ensures path.Some? <==> load == Loaded && currentUser.Some?
      ensures path.Some? ==> path.value == ProfileImagePath(currentUser.value.uid)
      ensures load.LoadFailed? ==> errorMessage == Some("Error uploading image: " + load.error.description)
      ensures path.None? || storage.StorageFailed? ==>
        profileImageUrl == old(profileImageUrl) && db.collections == old(db.collections)
      ensures path.Some? && storage.StorageFailed? ==>
        errorMessage == Some("Error uploading image: " + storage.error.description)
      ensures path.None? && !load.LoadFailed? ==> errorMessage == old(errorMessage)
      ensures path.Some? && storage.Stored? ==> profileImageUrl == Some(storage.downloadUrl)
      ensures path.Some? && storage.Stored? ==>
        var uid := currentUser.value.uid;
        var present := old(db.Get(UsersCollection, uid)).Some?;
        if present && writeFailure.None? then
          errorMessage == old(errorMessage) &&
          db.collections == Put(old(db.collections), UsersCollection, uid,
                                old(db.Get(UsersCollection, uid)).value + map["profileImagePath" := Str(storage.downloadUrl)])
        else
          db.collections == old(db.collections) &&
          errorMessage == Some("Error updating profile image URL: " + (if present then writeFailure.value.description else notFound.description))
    {
      path := None;
      match load {
        case NotSelected =>
        case NoData =>
        case LoadFailed(e) =>
          errorMessage := Some("Error uploading image: " + e.description);
        case Loaded =>
          var uid := Uid(currentUser);
          if uid.None? {
            return;
          }
          path := Some(ProfileImagePath(uid.value));
          match storage {
            case StorageFailed(e) =>
              errorMessage := Some("Error uploading image: " + e.description);
            case Stored(url) =>
              profileImageUrl := Some(url);
              UpdateProfileImageUrlInFirestore(url, currentUser, db, notFound, writeFailure);
          }
      }
    }
  }
}
