/**
 * The database helper (`FireDBHelper`): the complaint list and the profile
 * it publishes, and the listeners it installs. A listener's callback is the
 * method `ReceiveComplaints`, given the error and the snapshot the store
 * delivers; which documents a query matches is the store's business.
 */
module FireDB {
  import opened Wrappers
  import opened Backend
  import opened Records
  import opened Snapshots

  /** A complaint listener: for one owner's complaints, or for all of them. */
  datatype ComplaintQuery = UserComplaints(uid: string) | AllComplaints

  /** Decode every document of a snapshot, dropping those that do not decode. */
  function DecodeComplaints(docs: seq<Document>): (r: seq<Complaint>)
    ensures |r| <= |docs|
  {
    CompactMap(docs, DecodeComplaint)
  }

  /** One malformed document among valid ones is dropped; the others are all kept. */
  lemma MalformedComplaintDropped(before: seq<Document>, bad: Document, after: seq<Document>)
    requires DecodeComplaint(bad).None?
    ensures DecodeComplaints(before + [bad] + after) == DecodeComplaints(before + after)
  {
    CompactMapDropsFailure(before, bad, after, DecodeComplaint);
  }

  /** A snapshot whose documents all decode yields one complaint per document, in order. */
  lemma AllValidComplaintsKept(docs: seq<Document>)
    requires forall i :: 0 <= i < |docs| ==> DecodeComplaint(docs[i]).Some?
    ensures |DecodeComplaints(docs)| == |docs|
    ensures forall i :: 0 <= i < |docs| ==> DecodeComplaints(docs)[i] == DecodeComplaint(docs[i]).value
  {
    CompactMapAllPresent(docs, DecodeComplaint);
  }

  /**
   * Decoding keeps the owner field: when the store delivers only documents
   * owned by `uid`, every complaint in the list belongs to `uid`.
   */
  lemma DecodedComplaintsKeepOwner(docs: seq<Document>, uid: string)
    requires forall i :: 0 <= i < |docs| ==> "userId" in docs[i].data && docs[i].data["userId"] == Str(uid)
    ensures forall c :: c in DecodeComplaints(docs) ==> c.userId == uid
  {
    forall c | c in DecodeComplaints(docs)
      ensures c.userId == uid
    {
      var k :| 0 <= k < |DecodeComplaints(docs)| && DecodeComplaints(docs)[k] == c;
      CompactMapSource(docs, DecodeComplaint, k);
    }
  }

  class FireDBHelper {
    var complaintList: seq<Complaint>
    var userProfile: Option<UserProfile>
    /** The complaint listeners installed so far, oldest first. */
    var listeners: seq<ComplaintQuery>

    constructor ()
      ensures complaintList == [] && userProfile.None? && listeners == []
    {
      complaintList, userProfile, listeners := [], None, [];
    }

    /** `isUserLoggedIn` */
    function IsUserLoggedIn(currentUser: Option<User>): (r: bool)
      ensures r <==> currentUser.Some?
    {
      Uid(currentUser).Some?
    }

    /** `insertComplaint`: the write's outcome is only logged. */
    method InsertComplaint(c: Complaint, db: Firestore, newId: string, failure: Option<Error>)
      modifies db
      ensures db.collections ==
        if failure.None? then Put(old(db.collections), ComplaintsCollection, newId, EncodeComplaint(c)) else old(db.collections)
    {
      var _ := db.AddDocument(ComplaintsCollection, newId, EncodeComplaint(c), failure);
    }

    /** `getUserComplaints`: without a signed-in user nothing is installed. */
    method GetUserComplaints(currentUser: Option<User>)
      modifies this`listeners
      ensures listeners == old(listeners) + (if currentUser.Some? then [UserComplaints(currentUser.value.uid)] else [])
    {
      var uid := Uid(currentUser);
      if uid.None? {
        return;
      }
      listeners := listeners + [UserComplaints(uid.value)];
    }

    /** `getAllComplaints`: one listener over the whole collection. */
    method GetAllComplaints()
      modifies this`listeners
      ensures listeners == old(listeners) + [AllComplaints]
    {
      listeners := listeners + [AllComplaints];
    }

    /**
     * A complaint listener's callback. An error or a missing snapshot leaves
     * the list as it was; a snapshot replaces it with what decodes.
     */
    method ReceiveComplaints(error: Option<Error>, snapshot: Option<seq<Document>>)
      modifies this`complaintList
      ensures complaintList ==
        if error.None? && snapshot.Some? then DecodeComplaints(snapshot.value) else old(complaintList)
    {
      if error.Some? {
        return;
      }
      if snapshot.None? {
        return;
      }
      complaintList := DecodeComplaints(snapshot.value);
    }

    /**
     * `getUserProfile`: reads `users/uid`. A read error, a missing document or
     * one that does not decode leaves `userProfile` as it was.
     */
    method GetUserProfile(currentUser: Option<User>, db: Firestore, readError: Option<Error>)
      modifies this`userProfile
      ensures currentUser.None? || readError.Some? ==> userProfile == old(userProfile)
      ensures currentUser.Some? && readError.None? ==>
        var doc := db.Get(UsersCollection, currentUser.value.uid);
        userProfile ==
          if doc.Some? && DecodeProfile(Document(currentUser.value.uid, doc.value)).Some?
          then DecodeProfile(Document(currentUser.value.uid, doc.value))
          else old(userProfile)
    {
      var uid := Uid(currentUser);
      if uid.None? {
        return;
      }
      if readError.Some? {
        return;
      }
      var doc := db.Get(UsersCollection, uid.value);
      if doc.Some? {
        var decoded := DecodeProfile(Document(uid.value, doc.value));
        if decoded.Some? {
          userProfile := decoded;
        }
      }
    }

    /** `updateUserProfile`: writes only the signed-in user's own document. */
    method UpdateUserProfile(profileToUpdate: UserProfile, currentUser: Option<User>, db: Firestore, failure: Option<Error>)
      modifies db
      ensures currentUser.None? || failure.Some? ==> db.collections == old(db.collections)
      ensures currentUser.Some? && failure.None? ==>
        db.collections == Put(old(db.collections), UsersCollection, currentUser.value.uid, EncodeProfile(profileToUpdate))
    {
      var uid := Uid(currentUser);
      if uid.None? {
        return;
      }
      var _ := db.SetData(UsersCollection, uid.value, EncodeProfile(profileToUpdate), failure);
    }
  }

  /** The static `shared` slot behind `getInstance`. */
  class FireDBHelperSingleton {
    var shared: FireDBHelper?

    constructor ()
      ensures shared == null
    {
      shared := null;
    }

    method GetInstance() returns (h: FireDBHelper)
      modifies this
      ensures shared == h
      ensures old(shared) != null ==> h == old(shared)
      ensures old(shared) == null ==> fresh(h) && h.complaintList == [] && h.userProfile.None? && h.listeners == []
    {
      if shared == null {
        shared := new FireDBHelper();
      }
      h := shared;
    }
  }
}
