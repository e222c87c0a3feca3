/**
 * The vendor screen: the vendor list it shows, the listener that refreshes
 * it from the signed-in user's vendor documents, and the add-vendor form.
 */
module ContactVendorScreen {
  import opened Wrappers
  import opened Backend
  import opened Records
  import opened Snapshots

  const NotSignedIn := "You are not signed in."

  /** The vendor the list starts with. */
  const InitialVendor := Vendor("1", "Clement Joseph", "Painter", "1234567890")

  /** The vendors a snapshot yields: those whose name, role and phone are strings, in order. */
  function DecodeVendors(docs: seq<Document>): (r: seq<Vendor>)
    ensures |r| <= |docs|
  {
    CompactMap(docs, DecodeVendor)
  }

  /** Every listed vendor comes from a document of the snapshot, under that document's id. */
  lemma DecodedVendorsComeFromSnapshot(docs: seq<Document>, k: nat)
    requires k < |DecodeVendors(docs)|
    ensures exists i :: 0 <= i < |docs| && DecodeVendor(docs[i]) == Some(DecodeVendors(docs)[k])
  {
    CompactMapSource(docs, DecodeVendor, k);
  }

  /** Every document that decodes shows up in the list. */
  lemma DecodableVendorListed(docs: seq<Document>, i: nat)
    requires i < |docs| && DecodeVendor(docs[i]).Some?
    ensures DecodeVendor(docs[i]).value in DecodeVendors(docs)
  {
    CompactMapKeeps(docs, DecodeVendor, i);
  }

  /** A vendor saved by this screen, and delivered back, reads as the same vendor. */
  lemma SavedVendorListed(before: seq<Document>, v: Vendor, ownerId: string, after: seq<Document>)
    ensures v in DecodeVendors(before + [Document(v.id, VendorFields(v, ownerId))] + after)
  {
    var docs := before + [Document(v.id, VendorFields(v, ownerId))] + after;
    VendorRoundTrip(v, ownerId);
    assert docs[|before|] == Document(v.id, VendorFields(v, ownerId));
    CompactMapKeeps(docs, DecodeVendor, |before|);
  }

  class ContactVendorView {
    var errorMessage: Option<string>
    var vendors: seq<Vendor>
    var isAddingVendor: bool
    /** The vendor listeners installed so far, each for the owner uid it filters on. */
    var listeners: seq<string>

    constructor ()
      ensures errorMessage.None? && vendors == [InitialVendor] && !isAddingVendor && listeners == []
    {
      errorMessage, vendors, isAddingVendor, listeners := None, [InitialVendor], false, [];
    }

    /** The Add New Vendor button: toggles whether the add-vendor sheet is shown. */
    method ToggleAddingVendor()
      modifies this`isAddingVendor
      ensures isAddingVendor == !old(isAddingVendor)
    {
      isAddingVendor := !isAddingVendor;
    }

    /** `fetchVendors`: without a signed-in user it reports that and installs nothing. */
    method FetchVendors(currentUser: Option<User>)
      modifies this`errorMessage, this`listeners
      ensures currentUser.None? ==> errorMessage == Some(NotSignedIn) && listeners == old(listeners)
      ensures currentUser.Some? ==>
        errorMessage == old(errorMessage) && listeners == old(listeners) + [currentUser.value.uid]
    {
      var uid := Uid(currentUser);
      if uid.None? {
        errorMessage := Some(NotSignedIn);
        return;
      }
      listeners := listeners + [uid.value];
    }

    /**
     * The vendor listener's callback. An error is reported and the list kept;
     * otherwise the list becomes what the snapshot decodes to (nothing for a
     * missing snapshot) and the error is cleared.
     */
    method ReceiveVendors(error: Option<Error>, snapshot: Option<seq<Document>>)
      modifies this`errorMessage, this`vendors
      ensures error.Some? ==>
        errorMessage == Some("Failed to load contacts: " + error.value.description) && vendors == old(vendors)
      ensures error.None? ==>
        errorMessage.None? && vendors == (if snapshot.Some? then DecodeVendors(snapshot.value) else [])
    {
      if error.Some? {
        errorMessage := Some("Failed to load contacts: " + error.value.description);
      } else {
        vendors := if snapshot.Some? then DecodeVendors(snapshot.value) else [];
        errorMessage := None;
      }
    }

    /** `saveVendorToFirestore`: the vendor under its own id, tagged with the owner's uid. */
    method SaveVendorToFirestore(vendor: Vendor, currentUser: Option<User>, db: Firestore, failure: Option<Error>)
      modifies db
      ensures currentUser.None? || failure.Some? ==> db.collections == old(db.collections)
      ensures currentUser.Some? && failure.None? ==>
        db.collections == Put(old(db.collections), VendorsCollection, vendor.id, VendorFields(vendor, currentUser.value.uid))
    {
      var uid := Uid(currentUser);
      if uid.None? {
        return;
      }
      var _ := db.SetData(VendorsCollection, vendor.id, VendorFields(vendor, uid.value), failure);
    }

    /** `addNewVendor`: appends the vendor under a fresh id and saves it. */
    method AddNewVendor(name: string, role: string, phone: string, newId: string,
                        currentUser: Option<User>, db: Firestore, failure: Option<Error>)
      modifies this`vendors, db
      ensures vendors == old(vendors) + [Vendor(newId, name, role, phone)]
      ensures currentUser.None? || failure.Some? ==> db.collections == old(db.collections)
      ensures currentUser.Some? && failure.None? ==>
        db.collections == Put(old(db.collections), VendorsCollection, newId,
                              VendorFields(Vendor(newId, name, role, phone), currentUser.value.uid))
    {
      var newVendor := Vendor(newId, name, role, phone);
      vendors := vendors + [newVendor];
      SaveVendorToFirestore(newVendor, currentUser, db, failure);
    }
  }

  /**
   * The add-vendor sheet. Its `isPresented` binding and its `onAddVendor`
   * callback both belong to the vendor screen that shows it, `host`.
   */
  class AddVendorForm {
    const host: ContactVendorView
    var name: string
    var role: string
    var phone: string

    constructor (host: ContactVendorView)
      ensures this.host == host && name == "" && role == "" && phone == ""
    {
      this.host := host;
      name, role, phone := "", "", "";
    }

    /** Cancel: closes the sheet through the binding. */
    method Cancel()
      modifies host`isAddingVendor
      ensures !host.isAddingVendor
    {
      host.isAddingVendor := false;
    }

    /** Save: adds the vendor and closes the host's sheet only when no field is empty. */
    method Save(newId: string, currentUser: Option<User>, db: Firestore, failure: Option<Error>)
      modifies host`isAddingVendor, host`vendors, db
      ensures name == "" || role == "" || phone == "" ==>
        host.isAddingVendor == old(host.isAddingVendor) && host.vendors == old(host.vendors) &&
        db.collections == old(db.collections)
      ensures name != "" && role != "" && phone != "" ==>
        !host.isAddingVendor && host.vendors == old(host.vendors) + [Vendor(newId, name, role, phone)]
      ensures name != "" && role != "" && phone != "" && (currentUser.None? || failure.Some?) ==>
        db.collections == old(db.collections)
      ensures name != "" && role != "" && phone != "" && currentUser.Some? && failure.None? ==>
        db.collections == Put(old(db.collections), VendorsCollection, newId,
                              VendorFields(Vendor(newId, name, role, phone), currentUser.value.uid))
    {
      if name != "" && role != "" && phone != "" {
        host.AddNewVendor(name, role, phone, newId, currentUser, db, failure);
        host.isAddingVendor := false;
      }
    }
  }
}
