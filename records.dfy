/**
 * The app's records and how they are read from and written to documents.
 * A record decodes only when every field it declares is present with the
 * right type; other fields of the document are ignored, and the optional
 * `id` is taken from the document id, never from the fields.
 */
module Records {
  import opened Wrappers
  import opened Backend

  datatype Complaint = Complaint(id: Option<string>, subject: string, message: string, userId: string)

  datatype UserProfile = UserProfile(id: Option<string>, photo: string, name: string, email: string, contactNumber: string)

  datatype Vendor = Vendor(id: string, name: string, role: string, phone: string)

  datatype Message = Message(id: Option<string>, recipient: string, content: string, timestamp: int)

  /** The fields `addDocument(from:)` writes for a complaint; the id is never written. */
  function EncodeComplaint(c: Complaint): (r: Fields)
    ensures r.Keys == {"subject", "message", "userId"}
  {
    map["subject" := Str(c.subject), "message" := Str(c.message), "userId" := Str(c.userId)]
  }

  /** `document.data(as: Complaint.self)` */
  function DecodeComplaint(d: Document): (r: Option<Complaint>)
    ensures r.Some? <==>
      StringField(d.data, "subject").Some? && StringField(d.data, "message").Some? && StringField(d.data, "userId").Some?
    ensures r.Some? ==> r.value.id == Some(d.id) && d.data["userId"] == Str(r.value.userId)
  {
    match (StringField(d.data, "subject"), StringField(d.data, "message"), StringField(d.data, "userId"))
    case (Some(subject), Some(message), Some(userId)) => Some(Complaint(Some(d.id), subject, message, userId))
    case _ => None
  }

  /** A complaint written and read back is the same complaint, now carrying its document id. */
  lemma ComplaintRoundTrip(c: Complaint, id: string)
    ensures DecodeComplaint(Document(id, EncodeComplaint(c))) == Some(c.(id := Some(id)))
  {
  }

  /** The fields `setData(from:)` writes for a profile; the id is never written. */
  function EncodeProfile(p: UserProfile): (r: Fields)
    ensures r.Keys == {"name", "email", "contactNumber", "photo"}
  {
    map["name" := Str(p.name), "email" := Str(p.email), "contactNumber" := Str(p.contactNumber), "photo" := Str(p.photo)]
  }

  /** `document.data(as: UserProfile.self)` */
  function DecodeProfile(d: Document): (r: Option<UserProfile>)
    ensures r.Some? <==>
      StringField(d.data, "photo").Some? && StringField(d.data, "name").Some? &&
      StringField(d.data, "email").Some? && StringField(d.data, "contactNumber").Some?
    ensures r.Some? ==> r.value.id == Some(d.id)
  {
    match (StringField(d.data, "photo"), StringField(d.data, "name"), StringField(d.data, "email"), StringField(d.data, "contactNumber"))
    case (Some(photo), Some(name), Some(email), Some(contact)) => Some(UserProfile(Some(d.id), photo, name, email, contact))
    case _ => None
  }

  /** Setting a field a profile does not declare (such as `profileImagePath`) leaves its decoding unchanged. */
  lemma ProfileIgnoresOtherFields(d: Document, key: string, v: Value)
    requires key != "photo" && key != "name" && key != "email" && key != "contactNumber"
    ensures DecodeProfile(Document(d.id, d.data[key := v])) == DecodeProfile(d)
  {
  }

  lemma ProfileRoundTrip(p: UserProfile, id: string)
    ensures DecodeProfile(Document(id, EncodeProfile(p))) == Some(p.(id := Some(id)))
  {
  }

  /** The fields `saveVendorToFirestore` writes, with the owner's uid. */
  function VendorFields(v: Vendor, ownerId: string): (r: Fields)
    ensures r.Keys == {"name", "role", "phone", "userId"} && r["userId"] == Str(ownerId)
  {
    map["name" := Str(v.name), "role" := Str(v.role), "phone" := Str(v.phone), "userId" := Str(ownerId)]
  }

  /** The `compactMap` closure of `fetchVendors`. */
  function DecodeVendor(d: Document): (r: Option<Vendor>)
    ensures r.Some? <==>
      StringField(d.data, "name").Some? && StringField(d.data, "role").Some? && StringField(d.data, "phone").Some?
    ensures r.Some? ==> r.value.id == d.id
  {
    match (StringField(d.data, "name"), StringField(d.data, "role"), StringField(d.data, "phone"))
    case (Some(name), Some(role), Some(phone)) => Some(Vendor(d.id, name, role, phone))
    case _ => None
  }

  /** A vendor saved under its own id reads back unchanged. */
  lemma VendorRoundTrip(v: Vendor, ownerId: string)
    ensures DecodeVendor(Document(v.id, VendorFields(v, ownerId))) == Some(v)
  {
  }

  /** `document.data(as: Message.self)`; no code of the app reads messages back. */
  function DecodeMessage(d: Document): (r: Option<Message>)
    ensures r.Some? ==> "content" in d.data && r.value.id == Some(d.id)
  {
    if StringField(d.data, "recipient").Some? && StringField(d.data, "content").Some?
       && "timestamp" in d.data && d.data["timestamp"].Time?
    then Some(Message(Some(d.id), d.data["recipient"].s, d.data["content"].s, d.data["timestamp"].seconds))
    else None
  }
}
