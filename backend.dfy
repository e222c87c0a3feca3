/**
 * The services the app talks to, reduced to the state the app can observe:
 * the document store (collection -> document id -> field map), the signed-in
 * user as the authentication service reports it, and the key-value
 * preferences store. Whether a remote call succeeds is not decided here: each
 * call takes the outcome as a parameter.
 */
module Backend {
  import opened Wrappers

  /** A field value, of the kinds the app writes or reads. */
  datatype Value = Str(s: string) | Flag(b: bool) | Time(seconds: int)

  type Fields = map<string, Value>

  /** A document as a snapshot delivers it: its id and its fields. */
  datatype Document = Document(id: string, data: Fields)

  /** An error as the app sees it: only its description is ever used. */
  datatype Error = Error(description: string)

  /** The authenticated user: its uid, e-mail and photo URL, the last two optional. */
  datatype User = User(uid: string, email: Option<string>, photoUrl: Option<string>)

  type Store = map<string, map<string, Fields>>

  const UsersCollection := "users"
  const ComplaintsCollection := "TenancyComplaints"
  const VendorsCollection := "vendors"
  const MessagesCollection := "messages"

  /** `data[key] as? String` */
  function StringField(data: Fields, key: string): (r: Option<string>)
    ensures r.Some? ==> key in data && data[key] == Str(r.value)
    ensures r.None? ==> key !in data || !data[key].Str?
  {
    if key in data && data[key].Str? then Some(data[key].s) else None
  }

  /** The `uid` of the signed-in user, if any (`Auth.auth().currentUser?.uid`). */
  function Uid(currentUser: Option<User>): (r: Option<string>)
    ensures r.Some? <==> currentUser.Some?
    ensures r.Some? ==> r.value == currentUser.value.uid
  {
    match currentUser
    case Some(u) => Some(u.uid)
    case None => None
  }

  /** `error?.localizedDescription ?? fallback`: the text an alert shows for a failed call. */
  function ErrorText(error: Option<Error>, fallback: string): string {
    match error
    case Some(e) => e.description
    case None => fallback
  }

  /** The document `id` of `collection`, if it exists. */
  function Lookup(store: Store, collection: string, id: string): Option<Fields> {
    if collection in store && id in store[collection] then Some(store[collection][id]) else None
  }

  /** The store after `collection/id` is set to `data`. */
  function Put(store: Store, collection: string, id: string, data: Fields): (r: Store)
    ensures Lookup(r, collection, id) == Some(data)
    ensures forall c, d :: (c != collection || d != id) ==> Lookup(r, c, d) == Lookup(store, c, d)
  {
    var docs := if collection in store then store[collection] else map[];
    store[collection := docs[id := data]]
  }

  /** The document store. */
  class Firestore {
    var collections: Store

    constructor (initial: Store)
      ensures collections == initial
    {
      collections := initial;
    }

    function Get(collection: string, id: string): Option<Fields>
      reads this
    {
      Lookup(collections, collection, id)
    }

    /** `setData`: replaces the whole document unless the write fails. */
    method SetData(collection: string, id: string, data: Fields, failure: Option<Error>)
      returns (error: Option<Error>)
      modifies this
      ensures error == failure
      ensures collections == if failure.None? then Put(old(collections), collection, id, data) else old(collections)
    {
      error := failure;
      if failure.None? {
        collections := Put(collections, collection, id, data);
      }
    }

    /** `addDocument`: stores `data` under the id the store generates, here `newId`. */
    method AddDocument(collection: string, newId: string, data: Fields, failure: Option<Error>)
      returns (error: Option<Error>)
      modifies this
      ensures error == failure
      ensures collections == if failure.None? then Put(old(collections), collection, newId, data) else old(collections)
    {
      error := SetData(collection, newId, data, failure);
    }

    /**
     * `updateData`: overwrites the named fields and keeps the others. It fails
     * with `notFound`, the error the service reports, on a missing document,
     * and with `failure` when the write itself fails.
     */
    method UpdateData(collection: string, id: string, partial: Fields, notFound: Error, failure: Option<Error>)
      returns (error: Option<Error>)
      modifies this
      ensures old(Get(collection, id)).None? ==> error == Some(notFound) && collections == old(collections)
      ensures old(Get(collection, id)).Some? ==> error == failure
      ensures old(Get(collection, id)).Some? && failure.None? ==>
        collections == Put(old(collections), collection, id, old(Get(collection, id)).value + partial)
      ensures failure.Some? ==> collections == old(collections)
    {
      var current := Get(collection, id);
      if current.None? {
        error := Some(notFound);
      } else {
        error := SetData(collection, id, current.value + partial, failure);
      }
    }
  }

  /** A preference value: the app stores strings and one boolean. */
  datatype Pref = PrefString(s: string) | PrefBool(b: bool)

  type Prefs = map<string, Pref>

  /** `set(value, forKey:)`, where setting nil removes the key. */
  function SetOptional(prefs: Prefs, key: string, value: Option<Pref>): (r: Prefs)
    ensures value.Some? ==> key in r && r[key] == value.value
    ensures value.None? ==> key !in r
    ensures forall k :: k != key ==> (k in r <==> k in prefs) && (k in r ==> r[k] == prefs[k])
  {
    match value
    case Some(v) => prefs[key := v]
    case None => prefs - {key}
  }

  /** `string(forKey:)`: a string as stored, a number as its decimal text, otherwise nil. */
  function StringFor(prefs: Prefs, key: string): Option<string> {
    if key !in prefs then None
    else match prefs[key]
      case PrefString(s) => Some(s)
      case PrefBool(b) => Some(if b then "1" else "0")
  }

  /** The preferences store (`UserDefaults.standard`). */
  class UserDefaults {
    var values: Prefs

    constructor (initial: Prefs)
      ensures values == initial
    {
      values := initial;
    }

    method Set(key: string, value: Option<Pref>)
      modifies this
      ensures values == SetOptional(old(values), key, value)
    {
      values := SetOptional(values, key, value);
    }

    method RemoveObject(key: string)
      modifies this
      ensures values == old(values) - {key}
    {
      values := values - {key};
    }
  }
}
