/**
 * The DID document record: its fields, the operations that change one field
 * each, and which members its JSON serialisation writes.
 *
 * The operations that take the document by value (`init`, `supply_metadata`,
 * `init_timestamps`) are functions on `DocumentValue`; the ones that take it
 * by `&mut` (`update_*`, `clear_*`, `update_time`) are methods of the class
 * `DIDDocument`, specified by the functions on `DocumentValue` named after
 * them. The current time is a parameter.
 */
module Document {
  import opened Wrappers
  import KeySerialize

  /** A service entry; its inner structure is not part of this model. */
  datatype Service = Service(json: string)

  /** An authentication entry; its inner structure is not part of this model. */
  datatype Authentication = Authentication(json: string)

  /** The error type of the fallible constructors; neither of them ever fails. */
  datatype DocError = DocError(message: string)

  /** The fields of a DID document. */
  datatype DocumentValue = DocumentValue(
    context: seq<string>,
    id: string,
    created: Option<string>,
    updated: Option<string>,
    publicKey: seq<KeySerialize.PublicKey>,
    auth: seq<Authentication>,
    services: seq<Service>,
    metadata: map<string, string>)

  /** Names for the eight fields, so that "every other field is unchanged" can be said once. */
  datatype DocField = ContextField | IdField | CreatedField | UpdatedField
                    | PublicKeyField | AuthField | ServicesField | MetadataField

  predicate Agree(a: DocumentValue, b: DocumentValue, f: DocField) {
    match f
    case ContextField => a.context == b.context
    case IdField => a.id == b.id
    case CreatedField => a.created == b.created
    case UpdatedField => a.updated == b.updated
    case PublicKeyField => a.publicKey == b.publicKey
    case AuthField => a.auth == b.auth
    case ServicesField => a.services == b.services
    case MetadataField => a.metadata == b.metadata
  }

  /** `a` and `b` agree on every field outside `changed`. */
  predicate SameExcept(a: DocumentValue, b: DocumentValue, changed: set<DocField>) {
    forall f :: f !in changed ==> Agree(a, b, f)
  }

  lemma SameExceptNothing(a: DocumentValue, b: DocumentValue)
    requires SameExcept(a, b, {})
    ensures a == b
  {
    assert Agree(a, b, ContextField) && Agree(a, b, IdField) && Agree(a, b, CreatedField)
        && Agree(a, b, UpdatedField) && Agree(a, b, PublicKeyField) && Agree(a, b, AuthField)
        && Agree(a, b, ServicesField) && Agree(a, b, MetadataField);
  }

  // ---------------------------------------------------------------------------
  // By-value operations
  // ---------------------------------------------------------------------------

  /** `DIDDocument::init`: rebuilds the document field by field. */
  function Init(d: DocumentValue): (r: DocumentValue)
    ensures r == d
  {
    DocumentValue(d.context, d.id, d.created, d.updated, d.publicKey, d.auth, d.services, d.metadata)
  }

  /** `DIDDocument::supply_metadata`. */
  function SupplyMetadata(d: DocumentValue, metadata: map<string, string>): (r: Result<DocumentValue, DocError>)
    ensures r.Ok?
    ensures r.value.metadata == metadata
    ensures SameExcept(d, r.value, {MetadataField})
  {
    Ok(Init(d.(metadata := metadata)))
  }

  /** `DIDDocument::init_timestamps`; the two readings of the clock are parameters. */
  function InitTimestamps(d: DocumentValue, createdNow: string, updatedNow: string): (r: Result<DocumentValue, DocError>)
    ensures r.Ok?
    ensures r.value.created == Some(createdNow) && r.value.updated == Some(updatedNow)
    ensures SameExcept(d, r.value, {CreatedField, UpdatedField})
  {
    Ok(Init(d.(created := Some(createdNow), updated := Some(updatedNow))))
  }

  // ---------------------------------------------------------------------------
  // The effect of the in-place operations, as functions of the old value
  // ---------------------------------------------------------------------------

  function PushService(d: DocumentValue, s: Service): (r: DocumentValue)
    ensures |r.services| == |d.services| + 1 && r.services[..|d.services|] == d.services
    ensures r.services[|d.services|] == s
    ensures SameExcept(d, r, {ServicesField})
  {
    d.(services := d.services + [s])
  }

  function ServicesCleared(d: DocumentValue): (r: DocumentValue)
    ensures r.services == []
    ensures SameExcept(d, r, {ServicesField})
  {
    d.(services := [])
  }

  function PushPublicKey(d: DocumentValue, k: KeySerialize.PublicKey): (r: DocumentValue)
    ensures |r.publicKey| == |d.publicKey| + 1 && r.publicKey[..|d.publicKey|] == d.publicKey
    ensures r.publicKey[|d.publicKey|] == k
    ensures SameExcept(d, r, {PublicKeyField})
  {
    d.(publicKey := d.publicKey + [k])
  }

  function PublicKeysCleared(d: DocumentValue): (r: DocumentValue)
    ensures r.publicKey == []
    ensures SameExcept(d, r, {PublicKeyField})
  {
    d.(publicKey := [])
  }

  function PushAuth(d: DocumentValue, a: Authentication): (r: DocumentValue)
    ensures |r.auth| == |d.auth| + 1 && r.auth[..|d.auth|] == d.auth
    ensures r.auth[|d.auth|] == a
    ensures SameExcept(d, r, {AuthField})
  {
    d.(auth := d.auth + [a])
  }

  function AuthCleared(d: DocumentValue): (r: DocumentValue)
    ensures r.auth == []
    ensures SameExcept(d, r, {AuthField})
  {
    d.(auth := [])
  }

  function StampUpdated(d: DocumentValue, now: string): (r: DocumentValue)
    ensures r.updated == Some(now)
    ensures SameExcept(d, r, {UpdatedField})
  {
    d.(updated := Some(now))
  }

  /** Clearing a list twice is clearing it once. */
  lemma ClearIdempotent(d: DocumentValue)
    ensures ServicesCleared(ServicesCleared(d)) == ServicesCleared(d)
    ensures PublicKeysCleared(PublicKeysCleared(d)) == PublicKeysCleared(d)
    ensures AuthCleared(AuthCleared(d)) == AuthCleared(d)
  {
  }

  // ---------------------------------------------------------------------------
  // The document as a mutable object
  // ---------------------------------------------------------------------------

  class DIDDocument {
    var context: seq<string>
    var id: string
    var created: Option<string>
    var updated: Option<string>
    var publicKey: seq<KeySerialize.PublicKey>
    var auth: seq<Authentication>
    var services: seq<Service>
    var metadata: map<string, string>

    /** The document's current fields as a value. */
    function Snapshot(): DocumentValue
      reads this
    {
      DocumentValue(context, id, created, updated, publicKey, auth, services, metadata)
    }

    constructor (d: DocumentValue)
      ensures Snapshot() == d
    {
      context, id, created, updated := d.context, d.id, d.created, d.updated;
      publicKey, auth, services, metadata := d.publicKey, d.auth, d.services, d.metadata;
    }

    /** `update_service`: appends one service. */
    method UpdateService(s: Service)
      modifies this
      ensures Snapshot() == PushService(old(Snapshot()), s)
    {
      services := services + [s];
    }

    /** `clear_services`. */
    method ClearServices()
      modifies this
      ensures Snapshot() == ServicesCleared(old(Snapshot()))
    {
      services := [];
    }

    /** `update_public_key`: appends one public key. */
    method UpdatePublicKey(k: KeySerialize.PublicKey)
      modifies this
      ensures Snapshot() == PushPublicKey(old(Snapshot()), k)
    {
      publicKey := publicKey + [k];
    }

    /** `clear_public_keys`. */
    method ClearPublicKeys()
      modifies this
      ensures Snapshot() == PublicKeysCleared(old(Snapshot()))
    {
      publicKey := [];
    }

    /** `update_auth`: appends one authentication entry. */
    method UpdateAuth(a: Authentication)
      modifies this
      ensures Snapshot() == PushAuth(old(Snapshot()), a)
    {
      auth := auth + [a];
    }

    /** `clear_auth`. */
    method ClearAuth()
      modifies this
      ensures Snapshot() == AuthCleared(old(Snapshot()))
    {
      auth := [];
    }

    /** `update_time`: `now` is the current time as text. */
    method UpdateTime(now: string)
      modifies this
      ensures Snapshot() == StampUpdated(old(Snapshot()), now)
    {
      updated := Some(now);
    }
  }

  // ---------------------------------------------------------------------------
  // Serialisation
  // ---------------------------------------------------------------------------

  /** The document's own JSON members. */
  datatype Member = ContextMember | IdMember | CreatedMember | UpdatedMember
                  | PublicKeyMember | AuthMember | ServicesMember

  /** The JSON name of each member, after serde's renames. */
  function MemberName(m: Member): string {
    match m
    case ContextMember => "@context"
    case IdMember => "id"
    case CreatedMember => "created"
    case UpdatedMember => "updated"
    case PublicKeyMember => "publicKey"
    case AuthMember => "authentication"
    case ServicesMember => "services"
  }

  function OptionalMember(present: bool, m: Member): seq<Member> {
    if present then [m] else []
  }

  /** The document's own members that the JSON serialiser writes, in declaration
      order; the entries of `metadata` are flattened in beside them. */
  function SerializedMembers(d: DocumentValue): (ms: seq<Member>)
    ensures |ms| >= 2 && ms[0] == ContextMember && ms[1] == IdMember
    ensures CreatedMember in ms <==> d.created.Some?
    ensures UpdatedMember in ms <==> d.updated.Some?
    ensures PublicKeyMember in ms <==> d.publicKey != []
    ensures AuthMember in ms <==> d.auth != []
    ensures ServicesMember in ms <==> d.services != []
  {
    [ContextMember, IdMember]
    + OptionalMember(d.created.Some?, CreatedMember)
    + OptionalMember(d.updated.Some?, UpdatedMember)
    + OptionalMember(d.publicKey != [], PublicKeyMember)
    + OptionalMember(d.auth != [], AuthMember)
    + OptionalMember(d.services != [], ServicesMember)
  }

  /** All member names of the serialised document: its own and the flattened metadata keys. */
  function SerializedNames(d: DocumentValue): (names: set<string>)
    ensures "@context" in names && "id" in names
    ensures forall k :: k in d.metadata ==> k in names
  {
    var ms := SerializedMembers(d);
    assert MemberName(ms[0]) == "@context" && MemberName(ms[1]) == "id";
    (set m | m in ms :: MemberName(m)) + d.metadata.Keys
  }

  /** After `init_timestamps` both timestamps are written, and after a clear the
      cleared list is not. */
  lemma SerializationAfterUpdates(d: DocumentValue, t1: string, t2: string)
    ensures var ms := SerializedMembers(InitTimestamps(d, t1, t2).value);
      CreatedMember in ms && UpdatedMember in ms
    ensures ServicesMember !in SerializedMembers(ServicesCleared(d))
    ensures PublicKeyMember !in SerializedMembers(PublicKeysCleared(d))
    ensures AuthMember !in SerializedMembers(AuthCleared(d))
    ensures forall s :: ServicesMember in SerializedMembers(PushService(d, s))
  {
  }
}
