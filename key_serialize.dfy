/**
 * The (de)serialisation of a DID verification method, in the older `publicKey`
 * representation of W3C Decentralized Identifiers v1.0 (section 5.2,
 * Verification Methods).
 *
 * A JSON object is modelled as the sequence of its `(name, value)` entries in
 * the order a map visitor sees them; every value that matters here is a JSON
 * string. `KeyEncodingType::from_str` and `PublicKeyTypes::from_str` are not
 * part of this model and are passed in as `Parsers`.
 */
module KeySerialize {
  import opened Wrappers

  /** How the key material of a verification method is encoded. */
  datatype KeyEncodingType =
    | Unknown | Pem | Jwk | Hex | Base64 | Base58 | Multibase | EthereumAddress | IotaAddress

  /** The verification-method type; nine named suites and a free-form custom name. */
  datatype PublicKeyTypes =
    | Ed25519VerificationKey2018
    | RsaVerificationKey2018
    | EcdsaSecp256k1VerificationKey2019
    | JsonWebKey2020
    | GpgVerificationKey2020
    | X25519KeyAgreementKey2019
    | EcdsaSecp256k1RecoveryMethod2020
    | SchnorrSecp256k1VerificationKey2019
    | UnknownKey
    | CustomKey(custom: string)

  /** A public key; a `reference` key stands for the key whose id it carries. */
  datatype PublicKey = PublicKey(
    id: string,
    keyType: PublicKeyTypes,
    controller: string,
    encodingType: KeyEncodingType,
    keyData: string,
    reference: bool)

  /** What a JSON member name is, for the public-key visitor. */
  datatype Field = Subject | Type | Controller | Key(encoding: KeyEncodingType)

  /** The deserialisation errors the visitors raise. */
  datatype DeError = DuplicateField(field: string) | MissingField(field: string) | UnknownField(field: string)

  /** One member of a JSON object. */
  datatype Entry = Entry(name: string, value: string)

  /** The parsers this module relies on but does not define. A key-type string
      that `PublicKeyTypes::from_str` rejects makes the source panic, so the
      key-type parser is total here. */
  datatype Parsers = Parsers(encoding: string -> Option<KeyEncodingType>, keyType: string -> PublicKeyTypes)

  // ---------------------------------------------------------------------------
  // Serialisation
  // ---------------------------------------------------------------------------

  /** What serde is handed for a key type: a unit variant (index and name) or a plain string. */
  datatype Token = UnitVariant(variantIndex: nat, variant: string) | Str(s: string)

  /** The variant names of the named key types, by variant index. */
  const KeyTypeNames: seq<string> := [
    "Ed25519VerificationKey2018",
    "RsaVerificationKey2018",
    "EcdsaSecp256k1VerificationKey2019",
    "JsonWebKey2020",
    "GpgVerificationKey2020",
    "X25519KeyAgreementKey2019",
    "EcdsaSecp256k1RecoveryMethod2020",
    "SchnorrSecp256k1VerificationKey2019",
    "UnknownKey"
  ]

  /** `Serialize for PublicKeyTypes`. */
  function SerializeKeyType(t: PublicKeyTypes): (tok: Token)
    ensures t.CustomKey? <==> tok.Str?
    ensures t.CustomKey? ==> tok == Str(t.custom)
    ensures tok.UnitVariant? ==> tok.variantIndex < |KeyTypeNames| && tok.variant == KeyTypeNames[tok.variantIndex]
  {
    match t
    case Ed25519VerificationKey2018 => UnitVariant(0, "Ed25519VerificationKey2018")
    case RsaVerificationKey2018 => UnitVariant(1, "RsaVerificationKey2018")
    case EcdsaSecp256k1VerificationKey2019 => UnitVariant(2, "EcdsaSecp256k1VerificationKey2019")
    case JsonWebKey2020 => UnitVariant(3, "JsonWebKey2020")
    case GpgVerificationKey2020 => UnitVariant(4, "GpgVerificationKey2020")
    case X25519KeyAgreementKey2019 => UnitVariant(5, "X25519KeyAgreementKey2019")
    case EcdsaSecp256k1RecoveryMethod2020 => UnitVariant(6, "EcdsaSecp256k1RecoveryMethod2020")
    case SchnorrSecp256k1VerificationKey2019 => UnitVariant(7, "SchnorrSecp256k1VerificationKey2019")
    case UnknownKey => UnitVariant(8, "UnknownKey")
    case CustomKey(s) => Str(s)
  }

  /** Distinct key types serialise to distinct tokens. */
  lemma SerializeKeyTypeInjective(a: PublicKeyTypes, b: PublicKeyTypes)
    requires SerializeKeyType(a) == SerializeKeyType(b)
    ensures a == b
  {
  }

  /** The JSON string a token becomes: a unit variant is written as its name. */
  function TokenText(tok: Token): string {
    match tok
    case UnitVariant(_, name) => name
    case Str(s) => s
  }

  /** Once written as text, a custom key named like a named variant cannot be told
      apart from it; this is why the round trip below asks the key-type parser to
      give back the key's own type. */
  lemma CustomKeyTextCollides()
    ensures TokenText(SerializeKeyType(CustomKey("UnknownKey"))) == TokenText(SerializeKeyType(UnknownKey))
    ensures CustomKey("UnknownKey") != UnknownKey
  {
  }

  predicate IsFixedName(name: string) {
    name == "id" || name == "type" || name == "controller"
  }

  /** The member name that carries key material of a given encoding. */
  function EncodingFieldName(e: KeyEncodingType): (name: string)
    ensures !IsFixedName(name)
  {
    match e
    case Unknown => "publicKeyUnknown"
    case Pem => "publicKeyPem"
    case Jwk => "publicKeyJwk"
    case Hex => "publicKeyHex"
    case Base64 => "publicKeyBase64"
    case Base58 => "publicKeyBase58"
    case Multibase => "publicKeyMultibase"
    case EthereumAddress => "ethereumAddress"
    case IotaAddress => "iotaAddress"
  }

  /** Every encoding has a member name of its own. */
  lemma EncodingFieldNameInjective(a: KeyEncodingType, b: KeyEncodingType)
    requires a != b
    ensures EncodingFieldName(a) != EncodingFieldName(b)
  {
  }

  /** What a serialiser receives for a public key: a bare string or an object. */
  datatype Serialized = Bare(text: string) | Struct(fields: seq<Entry>)

  function EntryNames(fields: seq<Entry>): seq<string> {
    seq(|fields|, i requires 0 <= i < |fields| => fields[i].name)
  }

  /** `Serialize for PublicKey`. */
  function SerializePublicKey(k: PublicKey): (out: Serialized)
    ensures k.reference <==> out.Bare?
    ensures k.reference ==> out.text == k.id
    ensures !k.reference ==> EntryNames(out.fields) == ["id", "type", "controller", EncodingFieldName(k.encodingType)]
  {
    if k.reference then
      Bare(k.id)
    else
      Struct([
        Entry("id", k.id),
        Entry("type", TokenText(SerializeKeyType(k.keyType))),
        Entry("controller", k.controller),
        Entry(EncodingFieldName(k.encodingType), k.keyData)
      ])
  }

  // ---------------------------------------------------------------------------
  // Deserialisation: the specification of `PublicKeyVisitor::visit_map`
  // ---------------------------------------------------------------------------

  /** `FieldVisitor::visit_str`. */
  function ClassifyField(name: string, parseEncoding: string -> Option<KeyEncodingType>): (r: Result<Field, DeError>)
    ensures (r.Ok? && r.value.Subject?) <==> name == "id"
    ensures (r.Ok? && r.value.Type?) <==> name == "type"
    ensures (r.Ok? && r.value.Controller?) <==> name == "controller"
    ensures (r.Ok? && r.value.Key?) <==> !IsFixedName(name) && parseEncoding(name).Some?
    ensures r.Ok? && r.value.Key? ==> r.value.encoding == parseEncoding(name).value
    ensures r.Err? ==> r.error == UnknownField(name)
  {
    if name == "id" then Ok(Subject)
    else if name == "type" then Ok(Type)
    else if name == "controller" then Ok(Controller)
    else match parseEncoding(name)
      case Some(encoding) => Ok(Key(encoding))
      case None => Err(UnknownField(name))
  }

  /** The five accumulators of the visitor. */
  datatype Acc = Acc(
    id: Option<string>,
    keyType: Option<PublicKeyTypes>,
    controller: Option<string>,
    encodingType: Option<KeyEncodingType>,
    keyData: Option<string>)

  const Empty: Acc := Acc(None, None, None, None, None)

  /** The visitor's treatment of one classified member. */
  function Absorb(acc: Acc, f: Field, value: string, p: Parsers): Result<Acc, DeError> {
    match f
    case Subject =>
      if acc.id.Some? then Err(DuplicateField("id")) else Ok(acc.(id := Some(value)))
    case Type =>
      if acc.keyType.Some? then Err(DuplicateField("type")) else Ok(acc.(keyType := Some(p.keyType(value))))
    case Controller =>
      if acc.controller.Some? then Err(DuplicateField("controller")) else Ok(acc.(controller := Some(value)))
    case Key(encoding) =>
      if acc.keyData.Some? then Err(DuplicateField("key data"))
      else Ok(acc.(encodingType := Some(encoding), keyData := Some(value)))
  }

  function Step(acc: Acc, e: Entry, p: Parsers): Result<Acc, DeError> {
    match ClassifyField(e.name, p.encoding)
    case Err(err) => Err(err)
    case Ok(f) => Absorb(acc, f, e.value, p)
  }

  /** The loop of the visitor, from accumulators `acc`, over `entries`. */
  function Fold(acc: Acc, entries: seq<Entry>, p: Parsers): Result<Acc, DeError>
    decreases |entries|
  {
    if entries == [] then Ok(acc)
    else match Step(acc, entries[0], p)
      case Err(err) => Err(err)
      case Ok(next) => Fold(next, entries[1..], p)
  }

  /** The missing-field checks after the loop, in the visitor's order. */
  function Finish(acc: Acc): (r: Result<PublicKey, DeError>)
    ensures r.Ok? <==> acc.id.Some? && acc.keyType.Some? && acc.controller.Some? && acc.encodingType.Some? && acc.keyData.Some?
    ensures r.Ok? ==> !r.value.reference
  {
    if acc.id.None? then Err(MissingField("id"))
    else if acc.keyType.None? then Err(MissingField("type"))
    else if acc.controller.None? then Err(MissingField("controller"))
    else if acc.encodingType.None? then Err(MissingField("key data"))
    else if acc.keyData.None? then Err(MissingField("key data"))
    else Ok(PublicKey(acc.id.value, acc.keyType.value, acc.controller.value,
                      acc.encodingType.value, acc.keyData.value, false))
  }

  /** What `PublicKeyVisitor::visit_map` returns for an object with these members. */
  function Deserialize(entries: seq<Entry>, p: Parsers): Result<PublicKey, DeError> {
    match Fold(Empty, entries, p)
    case Err(err) => Err(err)
    case Ok(acc) => Finish(acc)
  }

  /** `PublicKeyVisitor::visit_map`: a loop over the members that updates five
      optional accumulators and returns early on the first error. */
  method VisitMap(entries: seq<Entry>, p: Parsers) returns (r: Result<PublicKey, DeError>)
    ensures r == Deserialize(entries, p)
  {
    var id: Option<string> := None;
    var keyType: Option<PublicKeyTypes> := None;
    var controller: Option<string> := None;
    var encodingType: Option<KeyEncodingType> := None;
    var keyData: Option<string> := None;
    var i := 0;
    while i < |entries|
      invariant 0 <= i <= |entries|
      invariant Fold(Empty, entries, p) == Fold(Acc(id, keyType, controller, encodingType, keyData), entries[i..], p)
    {
      assert entries[i..][0] == entries[i] && entries[i..][1..] == entries[i + 1..];
      var e := entries[i];
      match ClassifyField(e.name, p.encoding) {
        case Err(err) =>
          return Err(err);
        case Ok(f) =>
          match f {
            case Subject =>
              if id.Some? {
                return Err(DuplicateField("id"));
              }
              id := Some(e.value);
            case Type =>
              if keyType.Some? {
                return Err(DuplicateField("type"));
              }
              keyType := Some(p.keyType(e.value));
            case Controller =>
              if controller.Some? {
                return Err(DuplicateField("controller"));
              }
              controller := Some(e.value);
            case Key(encoding) =>
              if keyData.Some? {
                return Err(DuplicateField("key data"));
              }
              encodingType := Some(encoding);
              keyData := Some(e.value);
          }
      }
      i := i + 1;
    }
    if id.None? {
      return Err(MissingField("id"));
    }
    if keyType.None? {
      return Err(MissingField("type"));
    }
    if controller.None? {
      return Err(MissingField("controller"));
    }
    if encodingType.None? {
      return Err(MissingField("key data"));
    }
    if keyData.None? {
      return Err(MissingField("key data"));
    }
    r := Ok(PublicKey(id.value, keyType.value, controller.value, encodingType.value, keyData.value, false));
  }

  // ---------------------------------------------------------------------------
  // Properties of deserialisation
  // ---------------------------------------------------------------------------

  /** The four slots of a public key; every key-material member fills the same slot. */
  datatype Slot = IdSlot | TypeSlot | ControllerSlot | KeyDataSlot

  function SlotOf(f: Field): Slot {
    match f
    case Subject => IdSlot
    case Type => TypeSlot
    case Controller => ControllerSlot
    case Key(_) => KeyDataSlot
  }

  /** The name the visitor reports for a slot in its errors. */
  function SlotName(s: Slot): string {
    match s
    case IdSlot => "id"
    case TypeSlot => "type"
    case ControllerSlot => "controller"
    case KeyDataSlot => "key data"
  }

  /** The order in which the visitor checks for missing slots. */
  function Rank(s: Slot): nat {
    match s
    case IdSlot => 0
    case TypeSlot => 1
    case ControllerSlot => 2
    case KeyDataSlot => 3
  }

  predicate Filled(acc: Acc, s: Slot) {
    match s
    case IdSlot => acc.id.Some?
    case TypeSlot => acc.keyType.Some?
    case ControllerSlot => acc.controller.Some?
    case KeyDataSlot => acc.keyData.Some?
  }

  /** The encoding and the key data are always set together. */
  predicate Coherent(acc: Acc) {
    acc.encodingType.Some? <==> acc.keyData.Some?
  }

  function Bit(b: bool): nat {
    if b then 1 else 0
  }

  /** Whether a member name is a known field that fills slot `s`. */
  function Hits(e: Entry, p: Parsers, s: Slot): nat {
    match ClassifyField(e.name, p.encoding)
    case Ok(f) => Bit(SlotOf(f) == s)
    case Err(_) => 0
  }

  /** How many members fill slot `s`. */
  function Occurrences(entries: seq<Entry>, p: Parsers, s: Slot): nat
    decreases |entries|
  {
    if entries == [] then 0 else Hits(entries[0], p, s) + Occurrences(entries[1..], p, s)
  }

  /** Every member name is a known field. */
  predicate AllKnown(entries: seq<Entry>, p: Parsers) {
    forall i :: 0 <= i < |entries| ==> ClassifyField(entries[i].name, p.encoding).Ok?
  }

  lemma AllKnownCons(entries: seq<Entry>, p: Parsers)
    requires entries != []
    ensures AllKnown(entries, p) <==>
      ClassifyField(entries[0].name, p.encoding).Ok? && AllKnown(entries[1..], p)
  {
    if ClassifyField(entries[0].name, p.encoding).Ok? && AllKnown(entries[1..], p) {
      forall i | 0 < i < |entries|
        ensures ClassifyField(entries[i].name, p.encoding).Ok?
      {
        assert entries[i] == entries[1..][i - 1];
      }
    }
  }

  /** The loop succeeds exactly when every member is known and no slot is filled
      twice, counting what the accumulators held at the start; when it succeeds,
      the slots filled afterwards are those filled before or named by a member. */
  lemma {:induction false} FoldOutcome(acc: Acc, entries: seq<Entry>, p: Parsers)
    requires Coherent(acc)
    ensures Fold(acc, entries, p).Ok? <==>
      AllKnown(entries, p) && forall s :: Bit(Filled(acc, s)) + Occurrences(entries, p, s) <= 1
    ensures Fold(acc, entries, p).Ok? ==> Coherent(Fold(acc, entries, p).value)
    ensures Fold(acc, entries, p).Ok? ==>
      forall s :: Filled(Fold(acc, entries, p).value, s) <==> Filled(acc, s) || Occurrences(entries, p, s) > 0
    decreases |entries|
  {
    if entries != [] {
      var e, rest := entries[0], entries[1..];
      AllKnownCons(entries, p);
      match ClassifyField(e.name, p.encoding)
      case Err(_) =>
      case Ok(f) =>
        var t := SlotOf(f);
        assert Occurrences(entries, p, t) == 1 + Occurrences(rest, p, t);
        if !Filled(acc, t) {
          var next := Absorb(acc, f, e.value, p).value;
          assert Step(acc, e, p) == Ok(next);
          assert forall s :: Filled(next, s) <==> Filled(acc, s) || s == t;
          assert forall s :: Occurrences(entries, p, s) == Bit(s == t) + Occurrences(rest, p, s);
          FoldOutcome(next, rest, p);
        }
    }
  }

  /** Deserialisation succeeds exactly when every member name is known and each
      of the four slots is named exactly once. */
  lemma DeserializeSucceedsIff(entries: seq<Entry>, p: Parsers)
    ensures Deserialize(entries, p).Ok? <==>
      AllKnown(entries, p) && forall s :: Occurrences(entries, p, s) == 1
  {
    FoldOutcome(Empty, entries, p);
    assert forall s :: !Filled(Empty, s);
    if Fold(Empty, entries, p).Ok? {
      var acc := Fold(Empty, entries, p).value;
      assert Filled(acc, IdSlot) && Filled(acc, TypeSlot) && Filled(acc, ControllerSlot) && Filled(acc, KeyDataSlot)
        <==> forall s :: Filled(acc, s);
    }
  }

  /** Two members that fill the same slot make deserialisation fail. */
  lemma {:induction false} TwoHitsCount(entries: seq<Entry>, p: Parsers, s: Slot, i: nat, j: nat)
    requires i < j < |entries|
    requires Hits(entries[i], p, s) == 1 && Hits(entries[j], p, s) == 1
    ensures Occurrences(entries, p, s) >= 2
    decreases |entries|
  {
    if i == 0 {
      OneHitCounts(entries[1..], p, s, j - 1);
    } else {
      TwoHitsCount(entries[1..], p, s, i - 1, j - 1);
    }
  }

  lemma {:induction false} OneHitCounts(entries: seq<Entry>, p: Parsers, s: Slot, j: nat)
    requires j < |entries|
    requires Hits(entries[j], p, s) == 1
    ensures Occurrences(entries, p, s) >= 1
    decreases |entries|
  {
    if j > 0 {
      OneHitCounts(entries[1..], p, s, j - 1);
    }
  }

  /** A second `id`, `type` or `controller`, or a second key-material member of
      any encoding, makes deserialisation fail. */
  lemma DuplicateSlotRejected(entries: seq<Entry>, p: Parsers, i: nat, j: nat)
    requires i < j < |entries|
    requires ClassifyField(entries[i].name, p.encoding).Ok?
    requires ClassifyField(entries[j].name, p.encoding).Ok?
    requires SlotOf(ClassifyField(entries[i].name, p.encoding).value) == SlotOf(ClassifyField(entries[j].name, p.encoding).value)
    ensures Deserialize(entries, p).Err?
  {
    var s := SlotOf(ClassifyField(entries[i].name, p.encoding).value);
    TwoHitsCount(entries, p, s, i, j);
    DeserializeSucceedsIff(entries, p);
  }

  /** Running the loop over `a + b` is running it over `a`, then over `b`. */
  lemma {:induction false} FoldAppend(acc: Acc, a: seq<Entry>, b: seq<Entry>, p: Parsers)
    ensures Fold(acc, a + b, p) ==
      match Fold(acc, a, p)
      case Err(err) => Err(err)
      case Ok(mid) => Fold(mid, b, p)
    decreases |a|
  {
    if a == [] {
      assert a + b == b;
    } else {
      assert (a + b)[0] == a[0] && (a + b)[1..] == a[1..] + b;
      match Step(acc, a[0], p)
      case Err(_) =>
      case Ok(next) => FoldAppend(next, a[1..], b, p);
    }
  }

  /** The error reported for the first member that fills an already-filled slot
      names that slot. */
  lemma DuplicateFieldReported(entries: seq<Entry>, p: Parsers, j: nat)
    requires j < |entries|
    requires Fold(Empty, entries[..j], p).Ok?
    requires ClassifyField(entries[j].name, p.encoding).Ok?
    requires Occurrences(entries[..j], p, SlotOf(ClassifyField(entries[j].name, p.encoding).value)) > 0
    ensures Deserialize(entries, p) == Err(DuplicateField(SlotName(SlotOf(ClassifyField(entries[j].name, p.encoding).value))))
  {
    var f := ClassifyField(entries[j].name, p.encoding).value;
    FoldOutcome(Empty, entries[..j], p);
    var mid := Fold(Empty, entries[..j], p).value;
    assert Filled(mid, SlotOf(f));
    assert entries == entries[..j] + entries[j..];
    FoldAppend(Empty, entries[..j], entries[j..], p);
    assert entries[j..][0] == entries[j];
    assert Step(mid, entries[j], p) == Err(DuplicateField(SlotName(SlotOf(f))));
  }

  /** When every member is known and no slot is named twice, the first slot (in
      the order id, type, controller, key data) that is never named is reported
      missing. */
  lemma MissingFieldReported(entries: seq<Entry>, p: Parsers, s: Slot)
    requires AllKnown(entries, p)
    requires forall t :: Occurrences(entries, p, t) <= 1
    requires Occurrences(entries, p, s) == 0
    requires forall t :: Rank(t) < Rank(s) ==> Occurrences(entries, p, t) == 1
    ensures Deserialize(entries, p) == Err(MissingField(SlotName(s)))
  {
    FoldOutcome(Empty, entries, p);
    assert forall t :: !Filled(Empty, t);
    var acc := Fold(Empty, entries, p).value;
    assert !Filled(acc, s);
    assert forall t :: Rank(t) < Rank(s) ==> Filled(acc, t);
    match s
    case IdSlot =>
    case TypeSlot => assert Filled(acc, IdSlot);
    case ControllerSlot => assert Filled(acc, IdSlot) && Filled(acc, TypeSlot);
    case KeyDataSlot => assert Filled(acc, IdSlot) && Filled(acc, TypeSlot) && Filled(acc, ControllerSlot);
  }

  /** Every filled accumulator either held that value at the start or took it
      from a member of `entries`. */
  ghost predicate FromEntries(result: Acc, start: Acc, entries: seq<Entry>, p: Parsers) {
    && (result.id == start.id
        || exists i :: 0 <= i < |entries| && entries[i].name == "id" && result.id == Some(entries[i].value))
    && (result.keyType == start.keyType
        || exists i :: 0 <= i < |entries| && entries[i].name == "type" && result.keyType == Some(p.keyType(entries[i].value)))
    && (result.controller == start.controller
        || exists i :: 0 <= i < |entries| && entries[i].name == "controller" && result.controller == Some(entries[i].value))
    && ((result.encodingType == start.encodingType && result.keyData == start.keyData)
        || exists i :: 0 <= i < |entries| && result.encodingType.Some?
             && ClassifyField(entries[i].name, p.encoding) == Ok(Key(result.encodingType.value))
             && result.keyData == Some(entries[i].value))
  }

  lemma {:induction false} FoldSources(acc: Acc, entries: seq<Entry>, p: Parsers)
    requires Fold(acc, entries, p).Ok?
    ensures FromEntries(Fold(acc, entries, p).value, acc, entries, p)
    decreases |entries|
  {
    if entries != [] {
      var e, rest := entries[0], entries[1..];
      var next := Step(acc, e, p).value;
      var result := Fold(acc, entries, p).value;
      FoldSources(next, rest, p);
      assert FromEntries(result, next, rest, p);
      forall i | 0 <= i < |rest| ensures rest[i] == entries[i + 1] { }
      var f := ClassifyField(e.name, p.encoding).value;
      if result.id != acc.id && result.id == next.id {
        assert entries[0].name == "id" && result.id == Some(entries[0].value);
      }
      if result.keyType != acc.keyType && result.keyType == next.keyType {
        assert entries[0].name == "type" && result.keyType == Some(p.keyType(entries[0].value));
      }
      if result.controller != acc.controller && result.controller == next.controller {
        assert entries[0].name == "controller" && result.controller == Some(entries[0].value);
      }
      if !(result.encodingType == acc.encodingType && result.keyData == acc.keyData)
         && result.encodingType == next.encodingType && result.keyData == next.keyData {
        assert f.Key?;
        assert ClassifyField(entries[0].name, p.encoding) == Ok(Key(result.encodingType.value));
      }
    }
  }

  /** A successfully deserialised key is never a reference, and each of its
      fields comes from a member of the object: `id` and `controller` verbatim,
      `type` through the key-type parser, and the encoding together with the key
      data from one key-material member. */
  lemma DeserializedFromMembers(entries: seq<Entry>, p: Parsers, k: PublicKey)
    requires Deserialize(entries, p) == Ok(k)
    ensures !k.reference
    ensures exists i :: 0 <= i < |entries| && entries[i].name == "id" && entries[i].value == k.id
    ensures exists i :: 0 <= i < |entries| && entries[i].name == "type" && p.keyType(entries[i].value) == k.keyType
    ensures exists i :: 0 <= i < |entries| && entries[i].name == "controller" && entries[i].value == k.controller
    ensures exists i :: (0 <= i < |entries|
      && ClassifyField(entries[i].name, p.encoding) == Ok(Key(k.encodingType)) && entries[i].value == k.keyData)
  {
    FoldSources(Empty, entries, p);
  }

  /** Deserialising the serialisation of a non-reference key gives the key back,
      provided the two parsers invert what the serialiser writes for it. */
  lemma RoundTrip(k: PublicKey, p: Parsers)
    requires !k.reference
    requires p.encoding(EncodingFieldName(k.encodingType)) == Some(k.encodingType)
    requires p.keyType(TokenText(SerializeKeyType(k.keyType))) == k.keyType
    ensures Deserialize(SerializePublicKey(k).fields, p) == Ok(k)
  {
    var fields := SerializePublicKey(k).fields;
    var a1 := Empty.(id := Some(k.id));
    var a2 := a1.(keyType := Some(k.keyType));
    var a3 := a2.(controller := Some(k.controller));
    var a4 := a3.(encodingType := Some(k.encodingType), keyData := Some(k.keyData));
    assert Step(Empty, fields[0], p) == Ok(a1);
    assert Step(a1, fields[1], p) == Ok(a2);
    assert Step(a2, fields[2], p) == Ok(a3);
    assert Step(a3, fields[3], p) == Ok(a4);
    assert Fold(a3, fields[3..], p) == Fold(a4, [], p) == Ok(a4);
    assert Fold(a2, fields[2..], p) == Fold(a3, fields[3..], p);
    assert Fold(a1, fields[1..], p) == Fold(a2, fields[2..], p);
    assert Fold(Empty, fields, p) == Fold(a1, fields[1..], p);
  }

  /** A key-encoding parser that reads exactly the nine member names the
      serialiser writes. */
  function StandardEncoding(name: string): (r: Option<KeyEncodingType>)
    ensures r.Some? ==> EncodingFieldName(r.value) == name
  {
    if name == "publicKeyUnknown" then Some(Unknown)
    else if name == "publicKeyPem" then Some(Pem)
    else if name == "publicKeyJwk" then Some(Jwk)
    else if name == "publicKeyHex" then Some(Hex)
    else if name == "publicKeyBase64" then Some(Base64)
    else if name == "publicKeyBase58" then Some(Base58)
    else if name == "publicKeyMultibase" then Some(Multibase)
    else if name == "ethereumAddress" then Some(EthereumAddress)
    else if name == "iotaAddress" then Some(IotaAddress)
    else None
  }

  /** The standard encoding parser inverts the serialiser's member names, which
      is the first hypothesis of the round trip. */
  lemma StandardEncodingInverts(e: KeyEncodingType)
    ensures StandardEncoding(EncodingFieldName(e)) == Some(e)
  {
    match e
    case Unknown =>
    case Pem =>
    case Jwk =>
    case Hex =>
    case Base64 =>
    case Base58 =>
    case Multibase =>
    case EthereumAddress =>
    case IotaAddress =>
  }
}
