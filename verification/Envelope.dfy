/** A2A envelopes: building, signing, verifying, and the texts they travel as. */
module Envelopes {
  import opened Wrappers
  import opened Canonical

  const PROTOCOL_NAME := "a2hmarket-a2a"
  const SCHEMA_VERSION := "1.0.0"
  const DEFAULT_TOLERANCE_MS := 5 * 60 * 1000

  /** Library functions the protocol uses and says nothing about: SHA-256 and HMAC in hex,
      timestamp parsing to Unix milliseconds, and float64 decoding followed by printing. */
  datatype Library = Library(
    sha: string -> string,
    hmac: (string, string) -> string,
    timeOf: string -> Option<int>,
    norm: NumLit -> NumLit)

  /** A nil payload map is None. */
  datatype Envelope = Envelope(
    protocol: string, schemaVersion: string, messageType: string, messageId: string, traceId: string,
    senderId: string, targetId: string, timestamp: string, nonce: string,
    payload: Option<map<string, Json>>, payloadHash: string, signature: string)

  datatype Field =
    | Protocol | SchemaVersion | MessageType | MessageId | TraceId | SenderId | TargetId
    | Timestamp | Nonce | Payload | PayloadHash | Signature

  /** The JSON name of each struct field. */
  function Key(f: Field): string {
    match f
    case Protocol => "protocol"
    case SchemaVersion => "schema_version"
    case MessageType => "message_type"
    case MessageId => "message_id"
    case TraceId => "trace_id"
    case SenderId => "sender_id"
    case TargetId => "target_id"
    case Timestamp => "timestamp"
    case Nonce => "nonce"
    case Payload => "payload"
    case PayloadHash => "payload_hash"
    case Signature => "signature"
  }

  const DECLARATION_ORDER: seq<Field> := [
    Protocol, SchemaVersion, MessageType, MessageId, TraceId, SenderId, TargetId,
    Timestamp, Nonce, Payload, PayloadHash, Signature]

  function FieldOrder(): (keys: seq<string>)
    ensures |keys| == 12 && forall i :: 0 <= i < 12 ==> keys[i] == Key(DECLARATION_ORDER[i])
  {
    seq(12, i requires 0 <= i < 12 => Key(DECLARATION_ORDER[i]))
  }

  function PayloadJson(e: Envelope): Json {
    if e.payload.Some? then Obj(e.payload.value) else Null
  }

  /** The payload as canonicalize sees it: a nil map prints like an empty one. */
  function PayloadMap(e: Envelope): Json {
    Body(e.payload)
  }

  function Value(e: Envelope, f: Field): Json {
    match f
    case Protocol => Str(e.protocol)
    case SchemaVersion => Str(e.schemaVersion)
    case MessageType => Str(e.messageType)
    case MessageId => Str(e.messageId)
    case TraceId => Str(e.traceId)
    case SenderId => Str(e.senderId)
    case TargetId => Str(e.targetId)
    case Timestamp => Str(e.timestamp)
    case Nonce => Str(e.nonce)
    case Payload => PayloadJson(e)
    case PayloadHash => Str(e.payloadHash)
    case Signature => Str(e.signature)
  }

  lemma {:induction false} KeysDistinct(f: Field, g: Field)
    ensures Key(f) == Key(g) <==> f == g
  {
    if f != g && |Key(f)| == |Key(g)| {
      assert Key(f)[0] != Key(g)[0] || Key(f)[1] != Key(g)[1];
    }
  }

  ghost predicate IsKey(k: string) {
    exists f :: Key(f) == k
  }

  ghost function FieldOf(k: string): (f: Field)
    requires IsKey(k)
    ensures Key(f) == k
  {
    var f :| Key(f) == k;
    f
  }

  /** The struct as a JSON object. */
  ghost function ToJson(e: Envelope): (v: Json)
    ensures v.Obj?
  {
    var keys := FieldOrder();
    Obj(map k | k in keys && IsKey(k) :: Value(e, FieldOf(k)))
  }

  /** fields holds e's value under every field name but those in except. */
  ghost predicate Holds(fields: map<string, Json>, e: Envelope, except: set<Field>) {
    forall f: Field :: f !in except ==> Key(f) in fields && fields[Key(f)] == Value(e, f)
  }

  ghost predicate OnlyKeys(fields: map<string, Json>) {
    forall k :: k in fields ==> IsKey(k)
  }

  lemma {:induction false} FieldIsListed(f: Field)
    ensures f in DECLARATION_ORDER
  {
    match f {
      case Protocol => assert DECLARATION_ORDER[0] == f;
      case SchemaVersion => assert DECLARATION_ORDER[1] == f;
      case MessageType => assert DECLARATION_ORDER[2] == f;
      case MessageId => assert DECLARATION_ORDER[3] == f;
      case TraceId => assert DECLARATION_ORDER[4] == f;
      case SenderId => assert DECLARATION_ORDER[5] == f;
      case TargetId => assert DECLARATION_ORDER[6] == f;
      case Timestamp => assert DECLARATION_ORDER[7] == f;
      case Nonce => assert DECLARATION_ORDER[8] == f;
      case Payload => assert DECLARATION_ORDER[9] == f;
      case PayloadHash => assert DECLARATION_ORDER[10] == f;
      case Signature => assert DECLARATION_ORDER[11] == f;
    }
  }

  lemma {:induction false} JsonHolds(e: Envelope)
    ensures Holds(ToJson(e).fields, e, {}) && OnlyKeys(ToJson(e).fields)
  {
    forall f: Field ensures Key(f) in ToJson(e).fields && ToJson(e).fields[Key(f)] == Value(e, f) {
      FieldIsListed(f);
      var i :| 0 <= i < 12 && DECLARATION_ORDER[i] == f;
      assert FieldOrder()[i] == Key(f);
      KeysDistinct(f, FieldOf(Key(f)));
    }
  }

  lemma {:induction false} SameContents(f: map<string, Json>, g: map<string, Json>, e: Envelope)
    requires Holds(f, e, {}) && OnlyKeys(f) && Holds(g, e, {}) && OnlyKeys(g)
    ensures f == g
  {
    forall k | k in f || k in g ensures k in f && k in g && f[k] == g[k] {
      var field :| Key(field) == k;
    }
  }

  lemma {:induction false} HeldFieldsDecode(fields: map<string, Json>, e: Envelope)
    requires Holds(fields, e, {})
    ensures FromJson(Obj(fields)) == Some(e)
  {
    hide Key;
    forall f: Field ensures Decodes(fields, f) {}
    assert Decoded(fields) == e;
  }

  /** What is read into a struct field: what stands under its name, or, if that is null or missing, the
      field's zero value. */
  function Stored(fields: map<string, Json>, f: Field): Json {
    if Key(f) in fields && fields[Key(f)] != Null then fields[Key(f)]
    else if f == Payload then Null
    else Str("")
  }

  lemma {:induction false} DecodedHolds(fields: map<string, Json>, f: Field)
    requires Decodes(fields, f)
    ensures Value(Decoded(fields), f) == Stored(fields, f)
  {
    hide Key;
  }

  lemma {:induction false} StoredDecodes(fields: map<string, Json>, e: Envelope, f: Field)
    requires Value(e, f) == Stored(fields, f)
    ensures Decodes(fields, f)
  {
    hide Key;
  }

  lemma {:induction false} SameValues(a: Envelope, b: Envelope)
    requires forall f: Field :: Value(a, f) == Value(b, f)
    ensures a == b
  {
    assert Value(a, Protocol) == Value(b, Protocol) && Value(a, SchemaVersion) == Value(b, SchemaVersion);
    assert Value(a, MessageType) == Value(b, MessageType) && Value(a, MessageId) == Value(b, MessageId);
    assert Value(a, TraceId) == Value(b, TraceId) && Value(a, SenderId) == Value(b, SenderId);
    assert Value(a, TargetId) == Value(b, TargetId) && Value(a, Timestamp) == Value(b, Timestamp);
    assert Value(a, Nonce) == Value(b, Nonce) && Value(a, PayloadHash) == Value(b, PayloadHash);
    assert Value(a, Payload) == Value(b, Payload) && Value(a, Signature) == Value(b, Signature);
  }

  /** An object is read as an envelope exactly when every field can hold what is stored under its name,
      and then it holds that. */
  lemma {:induction false} StructReadsIff(fields: map<string, Json>, e: Envelope)
    ensures FromJson(Obj(fields)) == Some(e) <==> forall f: Field :: Value(e, f) == Stored(fields, f)
  {
    hide Key, Value, Stored, Decoded, Decodes;
    if forall f: Field :: Decodes(fields, f) {
      forall f: Field ensures Value(Decoded(fields), f) == Stored(fields, f) {
        DecodedHolds(fields, f);
      }
    }
    if forall f: Field :: Value(e, f) == Stored(fields, f) {
      forall f: Field ensures Decodes(fields, f) {
        StoredDecodes(fields, e, f);
      }
      SameValues(Decoded(fields), e);
    }
  }

  lemma {:induction false} UnsignedFieldsHaveTypes(fields: map<string, Json>, e: Envelope)
    requires Holds(fields, e, {Signature}) && Key(Signature) !in fields
    ensures forall f: Field :: Decodes(fields, f)
  {
    hide Key;
    forall f: Field ensures Decodes(fields, f) {
      assert f != Signature ==> Key(f) in fields && fields[Key(f)] == Value(e, f);
    }
  }

  lemma {:induction false} UnsignedFieldsDecode(fields: map<string, Json>, e: Envelope)
    requires Holds(fields, e, {Signature}) && Key(Signature) !in fields
    ensures FromJson(Obj(fields)) == Some(e.(signature := ""))
  {
    hide Key, Decodes;
    UnsignedFieldsHaveTypes(fields, e);
    assert Decoded(fields) == e.(signature := "");
  }

  lemma {:induction false} DroppingSignature(fields: map<string, Json>, e: Envelope)
    requires Holds(fields, e, {})
    ensures Holds(fields - {Key(Signature)}, e, {Signature})
  {
    forall f: Field | f != Signature ensures Key(f) in fields - {Key(Signature)} && (fields - {Key(Signature)})[Key(f)] == Value(e, f) {
      KeysDistinct(f, Signature);
    }
  }

  /** json.Marshal of the struct: members in declaration order. */
  ghost function Marshal(e: Envelope): string {
    FieldOrderLists(e);
    PrintObject(ToJson(e), FieldOrder())
  }

  lemma {:induction false} FieldOrderLists(e: Envelope)
    ensures KeyListing(ToJson(e), FieldOrder())
  {
    forall k | k in FieldOrder() ensures IsKey(k) {
      var i :| 0 <= i < 12 && FieldOrder()[i] == k;
      assert Key(DECLARATION_ORDER[i]) == k;
    }
    forall i, j | 0 <= i < j < 12 ensures FieldOrder()[i] != FieldOrder()[j] {
      KeysDistinct(DECLARATION_ORDER[i], DECLARATION_ORDER[j]);
    }
  }

  /** Whether the field's value can be stored in the struct: a missing or null one leaves the
      zero value there, and one of another type is an error. */
  predicate Decodes(fields: map<string, Json>, f: Field) {
    Key(f) !in fields || fields[Key(f)].Null? || (if f.Payload? then fields[Key(f)].Obj? else fields[Key(f)].Str?)
  }

  function Text(fields: map<string, Json>, f: Field): string {
    if Key(f) in fields && fields[Key(f)].Str? then fields[Key(f)].s else ""
  }

  function Decoded(fields: map<string, Json>): Envelope {
    Envelope(
      Text(fields, Protocol), Text(fields, SchemaVersion), Text(fields, MessageType), Text(fields, MessageId),
      Text(fields, TraceId), Text(fields, SenderId), Text(fields, TargetId), Text(fields, Timestamp), Text(fields, Nonce),
      if Key(Payload) in fields && fields[Key(Payload)].Obj? then Some(fields[Key(Payload)].fields) else None,
      Text(fields, PayloadHash), Text(fields, Signature))
  }

  /** Decoding into the struct; null as a whole is the zero envelope. */
  function FromJson(v: Json): Option<Envelope> {
    if v.Null? then Some(Decoded(map[]))
    else if v.Obj? && forall f: Field :: Decodes(v.fields, f) then Some(Decoded(v.fields))
    else None
  }

  function ParseEnvelope(lib: Library, raw: string): Option<Envelope> {
    match Parse(raw, lib.norm)
    case Some(v) => FromJson(v)
    case None => None
  }

  /** The struct sent through JSON into a generic map, without its signature.
      The numbers inside it have been through float64. */
  ghost function EnvelopeAsMap(lib: Library, e: Envelope): map<string, Json> {
    match Parse(Marshal(e), lib.norm)
    case Some(Obj(fields)) => fields - {Key(Signature)}
    case _ => map[]
  }

  ghost function EnvelopeHmac(lib: Library, secret: string, e: Envelope): string {
    lib.hmac(secret, Canonicalize(Obj(EnvelopeAsMap(lib, e))))
  }

  /** The identifiers are random and the timestamp is the clock's, so they are inputs. */
  ghost function Build(lib: Library, senderId: string, targetId: string, messageType: string,
                       payload: Option<map<string, Json>>, messageId: string, traceId: string,
                       nonce: string, timestamp: string): Envelope {
    var body := Body(payload);
    Envelope(PROTOCOL_NAME, SCHEMA_VERSION, messageType, messageId, traceId, senderId, targetId, timestamp, nonce,
             Some(body.fields), lib.sha(Canonicalize(body)), "")
  }

  /** A nil payload is replaced by an empty one. */
  function Body(payload: Option<map<string, Json>>): (body: Json)
    ensures body.Obj?
  {
    if payload.Some? then Obj(payload.value) else Obj(map[])
  }

  ghost function Sign(lib: Library, key: string, e: Envelope): Envelope {
    var unsigned := e.(signature := "");
    unsigned.(signature := EnvelopeHmac(lib, key, unsigned))
  }

  datatype Verdict =
    | Accepted
    | ProtocolMismatch | SchemaMismatch | MissingFields | InvalidTimestamp | OutOfTolerance | HashMismatch | SignatureMismatch

  function Tolerance(toleranceMs: int): int {
    if toleranceMs <= 0 then DEFAULT_TOLERANCE_MS else toleranceMs
  }

  function Distance(a: int, b: int): int {
    if a < b then b - a else a - b
  }

  ghost function Verify(lib: Library, key: string, e: Envelope, toleranceMs: int, now: int): Verdict {
    if e.protocol != PROTOCOL_NAME then ProtocolMismatch
    else if e.schemaVersion != SCHEMA_VERSION then SchemaMismatch
    else if e.messageId == "" || e.senderId == "" || e.messageType == "" then MissingFields
    else if lib.timeOf(e.timestamp).None? then InvalidTimestamp
    else if Distance(now, lib.timeOf(e.timestamp).value) > Tolerance(toleranceMs) then OutOfTolerance
    else if lib.sha(Canonicalize(PayloadMap(e))) != e.payloadHash then HashMismatch
    else if EnvelopeHmac(lib, key, e.(signature := "")) != e.signature then SignatureMismatch
    else Accepted
  }

  // ------------------------------------------------------------------ transport

  /** The envelope a reader reconstructs: the same fields, with the payload's numbers settled. */
  ghost function Settled(lib: Library, e: Envelope): Envelope {
    if e.payload.None? then e else e.(payload := Some(Normalize(Obj(e.payload.value), lib.norm).fields))
  }

  lemma {:induction false} NormalizedHolds(lib: Library, fields: map<string, Json>, e: Envelope)
    requires Holds(fields, e, {}) && OnlyKeys(fields)
    ensures
      var normed := Normalize(Obj(fields), lib.norm).fields;
      Holds(normed, Settled(lib, e), {}) && OnlyKeys(normed)
  {
    forall f: Field ensures Normalize(Value(e, f), lib.norm) == Value(Settled(lib, e), f) {
      if f == Payload {
        assert Normalize(PayloadJson(e), lib.norm) == PayloadJson(Settled(lib, e));
      }
    }
  }

  lemma {:induction false} SettledJson(lib: Library, e: Envelope)
    ensures Normalize(ToJson(e), lib.norm) == ToJson(Settled(lib, e))
  {
    JsonHolds(e);
    JsonHolds(Settled(lib, e));
    NormalizedHolds(lib, ToJson(e).fields, e);
    SameContents(Normalize(ToJson(e), lib.norm).fields, ToJson(Settled(lib, e)).fields, Settled(lib, e));
  }

  lemma {:induction false} JsonReads(e: Envelope)
    ensures FromJson(ToJson(e)) == Some(e)
  {
    JsonHolds(e);
    HeldFieldsDecode(ToJson(e).fields, e);
  }

  lemma {:induction false} UnsignedJsonReads(e: Envelope)
    ensures FromJson(Obj(ToJson(e).fields - {Key(Signature)})) == Some(e.(signature := ""))
  {
    JsonHolds(e);
    DroppingSignature(ToJson(e).fields, e);
    UnsignedFieldsDecode(ToJson(e).fields - {Key(Signature)}, e);
  }

  /** Marshalling and parsing gives the settled envelope, by either reader. */
  lemma {:induction false} MarshalledReads(lib: Library, e: Envelope)
    ensures Parse(Marshal(e), lib.norm) == Some(ToJson(Settled(lib, e)))
    ensures ParseEnvelope(lib, Marshal(e)) == Some(Settled(lib, e))
    ensures EnvelopeAsMap(lib, e) == ToJson(Settled(lib, e)).fields - {Key(Signature)}
  {
    FieldOrderLists(e);
    ParseInvertsPrintObject(ToJson(e), FieldOrder(), lib.norm);
    SettledJson(lib, e);
    JsonReads(Settled(lib, e));
  }

  lemma {:induction false} SettledTwice(lib: Library, e: Envelope)
    requires Idempotent(lib.norm)
    ensures Settled(lib, Settled(lib, e)) == Settled(lib, e)
  {
    if e.payload.Some? {
      NormalizeSettles(Obj(e.payload.value), lib.norm);
    }
  }

  /** What the a2a_outbox row holds and the publisher sends: the struct is marshalled on enqueue,
      read into a generic map, marshalled from there with sorted keys, read into the struct again
      and marshalled once more on publish. */
  ghost function ThroughOutbox(lib: Library, e: Envelope): Option<string> {
    match Parse(Marshal(e), lib.norm)
    case Some(row) =>
      (match ParseEnvelope(lib, Canonicalize(row))
       case Some(reloaded) => Some(Marshal(reloaded))
       case None => None)
    case None => None
  }

  /** The detour through the outbox is invisible to the receiver. */
  lemma {:induction false} OutboxIsTransparent(lib: Library, e: Envelope)
    requires Idempotent(lib.norm)
    ensures ThroughOutbox(lib, e).Some?
    ensures ParseEnvelope(lib, ThroughOutbox(lib, e).value) == ParseEnvelope(lib, Marshal(e))
  {
    MarshalledReads(lib, e);
    var settled := Settled(lib, e);
    SettledTwice(lib, e);
    ParseInvertsCanonicalize(ToJson(settled), lib.norm);
    SettledJson(lib, settled);
    JsonReads(settled);
    MarshalledReads(lib, settled);
  }

  // --------------------------------------------------------------- main results

  predicate Near(time: int, now: int, tolerance: int) {
    now - tolerance <= time <= now + tolerance
  }

  /** SHA-256 told two texts apart. */
  ghost predicate Collides(lib: Library, a: string, b: string) {
    a != b && lib.sha(a) == lib.sha(b)
  }

  /** The envelope that arrives after build, sign, marshal and parse, or after the detour through
      the outbox, verifies exactly when its sender and type are present, the clock is in tolerance,
      and every number of the payload survives float64. */
  lemma {:induction false} SignedEnvelopeSurvivesTransport(
      lib: Library, key: string, senderId: string, targetId: string, messageType: string,
      payload: Option<map<string, Json>>, messageId: string, traceId: string, nonce: string, timestamp: string,
      toleranceMs: int, now: int)
    requires Idempotent(lib.norm) && messageId != ""
    requires !Collides(lib, Canonicalize(Body(payload)), Canonicalize(Normalize(Body(payload), lib.norm)))
    ensures
      var signed := Sign(lib, key, Build(lib, senderId, targetId, messageType, payload, messageId, traceId, nonce, timestamp));
      var arrived := ParseEnvelope(lib, Marshal(signed));
      var relayed := ThroughOutbox(lib, signed);
      arrived.Some? && relayed.Some? && ParseEnvelope(lib, relayed.value) == arrived &&
      (Verify(lib, key, arrived.value, toleranceMs, now) == Accepted <==>
        && senderId != "" && messageType != ""
        && lib.timeOf(timestamp).Some? && Near(lib.timeOf(timestamp).value, now, if toleranceMs <= 0 then 300_000 else toleranceMs)
        && Stable(Body(payload), lib.norm))
  {
    var built := Build(lib, senderId, targetId, messageType, payload, messageId, traceId, nonce, timestamp);
    MarshalledReads(lib, Sign(lib, key, built));
    OutboxIsTransparent(lib, Sign(lib, key, built));
    SettledSignedVerifies(lib, key, built, toleranceMs, now);
    SettledHashMatches(lib, Body(payload));
  }

  lemma {:induction false} SettledHashMatches(lib: Library, body: Json)
    requires !Collides(lib, Canonicalize(body), Canonicalize(Normalize(body, lib.norm)))
    ensures lib.sha(Canonicalize(Normalize(body, lib.norm))) == lib.sha(Canonicalize(body)) <==> Stable(body, lib.norm)
  {
    StableIffUnchanged(body, lib.norm);
    CanonicalTextIdentifies(body, Normalize(body, lib.norm));
  }

  /** What the receiver decides, for any envelope that was signed and arrived settled. */
  lemma {:induction false} SettledSignedVerifies(lib: Library, key: string, e: Envelope, toleranceMs: int, now: int)
    requires Idempotent(lib.norm) && e.signature == ""
    ensures Verify(lib, key, Settled(lib, Sign(lib, key, e)), toleranceMs, now) == Accepted <==>
      && e.protocol == "a2hmarket-a2a" && e.schemaVersion == "1.0.0"
      && e.messageId != "" && e.senderId != "" && e.messageType != ""
      && lib.timeOf(e.timestamp).Some? && Near(lib.timeOf(e.timestamp).value, now, if toleranceMs <= 0 then 300_000 else toleranceMs)
      && lib.sha(Canonicalize(PayloadMap(Settled(lib, e)))) == e.payloadHash
  {
    var arrived := Settled(lib, Sign(lib, key, e));
    SignatureSurvives(lib, key, e);
    assert arrived.(signature := "") == Settled(lib, e);
    assert PayloadMap(arrived) == PayloadMap(Settled(lib, e));
  }

  /** Signing is insensitive to transport: the signature is taken over the settled form. */
  lemma {:induction false} SignatureSurvives(lib: Library, key: string, e: Envelope)
    requires Idempotent(lib.norm)
    ensures EnvelopeHmac(lib, key, e) == EnvelopeHmac(lib, key, Settled(lib, e))
  {
    MarshalledReads(lib, e);
    MarshalledReads(lib, Settled(lib, e));
    SettledTwice(lib, e);
  }

  /** One signature stands for one envelope: with no collision in either function, two envelopes
      that verify under a key with the same signature are the same, field by field. */
  lemma {:induction false} SignatureBindsEnvelope(lib: Library, key: string, a: Envelope, b: Envelope, tolA: int, tolB: int, nowA: int, nowB: int)
    requires forall x, y :: lib.sha(x) == lib.sha(y) ==> x == y
    requires forall x, y :: lib.hmac(key, x) == lib.hmac(key, y) ==> x == y
    requires Verify(lib, key, a, tolA, nowA) == Accepted && Verify(lib, key, b, tolB, nowB) == Accepted
    requires a.signature == b.signature
    ensures a == b
  {
    hide Canonicalize, EnvelopeHmac, Normalize;
    SameHmacSameSettled(lib, key, a.(signature := ""), b.(signature := ""));
    PayloadsAgree(lib, a, b);
    assert Settled(lib, a.(signature := "")) == Settled(lib, b.(signature := ""));
  }

  lemma {:induction false} SameHmacSameSettled(lib: Library, key: string, a: Envelope, b: Envelope)
    requires forall x, y :: lib.hmac(key, x) == lib.hmac(key, y) ==> x == y
    requires a.signature == b.signature == "" && EnvelopeHmac(lib, key, a) == EnvelopeHmac(lib, key, b)
    ensures Settled(lib, a) == Settled(lib, b)
  {
    hide Canonicalize, Parse, Marshal;
    var f, g := EnvelopeAsMap(lib, a), EnvelopeAsMap(lib, b);
    CanonicalTextIdentifies(Obj(f), Obj(g));
    assert Obj(f).fields == Obj(g).fields;
    MarshalledReads(lib, a);
    MarshalledReads(lib, b);
    UnsignedJsonReads(Settled(lib, a));
    UnsignedJsonReads(Settled(lib, b));
  }

  lemma {:induction false} PayloadsAgree(lib: Library, a: Envelope, b: Envelope)
    requires forall x, y :: lib.sha(x) == lib.sha(y) ==> x == y
    requires lib.sha(Canonicalize(PayloadMap(a))) == a.payloadHash && lib.sha(Canonicalize(PayloadMap(b))) == b.payloadHash
    ensures a.payloadHash == b.payloadHash ==> PayloadMap(a) == PayloadMap(b)
  {
    CanonicalTextIdentifies(PayloadMap(a), PayloadMap(b));
  }
}
