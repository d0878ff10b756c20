/** The envelope codec as it is executed. */
module Signing {
  import opened Wrappers
  import opened Canonical
  import opened Envelopes

  /** json.Marshal of the struct, field by field in declaration order. */
  method MarshalText(e: Envelope) returns (text: string)
    ensures text == Marshal(e)
  {
    var pairs := new string[12];
    JsonHolds(e);
    FieldOrderLists(e);
    for i := 0 to 12
      invariant forall j :: 0 <= j < i ==> pairs[j] == Quote(FieldOrder()[j]) + ":" + Canonicalize(ToJson(e).fields[FieldOrder()[j]])
    {
      var value := CanonicalText(Value(e, DECLARATION_ORDER[i]));
      assert FieldOrder()[i] == Key(DECLARATION_ORDER[i]);
      pairs[i] := Quote(FieldOrder()[i]) + ":" + value;
    }
    JoinIsMembers(pairs[..], ToJson(e), FieldOrder());
    text := "{" + Join(pairs[..]) + "}";
  }

  /** Marshal, decode into a generic map, delete the signature. */
  method MapOf(lib: Library, e: Envelope) returns (fields: map<string, Json>)
    ensures fields == EnvelopeAsMap(lib, e)
  {
    hide Parse, Marshal;
    var text := MarshalText(e);
    var parsed := Parse(text, lib.norm);
    if parsed.Some? && parsed.value.Obj? {
      fields := parsed.value.fields - {Key(Signature)};
    } else {
      fields := map[];
    }
  }

  method HmacOf(lib: Library, secret: string, e: Envelope) returns (mac: string)
    ensures mac == EnvelopeHmac(lib, secret, e)
  {
    var fields := MapOf(lib, e);
    var text := CanonicalText(Obj(fields));
    mac := lib.hmac(secret, text);
  }

  method BuildEnvelope(lib: Library, senderId: string, targetId: string, messageType: string,
                       payload: Option<map<string, Json>>, messageId: string, traceId: string,
                       nonce: string, timestamp: string) returns (e: Envelope)
    ensures e == Build(lib, senderId, targetId, messageType, payload, messageId, traceId, nonce, timestamp)
  {
    var body := if payload.Some? then payload.value else map[];
    var text := CanonicalText(Obj(body));
    e := Envelope(PROTOCOL_NAME, SCHEMA_VERSION, messageType, messageId, traceId, senderId, targetId, timestamp, nonce,
                  Some(body), lib.sha(text), "");
  }

  method SignEnvelope(lib: Library, key: string, e: Envelope) returns (signed: Envelope)
    ensures signed == Sign(lib, key, e)
  {
    var unsigned := e.(signature := "");
    var mac := HmacOf(lib, key, unsigned);
    signed := unsigned.(signature := mac);
  }

  method VerifyEnvelope(lib: Library, key: string, e: Envelope, toleranceMs: int, now: int) returns (verdict: Verdict)
    ensures verdict == Verify(lib, key, e, toleranceMs, now)
  {
    if e.protocol != PROTOCOL_NAME { return ProtocolMismatch; }
    if e.schemaVersion != SCHEMA_VERSION { return SchemaMismatch; }
    if e.messageId == "" || e.senderId == "" || e.messageType == "" { return MissingFields; }
    var ts := lib.timeOf(e.timestamp);
    if ts == None { return InvalidTimestamp; }
    if Distance(now, ts.value) > Tolerance(toleranceMs) { return OutOfTolerance; }
    var payload := CanonicalText(PayloadMap(e));
    if lib.sha(payload) != e.payloadHash { return HashMismatch; }
    var mac := HmacOf(lib, key, e.(signature := ""));
    if mac != e.signature { return SignatureMismatch; }
    return Accepted;
  }
}
