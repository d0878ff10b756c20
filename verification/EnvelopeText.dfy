/** The names and the order in which an envelope's fields travel and are signed. */
module EnvelopeText {
  import opened Wrappers
  import opened KeyOrder
  import opened Canonical
  import opened Envelopes
  import opened WireText

  predicate Plain(s: string) {
    forall i :: 0 <= i < |s| ==> !Unsafe(s[i]) && s[i] as int !in SHORT_ESCAPES
  }

  /** Names without special characters are printed as they are. */
  lemma {:induction false} PlainText(s: string)
    requires Plain(s)
    ensures Quote(s) == "\"" + s + "\""
  {
    EscapeAllSpells(s);
    PlainSpelled(s);
  }

  lemma {:induction false} PlainSpelled(s: string)
    requires Plain(s)
    ensures Spelled(s) == s
  {
    if s != "" {
      PlainSpelled(s[1..]);
      assert s == [s[0]] + s[1..];
    }
  }

  function Named(name: string, text: string): string {
    "\"" + name + "\":" + text
  }

  ghost function StringOf(s: string): string {
    Canonicalize(Str(s))
  }

  ghost function PayloadText(e: Envelope): string {
    if e.payload == None then "null" else Canonicalize(Obj(e.payload.value))
  }

  predicate IsName(s: string) {
    forall i :: 0 <= i < |s| ==> 'a' <= s[i] <= 'z' || s[i] == '_'
  }

  lemma {:induction false} NameText(s: string)
    requires IsName(s)
    ensures Quote(s) == "\"" + s + "\""
  {
    forall i | 0 <= i < |s| ensures !Unsafe(s[i]) && s[i] as int !in SHORT_ESCAPES {
      NameCharIsPlain(s[i]);
    }
    PlainText(s);
  }

  lemma {:induction false} NameCharIsPlain(c: char)
    requires 'a' <= c <= 'z' || c == '_'
    ensures !Unsafe(c) && c as int !in SHORT_ESCAPES
  {
  }

  lemma {:induction false} KeysAreNames(f: Field)
    ensures IsName(Key(f))
  {
  }

  /** The twelve fields under their names, in the order of the struct. */
  ghost function FieldTexts(e: Envelope): seq<string> {
    [Named("protocol", StringOf(e.protocol)), Named("schema_version", StringOf(e.schemaVersion)),
     Named("message_type", StringOf(e.messageType)), Named("message_id", StringOf(e.messageId)),
     Named("trace_id", StringOf(e.traceId)), Named("sender_id", StringOf(e.senderId)),
     Named("target_id", StringOf(e.targetId)), Named("timestamp", StringOf(e.timestamp)),
     Named("nonce", StringOf(e.nonce)), Named("payload", PayloadText(e)),
     Named("payload_hash", StringOf(e.payloadHash)), Named("signature", StringOf(e.signature))]
  }

  /** The fields that are signed, in the order of their names. */
  ghost function SignedTexts(e: Envelope): seq<string> {
    [Named("message_id", StringOf(e.messageId)), Named("message_type", StringOf(e.messageType)),
     Named("nonce", StringOf(e.nonce)), Named("payload", PayloadText(e)),
     Named("payload_hash", StringOf(e.payloadHash)), Named("protocol", StringOf(e.protocol)),
     Named("schema_version", StringOf(e.schemaVersion)), Named("sender_id", StringOf(e.senderId)),
     Named("target_id", StringOf(e.targetId)), Named("timestamp", StringOf(e.timestamp)),
     Named("trace_id", StringOf(e.traceId))]
  }

  lemma {:induction false} FieldTextsAre(e: Envelope, i: nat)
    requires i < 12
    ensures FieldTexts(e)[i] == Named(Key(DECLARATION_ORDER[i]), Canonicalize(Value(e, DECLARATION_ORDER[i])))
  {
    hide Named, Quote;
    assert Canonicalize(PayloadJson(e)) == PayloadText(e);
  }

  lemma {:induction false} NamedPair(e: Envelope, f: Field)
    ensures Key(f) in ToJson(e).fields
    ensures Named(Key(f), Canonicalize(Value(e, f))) == Quote(Key(f)) + ":" + Canonicalize(ToJson(e).fields[Key(f)])
  {
    hide Quote, Canonicalize, Key, Value;
    JsonHolds(e);
    KeysAreNames(f);
    NameText(Key(f));
  }

  /** What is published. */
  lemma {:induction false} MarshalledText(e: Envelope)
    ensures Marshal(e) == "{" + Join(FieldTexts(e)) + "}"
  {
    hide Quote, Join, Canonicalize, Named, FieldTexts, ToJson, Value, Key;
    FieldOrderLists(e);
    assert |FieldTexts(e)| == 12 by { FieldTextsLength(e); }
    forall i | 0 <= i < 12
      ensures FieldOrder()[i] in ToJson(e).fields
      ensures FieldTexts(e)[i] == Quote(FieldOrder()[i]) + ":" + Canonicalize(ToJson(e).fields[FieldOrder()[i]])
    {
      FieldTextsAre(e, i);
      NamedPair(e, DECLARATION_ORDER[i]);
    }
    JoinIsMembers(FieldTexts(e), ToJson(e), FieldOrder());
  }

  lemma {:induction false} FieldTextsLength(e: Envelope)
    ensures |FieldTexts(e)| == 12 && |SignedTexts(e)| == 11
  {
  }

  const NAME_ORDER: seq<Field> := [
    MessageId, MessageType, Nonce, Payload, PayloadHash, Protocol, SchemaVersion, SenderId, TargetId, Timestamp, TraceId]

  ghost function NameOrder(): (keys: seq<string>)
    ensures |keys| == 11 && forall i :: 0 <= i < 11 ==> keys[i] == Key(NAME_ORDER[i])
  {
    seq(11, i requires 0 <= i < 11 => Key(NAME_ORDER[i]))
  }

  lemma {:induction false} AdjacentAscending(keys: seq<string>)
    requires forall i :: 0 < i < |keys| ==> Less(keys[i - 1], keys[i])
    ensures Ascending(keys)
  {
    hide Less;
    forall i, j | 0 <= i < j < |keys| ensures Less(keys[i], keys[j]) {
      LessAlong(keys, i, j);
    }
  }

  lemma {:induction false} LessAlong(keys: seq<string>, i: nat, j: nat)
    requires i < j < |keys| && forall k :: 0 < k < |keys| ==> Less(keys[k - 1], keys[k])
    ensures Less(keys[i], keys[j])
  {
    hide Less;
    assert Less(keys[j - 1], keys[j]);
    if i < j - 1 {
      LessAlong(keys, i, j - 1);
      LessTransitive(keys[i], keys[j - 1], keys[j]);
    }
  }

  lemma {:induction false} FirstDifference(a: string, b: string, i: nat)
    requires i < |a| && i < |b| && a[..i] == b[..i] && a[i] < b[i]
    ensures Less(a, b)
  {
    LessIff(a, b);
    assert DifferAt(a, b, i);
  }

  lemma {:induction false} NamesAscend()
    ensures Ascending(NameOrder())
  {
    hide Less;
    FirstDifference("message_id", "message_type", 8);
    FirstDifference("message_type", "nonce", 0);
    FirstDifference("nonce", "payload", 0);
    LessIff("payload", "payload_hash");
    FirstDifference("payload_hash", "protocol", 1);
    FirstDifference("protocol", "schema_version", 0);
    FirstDifference("schema_version", "sender_id", 1);
    FirstDifference("sender_id", "target_id", 0);
    FirstDifference("target_id", "timestamp", 1);
    FirstDifference("timestamp", "trace_id", 1);
    AdjacentAscending(NameOrder());
  }

  lemma {:induction false} SignedNames(e: Envelope)
    ensures forall k :: k in NameOrder() <==> k in ToJson(e).fields - {Key(Signature)}
  {
    hide Key, Value, ToJson;
    JsonHolds(e);
    forall k | k in NameOrder() ensures k in ToJson(e).fields - {Key(Signature)} {
      var i :| 0 <= i < 11 && NameOrder()[i] == k;
      KeysDistinct(NAME_ORDER[i], Signature);
    }
    forall k | k in ToJson(e).fields - {Key(Signature)} ensures k in NameOrder() {
      assert IsKey(k);
      var f := FieldOf(k);
      SignedFieldIsListed(f);
      var i :| 0 <= i < 11 && NAME_ORDER[i] == f;
      assert NameOrder()[i] == k;
    }
  }

  lemma {:induction false} SignedFieldIsListed(f: Field)
    requires f != Signature
    ensures exists i :: 0 <= i < 11 && NAME_ORDER[i] == f
  {
    var i := match f {
      case MessageId => 0 case MessageType => 1 case Nonce => 2 case Payload => 3 case PayloadHash => 4 case Protocol => 5
      case SchemaVersion => 6 case SenderId => 7 case TargetId => 8 case Timestamp => 9 case _ => 10
    };
    assert NAME_ORDER[i] == f;
  }

  lemma {:induction false} SignedTextsAre(e: Envelope, i: nat)
    requires i < 11
    ensures SignedTexts(e)[i] == Named(Key(NAME_ORDER[i]), Canonicalize(Value(e, NAME_ORDER[i])))
  {
    hide Named, Quote;
    assert Canonicalize(PayloadJson(e)) == PayloadText(e);
  }

  /** What the signature is taken of: every field but the signature, in the order of the names, with
      the numbers of the payload settled. */
  lemma {:induction false} SignedText(lib: Library, e: Envelope)
    ensures Canonicalize(Obj(EnvelopeAsMap(lib, e))) == "{" + Join(SignedTexts(Settled(lib, e))) + "}"
  {
    hide Quote, Join, Canonicalize, Named, SignedTexts, ToJson, Value, Key, Settled, EnvelopeAsMap, Less, Parse;
    var e', fields := Settled(lib, e), EnvelopeAsMap(lib, e);
    MarshalledReads(lib, e);
    NamesAscend();
    SignedNames(e');
    ObjectIsMembers(fields, NameOrder());
    assert |SignedTexts(e')| == 11 by { FieldTextsLength(e'); }
    forall i | 0 <= i < 11 ensures SignedTexts(e')[i] == Pairs(fields, NameOrder())[i] {
      SignedTextsAre(e', i);
      NamedPair(e', NAME_ORDER[i]);
      QuoteIsString(NameOrder()[i]);
    }
    assert SignedTexts(e') == Pairs(fields, NameOrder());
  }

  lemma {:induction false} QuoteIsString(s: string)
    ensures Canonicalize(Str(s)) == Quote(s)
  {
  }

  /** The signature is the HMAC of that text. */
  lemma {:induction false} SignatureText(lib: Library, key: string, e: Envelope)
    ensures Sign(lib, key, e) == e.(signature := lib.hmac(key, "{" + Join(SignedTexts(Settled(lib, e))) + "}"))
  {
    hide Join, Canonicalize, Named, StringOf, Normalize, EnvelopeAsMap;
    var unsigned := e.(signature := "");
    SignedText(lib, unsigned);
    assert SignedTexts(Settled(lib, unsigned)) == SignedTexts(Settled(lib, e));
  }
}
