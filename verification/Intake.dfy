/** From an MQTT message to a stored event, exactly once per message id. */
module Intake {
  import opened Wrappers
  import opened Tables
  import opened System
  import opened Schema
  import EventStates
  import E = Envelopes
  import Preview

  /** agentID is not used by the handler.  preview and messageTime stand for the text extraction
      and the timestamp layouts; decimal for %d. */
  datatype RouterConfig = RouterConfig(topicPrefix: string, sharedSecret: string, pushEnabled: bool, pushTarget: string)

  datatype RouterLib = RouterLib(
    lib: E.Library, preview: E.Envelope -> string, messageTime: string -> Option<int>, decimal: int -> string)

  datatype CoreFault = NoFault | WrongProtocol | WrongSchema | NoMessageId | NoSenderId | NoMessageType

  datatype Reason = Stored | IgnoredTopic | InvalidJson | InvalidEnvelope(fault: CoreFault) | SignatureRejected(verdict: E.Verdict) | DuplicateMessageId

  predicate IsInboundTopic(topic: string, cfg: RouterConfig) {
    cfg.topicPrefix + "/p2p/" <= topic
  }

  function CoreCheck(e: E.Envelope): CoreFault {
    if e.protocol != E.PROTOCOL_NAME then WrongProtocol
    else if e.schemaVersion != E.SCHEMA_VERSION then WrongSchema
    else if e.messageId == "" then NoMessageId
    else if e.senderId == "" then NoSenderId
    else if e.messageType == "" then NoMessageType
    else NoFault
  }

  function PeerOf(e: E.Envelope): string {
    var peer := Preview.Trim(e.senderId);
    if peer == "" then "unknown" else peer
  }

  function EventHash(lib: RouterLib, peerId: string, messageTs: int, text: string, messageId: string): string {
    lib.lib.sha(if messageId != "" then "id:" + messageId else peerId + "|" + lib.decimal(messageTs) + "|" + text)
  }

  /** What the handler makes of a raw message: the envelope if it passes every check. */
  ghost function Admit(cfg: RouterConfig, lib: RouterLib, topic: string, raw: string, now: int): (Reason, Option<E.Envelope>) {
    if !IsInboundTopic(topic, cfg) then (IgnoredTopic, None)
    else
      var parsed := E.ParseEnvelope(lib.lib, raw);
      if parsed == None then (InvalidJson, None)
      else
        var e := parsed.value;
        if CoreCheck(e) != NoFault then (InvalidEnvelope(CoreCheck(e)), None)
        else if cfg.sharedSecret != "" && E.Verify(lib.lib, cfg.sharedSecret, e, 0, now) != E.Accepted
        then (SignatureRejected(E.Verify(lib.lib, cfg.sharedSecret, e, 0, now)), None)
        else (Stored, Some(e))
  }

  function MessageTs(lib: RouterLib, e: E.Envelope, now: int): int {
    var ts := lib.messageTime(e.timestamp);
    if e.timestamp == "" || ts == None then now else ts.value
  }

  /** The row to insert for an admitted envelope. */
  function InputOf(cfg: RouterConfig, lib: RouterLib, e: E.Envelope, payload: string, eventId: string, now: int): EventInput {
    var peer, ts, preview := PeerOf(e), MessageTs(lib, e, now), lib.preview(e);
    EventInput(eventId, peer, e.messageId, ts, EventHash(lib, peer, ts, preview, e.messageId), 1, preview, payload,
               New, "MQTT", e.messageId, "", "", 0, cfg.pushEnabled, if cfg.pushTarget == "" then "openclaw" else cfg.pushTarget)
  }

  /** The handler admits exactly the well-formed requests on its topic, and signed ones if it has a
      secret. */
  lemma {:induction false} AdmittedIff(cfg: RouterConfig, lib: RouterLib, topic: string, raw: string, now: int)
    ensures
      var (verdict, admitted) := Admit(cfg, lib, topic, raw, now);
      var parsed := E.ParseEnvelope(lib.lib, raw);
      && (admitted.Some? <==>
            && |topic| >= |cfg.topicPrefix| + 5 && topic[..|cfg.topicPrefix|] == cfg.topicPrefix
            && topic[|cfg.topicPrefix|..|cfg.topicPrefix| + 5] == "/p2p/"
            && parsed.Some? && parsed.value.protocol == "a2hmarket-a2a" && parsed.value.schemaVersion == "1.0.0"
            && parsed.value.messageId != "" && parsed.value.senderId != "" && parsed.value.messageType != ""
            && (cfg.sharedSecret == "" || E.Verify(lib.lib, cfg.sharedSecret, parsed.value, 0, now) == E.Accepted))
      && (admitted.Some? ==> admitted == parsed)
      && (admitted.Some? <==> verdict == Stored)
  {
    hide E.ParseEnvelope, E.Verify;
    var prefix := cfg.topicPrefix + "/p2p/";
    if prefix <= topic {
      assert topic[..|prefix|] == prefix;
      assert topic[..|cfg.topicPrefix|] == prefix[..|cfg.topicPrefix|] == cfg.topicPrefix;
      assert topic[|cfg.topicPrefix|..|prefix|] == prefix[|cfg.topicPrefix|..] == "/p2p/";
    }
    if |topic| >= |prefix| && topic[..|cfg.topicPrefix|] == cfg.topicPrefix && topic[|cfg.topicPrefix|..|prefix|] == "/p2p/" {
      assert topic[..|prefix|] == topic[..|cfg.topicPrefix|] + topic[|cfg.topicPrefix|..|prefix|];
    }
  }

  /** The fault named is the first that applies. */
  lemma {:induction false} FaultIsFirst(e: E.Envelope)
    ensures CoreCheck(e) == WrongProtocol <==> e.protocol != "a2hmarket-a2a"
    ensures CoreCheck(e) == WrongSchema <==> e.protocol == "a2hmarket-a2a" && e.schemaVersion != "1.0.0"
    ensures CoreCheck(e) in {NoMessageId, NoSenderId, NoMessageType, NoFault} <==> e.protocol == "a2hmarket-a2a" && e.schemaVersion == "1.0.0"
    ensures CoreCheck(e) == NoMessageId ==> e.messageId == ""
    ensures CoreCheck(e) == NoSenderId ==> e.messageId != "" && e.senderId == ""
    ensures CoreCheck(e) == NoMessageType ==> e.messageId != "" && e.senderId != "" && e.messageType == ""
    ensures CoreCheck(e) == NoFault ==> e.messageId != "" && e.senderId != "" && e.messageType != ""
  {
  }

  /** What an admitted request asks to store, column by column.  Its hash is of the message id, so
      that one id is one event whatever else the message says. */
  lemma {:induction false} RequestColumns(cfg: RouterConfig, lib: RouterLib, e: E.Envelope, payload: string, eventId: string, now: int)
    ensures
      var x, sent, sender := InputOf(cfg, lib, e, payload, eventId, now), lib.messageTime(e.timestamp), Preview.Trim(e.senderId);
      && x.eventId == eventId && x.messageId == e.messageId == x.a2aMessageId && x.payload == payload && x.preview == lib.preview(e)
      && (sender != "" ==> x.peerId == sender) && (sender == "" ==> x.peerId == "unknown")
      && (e.timestamp != "" && sent.Some? ==> x.msgTs == sent.value) && (e.timestamp == "" || sent == None ==> x.msgTs == now)
      && (e.messageId != "" ==> x.hash == lib.lib.sha("id:" + e.messageId))
      && (e.messageId == "" ==> x.hash == lib.lib.sha(x.peerId + "|" + lib.decimal(x.msgTs) + "|" + x.preview))
      && x.state == New && x.source == "MQTT" && x.unreadCount == 1 && x.createdAt == 0
      && x.targetSessionId == "" && x.targetSessionKey == "" && x.pushEnabled == cfg.pushEnabled
      && (cfg.pushTarget != "" ==> x.pushTarget == cfg.pushTarget) && (cfg.pushTarget == "" ==> x.pushTarget == "openclaw")
  {
  }

  // -------------------------------------------------------------- exactly once

  /** A message arriving from the broker, with the event id drawn for it, or anything else. */
  datatype Arrival =
    | Message(topic: string, raw: string, eventId: string, gap: nat, pushGap: nat)
    | Other(step: Label)

  ghost function Admitted(rcfg: RouterConfig, lib: RouterLib, s: Sys, a: Arrival): Option<EventInput> {
    if a.Message? && Admit(rcfg, lib, a.topic, a.raw, s.clock).1.Some?
    then
      var e := Admit(rcfg, lib, a.topic, a.raw, s.clock).1.value;
      Some(InputOf(rcfg, lib, e, E.Marshal(e), a.eventId, s.clock))
    else None
  }

  ghost function Arrive(cfg: Config, rcfg: RouterConfig, lib: RouterLib, s: Sys, a: Arrival): Sys {
    match a
    case Message(_, _, _, gap, pushGap) =>
      var x := Admitted(rcfg, lib, s, a);
      if x.Some? then Step(cfg, s, Op(Insert(x.value, gap, pushGap))) else s
    case Other(l) => Step(cfg, s, l)
  }

  ghost function ArriveAll(cfg: Config, rcfg: RouterConfig, lib: RouterLib, s: Sys, arrivals: seq<Arrival>): Sys
    decreases |arrivals|
  {
    if arrivals == [] then s
    else Arrive(cfg, rcfg, lib, ArriveAll(cfg, rcfg, lib, s, arrivals[..|arrivals| - 1]), arrivals[|arrivals| - 1])
  }

  /** The rows the handler asked for, in order of arrival. */
  ghost function Admissions(cfg: Config, rcfg: RouterConfig, lib: RouterLib, s: Sys, arrivals: seq<Arrival>): seq<EventInput>
    decreases |arrivals|
  {
    if arrivals == [] then []
    else
      var before := arrivals[..|arrivals| - 1];
      var x := Admitted(rcfg, lib, ArriveAll(cfg, rcfg, lib, s, before), arrivals[|arrivals| - 1]);
      Admissions(cfg, rcfg, lib, s, before) + if x.Some? then [x.value] else []
  }

  ghost predicate Seen(xs: seq<EventInput>, messageId: string) {
    exists i :: 0 <= i < |xs| && xs[i].messageId == messageId
  }

  /** The first request for each message id. */
  ghost function Firsts(xs: seq<EventInput>): seq<EventInput> {
    if xs == [] then []
    else
      var before, last := xs[..|xs| - 1], xs[|xs| - 1];
      Firsts(before) + if Seen(before, last.messageId) then [] else [last]
  }

  lemma {:induction false} FirstsSnoc(xs: seq<EventInput>, x: EventInput)
    ensures Firsts(xs + [x]) == if Seen(xs, x.messageId) then Firsts(xs) else Firsts(xs) + [x]
  {
    assert (xs + [x])[..|xs|] == xs;
  }

  lemma {:induction false} FirstsSee(xs: seq<EventInput>, messageId: string)
    ensures Seen(Firsts(xs), messageId) <==> Seen(xs, messageId)
    decreases |xs|
  {
    if xs != [] {
      var before, last := xs[..|xs| - 1], xs[|xs| - 1];
      FirstsSee(before, messageId);
      assert xs == before + [last];
      FirstsSnoc(before, last);
      SeenSnoc(before, last, messageId);
      SeenSnoc(Firsts(before), last, messageId);
    }
  }

  lemma {:induction false} SeenSnoc(xs: seq<EventInput>, x: EventInput, messageId: string)
    ensures Seen(xs + [x], messageId) <==> Seen(xs, messageId) || x.messageId == messageId
  {
    var all := xs + [x];
    assert all[|xs|] == x && forall i :: 0 <= i < |xs| ==> all[i] == xs[i];
  }

  lemma {:induction false} FirstsDistinct(xs: seq<EventInput>)
    ensures forall i, j :: 0 <= i < j < |Firsts(xs)| ==> Firsts(xs)[i].messageId != Firsts(xs)[j].messageId
    decreases |xs|
  {
    if xs != [] {
      var before, last := xs[..|xs| - 1], xs[|xs| - 1];
      FirstsDistinct(before);
      FirstsSee(before, last.messageId);
    }
  }

  /** x is the earliest request of xs for its message id. */
  ghost predicate EarliestIn(xs: seq<EventInput>, x: EventInput) {
    exists k :: 0 <= k < |xs| && xs[k] == x && !Seen(xs[..k], x.messageId)
  }

  lemma {:induction false} FirstsEarliest(xs: seq<EventInput>)
    ensures forall i :: 0 <= i < |Firsts(xs)| ==> EarliestIn(xs, Firsts(xs)[i])
    decreases |xs|
  {
    if xs != [] {
      var n := |xs| - 1;
      var before, last := xs[..n], xs[n];
      FirstsEarliest(before);
      forall i | 0 <= i < |Firsts(xs)| ensures EarliestIn(xs, Firsts(xs)[i]) {
        if i < |Firsts(before)| {
          var x := Firsts(before)[i];
          assert EarliestIn(before, x);
          var k :| 0 <= k < n && before[k] == x && !Seen(before[..k], x.messageId);
          assert xs[k] == x && xs[..k] == before[..k];
        } else {
          assert xs[n] == last && !Seen(xs[..n], last.messageId);
        }
      }
    }
  }

  /** Firsts is what its name says: each message id of xs once, by its earliest request. */
  lemma {:induction false} FirstsAreFirst(xs: seq<EventInput>)
    ensures forall messageId :: Seen(Firsts(xs), messageId) <==> Seen(xs, messageId)
    ensures forall i, j :: 0 <= i < j < |Firsts(xs)| ==> Firsts(xs)[i].messageId != Firsts(xs)[j].messageId
    ensures forall i :: 0 <= i < |Firsts(xs)| ==> EarliestIn(xs, Firsts(xs)[i])
  {
    hide Seen, EarliestIn;
    forall messageId ensures Seen(Firsts(xs), messageId) <==> Seen(xs, messageId) {
      FirstsSee(xs, messageId);
    }
    FirstsDistinct(xs);
    FirstsEarliest(xs);
  }

  /** The event row that a request made, its bookkeeping columns aside. */
  ghost predicate MadeFrom(e: Event, x: EventInput) {
    && e.eventId == x.eventId && e.peerId == x.peerId && e.messageId == x.messageId && e.a2aMessageId == x.a2aMessageId
    && e.msgTs == x.msgTs && e.hash == x.hash && e.preview == x.preview && e.payload == x.payload
    && e.source == x.source && e.unreadCount == x.unreadCount
  }

  ghost predicate StoredFirsts(events: seq<Event>, xs: seq<EventInput>) {
    |events| == |Firsts(xs)| && forall i :: 0 <= i < |events| ==> MadeFrom(events[i], Firsts(xs)[i])
  }

  /** What every request of the handler looks like. */
  ghost predicate Handled(lib: RouterLib, x: EventInput) {
    x.messageId != "" && x.a2aMessageId == x.messageId && x.hash == lib.lib.sha("id:" + x.messageId) && x.state == New
  }

  ghost predicate NoCollision(lib: RouterLib) {
    forall a, b :: lib.lib.sha(a) == lib.lib.sha(b) ==> a == b
  }

  lemma {:induction false} AdmittedIsHandled(rcfg: RouterConfig, lib: RouterLib, s: Sys, a: Arrival)
    ensures Admitted(rcfg, lib, s, a).Some? ==> Handled(lib, Admitted(rcfg, lib, s, a).value) && Admitted(rcfg, lib, s, a).value.eventId == a.eventId
  {
    hide E.Verify, E.Marshal, E.ParseEnvelope;
  }

  /** The unique indexes reject a request exactly when its message id was seen before. */
  lemma {:induction false} ClashIffSeen(lib: RouterLib, events: seq<Event>, xs: seq<EventInput>, x: EventInput)
    requires NoCollision(lib) && StoredFirsts(events, xs) && Handled(lib, x)
    requires forall i :: 0 <= i < |xs| ==> Handled(lib, xs[i]) && xs[i].eventId != x.eventId
    ensures EventClash(events, x) <==> Seen(xs, x.messageId)
  {
    FirstsAreFirst(xs);
    forall i | 0 <= i < |events| ensures Clashes(events[i], x) <==> events[i].messageId == x.messageId {
      assert EarliestIn(xs, Firsts(xs)[i]);
      var k :| 0 <= k < |xs| && xs[k] == Firsts(xs)[i];
      assert MadeFrom(events[i], xs[k]);
      HashNamesMessage(lib, xs[k], x);
    }
    if Seen(xs, x.messageId) {
      var k :| 0 <= k < |xs| && xs[k].messageId == x.messageId;
      assert Seen(Firsts(xs), xs[k].messageId);
      var i :| 0 <= i < |Firsts(xs)| && Firsts(xs)[i].messageId == x.messageId;
      assert MadeFrom(events[i], Firsts(xs)[i]) && Clashes(events[i], x);
    }
    if EventClash(events, x) {
      var i :| 0 <= i < |events| && Clashes(events[i], x);
      assert EarliestIn(xs, Firsts(xs)[i]);
      var k :| 0 <= k < |xs| && xs[k] == Firsts(xs)[i];
      assert MadeFrom(events[i], Firsts(xs)[i]) && xs[k].messageId == x.messageId;
    }
  }

  lemma {:induction false} HashNamesMessage(lib: RouterLib, x: EventInput, y: EventInput)
    requires NoCollision(lib) && Handled(lib, x) && Handled(lib, y)
    ensures x.hash == y.hash ==> x.messageId == y.messageId
  {
    if x.hash == y.hash {
      assert "id:" + x.messageId == "id:" + y.messageId;
      assert ("id:" + x.messageId)[3..] == ("id:" + y.messageId)[3..];
    }
  }

  /** push_outbox_conflict is unreachable, and a request that creates nothing changes nothing. */
  lemma {:induction false} InsertIsAllOrNothing(db: Db, x: EventInput, gap: nat, pushGap: nat, ts: int)
    requires Wf(db)
    ensures InsertOutcome(db, x) != PushOutboxConflict
    ensures InsertOutcome(db, x) == NoReason <==> !EventClash(db.events, x)
    ensures InsertOutcome(db, x) != NoReason ==> InsertEvent(db, x, gap, pushGap, ts) == db
  {
    hide EventClash;
    if !EventClash(db.events, x) {
      EventStates.NewEventIsUntouched(db, x);
    }
  }

  ghost predicate InsertsNothing(a: Arrival) {
    a.Other? ==> !(a.step.Op? && a.step.op.Insert?)
  }

  lemma {:induction false} EventsStay(cfg: Config, s: Sys, l: Label)
    requires Wf(s.db) && !(l.Op? && l.op.Insert?)
    ensures |Step(cfg, s, l).db.events| == |s.db.events| && EventsKept(s.db.events, Step(cfg, s, l).db.events)
  {
    hide Wf, EventsKept, PushStep, A2AStep, MediaStep, Apply;
    StepKeepsWf(cfg, s, l);
    match l
    case Op(op) => OpAddsNoEvent(s.db, op, s.clock);
    case Push(pl) => PushAddsNoEvent(cfg, s.db, s.push, s.pushLog, pl, s.clock);
    case A2A(al) => A2AWrites(cfg, s.db, s.a2a, s.a2aLog, al, s.clock);
    case Media(ml) => MediaWrites(cfg, s.db, s.media, s.mediaLog, ml, s.clock);
    case _ =>
  }

  lemma {:induction false} OpAddsNoEvent(db: Db, op: StoreOp, now: int)
    requires !op.Insert?
    ensures |Apply(db, op, now).events| == |db.events|
  {
  }

  lemma {:induction false} PushAddsNoEvent(cfg: Config, db: Db, pc: PushPc, log: PushLog, l: PushLabel, now: int)
    ensures |PushStep(cfg, db, pc, log, l, now).db.events| == |db.events|
  {
  }

  lemma {:induction false} StoredStays(events: seq<Event>, events': seq<Event>, xs: seq<EventInput>)
    requires StoredFirsts(events, xs) && |events'| == |events| && EventsKept(events, events')
    ensures StoredFirsts(events', xs)
  {
    forall i | 0 <= i < |events'| ensures MadeFrom(events'[i], Firsts(xs)[i]) {
      assert SameEvent(events[i], events'[i]) && MadeFrom(events[i], Firsts(xs)[i]);
    }
  }

  lemma {:induction false} InsertedEvents(db: Db, x: EventInput, gap: nat, pushGap: nat, ts: int)
    requires Wf(db)
    ensures InsertEvent(db, x, gap, pushGap, ts).events
         == if EventClash(db.events, x) then db.events else db.events + [NewEvent(x, db.eventSeq + 1 + gap, ts)]
  {
    hide EventClash, Wf, InsertOutcome;
    InsertIsAllOrNothing(db, x, gap, pushGap, ts);
  }

  lemma {:induction false} StoredGrows(db: Db, xs: seq<EventInput>, x: EventInput, gap: nat, pushGap: nat, ts: int)
    requires Wf(db) && StoredFirsts(db.events, xs) && (EventClash(db.events, x) <==> Seen(xs, x.messageId))
    ensures StoredFirsts(InsertEvent(db, x, gap, pushGap, ts).events, xs + [x])
  {
    hide EventClash, Seen, Wf, InsertEvent;
    InsertedEvents(db, x, gap, pushGap, ts);
    FirstsSnoc(xs, x);
  }

  ghost predicate FreshIds(arrivals: seq<Arrival>) {
    forall i, j :: 0 <= i < j < |arrivals| && arrivals[i].Message? && arrivals[j].Message? ==> arrivals[i].eventId != arrivals[j].eventId
  }

  ghost predicate Good(arrivals: seq<Arrival>) {
    FreshIds(arrivals) && forall i :: 0 <= i < |arrivals| ==> InsertsNothing(arrivals[i])
  }

  ghost predicate CameFrom(arrivals: seq<Arrival>, x: EventInput) {
    exists k :: 0 <= k < |arrivals| && arrivals[k].Message? && arrivals[k].eventId == x.eventId
  }

  lemma {:induction false} AdmissionsAreHandled(cfg: Config, rcfg: RouterConfig, lib: RouterLib, s: Sys, arrivals: seq<Arrival>)
    ensures forall i :: 0 <= i < |Admissions(cfg, rcfg, lib, s, arrivals)| ==>
      Handled(lib, Admissions(cfg, rcfg, lib, s, arrivals)[i]) && CameFrom(arrivals, Admissions(cfg, rcfg, lib, s, arrivals)[i])
    decreases |arrivals|
  {
    hide Admitted, Arrive, Handled, CameFrom;
    if arrivals != [] {
      var n := |arrivals| - 1;
      var before := arrivals[..n];
      var xs := Admissions(cfg, rcfg, lib, s, before);
      var x := Admitted(rcfg, lib, ArriveAll(cfg, rcfg, lib, s, before), arrivals[n]);
      AdmissionsAreHandled(cfg, rcfg, lib, s, before);
      AdmittedIsHandled(rcfg, lib, ArriveAll(cfg, rcfg, lib, s, before), arrivals[n]);
      AdmittedIsMessage(rcfg, lib, ArriveAll(cfg, rcfg, lib, s, before), arrivals[n]);
      forall i | 0 <= i < |xs| ensures CameFrom(arrivals, xs[i]) {
        CameFromPrefix(arrivals, xs[i]);
      }
      if x.Some? {
        LastCame(arrivals, x.value);
      }
    }
  }

  lemma {:induction false} CameFromPrefix(arrivals: seq<Arrival>, x: EventInput)
    requires arrivals != [] && CameFrom(arrivals[..|arrivals| - 1], x)
    ensures CameFrom(arrivals, x)
  {
    var before := arrivals[..|arrivals| - 1];
    var k :| 0 <= k < |before| && before[k].Message? && before[k].eventId == x.eventId;
    assert arrivals[k] == before[k];
  }

  lemma {:induction false} LastCame(arrivals: seq<Arrival>, x: EventInput)
    requires arrivals != [] && arrivals[|arrivals| - 1].Message? && arrivals[|arrivals| - 1].eventId == x.eventId
    ensures CameFrom(arrivals, x)
  {
  }

  lemma {:induction false} AdmittedIsMessage(rcfg: RouterConfig, lib: RouterLib, s: Sys, a: Arrival)
    ensures Admitted(rcfg, lib, s, a).Some? ==> a.Message?
  {
  }

  /** Exactly-once intake.  For any stream of deliveries, repeated and reordered at will and
      interleaved with everything else the system does, the stored events are, row for row, the
      first admitted delivery of each message id. */
  lemma {:induction false} ExactlyOnce(cfg: Config, rcfg: RouterConfig, lib: RouterLib, clock: nat, arrivals: seq<Arrival>)
    requires NoCollision(lib) && Good(arrivals)
    ensures
      var s := ArriveAll(cfg, rcfg, lib, Init(clock), arrivals);
      Wf(s.db) && StoredFirsts(s.db.events, Admissions(cfg, rcfg, lib, Init(clock), arrivals))
    decreases |arrivals|
  {
    hide Wf, Admitted, Step, StoredFirsts, Handled, NoCollision;
    if arrivals == [] {
      NothingStored(clock);
    } else {
      var n := |arrivals| - 1;
      var before, a := arrivals[..n], arrivals[n];
      assert Good(before);
      ExactlyOnce(cfg, rcfg, lib, clock, before);
      var s := ArriveAll(cfg, rcfg, lib, Init(clock), before);
      var xs := Admissions(cfg, rcfg, lib, Init(clock), before);
      var x := Admitted(rcfg, lib, s, a);
      AdmittedIsMessage(rcfg, lib, s, a);
      assert xs + [] == xs;
      if x.Some? {
        AdmissionsAreHandled(cfg, rcfg, lib, Init(clock), before);
        AdmittedIsHandled(rcfg, lib, s, a);
        forall i | 0 <= i < |xs| ensures xs[i].eventId != x.value.eventId {
          assert CameFrom(before, xs[i]);
          var k :| 0 <= k < n && before[k].Message? && before[k].eventId == xs[i].eventId;
          assert arrivals[k] == before[k];
        }
        ClashIffSeen(lib, s.db.events, xs, x.value);
        InsertStep(cfg, s, x.value, a.gap, a.pushGap);
        StoredGrows(s.db, xs, x.value, a.gap, a.pushGap, s.clock);
      } else if a.Other? {
        StepKeepsWf(cfg, s, a.step);
        assert InsertsNothing(a);
        EventsStay(cfg, s, a.step);
        StoredStays(s.db.events, Step(cfg, s, a.step).db.events, xs);
      }
    }
  }

  lemma {:induction false} NothingStored(clock: nat)
    ensures Wf(Init(clock).db) && StoredFirsts(Init(clock).db.events, [])
  {
  }

  lemma {:induction false} InsertStep(cfg: Config, s: Sys, x: EventInput, gap: nat, pushGap: nat)
    requires Wf(s.db)
    ensures
      var s' := Step(cfg, s, Op(Insert(x, gap, pushGap)));
      Wf(s'.db) && s'.db == InsertEvent(s.db, x, gap, pushGap, s.clock)
  {
    hide Wf, InsertEvent;
    StepKeepsWf(cfg, s, Op(Insert(x, gap, pushGap)));
  }

  /** So events and distinct admitted message ids are in bijection. */
  lemma {:induction false} OneEventPerMessage(cfg: Config, rcfg: RouterConfig, lib: RouterLib, clock: nat, arrivals: seq<Arrival>, messageId: string)
    requires NoCollision(lib) && Good(arrivals)
    ensures
      var events := ArriveAll(cfg, rcfg, lib, Init(clock), arrivals).db.events;
      var xs := Admissions(cfg, rcfg, lib, Init(clock), arrivals);
      && (Seen(xs, messageId) <==> exists i :: 0 <= i < |events| && events[i].messageId == messageId)
      && (forall i, j :: 0 <= i < |events| && 0 <= j < |events| && events[i].messageId == events[j].messageId ==> i == j)
  {
    hide Admitted, Step;
    ExactlyOnce(cfg, rcfg, lib, clock, arrivals);
    var events := ArriveAll(cfg, rcfg, lib, Init(clock), arrivals).db.events;
    var xs := Admissions(cfg, rcfg, lib, Init(clock), arrivals);
    FirstsAreFirst(xs);
    assert forall i :: 0 <= i < |events| ==> MadeFrom(events[i], Firsts(xs)[i]);
    assert Seen(Firsts(xs), messageId) <==> Seen(xs, messageId);
  }
}
