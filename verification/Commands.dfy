/** The callers of the store: the message handler and the inbox commands. */
module Commands {
  import opened Wrappers
  import opened Tables
  import opened System
  import opened Schema
  import opened Store
  import opened Inbox
  import D = Dispatchers
  import E = Envelopes
  import G = Signing
  import I = Intake

  // ------------------------------------------------------------------- intake

  /** Topic, JSON, core fields, signature, then the insert; the first check that fails decides. */
  method HandleA2AMessage(es: EventStore, cfg: I.RouterConfig, lib: I.RouterLib, topic: string, raw: string, eventId: string, gap: nat, pushGap: nat)
    returns (reason: I.Reason)
    modifies es`db
    ensures
      var (verdict, e) := I.Admit(cfg, lib, topic, raw, es.clock);
      if e == None then reason == verdict && es.db == old(es.db)
      else
        var x := I.InputOf(cfg, lib, e.value, E.Marshal(e.value), eventId, es.clock);
        && es.db == InsertEvent(old(es.db), x, gap, pushGap, es.clock)
        && reason == if InsertOutcome(old(es.db), x) == NoReason then I.Stored else I.DuplicateMessageId
  {
    if !I.IsInboundTopic(topic, cfg) { return I.IgnoredTopic; }
    var parsed := E.ParseEnvelope(lib.lib, raw);
    if parsed == None { return I.InvalidJson; }
    var e := parsed.value;
    var fault := I.CoreCheck(e);
    if fault != I.NoFault { return I.InvalidEnvelope(fault); }
    if cfg.sharedSecret != "" {
      var verdict := G.VerifyEnvelope(lib.lib, cfg.sharedSecret, e, 0, es.clock);
      if verdict != E.Accepted { return I.SignatureRejected(verdict); }
    }
    var payload := G.MarshalText(e);
    var res := es.InsertIncomingEvent(I.InputOf(cfg, lib, e, payload, eventId, es.clock), gap, pushGap);
    reason := if res.created then I.Stored else I.DuplicateMessageId;
  }

  // --------------------------------------------------------------- inbox pull

  function Clamp(v: int, min: int, max: int, default: int): int {
    var v := if v <= 0 then default else v;
    var v := if v < min then min else v;
    if v > max then max else v
  }

  /** Only the openclaw consumer binds routes while pulling, by session key and message time. */
  function RouteBinds(consumer: string, sessionKey: string, events: seq<Event>): seq<Label> {
    if events == [] || consumer != "openclaw" || sessionKey == "" then []
    else
      (if events[0].peerId == "" then [] else [Op(BindSessionForEvent(events[0].eventId, "", sessionKey, "openclaw", events[0].msgTs))])
      + RouteBinds(consumer, sessionKey, events[1..])
  }

  lemma {:induction false} BindStep(cfg: Config, s: Sys, done: seq<Label>, e: Event, sessionKey: string)
    ensures
      var l, cur := Op(BindSessionForEvent(e.eventId, "", sessionKey, "openclaw", e.msgTs)), Run(cfg, s, done);
      && Run(cfg, s, done + [l]) == Step(cfg, cur, l)
      && Step(cfg, cur, l) == cur.(db := BindForEvent(cur.db, e.eventId, "", sessionKey, "openclaw", e.msgTs))
  {
    hide Run, BindForEvent;
    RunSnoc(cfg, s, done, Op(BindSessionForEvent(e.eventId, "", sessionKey, "openclaw", e.msgTs)));
  }

  /** How many of these binds are accepted. */
  function BindCount(cfg: Config, s: Sys, consumer: string, sessionKey: string, events: seq<Event>): nat
    decreases |events|
  {
    if events == [] || consumer != "openclaw" || sessionKey == "" then 0
    else if events[0].peerId == "" then BindCount(cfg, s, consumer, sessionKey, events[1..])
    else
      (if BindForEventOutcome(s.db, events[0].eventId, "", sessionKey, events[0].msgTs) == Bound then 1 else 0)
      + BindCount(cfg, Step(cfg, s, Op(BindSessionForEvent(events[0].eventId, "", sessionKey, "openclaw", events[0].msgTs))), consumer, sessionKey, events[1..])
  }

  /** The bind of the i-th event, if it has a peer, and those after it. */
  lemma {:induction false} BindsFrom(cfg: Config, s: Sys, consumer: string, sessionKey: string, events: seq<Event>, i: nat)
    requires consumer == "openclaw" && sessionKey != "" && i < |events|
    ensures
      var e := events[i];
      var l := Op(BindSessionForEvent(e.eventId, "", sessionKey, "openclaw", e.msgTs));
      var rest := events[i + 1..];
      && RouteBinds(consumer, sessionKey, events[i..]) == (if e.peerId == "" then [] else [l]) + RouteBinds(consumer, sessionKey, rest)
      && BindCount(cfg, s, consumer, sessionKey, events[i..])
           == if e.peerId == "" then BindCount(cfg, s, consumer, sessionKey, rest)
              else (if BindForEventOutcome(s.db, e.eventId, "", sessionKey, e.msgTs) == Bound then 1 else 0)
                   + BindCount(cfg, Step(cfg, s, l), consumer, sessionKey, rest)
  {
    hide Step, BindForEventOutcome;
    assert events[i..][1..] == events[i + 1..];
  }

  lemma {:induction false} OthersBindNothing(cfg: Config, s: Sys, consumer: string, sessionKey: string, events: seq<Event>)
    ensures Run(cfg, s, []) == s
    ensures consumer != "openclaw" || sessionKey == "" ==>
      RouteBinds(consumer, sessionKey, events) == [] && BindCount(cfg, s, consumer, sessionKey, events) == 0
  {
  }

  lemma {:induction false} NoBinds(cfg: Config, s: Sys, consumer: string, sessionKey: string)
    ensures RouteBinds(consumer, sessionKey, []) == [] && BindCount(cfg, s, consumer, sessionKey, []) == 0
  {
  }

  method BindRoutes(es: EventStore, consumer: string, sessionKey: string, events: seq<Event>, ghost cfg: Config, ghost s: Sys) returns (count: nat)
    requires D.At(es, s)
    modifies es`db
    ensures D.At(es, Run(cfg, s, RouteBinds(consumer, sessionKey, events)))
    ensures count == BindCount(cfg, s, consumer, sessionKey, events)
  {
    hide Step, BindForEvent, BindForEventOutcome, RouteBinds, BindCount, Run;
    count := 0;
    OthersBindNothing(cfg, s, consumer, sessionKey, events);
    if consumer != "openclaw" || sessionKey == "" { return; }
    ghost var done := [];
    assert events[0..] == events;
    for i := 0 to |events|
      invariant count + BindCount(cfg, Run(cfg, s, done), consumer, sessionKey, events[i..]) == BindCount(cfg, s, consumer, sessionKey, events)
      invariant done + RouteBinds(consumer, sessionKey, events[i..]) == RouteBinds(consumer, sessionKey, events)
      invariant D.At(es, Run(cfg, s, done))
    {
      var e := events[i];
      BindsFrom(cfg, Run(cfg, s, done), consumer, sessionKey, events, i);
      if e.peerId != "" {
        ghost var l := Op(BindSessionForEvent(e.eventId, "", sessionKey, "openclaw", e.msgTs));
        BindStep(cfg, s, done, e, sessionKey);
        assert done + ([l] + RouteBinds(consumer, sessionKey, events[i + 1..])) == done + [l] + RouteBinds(consumer, sessionKey, events[i + 1..]);
        done := done + [l];
        var bound, _ := es.BindPeerSessionForEvent(e.eventId, "", sessionKey, "openclaw", e.msgTs);
        if bound { count := count + 1; }
      }
    }
    assert events[|events|..] == [] && done + [] == done;
    NoBinds(cfg, Run(cfg, s, done), consumer, sessionKey);
  }

  /** What came before ended in a nap of 300 ms, with others at work, that began by the deadline. */
  ghost predicate LastNap(cfg: Config, s: Sys, before: seq<Label>, m: nat, nap: nat -> seq<Label>, k: nat, deadline: int) {
    m <= |before| && before[m..] == nap(k) + [Tick(300)] && Run(cfg, s, before[..m]).clock <= deadline
  }

  ghost predicate NappedInTime(cfg: Config, s: Sys, before: seq<Label>, nap: nat -> seq<Label>, deadline: int) {
    exists m, k :: LastNap(cfg, s, before, m, nap, k, deadline)
  }

  method Nap(es: EventStore, nap: nat -> seq<Label>, round: nat, ghost deadline: int, ghost cfg: Config, ghost s: Sys, ghost before: seq<Label>)
    returns (ghost longer: seq<Label>)
    requires D.At(es, Run(cfg, s, before)) && D.AllOutside(before) && D.AllOutside(nap(round)) && es.clock <= deadline
    modifies es
    ensures D.At(es, Run(cfg, s, longer)) && D.AllOutside(longer) && old(es.clock) + 300 <= es.clock
    ensures longer != [] && NappedInTime(cfg, s, longer, nap, deadline)
  {
    hide Step;
    ghost var seen := Run(cfg, s, before);
    D.Meanwhile(es, nap(round), cfg, seen);
    D.Meanwhile(es, [Tick(300)], cfg, Run(cfg, seen, nap(round)));
    ClockNeverGoesBack(cfg, seen, nap(round));
    TickMoves(cfg, Run(cfg, seen, nap(round)));
    RunConcat(cfg, s, before, nap(round));
    RunConcat(cfg, s, before + nap(round), [Tick(300)]);
    longer := before + nap(round) + [Tick(300)];
    assert longer[..|before|] == before && longer[|before|..] == nap(round) + [Tick(300)];
    assert LastNap(cfg, s, longer, |before|, nap, round, deadline);
  }

  /** Long polling: pull, and while nothing comes and time is left, sleep and pull again.  What it
      returns is one pull of the store at one moment, and the cursor that belongs to it. */
  method InboxPull(es: EventStore, consumer: string, cursor: int, limit: int, waitSec: int, peerId: string, sessionKey: string,
                   nap: nat -> seq<Label>, ghost cfg: Config, ghost s: Sys)
    returns (events: seq<Event>, next: int, bound: nat, ghost visit: Visit)
    requires D.At(es, s) && forall i: nat :: D.AllOutside(nap(i))
    modifies es
    ensures D.AllOutside(visit.before) && visit.limit == if limit <= 0 then 20 else if limit > 200 then 200 else limit
    ensures
      var seen := Run(cfg, s, visit.before);
      && events == Pull(seen.db, consumer, cursor, visit.limit, peerId)
      && (Wf(s.db) ==> IsBatch(seen.db, consumer, cursor, visit.limit, peerId, events))
      && next == (if events == [] then cursor else events[|events| - 1].seqNo)
      && bound == BindCount(cfg, seen, consumer, sessionKey, events)
      && D.At(es, Run(cfg, seen, RouteBinds(consumer, sessionKey, events)))
    ensures events == [] ==> waitSec <= 0 || es.clock > old(es.clock) + 1000 * waitSec
    ensures visit.before != [] ==> waitSec > 0 && NappedInTime(cfg, s, visit.before, nap, old(es.clock) + 1000 * waitSec)
  {
    hide Pull, Step, Wf, IsBatch, BindCount, RouteBinds, NappedInTime, BindForEventOutcome;
    ghost var before := [];
    var deadline := es.clock + 1000 * waitSec;
    var round := 0;
    while true
      invariant D.At(es, Run(cfg, s, before)) && D.AllOutside(before) && 0 <= round
      invariant before != [] ==> waitSec > 0 && NappedInTime(cfg, s, before, nap, deadline)
      decreases deadline - es.clock
    {
      ghost var seen := Run(cfg, s, before);
      events := es.PullEvents(consumer, cursor, Clamp(limit, 1, 200, 20), peerId);
      visit := Visit(before, Clamp(limit, 1, 200, 20));
      if Wf(s.db) {
        RunKeepsWf(cfg, s, before);
      }
      if |events| > 0 {
        bound := BindRoutes(es, consumer, sessionKey, events, cfg, seen);
        return events, events[|events| - 1].seqNo, bound, visit;
      }
      if waitSec <= 0 || es.clock > deadline {
        NoBinds(cfg, seen, consumer, sessionKey);
        return [], cursor, 0, visit;
      }
      assert D.AllOutside(nap(round));
      before := Nap(es, nap, round, deadline, cfg, s, before);
      round := round + 1;
    }
  }

  lemma {:induction false} TickMoves(cfg: Config, s: Sys)
    ensures Run(cfg, s, [Tick(300)]).clock == s.clock + 300
  {
  }

  // ---------------------------------------------------------------- inbox ack

  datatype AckCommand = AckCommand(
    eventId: string, consumer: string, sessionKey: string, sessionId: string, notify: bool, summary: string,
    mediaUrl: string, channel: string, to: string, accountId: string, threadId: string)

  datatype Hint = Hint(channel: string, to: string, key: string)

  /** Who may bind a route: the openclaw consumer by key, others only with an id as well. */
  function BindingOf(c: AckCommand): Option<Tables.Binding> {
    if c.consumer == "openclaw" && c.sessionKey != "" then Some(Binding("", c.sessionKey, "openclaw"))
    else if c.consumer != "openclaw" && c.sessionKey != "" then
      if c.sessionId != "" then Some(Binding(c.sessionId, c.sessionKey, "inbox-ack")) else None
    else if c.sessionId != "" || c.sessionKey != "" then Some(Binding(c.sessionId, c.sessionKey, "inbox-ack"))
    else None
  }

  /** A missing channel or recipient is taken from the hint. */
  function Fill(to: (string, string), hint: Option<Hint>): (string, string) {
    if hint == None || (to.0 != "" && to.1 != "") then to
    else (if to.0 == "" then hint.value.channel else to.0, if to.1 == "" then hint.value.to else to.1)
  }

  function First(a: string, b: string): string {
    if a != "" then a else b
  }

  /** The notification an ack asks for, if it asks for one and a recipient can be found.  qr is the
      payment code in the event's payload, hints reads a session key, latest is the most recently
      active session with a channel. */
  function Notification(c: AckCommand, event: Option<Event>, qr: string, hints: string -> Option<Hint>, latest: Option<Hint>): Option<MediaInput> {
    var mediaUrl := if c.notify && c.mediaUrl == "" && event.Some? then qr else c.mediaUrl;
    var key := First(c.sessionKey, if event.Some? then event.value.targetSessionKey else "");
    var to := Fill(Fill((c.channel, c.to), hints(key)), latest);
    if !c.notify || (c.summary == "" && mediaUrl == "") || to.0 == "" || to.1 == "" then None
    else Some(MediaInput(c.eventId, First(key, if latest.Some? then latest.value.key else ""), to.0, to.1, c.accountId, c.threadId, c.summary, mediaUrl))
  }

  /** Who may bind what: the openclaw consumer by its key alone, and anybody who names a session id. */
  lemma {:induction false} WhoMayBind(c: AckCommand)
    ensures
      var b, trusted := BindingOf(c), c.consumer == "openclaw" && c.sessionKey != "";
      && (b.Some? <==> trusted || c.sessionId != "")
      && (b.Some? ==> b.value.sessionKey == c.sessionKey)
      && (trusted ==> b.value.sessionId == "" && b.value.source == "openclaw")
      && (b.Some? && !trusted ==> b.value.sessionId == c.sessionId && b.value.source == "inbox-ack")
  {
  }

  /** The first of the texts that is not empty. */
  function FirstOf(texts: seq<string>): string {
    if texts == [] then "" else if texts[0] != "" then texts[0] else FirstOf(texts[1..])
  }

  /** What is queued: nothing without a request, a text or a picture, a channel and a recipient; and
      each of these from the first place that has it, the command before the event's session, that
      before the session that was last active. */
  lemma {:induction false} WhatIsQueued(c: AckCommand, event: Option<Event>, qr: string, hints: string -> Option<Hint>, latest: Option<Hint>)
    ensures
      var n := Notification(c, event, qr, hints, latest);
      var target := if event == None then "" else event.value.targetSessionKey;
      var hint := hints(FirstOf([c.sessionKey, target]));
      var channel := FirstOf([c.channel, if hint == None then "" else hint.value.channel, if latest == None then "" else latest.value.channel]);
      var to := FirstOf([c.to, if hint == None then "" else hint.value.to, if latest == None then "" else latest.value.to]);
      var picture := FirstOf([c.mediaUrl, if event == None then "" else qr]);
      && (n.Some? <==> c.notify && (c.summary != "" || picture != "") && channel != "" && to != "")
      && (n.Some? ==>
            && n.value.eventId == c.eventId && n.value.channel == channel && n.value.to == to
            && n.value.messageText == c.summary && n.value.mediaUrl == picture
            && n.value.accountId == c.accountId && n.value.threadId == c.threadId
            && n.value.sessionKey == FirstOf([c.sessionKey, target, if latest == None then "" else latest.value.key]))
  {
    FirstOfTwo(c.sessionKey, if event == None then "" else event.value.targetSessionKey);
    FirstOfTwo(c.mediaUrl, if event == None then "" else qr);
    var hint := hints(First(c.sessionKey, if event == None then "" else event.value.targetSessionKey));
    FirstOfThree(c.channel, if hint == None then "" else hint.value.channel, if latest == None then "" else latest.value.channel);
    FirstOfThree(c.to, if hint == None then "" else hint.value.to, if latest == None then "" else latest.value.to);
    FirstOfThree(c.sessionKey, if event == None then "" else event.value.targetSessionKey, if latest == None then "" else latest.value.key);
  }

  lemma {:induction false} FirstOfTwo(a: string, b: string)
    ensures FirstOf([a, b]) == First(a, b)
  {
    assert [a, b][1..] == [b] && [b][1..] == [];
    assert FirstOf([b]) == if b != "" then b else FirstOf([]);
  }

  lemma {:induction false} FirstOfThree(a: string, b: string, c: string)
    ensures FirstOf([a, b, c]) == First(a, First(b, c))
  {
    assert [a, b, c][1..] == [b, c];
    FirstOfTwo(b, c);
  }

  function AckAndNotify(db: Db, c: AckCommand, notification: Option<MediaInput>, gap: nat, ts: int): Db {
    var db' := Tables.AckEvent(db, c.consumer, c.eventId, BindingOf(c), ts);
    if AckOutcome(db, c.consumer, c.eventId, BindingOf(c), ts).inserted && notification.Some?
    then EnqueueMedia(db', notification.value, gap, ts)
    else db'
  }

  /** Only the first ack of the pair queues the notification. */
  method InboxAck(es: EventStore, c: AckCommand, qr: string, hints: string -> Option<Hint>, latest: Option<Hint>, gap: nat)
    returns (res: AckResult, queued: bool)
    modifies es`db
    ensures c.eventId == "" ==> es.db == old(es.db) && res == AckResult(false, 0, false, false, NoEvent)
    ensures c.eventId != "" ==>
      es.db == AckAndNotify(old(es.db), c, Notification(c, EventOf(old(es.db), c.eventId), qr, hints, latest), gap, es.clock)
    ensures c.eventId != "" ==> res == AckOutcome(old(es.db), c.consumer, c.eventId, BindingOf(c), es.clock)
    ensures queued <==>
      && c.eventId != "" && res.inserted && Notification(c, EventOf(old(es.db), c.eventId), qr, hints, latest).Some?
      && forall r :: r in old(es.db).media ==> r.eventId != c.eventId
  {
    hide EventAt, MediaKnown, BindForEventOutcome;
    if c.eventId == "" { return AckResult(false, 0, false, false, NoEvent), false; }
    var event := es.GetEvent(c.eventId);
    var notification := Notification(c, event, qr, hints, latest);
    queued := false;
    res := es.AckEvent(c.consumer, c.eventId, BindingOf(c));
    if res.inserted && notification.Some? {
      queued := es.EnqueueMediaOutbox(notification.value, gap);
    }
  }

  /** Retrying an ack, with whatever notification, changes neither acks nor routes nor the media
      queue. */
  lemma {:induction false} AckAgainNotifiesNobody(db: Db, c: AckCommand, notification: Option<MediaInput>, gap: nat, ts: int)
    requires Wf(db) && (c.consumer, c.eventId) in db.acks
    ensures
      var db' := AckAndNotify(db, c, notification, gap, ts);
      db'.acks == db.acks && db'.routes == db.routes && db'.media == db.media
  {
    hide Wf, Tables.AckEvent, AckOutcome;
    AckAgainChangesNothing(db, c.consumer, c.eventId, BindingOf(c), ts);
  }
}
