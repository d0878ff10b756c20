/** The running system: one database, a clock, three flushers and everybody else.

    A label is one atomic step of one actor: a store call made by a message handler or an inbox
    command, one statement group of a flusher, the passing of time, or the death of the listener
    process.  A run is any sequence of labels, so the actors interleave freely.  A flusher works
    from the snapshot it took when its listing ran; that snapshot is its program counter. */
module System {
  import opened Wrappers
  import opened Tables
  import Backoff

  /** Dispatcher settings as configured; decodes says which stored envelopes can be rebuilt. */
  datatype Config = Config(
    pushBatch: int, pushMaxDelay: int,
    a2aBatch: int, a2aMaxRetries: int, a2aMaxDelay: int,
    mediaBatch: int, mediaMaxRetries: int,
    decodes: string -> bool)
  {
    function PushBatch(): (n: nat)
      ensures n > 0
    {
      if pushBatch <= 0 then 20 else pushBatch
    }

    function PushMaxDelay(): int {
      if pushMaxDelay <= 0 then 300_000 else pushMaxDelay
    }

    function A2ABatch(): (n: nat)
      ensures n > 0
    {
      if a2aBatch <= 0 then 50 else a2aBatch
    }

    function MediaBatch(): (n: nat)
      ensures n > 0
    {
      if mediaBatch <= 0 then 20 else mediaBatch
    }

    function MediaMaxRetries(): (n: nat)
      ensures n > 0
    {
      if mediaMaxRetries <= 0 then 10 else mediaMaxRetries
    }
  }

  const MEDIA_MAX_DELAY_MS := 300_000
  const ACK_DEADLINE_MS := 15_000

  // ------------------------------------------------- what everybody else does

  datatype StoreOp =
    | Insert(input: EventInput, gap: nat, pushGap: nat)
    | Ack(consumer: string, eventId: string, binding: Option<Binding>)
    | BindSession(peerId: string, sessionId: string, sessionKey: string, source: string, updatedAt: int)
    | BindSessionForEvent(eventId: string, sessionId: string, sessionKey: string, source: string, updatedAt: int)
    | EnqueueA2A(message: A2AInput, gap: nat)
    | QueueMedia(media: MediaInput, gap: nat)

  function Apply(db: Db, op: StoreOp, now: int): Db {
    match op
    case Insert(x, gap, pushGap) => InsertEvent(db, x, gap, pushGap, now)
    case Ack(consumer, eventId, b) => AckEvent(db, consumer, eventId, b, now)
    case BindSession(peer, id, key, source, at) => BindPeer(db, peer, id, key, source, at)
    case BindSessionForEvent(eventId, id, key, source, at) => BindForEvent(db, eventId, id, key, source, at)
    case EnqueueA2A(x, gap) => Enqueue(db, x, gap, now)
    case QueueMedia(x, gap) => EnqueueMedia(db, x, gap, now)
  }

  // ------------------------------------------------------------- push flusher

  datatype PushPick = PushPick(id: int, eventId: string, attempt: int)

  function Picks(rows: seq<PushRow>): (picks: seq<PushPick>)
    ensures |picks| == |rows|
    ensures forall i :: 0 <= i < |rows| ==> picks[i] == PushPick(rows[i].id, rows[i].eventId, rows[i].attempt)
  {
    seq(|rows|, i requires 0 <= i < |rows| => PushPick(rows[i].id, rows[i].eventId, rows[i].attempt))
  }

  datatype PushPc =
    | PushIdle
    | Cleanup(left: seq<PushPick>, since: int)      // acking what was SENT; since is when the flush began
    | AckingEvent(pick: PushPick, left: seq<PushPick>, since: int) // row ACKED, event not yet CONSUMED
    | Dispatch(left: seq<PushPick>)                 // about to take the next pending row
    | FlyingEvent(pick: PushPick, left: seq<PushPick>) // row SENT, event not yet PUSHED
    | InFlight(pick: PushPick, left: seq<PushPick>) // both marked, not yet delivered
    | Delivered(pick: PushPick, left: seq<PushPick>, ok: bool)
    | SentEvent(pick: PushPick, left: seq<PushPick>) // row SENT again, event not yet PUSHED again

  datatype Delivery = Delivery(id: int, ok: bool)

  /** How often a delivery of the row is on record. */
  function Tally(deliveries: seq<Delivery>, id: int, ok: bool): nat {
    multiset(deliveries)[Delivery(id, ok)]
  }

  /** sends records every delivery attempt and its result; cut the rows whose delivery a crash
      interrupted before a success; unrecorded those of them whose failure had been reported; torn
      the rows whose event update a crash left out and no later mark of the row has made up for. */
  datatype PushLog = PushLog(sends: seq<Delivery>, cut: set<int>, unrecorded: set<int>, torn: set<int>)

  datatype PushLabel =
    | PushStart
    | CleanupNext
    | PushList(available: bool)
    | PushInflight
    | PushSend(ok: bool)
    | PushTarget(sessionId: string, sessionKey: string)
    | PushMark(error: string)
    | PushEvent
    | PushStop

  datatype PushState = PushState(db: Db, pc: PushPc, log: PushLog)

  /** MarkPushSent and MarkPushAcked are two statements each: the row in one step, its event in the
      next, which is PushEvent. */
  function PushStep(cfg: Config, db: Db, pc: PushPc, log: PushLog, l: PushLabel, now: int): PushState {
    match l
    case PushStart =>
      if pc.PushIdle?
      then PushState(db, Cleanup(Picks(Select(db.push, SentPush(db.events), cfg.PushBatch())), now), log)
      else PushState(db, pc, log)
    case CleanupNext =>
      if pc.Cleanup? && pc.left != []
      then PushState(PushAckedRow(db, pc.left[0].id, now), AckingEvent(pc.left[0], pc.left[1..], pc.since), log)
      else PushState(db, pc, log)
    case PushList(available) =>
      if pc.Cleanup? && pc.left == [] then
        var rows := Picks(Select(db.push, DuePush(db.events, pc.since), cfg.PushBatch()));
        PushState(db, if available && rows != [] then Dispatch(rows) else PushIdle, log)
      else PushState(db, pc, log)
    case PushInflight =>
      if pc.Dispatch? && pc.left != []
      then PushState(PushSentRow(db, pc.left[0].id, now + cfg.PushMaxDelay(), now), FlyingEvent(pc.left[0], pc.left[1..]), log)
      else PushState(db, pc, log)
    case PushSend(ok) =>
      if pc.InFlight?
      then PushState(db, Delivered(pc.pick, pc.left, ok), log.(sends := log.sends + [Delivery(pc.pick.id, ok)]))
      else PushState(db, pc, log)
    case PushTarget(sessionId, sessionKey) =>
      if pc.Delivered? && pc.ok
      then PushState(SetTargetSession(db, pc.pick.eventId, sessionId, sessionKey, now), pc, log)
      else PushState(db, pc, log)
    case PushMark(error) =>
      if !pc.Delivered? then PushState(db, pc, log)
      else if pc.ok then PushState(PushSentRow(db, pc.pick.id, now + ACK_DEADLINE_MS, now), SentEvent(pc.pick, pc.left), log)
      else
        var at := Backoff.NextRetryAt(now, pc.pick.attempt + 1, cfg.PushMaxDelay());
        PushState(MarkPushRetry(db, pc.pick.id, pc.pick.attempt + 1, at, error, now), Dispatch(pc.left), log)
    case PushEvent =>
      match pc {
        case AckingEvent(pick, left, since) => PushState(SetEventState(db, pick.eventId, Consumed, now), Cleanup(left, since), Mended(log, pick.id))
        case FlyingEvent(pick, left) => PushState(SetEventState(db, pick.eventId, Pushed, now), InFlight(pick, left), Mended(log, pick.id))
        case SentEvent(pick, left) => PushState(SetEventState(db, pick.eventId, Pushed, now), Dispatch(left), Mended(log, pick.id))
        case _ => PushState(db, pc, log)
      }
    case PushStop =>
      PushState(db, if pc.Dispatch? then PushIdle else pc, log)
  }

  function Mended(log: PushLog, id: int): PushLog {
    log.(torn := log.torn - {id})
  }

  function PushCrash(pc: PushPc, log: PushLog): PushLog {
    match pc
    case AckingEvent(pick, _, _) => log.(torn := log.torn + {pick.id})
    case FlyingEvent(pick, _) => log.(cut := log.cut + {pick.id}, torn := log.torn + {pick.id})
    case InFlight(pick, _) => log.(cut := log.cut + {pick.id})
    case Delivered(pick, _, false) => log.(cut := log.cut + {pick.id}, unrecorded := log.unrecorded + {pick.id})
    case _ => log
  }

  // -------------------------------------------------------------- a2a flusher

  datatype A2APc =
    | A2AIdle
    | Rows(left: seq<A2ARow>)
    | Published(row: A2ARow, left: seq<A2ARow>, ok: bool)
    | MarkedSent(row: A2ARow, left: seq<A2ARow>)    // route not yet bound

  /** The k-th try of a row: a publish, or an envelope that would not decode. */
  datatype Try = Try(id: int, k: int, at: int, ok: bool)

  /** tried repeats the tries as deliveries; cut lists those a crash left unmarked; unbound holds
      the rows whose route a crash left unbound. */
  datatype A2ALog = A2ALog(tries: seq<Try>, tried: seq<Delivery>, cut: seq<Delivery>, unbound: set<int>)

  datatype A2ALabel =
    | A2AStart
    | A2ANext(ok: bool, error: string)
    | A2AMark(error: string)
    | A2ABind
    | A2ADone
    | A2ACancel

  datatype A2AState = A2AState(db: Db, pc: A2APc, log: A2ALog)

  predicate Exhausted(cfg: Config, r: A2ARow) {
    cfg.a2aMaxRetries > 0 && r.attempt >= cfg.a2aMaxRetries
  }

  function LogTry(log: A2ALog, r: A2ARow, at: int, ok: bool): A2ALog {
    log.(tries := log.tries + [Try(r.id, r.attempt + 1, at, ok)], tried := log.tried + [Delivery(r.id, ok)])
  }

  function RetryRow(cfg: Config, db: Db, r: A2ARow, error: string, now: int): Db {
    MarkA2ARetry(db, r.id, r.attempt + 1, Backoff.NextRetryAt(now, r.attempt + 1, cfg.a2aMaxDelay), error, now)
  }

  function A2AStep(cfg: Config, db: Db, pc: A2APc, log: A2ALog, l: A2ALabel, now: int): A2AState {
    match l
    case A2AStart =>
      A2AState(db, if pc.A2AIdle? then Rows(Select(db.a2a, DueA2A(now), cfg.A2ABatch())) else pc, log)
    case A2ANext(ok, error) =>
      if pc.Rows? && pc.left != [] then
        var r, left := pc.left[0], pc.left[1..];
        if Exhausted(cfg, r) then A2AState(db, Rows(left), log)
        else if !cfg.decodes(r.envelope) then A2AState(RetryRow(cfg, db, r, error, now), Rows(left), LogTry(log, r, now, false))
        else A2AState(db, Published(r, left, ok), LogTry(log, r, now, ok))
      else A2AState(db, pc, log)
    case A2AMark(error) =>
      if pc.Published? then
        if pc.ok then A2AState(A2ASentRow(db, pc.row.id, now), MarkedSent(pc.row, pc.left), log)
        else A2AState(RetryRow(cfg, db, pc.row, error, now), Rows(pc.left), log)
      else A2AState(db, pc, log)
    case A2ABind =>
      if pc.MarkedSent? then A2AState(BindSent(db, pc.row, now), Rows(pc.left), log) else A2AState(db, pc, log)
    case A2ADone =>
      A2AState(db, if pc == Rows([]) then A2AIdle else pc, log)
    case A2ACancel =>
      A2AState(db, if pc.Rows? then A2AIdle else pc, log)
  }

  function A2ACrash(pc: A2APc, log: A2ALog): A2ALog {
    match pc
    case Published(r, _, ok) => log.(cut := log.cut + [Delivery(r.id, ok)])
    case MarkedSent(r, _) => log.(unbound := log.unbound + {r.id})
    case _ => log
  }

  // ------------------------------------------------------------ media flusher

  datatype MediaPc =
    | MediaIdle
    | MediaRows(left: seq<MediaRow>)
    | MediaDelivered(row: MediaRow, left: seq<MediaRow>, ok: bool)

  /** cut lists the deliveries a crash left unmarked. */
  datatype MediaLog = MediaLog(sends: seq<Delivery>, cut: seq<Delivery>)

  datatype MediaLabel =
    | MediaStart
    | MediaNext(ok: bool)
    | MediaMark(error: string)
    | MediaDone
    | MediaCancel

  datatype MediaState = MediaState(db: Db, pc: MediaPc, log: MediaLog)

  function MarkMediaFailure(cfg: Config, db: Db, r: MediaRow, error: string, now: int): Db {
    if r.attempt + 1 >= cfg.MediaMaxRetries() then MarkMediaFailed(db, r.id, error, now)
    else MarkMediaRetry(db, r.id, r.attempt + 1, Backoff.NextRetryAt(now, r.attempt + 1, MEDIA_MAX_DELAY_MS), error, now)
  }

  function MediaStep(cfg: Config, db: Db, pc: MediaPc, log: MediaLog, l: MediaLabel, now: int): MediaState {
    match l
    case MediaStart =>
      MediaState(db, if pc.MediaIdle? then MediaRows(Select(db.media, DueMedia(now), cfg.MediaBatch())) else pc, log)
    case MediaNext(ok) =>
      if pc.MediaRows? && pc.left != []
      then MediaState(db, MediaDelivered(pc.left[0], pc.left[1..], ok), log.(sends := log.sends + [Delivery(pc.left[0].id, ok)]))
      else MediaState(db, pc, log)
    case MediaMark(error) =>
      if pc.MediaDelivered? then
        MediaState(if pc.ok then MarkMediaSent(db, pc.row.id, now) else MarkMediaFailure(cfg, db, pc.row, error, now), MediaRows(pc.left), log)
      else MediaState(db, pc, log)
    case MediaDone =>
      MediaState(db, if pc == MediaRows([]) then MediaIdle else pc, log)
    case MediaCancel =>
      MediaState(db, if pc.MediaRows? then MediaIdle else pc, log)
  }

  function MediaCrash(pc: MediaPc, log: MediaLog): MediaLog {
    if pc.MediaDelivered? then log.(cut := log.cut + [Delivery(pc.row.id, pc.ok)]) else log
  }

  // --------------------------------------------------------------- the system

  datatype Sys = Sys(
    db: Db, clock: int,
    push: PushPc, pushLog: PushLog,
    a2a: A2APc, a2aLog: A2ALog,
    media: MediaPc, mediaLog: MediaLog)

  function Init(clock: nat): Sys {
    Sys(EMPTY, clock, PushIdle, PushLog([], {}, {}, {}), A2AIdle, A2ALog([], [], [], {}), MediaIdle, MediaLog([], []))
  }

  datatype Label =
    | Tick(elapsed: nat)
    | Op(op: StoreOp)
    | Push(push: PushLabel)
    | A2A(a2a: A2ALabel)
    | Media(media: MediaLabel)
    | Crash

  function Step(cfg: Config, s: Sys, l: Label): Sys {
    match l
    case Tick(elapsed) => s.(clock := s.clock + elapsed)
    case Op(op) => s.(db := Apply(s.db, op, s.clock))
    case Push(pl) => var r := PushStep(cfg, s.db, s.push, s.pushLog, pl, s.clock); s.(db := r.db, push := r.pc, pushLog := r.log)
    case A2A(al) => var r := A2AStep(cfg, s.db, s.a2a, s.a2aLog, al, s.clock); s.(db := r.db, a2a := r.pc, a2aLog := r.log)
    case Media(ml) => var r := MediaStep(cfg, s.db, s.media, s.mediaLog, ml, s.clock); s.(db := r.db, media := r.pc, mediaLog := r.log)
    case Crash =>
      s.(push := PushIdle, pushLog := PushCrash(s.push, s.pushLog),
         a2a := A2AIdle, a2aLog := A2ACrash(s.a2a, s.a2aLog),
         media := MediaIdle, mediaLog := MediaCrash(s.media, s.mediaLog))
  }

  /** The a2a flusher writes its own table and the routes. */
  lemma {:induction false} A2AWrites(cfg: Config, db: Db, pc: A2APc, log: A2ALog, l: A2ALabel, now: int)
    ensures
      var db' := A2AStep(cfg, db, pc, log, l, now).db;
      db' == db.(a2a := db'.a2a, routes := db'.routes)
  {
  }

  /** The media flusher writes its own table. */
  lemma {:induction false} MediaWrites(cfg: Config, db: Db, pc: MediaPc, log: MediaLog, l: MediaLabel, now: int)
    ensures
      var db' := MediaStep(cfg, db, pc, log, l, now).db;
      db' == db.(media := db'.media)
  {
  }

  /** The push flusher writes its own table and the events. */
  lemma {:induction false} PushWrites(cfg: Config, db: Db, pc: PushPc, log: PushLog, l: PushLabel, now: int)
    ensures
      var db' := PushStep(cfg, db, pc, log, l, now).db;
      db' == db.(push := db'.push, events := db'.events)
  {
    hide EventAt, PushAt, Truncate, Backoff.DelayMs;
  }

  predicate CrashFree(ls: seq<Label>) {
    forall i :: 0 <= i < |ls| ==> !ls[i].Crash?
  }

  /** What happens between two flushes, then the labels of the second. */
  datatype Round = Round(between: seq<Label>, flush: seq<Label>)

  function Run(cfg: Config, s: Sys, ls: seq<Label>): Sys
    decreases |ls|
  {
    if ls == [] then s else Run(cfg, Step(cfg, s, ls[0]), ls[1..])
  }

  lemma {:induction false} RunConcat(cfg: Config, s: Sys, a: seq<Label>, b: seq<Label>)
    ensures Run(cfg, s, a + b) == Run(cfg, Run(cfg, s, a), b)
    decreases |a|
  {
    if a == [] {
      assert a + b == b;
    } else {
      assert (a + b)[1..] == a[1..] + b;
      RunConcat(cfg, Step(cfg, s, a[0]), a[1..], b);
    }
  }

  lemma {:induction false} RunSnoc(cfg: Config, s: Sys, ls: seq<Label>, l: Label)
    ensures Run(cfg, s, ls + [l]) == Step(cfg, Run(cfg, s, ls), l)
  {
    RunConcat(cfg, s, ls, [l]);
  }

  lemma {:induction false} ClockNeverGoesBack(cfg: Config, s: Sys, ls: seq<Label>)
    ensures s.clock <= Run(cfg, s, ls).clock
    decreases |ls|
  {
    if ls != [] {
      ClockNeverGoesBack(cfg, Step(cfg, s, ls[0]), ls[1..]);
    }
  }
}
