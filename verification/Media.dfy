/** What the media flusher does to its table over a whole run: bounded work. */
module MediaDelivery {
  import opened Wrappers
  import opened Tables
  import opened System
  import opened Schema

  // ------------------------------------------------------- rows and snapshots

  ghost predicate Listed(media: seq<MediaRow>, r: MediaRow) {
    var n := MediaAt(media, r.id);
    n < |media| && media[n] == r && Open(r.status)
  }

  ghost predicate Snapshot(media: seq<MediaRow>, left: seq<MediaRow>) {
    && (forall j :: 0 <= j < |left| ==> Listed(media, left[j]))
    && (forall i, j :: 0 <= i < j < |left| ==> left[i].id < left[j].id)
  }

  ghost predicate PcHolds(media: seq<MediaRow>, pc: MediaPc) {
    match pc
    case MediaIdle => true
    case MediaRows(left) => Snapshot(media, left)
    case MediaDelivered(r, left, _) => Snapshot(media, [r] + left)
  }

  lemma {:induction false} MediaAtIs(media: seq<MediaRow>, mediaSeq: int, n: nat)
    requires WfMedia(media, mediaSeq) && n < |media|
    ensures MediaAt(media, media[n].id) == n
  {
  }

  lemma {:induction false} SnapshotKept(media: seq<MediaRow>, mediaSeq: int, n: nat, r: MediaRow, left: seq<MediaRow>)
    requires WfMedia(media, mediaSeq) && n < |media| && SameMedia(media[n], r) && Snapshot(media, left)
    requires forall j :: 0 <= j < |left| ==> left[j].id != r.id
    ensures Snapshot(media[n := r], left)
  {
    assert WfMedia(media[n := r], mediaSeq);
    forall j | 0 <= j < |left| ensures Listed(media[n := r], left[j]) {
      MediaAtIs(media[n := r], mediaSeq, MediaAt(media, left[j].id));
    }
  }

  lemma {:induction false} SnapshotWithOneMore(media: seq<MediaRow>, r: MediaRow, left: seq<MediaRow>)
    requires WfMedia(media + [r], r.id) && Snapshot(media, left)
    ensures Snapshot(media + [r], left)
  {
    forall j | 0 <= j < |left| ensures Listed(media + [r], left[j]) {
      assert Listed(media, left[j]);
      MediaAtIs(media + [r], r.id, MediaAt(media, left[j].id));
    }
  }

  lemma {:induction false} ListingIsSnapshot(media: seq<MediaRow>, mediaSeq: int, now: int, limit: nat)
    requires WfMedia(media, mediaSeq)
    ensures Snapshot(media, Select(media, DueMedia(now), limit))
  {
    var rows := Select(media, DueMedia(now), limit);
    SelectOrdered(media, DueMedia(now), limit, (r: MediaRow) => r.id);
    forall j | 0 <= j < |rows| ensures Listed(media, rows[j]) {
      assert rows[j] in rows && DueMedia(now)(rows[j]);
      var n: nat :| n < |media| && media[n] == rows[j];
      MediaAtIs(media, mediaSeq, n);
    }
  }

  lemma {:induction false} HeadListed(media: seq<MediaRow>, left: seq<MediaRow>)
    requires Snapshot(media, left) && left != []
    ensures Listed(media, left[0]) && Snapshot(media, left[1..])
    ensures forall j :: 0 <= j < |left[1..]| ==> left[0].id < left[1..][j].id
    ensures [left[0]] + left[1..] == left
  {
    assert forall j :: 0 <= j < |left[1..]| ==> left[1..][j] == left[j + 1];
  }

  // --------------------------------------------------------------- accounting

  function InProgress(pc: MediaPc, id: int, ok: bool): nat {
    if pc.MediaDelivered? && pc.row.id == id && pc.ok == ok then 1 else 0
  }

  /** What a status says about the attempt counter. */
  predicate AttemptFits(cfg: Config, r: MediaRow) {
    match r.status
    case Pending => r.attempt == 0
    case Retry => 1 <= r.attempt < cfg.MediaMaxRetries()
    case Sent => 0 <= r.attempt < cfg.MediaMaxRetries()
    case Failed => r.attempt == cfg.MediaMaxRetries() - 1
    case Acked => false
  }

  predicate Ended(r: MediaRow) {
    r.status == Sent || r.status == Failed
  }

  ghost predicate RowAccount(cfg: Config, r: MediaRow, pc: MediaPc, log: MediaLog) {
    && AttemptFits(cfg, r)
    && Tally(log.sends, r.id, true) == (if r.status == Sent then 1 else 0) + Tally(log.cut, r.id, true) + InProgress(pc, r.id, true)
    && Tally(log.sends, r.id, false) == r.attempt + (if r.status == Failed then 1 else 0) + Tally(log.cut, r.id, false) + InProgress(pc, r.id, false)
  }

  ghost predicate Accounted(cfg: Config, media: seq<MediaRow>, mediaSeq: int, pc: MediaPc, log: MediaLog) {
    && (forall i :: 0 <= i < |media| ==> RowAccount(cfg, media[i], pc, log))
    && (forall d :: d in log.sends ==> d.id <= mediaSeq)
    && (forall d :: d in log.cut ==> d.id <= mediaSeq)
  }

  /** Deliveries that can still happen to a row. */
  function RowOwed(cfg: Config, r: MediaRow): int {
    if Open(r.status) then cfg.MediaMaxRetries() - r.attempt else 0
  }

  function Owed(cfg: Config, media: seq<MediaRow>): int {
    if media == [] then 0 else RowOwed(cfg, media[0]) + Owed(cfg, media[1..])
  }

  /** Every delivery not lost to a crash was paid for by a row, or by the budget at the start. */
  ghost predicate Paid(cfg: Config, budget: int, media: seq<MediaRow>, pc: MediaPc, log: MediaLog) {
    Owed(cfg, media) + |log.sends| <= |log.cut| + (if pc.MediaDelivered? then 1 else 0) + cfg.MediaMaxRetries() * |media| + budget
  }

  ghost predicate Tracked(cfg: Config, budget: int, media: seq<MediaRow>, mediaSeq: int, pc: MediaPc, log: MediaLog) {
    && WfMedia(media, mediaSeq) && PcHolds(media, pc) && Accounted(cfg, media, mediaSeq, pc, log) && Paid(cfg, budget, media, pc, log)
  }

  lemma {:induction false} OwedSet(cfg: Config, media: seq<MediaRow>, n: nat, r: MediaRow)
    requires n < |media|
    ensures Owed(cfg, media[n := r]) - Owed(cfg, [r]) == Owed(cfg, media) - Owed(cfg, [media[n]])
  {
    if n > 0 {
      assert media[n := r][1..] == media[1..][n - 1 := r];
      OwedSet(cfg, media[1..], n - 1, r);
    } else {
      assert media[0 := r][1..] == media[1..];
    }
  }

  lemma {:induction false} OwedWithOneMore(cfg: Config, media: seq<MediaRow>, r: MediaRow)
    ensures Owed(cfg, media + [r]) == Owed(cfg, media) + Owed(cfg, [r])
  {
    if media == [] {
      assert media + [r] == [r];
    } else {
      assert (media + [r])[1..] == media[1..] + [r];
      OwedWithOneMore(cfg, media[1..], r);
    }
  }

  lemma {:induction false} OwedNothingIffClosed(cfg: Config, media: seq<MediaRow>)
    requires forall i :: 0 <= i < |media| ==> AttemptFits(cfg, media[i])
    ensures Owed(cfg, media) >= 0
    ensures Owed(cfg, media) == 0 <==> forall i :: 0 <= i < |media| ==> Ended(media[i])
  {
    if media != [] {
      assert AttemptFits(cfg, media[0]);
      forall i | 0 <= i < |media[1..]| ensures AttemptFits(cfg, media[1..][i]) {
        assert AttemptFits(cfg, media[i + 1]);
      }
      OwedNothingIffClosed(cfg, media[1..]);
      assert forall i :: 0 < i < |media| ==> media[i] == media[1..][i - 1];
    }
  }

  // --------------------------------------------------------------- every step

  /** The outcome of a delivery, as written into the row. */
  predicate Outcome(cfg: Config, r: MediaRow, ok: bool, r': MediaRow) {
    && SameMedia(r, r')
    && if ok then r'.status == Sent && r'.attempt == r.attempt
       else if r.attempt + 1 >= cfg.MediaMaxRetries() then r'.status == Failed && r'.attempt == r.attempt
       else r'.status == Retry && r'.attempt == r.attempt + 1
  }

  lemma {:induction false} MarkAccounted(cfg: Config, media: seq<MediaRow>, mediaSeq: int, row: MediaRow, left: seq<MediaRow>, ok: bool, log: MediaLog, n: nat, r: MediaRow)
    requires WfMedia(media, mediaSeq) && Accounted(cfg, media, mediaSeq, MediaDelivered(row, left, ok), log)
    requires n < |media| && media[n] == row && Open(row.status) && Outcome(cfg, row, ok, r)
    ensures Accounted(cfg, media[n := r], mediaSeq, MediaRows(left), log)
  {
    var media' := media[n := r];
    forall i | 0 <= i < |media'| ensures RowAccount(cfg, media'[i], MediaRows(left), log) {
      assert RowAccount(cfg, media[i], MediaDelivered(row, left, ok), log);
    }
  }

  lemma {:induction false} MarkTracked(cfg: Config, budget: int, media: seq<MediaRow>, mediaSeq: int, row: MediaRow, left: seq<MediaRow>, ok: bool, log: MediaLog, n: nat, r: MediaRow)
    requires Tracked(cfg, budget, media, mediaSeq, MediaDelivered(row, left, ok), log)
    requires n == MediaAt(media, row.id) && n < |media| && Outcome(cfg, row, ok, r)
    ensures Tracked(cfg, budget, media[n := r], mediaSeq, MediaRows(left), log)
  {
    hide Accounted;
    HeadListed(media, [row] + left);
    assert ([row] + left)[1..] == left;
    SnapshotKept(media, mediaSeq, n, r, left);
    MarkAccounted(cfg, media, mediaSeq, row, left, ok, log, n, r);
    assert AttemptFits(cfg, row) by { RowFits(cfg, media, mediaSeq, MediaDelivered(row, left, ok), log, n); }
    OwedSet(cfg, media, n, r);
  }

  lemma {:induction false} RowFits(cfg: Config, media: seq<MediaRow>, mediaSeq: int, pc: MediaPc, log: MediaLog, n: nat)
    requires Accounted(cfg, media, mediaSeq, pc, log) && n < |media|
    ensures AttemptFits(cfg, media[n])
  {
    assert RowAccount(cfg, media[n], pc, log);
  }

  lemma {:induction false} SendTracked(cfg: Config, budget: int, media: seq<MediaRow>, mediaSeq: int, left: seq<MediaRow>, ok: bool, log: MediaLog)
    requires Tracked(cfg, budget, media, mediaSeq, MediaRows(left), log) && left != []
    ensures Tracked(cfg, budget, media, mediaSeq, MediaDelivered(left[0], left[1..], ok), log.(sends := log.sends + [Delivery(left[0].id, ok)]))
  {
    HeadListed(media, left);
    var pc' := MediaDelivered(left[0], left[1..], ok);
    var log' := log.(sends := log.sends + [Delivery(left[0].id, ok)]);
    forall i | 0 <= i < |media| ensures RowAccount(cfg, media[i], pc', log') {
      assert RowAccount(cfg, media[i], MediaRows(left), log);
    }
    assert media[MediaAt(media, left[0].id)].id <= mediaSeq;
  }

  lemma {:induction false} QuietTracked(cfg: Config, budget: int, media: seq<MediaRow>, mediaSeq: int, pc: MediaPc, pc': MediaPc, log: MediaLog)
    requires Tracked(cfg, budget, media, mediaSeq, pc, log) && !pc.MediaDelivered? && !pc'.MediaDelivered? && PcHolds(media, pc')
    ensures Tracked(cfg, budget, media, mediaSeq, pc', log)
  {
    forall i | 0 <= i < |media| ensures RowAccount(cfg, media[i], pc', log) {
      assert RowAccount(cfg, media[i], pc, log);
    }
  }

  lemma {:induction false} CrashTracked(cfg: Config, budget: int, media: seq<MediaRow>, mediaSeq: int, pc: MediaPc, log: MediaLog)
    requires Tracked(cfg, budget, media, mediaSeq, pc, log)
    ensures Tracked(cfg, budget, media, mediaSeq, MediaIdle, MediaCrash(pc, log))
  {
    forall i | 0 <= i < |media| ensures RowAccount(cfg, media[i], MediaIdle, MediaCrash(pc, log)) {
      assert RowAccount(cfg, media[i], pc, log);
    }
    if pc.MediaDelivered? {
      HeadListed(media, [pc.row] + pc.left);
    }
  }

  lemma {:induction false} EnqueueAccounted(cfg: Config, media: seq<MediaRow>, mediaSeq: int, pc: MediaPc, log: MediaLog, r: MediaRow)
    requires Accounted(cfg, media, mediaSeq, pc, log) && mediaSeq < r.id && r.status == Pending && r.attempt == 0
    requires pc.MediaDelivered? ==> pc.row.id <= mediaSeq
    ensures Accounted(cfg, media + [r], r.id, pc, log)
  {
    assert Delivery(r.id, true) !in log.sends && Delivery(r.id, false) !in log.sends;
    assert Delivery(r.id, true) !in log.cut && Delivery(r.id, false) !in log.cut;
    var media' := media + [r];
    forall i | 0 <= i < |media'| ensures RowAccount(cfg, media'[i], pc, log) {
      assert i < |media| ==> RowAccount(cfg, media[i], pc, log);
    }
  }

  lemma {:induction false} EnqueuePaid(cfg: Config, budget: int, media: seq<MediaRow>, pc: MediaPc, log: MediaLog, r: MediaRow)
    requires Paid(cfg, budget, media, pc, log) && r.status == Pending && r.attempt == 0
    ensures Paid(cfg, budget, media + [r], pc, log)
  {
    OwedWithOneMore(cfg, media, r);
    assert cfg.MediaMaxRetries() * |media + [r]| == cfg.MediaMaxRetries() * |media| + cfg.MediaMaxRetries();
  }

  lemma {:induction false} EnqueueTracked(cfg: Config, budget: int, media: seq<MediaRow>, mediaSeq: int, pc: MediaPc, log: MediaLog, r: MediaRow)
    requires Tracked(cfg, budget, media, mediaSeq, pc, log) && WfMedia(media + [r], r.id)
    requires mediaSeq < r.id && r.status == Pending && r.attempt == 0
    ensures Tracked(cfg, budget, media + [r], r.id, pc, log)
  {
    hide Accounted, Paid, Snapshot;
    if !pc.MediaIdle? {
      SnapshotWithOneMore(media, r, if pc.MediaRows? then pc.left else [pc.row] + pc.left);
    }
    if pc.MediaDelivered? {
      HeadListed(media, [pc.row] + pc.left);
    }
    EnqueueAccounted(cfg, media, mediaSeq, pc, log, r);
    EnqueuePaid(cfg, budget, media, pc, log, r);
  }

  ghost predicate Steady(cfg: Config, budget: int, db: Db, pc: MediaPc, log: MediaLog) {
    Tracked(cfg, budget, db.media, db.mediaSeq, pc, log)
  }

  lemma {:induction false} MarkSteady(cfg: Config, budget: int, db: Db, row: MediaRow, left: seq<MediaRow>, ok: bool, log: MediaLog, error: string, now: int)
    requires Steady(cfg, budget, db, MediaDelivered(row, left, ok), log)
    ensures Steady(cfg, budget, if ok then MarkMediaSent(db, row.id, now) else MarkMediaFailure(cfg, db, row, error, now), MediaRows(left), log)
  {
    hide Accounted, Paid;
    HeadListed(db.media, [row] + left);
    var n := MediaAt(db.media, row.id);
    MarkTracked(cfg, budget, db.media, db.mediaSeq, row, left, ok, log, n,
      (if ok then MarkMediaSent(db, row.id, now) else MarkMediaFailure(cfg, db, row, error, now)).media[n]);
  }

  lemma {:induction false} MediaStepSteady(cfg: Config, budget: int, db: Db, pc: MediaPc, log: MediaLog, l: MediaLabel, now: int)
    requires Steady(cfg, budget, db, pc, log)
    ensures
      var r := MediaStep(cfg, db, pc, log, l, now);
      Steady(cfg, budget, r.db, r.pc, r.log)
  {
    hide Accounted, Paid, Snapshot, MarkMediaSent, MarkMediaFailure;
    match l
    case MediaStart =>
      if pc.MediaIdle? {
        ListingIsSnapshot(db.media, db.mediaSeq, now, cfg.MediaBatch());
        QuietTracked(cfg, budget, db.media, db.mediaSeq, pc, MediaRows(Select(db.media, DueMedia(now), cfg.MediaBatch())), log);
      }
    case MediaNext(ok) =>
      if pc.MediaRows? && pc.left != [] {
        SendTracked(cfg, budget, db.media, db.mediaSeq, pc.left, ok, log);
      }
    case MediaMark(error) =>
      if pc.MediaDelivered? {
        MarkSteady(cfg, budget, db, pc.row, pc.left, pc.ok, log, error, now);
      }
    case _ =>
      if pc.MediaRows? {
        QuietTracked(cfg, budget, db.media, db.mediaSeq, pc, MediaIdle, log);
      }
  }

  /** Of the store calls made by others, only a media enqueue touches the media table. */
  lemma {:induction false} OnlyEnqueuesMedia(db: Db, op: StoreOp, now: int)
    ensures
      var db' := Apply(db, op, now);
      if op.QueueMedia? && !MediaKnown(db.media, op.media.eventId)
      then db'.media == db.media + [NewMedia(op.media, db.mediaSeq + 1 + op.gap, now)] && db'.mediaSeq == db.mediaSeq + 1 + op.gap
      else db'.media == db.media && db'.mediaSeq == db.mediaSeq
  {
    hide InsertOutcome, MediaKnown;
  }

  lemma {:induction false} OpSteady(cfg: Config, budget: int, db: Db, pc: MediaPc, log: MediaLog, op: StoreOp, now: int)
    requires Wf(db) && Steady(cfg, budget, db, pc, log)
    ensures Steady(cfg, budget, Apply(db, op, now), pc, log)
  {
    hide Tracked, Grows, WfMedia, MediaKnown, Apply;
    OpKeepsWf(db, op, now);
    OnlyEnqueuesMedia(db, op, now);
    if op.QueueMedia? && !MediaKnown(db.media, op.media.eventId) {
      EnqueueTracked(cfg, budget, db.media, db.mediaSeq, pc, log, NewMedia(op.media, db.mediaSeq + 1 + op.gap, now));
    }
  }

  ghost predicate MediaSteady(cfg: Config, budget: int, s: Sys) {
    Wf(s.db) && Steady(cfg, budget, s.db, s.media, s.mediaLog)
  }

  lemma {:induction false} StepMediaSteady(cfg: Config, budget: int, s: Sys, l: Label)
    requires MediaSteady(cfg, budget, s)
    ensures MediaSteady(cfg, budget, Step(cfg, s, l))
  {
    hide Tracked, Wf, Grows, PushStep, A2AStep, MediaStep, Apply;
    StepKeepsWf(cfg, s, l);
    match l
    case Tick(_) =>
    case Op(op) => OpSteady(cfg, budget, s.db, s.media, s.mediaLog, op, s.clock);
    case Push(pl) => PushWrites(cfg, s.db, s.push, s.pushLog, pl, s.clock);
    case A2A(al) => A2AWrites(cfg, s.db, s.a2a, s.a2aLog, al, s.clock);
    case Media(ml) => MediaStepSteady(cfg, budget, s.db, s.media, s.mediaLog, ml, s.clock);
    case Crash => CrashTracked(cfg, budget, s.db.media, s.db.mediaSeq, s.media, s.mediaLog);
  }

  lemma {:induction false} RunMediaSteady(cfg: Config, budget: int, s: Sys, ls: seq<Label>)
    requires MediaSteady(cfg, budget, s)
    ensures MediaSteady(cfg, budget, Run(cfg, s, ls))
    decreases |ls|
  {
    hide MediaSteady, Step;
    if ls != [] {
      StepMediaSteady(cfg, budget, s, ls[0]);
      RunMediaSteady(cfg, budget, Step(cfg, s, ls[0]), ls[1..]);
    }
  }

  lemma {:induction false} InitMediaSteady(cfg: Config, clock: nat)
    ensures MediaSteady(cfg, 0, Init(clock))
  {
  }

  // ------------------------------------------------------------ main theorems

  /** Between flushes, crashes included: the status of a row determines the range of its attempt
      counter; a row was delivered once if SENT and never otherwise, and failed as often as it
      counts (once more if FAILED), over and above what crashes left unmarked. */
  lemma {:induction false} MediaAccounting(cfg: Config, clock: nat, ls: seq<Label>)
    requires Run(cfg, Init(clock), ls).media.MediaIdle?
    ensures
      var s := Run(cfg, Init(clock), ls);
      forall r :: r in s.db.media ==>
        && AttemptFits(cfg, r)
        && Tally(s.mediaLog.sends, r.id, true) == (if r.status == Sent then 1 else 0) + Tally(s.mediaLog.cut, r.id, true)
        && Tally(s.mediaLog.sends, r.id, false) == r.attempt + (if r.status == Failed then 1 else 0) + Tally(s.mediaLog.cut, r.id, false)
  {
    hide Run, Wf, PcHolds, Paid, WfMedia;
    InitMediaSteady(cfg, clock);
    RunMediaSteady(cfg, 0, Init(clock), ls);
    var s := Run(cfg, Init(clock), ls);
    forall r | r in s.db.media ensures RowAccount(cfg, r, s.media, s.mediaLog) {
      var i :| 0 <= i < |s.db.media| && s.db.media[i] == r;
    }
  }

  lemma {:induction false} StepCutsNothing(cfg: Config, s: Sys, l: Label)
    requires !l.Crash?
    ensures Step(cfg, s, l).mediaLog.cut == s.mediaLog.cut
  {
    hide MarkMediaSent, MarkMediaFailure, PushStep, A2AStep, Apply;
  }

  lemma {:induction false} CrashFreeCutsNothing(cfg: Config, s: Sys, ls: seq<Label>)
    requires CrashFree(ls)
    ensures Run(cfg, s, ls).mediaLog.cut == s.mediaLog.cut
    decreases |ls|
  {
    hide Step;
    if ls != [] {
      StepCutsNothing(cfg, s, ls[0]);
      CrashFreeCutsNothing(cfg, Step(cfg, s, ls[0]), ls[1..]);
    }
  }

  /** Without crashes each row gets at most MaxRetries deliveries, all of them if it is FAILED. */
  lemma {:induction false} MediaTriesAreBounded(cfg: Config, clock: nat, ls: seq<Label>, r: MediaRow)
    requires CrashFree(ls) && Run(cfg, Init(clock), ls).media.MediaIdle? && r in Run(cfg, Init(clock), ls).db.media
    ensures
      var sends := Run(cfg, Init(clock), ls).mediaLog.sends;
      var tries := Tally(sends, r.id, true) + Tally(sends, r.id, false);
      && tries <= cfg.MediaMaxRetries()
      && (r.status == Failed ==> tries == cfg.MediaMaxRetries())
      && (Open(r.status) ==> tries == r.attempt < cfg.MediaMaxRetries())
  {
    MediaAccounting(cfg, clock, ls);
    CrashFreeCutsNothing(cfg, Init(clock), ls);
  }

  /** All work is paid for: deliveries made and deliveries still possible never exceed MaxRetries
      for every row ever queued, plus one for each crash during a delivery; and nothing more is
      possible exactly when every row is SENT or FAILED. */
  lemma {:induction false} MediaWorkIsBounded(cfg: Config, clock: nat, ls: seq<Label>)
    ensures
      var s := Run(cfg, Init(clock), ls);
      && 0 <= Owed(cfg, s.db.media)
      && Owed(cfg, s.db.media) + |s.mediaLog.sends| <= cfg.MediaMaxRetries() * |s.db.media| + |s.mediaLog.cut| + (if s.media.MediaDelivered? then 1 else 0)
      && (Owed(cfg, s.db.media) == 0 <==> forall i :: 0 <= i < |s.db.media| ==> Ended(s.db.media[i]))
  {
    hide Run, Wf, PcHolds, WfMedia;
    InitMediaSteady(cfg, clock);
    RunMediaSteady(cfg, 0, Init(clock), ls);
    var s := Run(cfg, Init(clock), ls);
    forall i | 0 <= i < |s.db.media| ensures AttemptFits(cfg, s.db.media[i]) {
      assert RowAccount(cfg, s.db.media[i], s.media, s.mediaLog);
    }
    OwedNothingIffClosed(cfg, s.db.media);
  }

  // ---------------------------------------------------------------- one flush

  /** What may happen while a flush is going on: anything but its end. */
  predicate Inside(l: Label) {
    !l.Crash? && (l.Media? ==> !l.media.MediaStart? && !l.media.MediaDone? && !l.media.MediaCancel?)
  }

  function Ids(rows: seq<MediaRow>): seq<int> {
    seq(|rows|, i requires 0 <= i < |rows| => rows[i].id)
  }

  function SentTo(sends: seq<Delivery>): seq<int> {
    seq(|sends|, i requires 0 <= i < |sends| => sends[i].id)
  }

  /** Deliveries so far followed by rows to go spell out the batch. */
  ghost predicate Underway(batch: seq<int>, start: nat, pc: MediaPc, log: MediaLog) {
    !pc.MediaIdle? && start <= |log.sends| && SentTo(log.sends[start..]) + Ids(pc.left) == batch
  }

  lemma {:induction false} StepUnderway(cfg: Config, s: Sys, l: Label, batch: seq<int>, start: nat)
    requires Underway(batch, start, s.media, s.mediaLog) && Inside(l)
    ensures Underway(batch, start, Step(cfg, s, l).media, Step(cfg, s, l).mediaLog)
  {
    hide MarkMediaSent, MarkMediaFailure, PushStep, A2AStep, Apply;
    if l.Media? && l.media.MediaNext? && s.media.MediaRows? && s.media.left != [] {
      var sends, left, d := s.mediaLog.sends, s.media.left, Delivery(s.media.left[0].id, l.media.ok);
      assert (sends + [d])[start..] == sends[start..] + [d];
      assert SentTo(sends[start..] + [d]) == SentTo(sends[start..]) + [left[0].id];
      assert Ids(left) == [left[0].id] + Ids(left[1..]);
    }
  }

  lemma {:induction false} RunUnderway(cfg: Config, s: Sys, ls: seq<Label>, batch: seq<int>, start: nat)
    requires Underway(batch, start, s.media, s.mediaLog) && forall i :: 0 <= i < |ls| ==> Inside(ls[i])
    ensures Underway(batch, start, Run(cfg, s, ls).media, Run(cfg, s, ls).mediaLog)
    decreases |ls|
  {
    hide Underway, Step, Inside;
    if ls != [] {
      StepUnderway(cfg, s, ls[0], batch, start);
      RunUnderway(cfg, Step(cfg, s, ls[0]), ls[1..], batch, start);
    }
  }

  function FirstDue(cfg: Config, s: Sys): seq<MediaRow> {
    Select(s.db.media, DueMedia(s.clock), cfg.MediaBatch())
  }

  /** The labels of one flush, from its listing to its last row, others interleaved. */
  ghost predicate WholeFlush(cfg: Config, s: Sys, ls: seq<Label>) {
    && s.media.MediaIdle? && (forall i :: 0 <= i < |ls| ==> Inside(ls[i]))
    && Run(cfg, Step(cfg, s, Media(MediaStart)), ls).media == MediaRows([])
  }

  function AfterFlush(cfg: Config, s: Sys, ls: seq<Label>): Sys {
    Run(cfg, Step(cfg, s, Media(MediaStart)), ls)
  }

  /** A flush that runs to its end delivers each of the first due rows once, in id order. */
  lemma {:induction false} FlushDeliversBatch(cfg: Config, s: Sys, ls: seq<Label>)
    requires WholeFlush(cfg, s, ls)
    ensures
      var sends, sends' := s.mediaLog.sends, AfterFlush(cfg, s, ls).mediaLog.sends;
      sends <= sends' && SentTo(sends'[|sends|..]) == Ids(FirstDue(cfg, s))
  {
    hide Apply, PushStep, A2AStep;
    var s1 := Step(cfg, s, Media(MediaStart));
    var start := |s.mediaLog.sends|;
    assert SentTo(s.mediaLog.sends[start..]) + Ids(FirstDue(cfg, s)) == Ids(FirstDue(cfg, s));
    RunUnderway(cfg, s1, ls, Ids(FirstDue(cfg, s)), start);
    SendsGrow(cfg, s1, ls);
  }

  /** It lowers the deliveries still possible by at least the number of rows it delivers; only rows
      queued meanwhile add to them. */
  lemma {:induction false} FlushPays(cfg: Config, budget: int, s: Sys, ls: seq<Label>)
    requires MediaSteady(cfg, budget, s) && WholeFlush(cfg, s, ls)
    ensures
      var s' := AfterFlush(cfg, s, ls);
      |FirstDue(cfg, s)| + Owed(cfg, s'.db.media) <= Owed(cfg, s.db.media) + cfg.MediaMaxRetries() * (|s'.db.media| - |s.db.media|)
  {
    hide Step, Tracked, Wf, SentTo, Ids;
    var s1, s' := Step(cfg, s, Media(MediaStart)), AfterFlush(cfg, s, ls);
    FlushDeliversBatch(cfg, s, ls);
    BatchLength(s.mediaLog.sends, s'.mediaLog.sends, FirstDue(cfg, s));
    var spare := Owed(cfg, s.db.media) + |s.mediaLog.sends| - |s.mediaLog.cut| - cfg.MediaMaxRetries() * |s.db.media|;
    Rebudget(cfg, budget, spare, s);
    StepMediaSteady(cfg, spare, s, Media(MediaStart));
    StepCutsNothing(cfg, s, Media(MediaStart));
    RunMediaSteady(cfg, spare, s1, ls);
    CrashFreeCutsNothing(cfg, s1, ls);
    SteadyPaid(cfg, spare, s');
    assert cfg.MediaMaxRetries() * (|s'.db.media| - |s.db.media|) == cfg.MediaMaxRetries() * |s'.db.media| - cfg.MediaMaxRetries() * |s.db.media|;
  }

  lemma {:induction false} BatchLength(sends: seq<Delivery>, sends': seq<Delivery>, rows: seq<MediaRow>)
    requires sends <= sends' && SentTo(sends'[|sends|..]) == Ids(rows)
    ensures |sends'| == |sends| + |rows|
  {
    assert |SentTo(sends'[|sends|..])| == |sends'| - |sends|;
  }

  lemma {:induction false} SteadyPaid(cfg: Config, budget: int, s: Sys)
    requires MediaSteady(cfg, budget, s)
    ensures Paid(cfg, budget, s.db.media, s.media, s.mediaLog)
  {
  }

  lemma {:induction false} Rebudget(cfg: Config, budget: int, spare: int, s: Sys)
    requires MediaSteady(cfg, budget, s) && s.media.MediaIdle?
    requires spare >= Owed(cfg, s.db.media) + |s.mediaLog.sends| - |s.mediaLog.cut| - cfg.MediaMaxRetries() * |s.db.media|
    ensures MediaSteady(cfg, spare, s)
  {
  }

  lemma {:induction false} StepSendsGrow(cfg: Config, s: Sys, l: Label)
    ensures s.mediaLog.sends <= Step(cfg, s, l).mediaLog.sends
  {
    hide MarkMediaSent, MarkMediaFailure, PushStep, A2AStep, Apply;
  }

  lemma {:induction false} SendsGrow(cfg: Config, s: Sys, ls: seq<Label>)
    ensures s.mediaLog.sends <= Run(cfg, s, ls).mediaLog.sends
    decreases |ls|
  {
    hide Step;
    if ls != [] {
      StepSendsGrow(cfg, s, ls[0]);
      SendsGrow(cfg, Step(cfg, s, ls[0]), ls[1..]);
    }
  }
}
