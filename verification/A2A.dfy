/** What the a2a flusher does to its table over a whole run. */
module A2ADelivery {
  import opened Wrappers
  import opened Tables
  import opened System
  import opened Schema
  import Backoff

  // ------------------------------------------------------- rows and snapshots

  /** The row is in the table exactly as it was listed. */
  ghost predicate Listed(a2a: seq<A2ARow>, r: A2ARow) {
    var n := A2AAt(a2a, r.id);
    n < |a2a| && a2a[n] == r
  }

  /** A snapshot: open rows, due by now, in id order, none changed since. */
  ghost predicate Snapshot(a2a: seq<A2ARow>, left: seq<A2ARow>, clock: int) {
    && (forall j :: 0 <= j < |left| ==> Listed(a2a, left[j]) && Open(left[j].status) && left[j].nextRetryAt <= clock)
    && (forall i, j :: 0 <= i < j < |left| ==> left[i].id < left[j].id)
  }

  ghost predicate After(r: A2ARow, left: seq<A2ARow>) {
    forall j :: 0 <= j < |left| ==> r.id < left[j].id
  }

  ghost predicate Publishing(cfg: Config, a2a: seq<A2ARow>, r: A2ARow) {
    Listed(a2a, r) && Open(r.status) && !Exhausted(cfg, r)
  }

  ghost predicate AwaitsBind(a2a: seq<A2ARow>, r: A2ARow) {
    var n := A2AAt(a2a, r.id);
    n < |a2a| && SameA2A(r, a2a[n]) && a2a[n].status == Sent
  }

  ghost predicate PcHolds(cfg: Config, a2a: seq<A2ARow>, pc: A2APc, clock: int) {
    match pc
    case A2AIdle => true
    case Rows(left) => Snapshot(a2a, left, clock)
    case Published(r, left, _) => Publishing(cfg, a2a, r) && Snapshot(a2a, left, clock) && After(r, left)
    case MarkedSent(r, left) => AwaitsBind(a2a, r) && Snapshot(a2a, left, clock) && After(r, left)
  }

  lemma {:induction false} A2AAtIs(a2a: seq<A2ARow>, a2aSeq: int, n: nat)
    requires WfA2A(a2a, a2aSeq) && n < |a2a|
    ensures A2AAt(a2a, a2a[n].id) == n
  {
  }

  lemma {:induction false} ListedKept(a2a: seq<A2ARow>, a2a': seq<A2ARow>, a2aSeq': int, r: A2ARow)
    requires Listed(a2a, r) && A2AKept(a2a, a2a') && WfA2A(a2a', a2aSeq') && a2a'[A2AAt(a2a, r.id)] == r
    ensures Listed(a2a', r)
  {
    A2AAtIs(a2a', a2aSeq', A2AAt(a2a, r.id));
  }

  lemma {:induction false} SnapshotKept(a2a: seq<A2ARow>, a2aSeq: int, n: nat, r: A2ARow, left: seq<A2ARow>, clock: int)
    requires WfA2A(a2a, a2aSeq) && n < |a2a| && SameA2A(a2a[n], r) && Snapshot(a2a, left, clock)
    requires forall j :: 0 <= j < |left| ==> left[j].id != r.id
    ensures WfA2A(a2a[n := r], a2aSeq) && Snapshot(a2a[n := r], left, clock)
  {
    forall j | 0 <= j < |left| ensures Listed(a2a[n := r], left[j]) {
      ListedKept(a2a, a2a[n := r], a2aSeq, left[j]);
    }
  }

  lemma {:induction false} SnapshotWithOneMore(a2a: seq<A2ARow>, r: A2ARow, left: seq<A2ARow>, clock: int)
    requires WfA2A(a2a + [r], r.id) && Snapshot(a2a, left, clock)
    ensures Snapshot(a2a + [r], left, clock)
  {
    var a2a' := a2a + [r];
    assert forall i :: 0 <= i < |a2a| ==> a2a'[i] == a2a[i];
    forall j | 0 <= j < |left| ensures Listed(a2a', left[j]) {
      ListedKept(a2a, a2a', r.id, left[j]);
    }
  }

  lemma {:induction false} ListingIsSnapshot(a2a: seq<A2ARow>, a2aSeq: int, clock: int, limit: nat)
    requires WfA2A(a2a, a2aSeq)
    ensures Snapshot(a2a, Select(a2a, DueA2A(clock), limit), clock)
  {
    var rows := Select(a2a, DueA2A(clock), limit);
    SelectOrdered(a2a, DueA2A(clock), limit, (r: A2ARow) => r.id);
    forall j | 0 <= j < |rows| ensures Listed(a2a, rows[j]) && DueA2A(clock)(rows[j]) {
      assert rows[j] in rows;
      var n: nat :| n < |a2a| && a2a[n] == rows[j];
      A2AAtIs(a2a, a2aSeq, n);
    }
  }

  lemma {:induction false} HeadListed(a2a: seq<A2ARow>, left: seq<A2ARow>, clock: int)
    requires Snapshot(a2a, left, clock) && left != []
    ensures Listed(a2a, left[0]) && Open(left[0].status) && Snapshot(a2a, left[1..], clock) && After(left[0], left[1..])
  {
    assert forall j :: 0 <= j < |left[1..]| ==> left[1..][j] == left[j + 1];
  }

  // --------------------------------------------------------------- accounting

  /** The try a flusher is about to record for the row. */
  function InProgress(pc: A2APc, id: int, ok: bool): nat {
    if pc.Published? && pc.row.id == id && pc.ok == ok then 1 else 0
  }

  ghost predicate RowAccount(cfg: Config, r: A2ARow, pc: A2APc, log: A2ALog) {
    && Tally(log.tried, r.id, true) == (if r.status == Sent then 1 else 0) + Tally(log.cut, r.id, true) + InProgress(pc, r.id, true)
    && Tally(log.tried, r.id, false) == r.attempt + Tally(log.cut, r.id, false) + InProgress(pc, r.id, false)
    && 0 <= r.attempt
    && (r.status == Pending ==> r.attempt == 0) && (r.status == Retry ==> 0 < r.attempt)
    && (Open(r.status) || r.status == Sent)
    && (cfg.a2aMaxRetries > 0 ==> r.attempt <= cfg.a2aMaxRetries && (r.status == Sent ==> r.attempt < cfg.a2aMaxRetries))
  }

  ghost predicate Accounted(cfg: Config, a2a: seq<A2ARow>, a2aSeq: int, pc: A2APc, log: A2ALog) {
    && (forall i :: 0 <= i < |a2a| ==> RowAccount(cfg, a2a[i], pc, log))
    && (forall d :: d in log.tried ==> d.id <= a2aSeq)
    && (forall d :: d in log.cut ==> d.id <= a2aSeq)
  }

  ghost predicate Tracked(cfg: Config, a2a: seq<A2ARow>, a2aSeq: int, pc: A2APc, log: A2ALog, clock: int) {
    WfA2A(a2a, a2aSeq) && PcHolds(cfg, a2a, pc, clock) && Accounted(cfg, a2a, a2aSeq, pc, log)
  }

  lemma {:induction false} RowSetAccounted(cfg: Config, a2a: seq<A2ARow>, a2aSeq: int, n: nat, r: A2ARow, pc: A2APc, log: A2ALog, pc': A2APc, log': A2ALog)
    requires WfA2A(a2a, a2aSeq) && n < |a2a| && SameA2A(a2a[n], r) && Accounted(cfg, a2a, a2aSeq, pc, log)
    requires log'.cut == log.cut && (log'.tried == log.tried || exists ok :: log'.tried == log.tried + [Delivery(r.id, ok)])
    requires RowAccount(cfg, r, pc', log')
    requires forall id, ok :: id != r.id ==> InProgress(pc', id, ok) == InProgress(pc, id, ok)
    ensures Accounted(cfg, a2a[n := r], a2aSeq, pc', log')
  {
    var a2a' := a2a[n := r];
    forall i | 0 <= i < |a2a'| ensures RowAccount(cfg, a2a'[i], pc', log') {
      assert RowAccount(cfg, a2a[i], pc, log);
    }
  }

  lemma {:induction false} StartTracked(cfg: Config, a2a: seq<A2ARow>, a2aSeq: int, log: A2ALog, clock: int, limit: nat)
    requires Tracked(cfg, a2a, a2aSeq, A2AIdle, log, clock)
    ensures Tracked(cfg, a2a, a2aSeq, Rows(Select(a2a, DueA2A(clock), limit)), log, clock)
  {
    ListingIsSnapshot(a2a, a2aSeq, clock, limit);
    var pc' := Rows(Select(a2a, DueA2A(clock), limit));
    assert forall i :: 0 <= i < |a2a| ==> RowAccount(cfg, a2a[i], A2AIdle, log) && RowAccount(cfg, a2a[i], pc', log);
  }

  /** Changing what is left to do, with nothing being published. */
  lemma {:induction false} QuietTracked(cfg: Config, a2a: seq<A2ARow>, a2aSeq: int, pc: A2APc, pc': A2APc, log: A2ALog, clock: int)
    requires Tracked(cfg, a2a, a2aSeq, pc, log, clock) && !pc.Published? && !pc'.Published? && PcHolds(cfg, a2a, pc', clock)
    ensures Tracked(cfg, a2a, a2aSeq, pc', log, clock)
  {
    assert forall i :: 0 <= i < |a2a| ==> RowAccount(cfg, a2a[i], pc, log) && RowAccount(cfg, a2a[i], pc', log);
  }

  lemma {:induction false} DecodeFailureTracked(cfg: Config, a2a: seq<A2ARow>, a2aSeq: int, left: seq<A2ARow>, log: A2ALog, clock: int, n: nat, r: A2ARow, log': A2ALog)
    requires Tracked(cfg, a2a, a2aSeq, Rows(left), log, clock) && left != [] && !Exhausted(cfg, left[0])
    requires n == A2AAt(a2a, left[0].id) && n < |a2a| && SameA2A(a2a[n], r) && r.status == Retry && r.attempt == left[0].attempt + 1
    requires log'.cut == log.cut && log'.tried == log.tried + [Delivery(r.id, false)]
    ensures Tracked(cfg, a2a[n := r], a2aSeq, Rows(left[1..]), log', clock)
  {
    HeadListed(a2a, left, clock);
    SnapshotKept(a2a, a2aSeq, n, r, left[1..], clock);
    assert RowAccount(cfg, a2a[n], Rows(left), log);
    RowSetAccounted(cfg, a2a, a2aSeq, n, r, Rows(left), log, Rows(left[1..]), log');
  }

  lemma {:induction false} PublishTracked(cfg: Config, a2a: seq<A2ARow>, a2aSeq: int, left: seq<A2ARow>, ok: bool, log: A2ALog, clock: int, log': A2ALog)
    requires Tracked(cfg, a2a, a2aSeq, Rows(left), log, clock) && left != [] && !Exhausted(cfg, left[0])
    requires log'.cut == log.cut && log'.tried == log.tried + [Delivery(left[0].id, ok)]
    ensures Tracked(cfg, a2a, a2aSeq, Published(left[0], left[1..], ok), log', clock)
  {
    HeadListed(a2a, left, clock);
    var n := A2AAt(a2a, left[0].id);
    assert RowAccount(cfg, a2a[n], Rows(left), log);
    RowSetAccounted(cfg, a2a, a2aSeq, n, a2a[n], Rows(left), log, Published(left[0], left[1..], ok), log');
    assert a2a[n := a2a[n]] == a2a;
  }

  lemma {:induction false} SentTracked(cfg: Config, a2a: seq<A2ARow>, a2aSeq: int, row: A2ARow, left: seq<A2ARow>, log: A2ALog, clock: int, n: nat, r: A2ARow)
    requires Tracked(cfg, a2a, a2aSeq, Published(row, left, true), log, clock)
    requires n == A2AAt(a2a, row.id) && n < |a2a| && SameA2A(a2a[n], r) && r.status == Sent && r.attempt == row.attempt
    ensures Tracked(cfg, a2a[n := r], a2aSeq, MarkedSent(row, left), log, clock)
  {
    SnapshotKept(a2a, a2aSeq, n, r, left, clock);
    A2AAtIs(a2a[n := r], a2aSeq, n);
    assert RowAccount(cfg, a2a[n], Published(row, left, true), log);
    RowSetAccounted(cfg, a2a, a2aSeq, n, r, Published(row, left, true), log, MarkedSent(row, left), log);
  }

  lemma {:induction false} FailureTracked(cfg: Config, a2a: seq<A2ARow>, a2aSeq: int, row: A2ARow, left: seq<A2ARow>, log: A2ALog, clock: int, n: nat, r: A2ARow)
    requires Tracked(cfg, a2a, a2aSeq, Published(row, left, false), log, clock)
    requires n == A2AAt(a2a, row.id) && n < |a2a| && SameA2A(a2a[n], r) && r.status == Retry && r.attempt == row.attempt + 1
    ensures Tracked(cfg, a2a[n := r], a2aSeq, Rows(left), log, clock)
  {
    SnapshotKept(a2a, a2aSeq, n, r, left, clock);
    assert RowAccount(cfg, a2a[n], Published(row, left, false), log);
    RowSetAccounted(cfg, a2a, a2aSeq, n, r, Published(row, left, false), log, Rows(left), log);
  }

  lemma {:induction false} CrashTracked(cfg: Config, a2a: seq<A2ARow>, a2aSeq: int, pc: A2APc, log: A2ALog, clock: int)
    requires Tracked(cfg, a2a, a2aSeq, pc, log, clock)
    ensures Tracked(cfg, a2a, a2aSeq, A2AIdle, A2ACrash(pc, log), clock)
  {
    forall i | 0 <= i < |a2a| ensures RowAccount(cfg, a2a[i], A2AIdle, A2ACrash(pc, log)) {
      assert RowAccount(cfg, a2a[i], pc, log);
    }
    assert pc.Published? ==> a2a[A2AAt(a2a, pc.row.id)].id <= a2aSeq;
  }

  lemma {:induction false} EnqueueAccounted(cfg: Config, a2a: seq<A2ARow>, a2aSeq: int, pc: A2APc, log: A2ALog, r: A2ARow)
    requires Accounted(cfg, a2a, a2aSeq, pc, log) && a2aSeq < r.id && r.status == Pending && r.attempt == 0
    requires pc.Published? ==> pc.row.id <= a2aSeq
    ensures Accounted(cfg, a2a + [r], r.id, pc, log)
  {
    var a2a' := a2a + [r];
    assert Delivery(r.id, true) !in log.tried && Delivery(r.id, false) !in log.tried;
    assert Delivery(r.id, true) !in log.cut && Delivery(r.id, false) !in log.cut;
    forall i | 0 <= i < |a2a'| ensures RowAccount(cfg, a2a'[i], pc, log) {
      assert i < |a2a| ==> RowAccount(cfg, a2a[i], pc, log);
    }
  }

  lemma {:induction false} EnqueueTracked(cfg: Config, a2a: seq<A2ARow>, a2aSeq: int, pc: A2APc, log: A2ALog, clock: int, r: A2ARow)
    requires Tracked(cfg, a2a, a2aSeq, pc, log, clock) && WfA2A(a2a + [r], r.id)
    requires a2aSeq < r.id && r.status == Pending && r.attempt == 0
    ensures Tracked(cfg, a2a + [r], r.id, pc, log, clock)
  {
    hide Accounted, Snapshot;
    if !pc.A2AIdle? {
      SnapshotWithOneMore(a2a, r, pc.left, clock);
      if !pc.Rows? {
        A2AAtIs(a2a + [r], r.id, A2AAt(a2a, pc.row.id));
      }
    }
    assert pc.Published? ==> a2a[A2AAt(a2a, pc.row.id)].id <= a2aSeq;
    EnqueueAccounted(cfg, a2a, a2aSeq, pc, log, r);
  }

  // --------------------------------------------------------------- every step

  ghost predicate Steady(cfg: Config, db: Db, pc: A2APc, log: A2ALog, clock: int) {
    Tracked(cfg, db.a2a, db.a2aSeq, pc, log, clock)
  }

  lemma {:induction false} DecodeFailureSteady(cfg: Config, db: Db, left: seq<A2ARow>, log: A2ALog, error: string, now: int)
    requires Steady(cfg, db, Rows(left), log, now) && left != [] && !Exhausted(cfg, left[0])
    ensures Steady(cfg, RetryRow(cfg, db, left[0], error, now), Rows(left[1..]), LogTry(log, left[0], now, false), now)
  {
    hide Accounted;
    var n := A2AAt(db.a2a, left[0].id);
    assert Listed(db.a2a, left[0]);
    DecodeFailureTracked(cfg, db.a2a, db.a2aSeq, left, log, now, n, RetryRow(cfg, db, left[0], error, now).a2a[n], LogTry(log, left[0], now, false));
  }

  lemma {:induction false} FailureSteady(cfg: Config, db: Db, row: A2ARow, left: seq<A2ARow>, log: A2ALog, error: string, now: int)
    requires Steady(cfg, db, Published(row, left, false), log, now)
    ensures Steady(cfg, RetryRow(cfg, db, row, error, now), Rows(left), log, now)
  {
    hide Accounted;
    var n := A2AAt(db.a2a, row.id);
    FailureTracked(cfg, db.a2a, db.a2aSeq, row, left, log, now, n, RetryRow(cfg, db, row, error, now).a2a[n]);
  }

  lemma {:induction false} SentSteady(cfg: Config, db: Db, row: A2ARow, left: seq<A2ARow>, log: A2ALog, now: int)
    requires Steady(cfg, db, Published(row, left, true), log, now)
    ensures Steady(cfg, A2ASentRow(db, row.id, now), MarkedSent(row, left), log, now)
  {
    hide Accounted;
    var n := A2AAt(db.a2a, row.id);
    SentTracked(cfg, db.a2a, db.a2aSeq, row, left, log, now, n, A2ASentRow(db, row.id, now).a2a[n]);
  }

  lemma {:induction false} NextSteady(cfg: Config, db: Db, left: seq<A2ARow>, log: A2ALog, ok: bool, error: string, now: int)
    requires Steady(cfg, db, Rows(left), log, now) && left != []
    ensures
      var r := A2AStep(cfg, db, Rows(left), log, A2ANext(ok, error), now);
      Steady(cfg, r.db, r.pc, r.log, now)
  {
    hide Accounted, RetryRow, Listed;
    if Exhausted(cfg, left[0]) {
      HeadListed(db.a2a, left, now);
      QuietTracked(cfg, db.a2a, db.a2aSeq, Rows(left), Rows(left[1..]), log, now);
    } else if !cfg.decodes(left[0].envelope) {
      DecodeFailureSteady(cfg, db, left, log, error, now);
    } else {
      PublishTracked(cfg, db.a2a, db.a2aSeq, left, ok, log, now, LogTry(log, left[0], now, ok));
    }
  }

  lemma {:induction false} MarkSteady(cfg: Config, db: Db, pc: A2APc, log: A2ALog, error: string, now: int)
    requires Steady(cfg, db, pc, log, now)
    ensures
      var r := A2AStep(cfg, db, pc, log, A2AMark(error), now);
      Steady(cfg, r.db, r.pc, r.log, now)
  {
    hide Tracked, RetryRow, A2ASentRow;
    if pc.Published? {
      if pc.ok {
        SentSteady(cfg, db, pc.row, pc.left, log, now);
      } else {
        FailureSteady(cfg, db, pc.row, pc.left, log, error, now);
      }
    }
  }

  lemma {:induction false} A2AStepSteady(cfg: Config, db: Db, pc: A2APc, log: A2ALog, l: A2ALabel, now: int)
    requires Steady(cfg, db, pc, log, now)
    ensures
      var r := A2AStep(cfg, db, pc, log, l, now);
      Steady(cfg, r.db, r.pc, r.log, now)
  {
    hide Accounted, RetryRow, A2ASentRow, Listed;
    match l
    case A2AStart =>
      if pc.A2AIdle? {
        StartTracked(cfg, db.a2a, db.a2aSeq, log, now, cfg.A2ABatch());
      }
    case A2ANext(ok, error) =>
      if pc.Rows? && pc.left != [] {
        NextSteady(cfg, db, pc.left, log, ok, error, now);
      }
    case A2AMark(error) => MarkSteady(cfg, db, pc, log, error, now);
    case A2ABind =>
      if pc.MarkedSent? {
        QuietTracked(cfg, db.a2a, db.a2aSeq, pc, Rows(pc.left), log, now);
      }
    case A2ADone =>
      if pc.Rows? {
        QuietTracked(cfg, db.a2a, db.a2aSeq, pc, A2AIdle, log, now);
      }
    case A2ACancel =>
      if pc.Rows? {
        QuietTracked(cfg, db.a2a, db.a2aSeq, pc, A2AIdle, log, now);
      }
  }

  predicate Enqueues(db: Db, x: A2AInput) {
    x.messageId != "" && !A2AKnown(db.a2a, x.messageId)
  }

  /** Of the store calls made by others, only an enqueue touches the a2a table. */
  lemma {:induction false} OnlyEnqueuesA2A(db: Db, op: StoreOp, now: int)
    ensures
      var db' := Apply(db, op, now);
      if op.EnqueueA2A? && Enqueues(db, op.message)
      then db'.a2a == db.a2a + [NewA2A(op.message, db.a2aSeq + 1 + op.gap, now)] && db'.a2aSeq == db.a2aSeq + 1 + op.gap
      else db'.a2a == db.a2a && db'.a2aSeq == db.a2aSeq
  {
    hide InsertOutcome, A2AKnown;
  }

  lemma {:induction false} OpSteady(cfg: Config, db: Db, pc: A2APc, log: A2ALog, op: StoreOp, now: int)
    requires Wf(db) && Steady(cfg, db, pc, log, now)
    ensures Steady(cfg, Apply(db, op, now), pc, log, now)
  {
    hide Tracked, Grows, WfA2A, Enqueues, Apply;
    OpKeepsWf(db, op, now);
    OnlyEnqueuesA2A(db, op, now);
    if op.EnqueueA2A? && Enqueues(db, op.message) {
      EnqueueTracked(cfg, db.a2a, db.a2aSeq, pc, log, now, NewA2A(op.message, db.a2aSeq + 1 + op.gap, now));
    }
  }

  lemma {:induction false} TickSteady(cfg: Config, db: Db, pc: A2APc, log: A2ALog, clock: int, clock': int)
    requires Steady(cfg, db, pc, log, clock) && clock <= clock'
    ensures Steady(cfg, db, pc, log, clock')
  {
  }

  ghost predicate A2ASteady(cfg: Config, s: Sys) {
    Wf(s.db) && Steady(cfg, s.db, s.a2a, s.a2aLog, s.clock)
  }

  lemma {:induction false} SteadyWf(cfg: Config, s: Sys)
    requires A2ASteady(cfg, s)
    ensures WfA2A(s.db.a2a, s.db.a2aSeq)
  {
  }

  lemma {:induction false} StepA2ASteady(cfg: Config, s: Sys, l: Label)
    requires A2ASteady(cfg, s)
    ensures A2ASteady(cfg, Step(cfg, s, l))
  {
    hide Tracked, Wf, Grows, PushStep, A2AStep, MediaStep, Apply;
    StepKeepsWf(cfg, s, l);
    match l
    case Tick(elapsed) => TickSteady(cfg, s.db, s.a2a, s.a2aLog, s.clock, s.clock + elapsed);
    case Op(op) => OpSteady(cfg, s.db, s.a2a, s.a2aLog, op, s.clock);
    case Push(pl) => PushWrites(cfg, s.db, s.push, s.pushLog, pl, s.clock);
    case A2A(al) => A2AStepSteady(cfg, s.db, s.a2a, s.a2aLog, al, s.clock);
    case Media(ml) => MediaWrites(cfg, s.db, s.media, s.mediaLog, ml, s.clock);
    case Crash => CrashTracked(cfg, s.db.a2a, s.db.a2aSeq, s.a2a, s.a2aLog, s.clock);
  }

  lemma {:induction false} RunA2ASteady(cfg: Config, s: Sys, ls: seq<Label>)
    requires A2ASteady(cfg, s)
    ensures A2ASteady(cfg, Run(cfg, s, ls))
    decreases |ls|
  {
    hide A2ASteady, Step;
    if ls != [] {
      StepA2ASteady(cfg, s, ls[0]);
      RunA2ASteady(cfg, Step(cfg, s, ls[0]), ls[1..]);
    }
  }

  lemma {:induction false} InitA2ASteady(cfg: Config, clock: nat)
    ensures A2ASteady(cfg, Init(clock))
  {
  }

  // ------------------------------------------------------------ main theorems

  /** Between flushes, crashes included: a row has one successful publish if it is SENT and none
      otherwise, and as many failures (publishes and undecodable envelopes) as its attempt counter
      says, over and above the tries a crash left unmarked; with a retry limit the counter never
      passes it, and a SENT row is below it. */
  lemma {:induction false} A2AAccounting(cfg: Config, clock: nat, ls: seq<Label>)
    requires Run(cfg, Init(clock), ls).a2a.A2AIdle?
    ensures
      var s := Run(cfg, Init(clock), ls);
      forall r :: r in s.db.a2a ==>
        && Tally(s.a2aLog.tried, r.id, true) == (if r.status == Sent then 1 else 0) + Tally(s.a2aLog.cut, r.id, true)
        && Tally(s.a2aLog.tried, r.id, false) == r.attempt + Tally(s.a2aLog.cut, r.id, false)
        && (cfg.a2aMaxRetries > 0 ==> r.attempt + (if r.status == Sent then 1 else 0) <= cfg.a2aMaxRetries)
  {
    InitA2ASteady(cfg, clock);
    RunA2ASteady(cfg, Init(clock), ls);
    var s := Run(cfg, Init(clock), ls);
    forall r | r in s.db.a2a ensures RowAccount(cfg, r, s.a2a, s.a2aLog) {
      var i :| 0 <= i < |s.db.a2a| && s.db.a2a[i] == r;
    }
  }

  lemma {:induction false} StepCutsNothing(cfg: Config, s: Sys, l: Label)
    requires !l.Crash?
    ensures Step(cfg, s, l).a2aLog.cut == s.a2aLog.cut && Step(cfg, s, l).a2aLog.unbound == s.a2aLog.unbound
  {
    hide RetryRow, A2ASentRow, BindSent, PushStep, MediaStep, Apply;
  }

  lemma {:induction false} CrashFreeCutsNothing(cfg: Config, s: Sys, ls: seq<Label>)
    requires CrashFree(ls)
    ensures Run(cfg, s, ls).a2aLog.cut == s.a2aLog.cut && Run(cfg, s, ls).a2aLog.unbound == s.a2aLog.unbound
    decreases |ls|
  {
    hide Step;
    if ls != [] {
      StepCutsNothing(cfg, s, ls[0]);
      CrashFreeCutsNothing(cfg, Step(cfg, s, ls[0]), ls[1..]);
    }
  }

  /** Without crashes, tries never exceed the retry limit and their number is the attempt counter
      plus one if the row is SENT. */
  lemma {:induction false} CrashFreeTries(cfg: Config, clock: nat, ls: seq<Label>, r: A2ARow)
    requires CrashFree(ls) && Run(cfg, Init(clock), ls).a2a.A2AIdle? && r in Run(cfg, Init(clock), ls).db.a2a
    ensures
      var tried := Run(cfg, Init(clock), ls).a2aLog.tried;
      && Tally(tried, r.id, true) == (if r.status == Sent then 1 else 0)
      && Tally(tried, r.id, false) == r.attempt
      && (cfg.a2aMaxRetries > 0 ==> Tally(tried, r.id, true) + Tally(tried, r.id, false) <= cfg.a2aMaxRetries)
  {
    A2AAccounting(cfg, clock, ls);
    CrashFreeCutsNothing(cfg, Init(clock), ls);
  }

  // ------------------------------------------------------------- SENT is final

  ghost predicate SentAt(s: Sys, i: nat) {
    i < |s.db.a2a| && s.db.a2a[i].status == Sent
  }

  lemma {:induction false} StepKeepsSent(cfg: Config, s: Sys, l: Label, i: nat)
    requires A2ASteady(cfg, s) && SentAt(s, i)
    ensures SentAt(Step(cfg, s, l), i) && Step(cfg, s, l).db.a2a[i].id == s.db.a2a[i].id
    ensures forall ok :: Tally(Step(cfg, s, l).a2aLog.tried, s.db.a2a[i].id, ok) == Tally(s.a2aLog.tried, s.db.a2a[i].id, ok)
  {
    hide Accounted, PushStep, MediaStep, Apply, BindSent;
    match l
    case Op(op) => OnlyEnqueuesA2A(s.db, op, s.clock);
    case Push(pl) => PushWrites(cfg, s.db, s.push, s.pushLog, pl, s.clock);
    case A2A(al) => A2AStepKeepsSent(cfg, s.db, s.a2a, s.a2aLog, al, s.clock, i);
    case Media(ml) => MediaWrites(cfg, s.db, s.media, s.mediaLog, ml, s.clock);
    case _ =>
  }

  /** A SENT row is not among the rows still to be tried or marked. */
  lemma {:induction false} SentIsNotNext(cfg: Config, a2a: seq<A2ARow>, a2aSeq: int, pc: A2APc, clock: int, i: nat)
    requires WfA2A(a2a, a2aSeq) && PcHolds(cfg, a2a, pc, clock) && i < |a2a| && a2a[i].status == Sent
    ensures pc.Rows? && pc.left != [] ==> pc.left[0].id != a2a[i].id
    ensures pc.Published? ==> pc.row.id != a2a[i].id
  {
    A2AAtIs(a2a, a2aSeq, i);
    if pc.Rows? && pc.left != [] {
      HeadListed(a2a, pc.left, clock);
    }
  }

  lemma {:induction false} A2AStepKeepsSent(cfg: Config, db: Db, pc: A2APc, log: A2ALog, l: A2ALabel, now: int, i: nat)
    requires Steady(cfg, db, pc, log, now) && i < |db.a2a| && db.a2a[i].status == Sent
    ensures
      var r := A2AStep(cfg, db, pc, log, l, now);
      && |r.db.a2a| == |db.a2a| && r.db.a2a[i].status == Sent && r.db.a2a[i].id == db.a2a[i].id
      && forall ok :: Tally(r.log.tried, db.a2a[i].id, ok) == Tally(log.tried, db.a2a[i].id, ok)
  {
    hide Accounted, PcHolds, WfA2A, Backoff.DelayMs, Truncate, Select, Merge;
    SentIsNotNext(cfg, db.a2a, db.a2aSeq, pc, now, i);
  }

  /** Once SENT, a row stays SENT and is never published again, in any run, crashes included. */
  lemma {:induction false} SentIsNeverRepublished(cfg: Config, s: Sys, ls: seq<Label>, i: nat)
    requires A2ASteady(cfg, s) && SentAt(s, i)
    ensures
      var s' := Run(cfg, s, ls);
      && SentAt(s', i) && s'.db.a2a[i].id == s.db.a2a[i].id
      && forall ok :: Tally(s'.a2aLog.tried, s.db.a2a[i].id, ok) == Tally(s.a2aLog.tried, s.db.a2a[i].id, ok)
    decreases |ls|
  {
    hide A2ASteady, Step, Tally;
    if ls != [] {
      StepA2ASteady(cfg, s, ls[0]);
      StepKeepsSent(cfg, s, ls[0], i);
      SentIsNeverRepublished(cfg, Step(cfg, s, ls[0]), ls[1..], i);
    }
  }
}
