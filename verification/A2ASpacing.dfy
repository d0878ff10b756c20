/** How far apart the tries of one a2a row are. */
module A2ASpacing {
  import opened Wrappers
  import opened Tables
  import opened System
  import opened Schema
  import opened A2ADelivery
  import Backoff

  function TriesOf(tries: seq<Try>, id: int): seq<Try> {
    if tries == [] then []
    else
      var last := tries[|tries| - 1];
      TriesOf(tries[..|tries| - 1], id) + if last.id == id then [last] else []
  }

  lemma {:induction false} TriesOfSnoc(tries: seq<Try>, t: Try, id: int)
    ensures TriesOf(tries + [t], id) == if t.id == id then TriesOf(tries, id) + [t] else TriesOf(tries, id)
  {
    assert (tries + [t])[..|tries|] == tries;
  }

  lemma {:induction false} NoTries(tries: seq<Try>, id: int)
    requires forall t :: t in tries ==> t.id != id
    ensures TriesOf(tries, id) == []
  {
    if tries != [] {
      NoTries(tries[..|tries| - 1], id);
    }
  }

  /** The k-th try is labelled k, happened by now, and waited out the delay after the one before. */
  ghost predicate Apart(ts: seq<Try>, maxDelay: int, clock: int) {
    && (forall i :: 0 <= i < |ts| ==> ts[i].k == i + 1 && ts[i].at <= clock)
    && (forall i :: 0 < i < |ts| ==> ts[i - 1].at + Backoff.DelayMs(i, maxDelay) <= ts[i].at)
  }

  /** The tries of a row: as many as it counts, apart, and the next one not yet due. */
  ghost predicate RowSpaced(cfg: Config, r: A2ARow, pc: A2APc, tries: seq<Try>, clock: int) {
    var ts := TriesOf(tries, r.id);
    && 0 <= r.attempt
    && |ts| == r.attempt + (if r.status == Sent || (pc.Published? && pc.row.id == r.id) then 1 else 0)
    && Apart(ts, cfg.a2aMaxDelay, clock)
    && (r.status == Retry && r.attempt > 0 ==> ts[r.attempt - 1].at + Backoff.DelayMs(r.attempt, cfg.a2aMaxDelay) <= r.nextRetryAt)
    && (r.status == Pending ==> r.attempt == 0)
  }

  /** No crash left a try of this row unmarked. */
  predicate Uncut(log: A2ALog, id: int) {
    Delivery(id, true) !in log.cut && Delivery(id, false) !in log.cut
  }

  ghost predicate Spaced(cfg: Config, a2a: seq<A2ARow>, a2aSeq: int, pc: A2APc, log: A2ALog, clock: int) {
    && (forall i :: 0 <= i < |a2a| && Uncut(log, a2a[i].id) ==> RowSpaced(cfg, a2a[i], pc, log.tries, clock))
    && (forall t :: t in log.tries ==> t.id <= a2aSeq)
  }

  /** A due row's next try may be recorded now. */
  lemma {:induction false} TrySpaced(cfg: Config, r: A2ARow, tries: seq<Try>, pc: A2APc, now: int, t: Try)
    requires RowSpaced(cfg, r, pc, tries, now) && Open(r.status) && r.nextRetryAt <= now && !pc.Published?
    requires t.id == r.id && t.k == r.attempt + 1 && t.at == now
    ensures TriesOf(tries + [t], r.id) == TriesOf(tries, r.id) + [t] && |TriesOf(tries, r.id)| == r.attempt
    ensures Apart(TriesOf(tries + [t], r.id), cfg.a2aMaxDelay, now)
  {
    hide Backoff.DelayMs, Exhausted;
    TriesOfSnoc(tries, t, r.id);
  }

  /** Recording a try of one row, and rewriting it, leaves the spacing of every other row. */
  lemma {:induction false} OthersSpaced(cfg: Config, a2a: seq<A2ARow>, a2aSeq: int, n: nat, r: A2ARow, pc: A2APc, pc': A2APc, log: A2ALog, log': A2ALog, now: int)
    requires WfA2A(a2a, a2aSeq) && n < |a2a| && r.id == a2a[n].id && Spaced(cfg, a2a, a2aSeq, pc, log, now)
    requires log'.cut == log.cut && (log'.tries == log.tries || exists t: Try :: t.id == r.id && log'.tries == log.tries + [t])
    requires pc.Published? ==> pc.row.id == r.id
    requires pc'.Published? ==> pc'.row.id == r.id
    requires Uncut(log, r.id) ==> RowSpaced(cfg, r, pc', log'.tries, now)
    ensures Spaced(cfg, a2a[n := r], a2aSeq, pc', log', now)
  {
    hide Apart, TriesOf, Open;
    var a2a' := a2a[n := r];
    forall i | 0 <= i < |a2a| && i != n && Uncut(log, a2a[i].id) ensures RowSpaced(cfg, a2a'[i], pc', log'.tries, now) {
      assert RowSpaced(cfg, a2a[i], pc, log.tries, now) && a2a[i].id != r.id;
      if log'.tries != log.tries {
        var t: Try :| t.id == r.id && log'.tries == log.tries + [t];
        TriesOfSnoc(log.tries, t, a2a[i].id);
      }
    }
  }

  lemma {:induction false} DecodeFailureSpaced(cfg: Config, db: Db, left: seq<A2ARow>, log: A2ALog, error: string, now: int)
    requires Steady(cfg, db, Rows(left), log, now) && left != []
    requires Spaced(cfg, db.a2a, db.a2aSeq, Rows(left), log, now)
    ensures Spaced(cfg, RetryRow(cfg, db, left[0], error, now).a2a, db.a2aSeq, Rows(left[1..]), LogTry(log, left[0], now, false), now)
  {
    hide Accounted, Apart, Exhausted, Truncate, Backoff.DelayMs, Uncut, TriesOf;
    var n := A2AAt(db.a2a, left[0].id);
    assert Listed(db.a2a, left[0]);
    var t := Try(left[0].id, left[0].attempt + 1, now, false);
    var r := RetryRow(cfg, db, left[0], error, now).a2a[n];
    if Uncut(log, r.id) {
      TrySpaced(cfg, db.a2a[n], log.tries, Rows(left), now, t);
      assert RowSpaced(cfg, r, Rows(left[1..]), log.tries + [t], now);
    }
    OthersSpaced(cfg, db.a2a, db.a2aSeq, n, r, Rows(left), Rows(left[1..]), log, LogTry(log, left[0], now, false), now);
  }

  lemma {:induction false} PublishSpaced(cfg: Config, db: Db, left: seq<A2ARow>, ok: bool, log: A2ALog, now: int)
    requires Steady(cfg, db, Rows(left), log, now) && left != []
    requires Spaced(cfg, db.a2a, db.a2aSeq, Rows(left), log, now)
    ensures Spaced(cfg, db.a2a, db.a2aSeq, Published(left[0], left[1..], ok), LogTry(log, left[0], now, ok), now)
  {
    hide Accounted, Apart, Exhausted;
    var n := A2AAt(db.a2a, left[0].id);
    assert Listed(db.a2a, left[0]);
    var t := Try(left[0].id, left[0].attempt + 1, now, ok);
    var pc' := Published(left[0], left[1..], ok);
    if Uncut(log, db.a2a[n].id) {
      TrySpaced(cfg, db.a2a[n], log.tries, Rows(left), now, t);
      assert RowSpaced(cfg, db.a2a[n], pc', log.tries + [t], now);
    }
    OthersSpaced(cfg, db.a2a, db.a2aSeq, n, db.a2a[n], Rows(left), pc', log, LogTry(log, left[0], now, ok), now);
    assert db.a2a[n := db.a2a[n]] == db.a2a;
  }

  lemma {:induction false} MarkSpaced(cfg: Config, db: Db, row: A2ARow, left: seq<A2ARow>, ok: bool, log: A2ALog, error: string, now: int)
    requires Steady(cfg, db, Published(row, left, ok), log, now)
    requires Spaced(cfg, db.a2a, db.a2aSeq, Published(row, left, ok), log, now)
    ensures Spaced(cfg, A2ASentRow(db, row.id, now).a2a, db.a2aSeq, MarkedSent(row, left), log, now)
    ensures Spaced(cfg, RetryRow(cfg, db, row, error, now).a2a, db.a2aSeq, Rows(left), log, now)
  {
    hide Accounted, Exhausted, Truncate, Backoff.DelayMs, TriesOf;
    var n := A2AAt(db.a2a, row.id);
    var pc := Published(row, left, ok);
    assert Uncut(log, row.id) ==> RowSpaced(cfg, db.a2a[n], pc, log.tries, now);
    var sent, retry := A2ASentRow(db, row.id, now).a2a[n], RetryRow(cfg, db, row, error, now).a2a[n];
    OthersSpaced(cfg, db.a2a, db.a2aSeq, n, sent, pc, MarkedSent(row, left), log, log, now);
    OthersSpaced(cfg, db.a2a, db.a2aSeq, n, retry, pc, Rows(left), log, log, now);
  }

  lemma {:induction false} QuietSpaced(cfg: Config, a2a: seq<A2ARow>, a2aSeq: int, pc: A2APc, pc': A2APc, log: A2ALog, now: int, now': int)
    requires Spaced(cfg, a2a, a2aSeq, pc, log, now) && now <= now' && (pc' == pc || (!pc.Published? && !pc'.Published?))
    ensures Spaced(cfg, a2a, a2aSeq, pc', log, now')
  {
    forall i | 0 <= i < |a2a| && Uncut(log, a2a[i].id) ensures RowSpaced(cfg, a2a[i], pc', log.tries, now') {
      assert RowSpaced(cfg, a2a[i], pc, log.tries, now);
    }
  }

  lemma {:induction false} CrashSpaced(cfg: Config, a2a: seq<A2ARow>, a2aSeq: int, pc: A2APc, log: A2ALog, now: int)
    requires Spaced(cfg, a2a, a2aSeq, pc, log, now)
    ensures Spaced(cfg, a2a, a2aSeq, A2AIdle, A2ACrash(pc, log), now)
  {
    hide Apart;
    var log' := A2ACrash(pc, log);
    forall i | 0 <= i < |a2a| && Uncut(log', a2a[i].id) ensures RowSpaced(cfg, a2a[i], A2AIdle, log'.tries, now) {
      if pc.Published? {
        assert log'.cut[|log.cut|] == Delivery(pc.row.id, pc.ok);
      }
      assert forall d :: d in log.cut ==> d in log'.cut;
      assert RowSpaced(cfg, a2a[i], pc, log.tries, now);
    }
  }

  lemma {:induction false} EnqueueSpaced(cfg: Config, a2a: seq<A2ARow>, a2aSeq: int, pc: A2APc, log: A2ALog, now: int, r: A2ARow)
    requires Spaced(cfg, a2a, a2aSeq, pc, log, now) && a2aSeq < r.id && r.status == Pending && r.attempt == 0
    requires pc.Published? ==> pc.row.id != r.id
    ensures Spaced(cfg, a2a + [r], r.id, pc, log, now)
  {
    hide Apart;
    NoTries(log.tries, r.id);
    assert Apart([], cfg.a2aMaxDelay, now) by { EmptyApart(cfg.a2aMaxDelay, now); }
    forall i | 0 <= i < |a2a| && Uncut(log, a2a[i].id) ensures RowSpaced(cfg, (a2a + [r])[i], pc, log.tries, now) {
      assert RowSpaced(cfg, a2a[i], pc, log.tries, now);
    }
  }

  lemma {:induction false} EmptyApart(maxDelay: int, clock: int)
    ensures Apart([], maxDelay, clock)
  {
  }

  lemma {:induction false} A2AStepSpaced(cfg: Config, db: Db, pc: A2APc, log: A2ALog, l: A2ALabel, now: int)
    requires Steady(cfg, db, pc, log, now) && Spaced(cfg, db.a2a, db.a2aSeq, pc, log, now)
    ensures
      var r := A2AStep(cfg, db, pc, log, l, now);
      Spaced(cfg, r.db.a2a, r.db.a2aSeq, r.pc, r.log, now)
  {
    hide Tracked, RowSpaced, RetryRow, A2ASentRow;
    var r := A2AStep(cfg, db, pc, log, l, now);
    assert r.db.a2aSeq == db.a2aSeq by { A2AWrites(cfg, db, pc, log, l, now); }
    match l
    case A2ANext(ok, error) =>
      if pc.Rows? && pc.left != [] {
        DecodeFailureSpaced(cfg, db, pc.left, log, error, now);
        PublishSpaced(cfg, db, pc.left, ok, log, now);
        QuietSpaced(cfg, db.a2a, db.a2aSeq, pc, Rows(pc.left[1..]), log, now, now);
      }
    case A2AMark(error) =>
      if pc.Published? {
        MarkSpaced(cfg, db, pc.row, pc.left, pc.ok, log, error, now);
      }
    case _ =>
      if !pc.Published? && !r.pc.Published? {
        QuietSpaced(cfg, db.a2a, db.a2aSeq, pc, r.pc, log, now, now);
      }
  }

  ghost predicate SpacedSys(cfg: Config, s: Sys) {
    A2ASteady(cfg, s) && Spaced(cfg, s.db.a2a, s.db.a2aSeq, s.a2a, s.a2aLog, s.clock)
  }

  lemma {:induction false} StepSpaced(cfg: Config, s: Sys, l: Label)
    requires SpacedSys(cfg, s)
    ensures SpacedSys(cfg, Step(cfg, s, l))
  {
    hide Accounted, Wf, RowSpaced, PushStep, A2AStep, MediaStep, Apply, Enqueues;
    StepA2ASteady(cfg, s, l);
    match l
    case Tick(elapsed) => QuietSpaced(cfg, s.db.a2a, s.db.a2aSeq, s.a2a, s.a2a, s.a2aLog, s.clock, s.clock + elapsed);
    case Op(op) =>
      OnlyEnqueuesA2A(s.db, op, s.clock);
      if op.EnqueueA2A? && Enqueues(s.db, op.message) {
        assert s.a2a.Published? ==> s.db.a2a[A2AAt(s.db.a2a, s.a2a.row.id)].id <= s.db.a2aSeq;
        EnqueueSpaced(cfg, s.db.a2a, s.db.a2aSeq, s.a2a, s.a2aLog, s.clock, NewA2A(op.message, s.db.a2aSeq + 1 + op.gap, s.clock));
      }
    case Push(pl) => PushWrites(cfg, s.db, s.push, s.pushLog, pl, s.clock);
    case A2A(al) => A2AStepSpaced(cfg, s.db, s.a2a, s.a2aLog, al, s.clock);
    case Media(ml) => MediaWrites(cfg, s.db, s.media, s.mediaLog, ml, s.clock);
    case Crash => CrashSpaced(cfg, s.db.a2a, s.db.a2aSeq, s.a2a, s.a2aLog, s.clock);
  }

  lemma {:induction false} RunSpaced(cfg: Config, s: Sys, ls: seq<Label>)
    requires SpacedSys(cfg, s)
    ensures SpacedSys(cfg, Run(cfg, s, ls))
    decreases |ls|
  {
    hide SpacedSys, Step;
    if ls != [] {
      StepSpaced(cfg, s, ls[0]);
      RunSpaced(cfg, Step(cfg, s, ls[0]), ls[1..]);
    }
  }

  lemma {:induction false} ApartInTotal(ts: seq<Try>, maxDelay: int, clock: int, n: nat)
    requires Apart(ts, maxDelay, clock) && n < |ts|
    ensures ts[0].at + Backoff.TotalDelay(n, maxDelay) <= ts[n].at
  {
    if n > 0 {
      ApartInTotal(ts, maxDelay, clock, n - 1);
    }
  }

  /** In any run, crashes included: the (n+1)-th try of a row that no crash cut comes no sooner after
      its first than the first n backoff delays together. */
  lemma {:induction false} RetriesAreSpaced(cfg: Config, clock: nat, ls: seq<Label>, r: A2ARow, n: nat)
    requires Backoff.EffectiveCap(cfg.a2aMaxDelay) <= Backoff.LARGEST_CAP
    requires r in Run(cfg, Init(clock), ls).db.a2a && Uncut(Run(cfg, Init(clock), ls).a2aLog, r.id)
    requires n < |TriesOf(Run(cfg, Init(clock), ls).a2aLog.tries, r.id)|
    ensures
      var ts := TriesOf(Run(cfg, Init(clock), ls).a2aLog.tries, r.id);
      ts[n].k == n + 1 && ts[0].at + Backoff.TotalDelay(n, cfg.a2aMaxDelay) <= ts[n].at
  {
    InitA2ASteady(cfg, clock);
    RunSpaced(cfg, Init(clock), ls);
    var s := Run(cfg, Init(clock), ls);
    var i :| 0 <= i < |s.db.a2a| && s.db.a2a[i] == r;
    assert RowSpaced(cfg, r, s.a2a, s.a2aLog.tries, s.clock);
    ApartInTotal(TriesOf(s.a2aLog.tries, r.id), cfg.a2aMaxDelay, s.clock, n);
  }
}
