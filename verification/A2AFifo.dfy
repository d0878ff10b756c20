/** The a2a outbox as a queue, while publishing works: first in, first out, a batch per flush. */
module A2AFifo {
  import opened Wrappers
  import opened Tables
  import opened System
  import opened Schema
  import opened A2ADelivery
  import opened A2AProgress

  /** Publishing succeeds, stored envelopes decode, and nothing crashes; flushes may be cancelled. */
  predicate Smooth(l: Label) {
    !l.Crash? && (l.A2A? && l.a2a.A2ANext? ==> l.a2a.ok)
  }

  ghost predicate Decodes(cfg: Config) {
    forall envelope :: cfg.decodes(envelope)
  }

  /** The first m rows are SENT, the others untouched and due. */
  ghost predicate SentPrefix(a2a: seq<A2ARow>, m: nat, clock: int) {
    && m <= |a2a|
    && (forall i :: 0 <= i < m ==> a2a[i].status == Sent)
    && (forall i :: m <= i < |a2a| ==> a2a[i].status == Pending && a2a[i].attempt == 0 && a2a[i].nextRetryAt <= clock)
  }

  /** The publish log names the first rows of the table, each once, in order. */
  ghost predicate LogIsPrefix(a2a: seq<A2ARow>, log: A2ALog, n: nat) {
    |log.tries| == n <= |a2a| && forall i :: 0 <= i < n ==> log.tries[i].id == a2a[i].id && log.tries[i].ok
  }

  ghost predicate Queue(a2a: seq<A2ARow>, pc: A2APc, log: A2ALog, clock: int, m: nat) {
    && SentPrefix(a2a, m, clock)
    && match pc
       case A2AIdle => LogIsPrefix(a2a, log, m)
       case Rows(left) => LogIsPrefix(a2a, log, m) && left <= a2a[m..]
       case Published(r, left, ok) => LogIsPrefix(a2a, log, m + 1) && ok && [r] + left <= a2a[m..]
       case MarkedSent(r, left) => LogIsPrefix(a2a, log, m) && left <= a2a[m..]
  }

  lemma {:induction false} SelectSkips<R>(rows: seq<R>, m: nat, keep: R -> bool, limit: nat)
    requires m <= |rows| && forall i :: 0 <= i < m ==> !keep(rows[i])
    ensures Select(rows, keep, limit) == Select(rows[m..], keep, limit)
  {
    if m > 0 && limit > 0 {
      assert rows[1..][m - 1..] == rows[m..];
      SelectSkips(rows[1..], m - 1, keep, limit);
    } else if m == 0 {
      assert rows[0..] == rows;
    }
  }

  lemma {:induction false} SelectTakes<R>(rows: seq<R>, keep: R -> bool, limit: nat)
    requires forall i :: 0 <= i < |rows| ==> keep(rows[i])
    ensures Select(rows, keep, limit) == if |rows| <= limit then rows else rows[..limit]
  {
    if rows != [] && limit > 0 {
      SelectTakes(rows[1..], keep, limit - 1);
      assert rows == [rows[0]] + rows[1..];
    }
  }

  /** A listing of the queue is the next batch of it. */
  lemma {:induction false} FirstDueIsNextBatch(cfg: Config, a2a: seq<A2ARow>, m: nat, clock: int)
    requires SentPrefix(a2a, m, clock)
    ensures FirstDue(cfg, a2a, clock) == if |a2a| - m <= cfg.A2ABatch() then a2a[m..] else a2a[m..m + cfg.A2ABatch()]
  {
    SelectSkips(a2a, m, DueA2A(clock), cfg.A2ABatch());
    SelectTakes(a2a[m..], DueA2A(clock), cfg.A2ABatch());
    assert |a2a| - m > cfg.A2ABatch() ==> a2a[m..][..cfg.A2ABatch()] == a2a[m..m + cfg.A2ABatch()];
  }

  lemma {:induction false} PrefixWithOneMore(left: seq<A2ARow>, a2a: seq<A2ARow>, m: nat, r: A2ARow)
    requires m <= |a2a| && left <= a2a[m..]
    ensures left <= (a2a + [r])[m..]
  {
    assert (a2a + [r])[m..] == a2a[m..] + [r];
  }

  lemma {:induction false} EnqueueQueue(a2a: seq<A2ARow>, pc: A2APc, log: A2ALog, clock: int, m: nat, r: A2ARow)
    requires Queue(a2a, pc, log, clock, m) && r.status == Pending && r.attempt == 0 && r.nextRetryAt <= clock
    ensures Queue(a2a + [r], pc, log, clock, m)
  {
    if !pc.A2AIdle? {
      PrefixWithOneMore(if pc.Published? then [pc.row] + pc.left else pc.left, a2a, m, r);
    }
  }

  lemma {:induction false} SentQueue(a2a: seq<A2ARow>, row: A2ARow, left: seq<A2ARow>, log: A2ALog, clock: int, m: nat, r: A2ARow)
    requires Queue(a2a, Published(row, left, true), log, clock, m) && m < |a2a| && r.id == a2a[m].id && r.status == Sent
    ensures Queue(a2a[m := r], MarkedSent(row, left), log, clock, m + 1)
  {
    var a2a' := a2a[m := r];
    assert a2a'[m + 1..] == a2a[m..][1..];
    assert left == ([row] + left)[1..];
  }

  lemma {:induction false} PublishQueue(a2a: seq<A2ARow>, left: seq<A2ARow>, log: A2ALog, log': A2ALog, clock: int, m: nat)
    requires Queue(a2a, Rows(left), log, clock, m) && left != []
    requires exists t :: log'.tries == log.tries + [t] && t.id == left[0].id && t.ok
    ensures Queue(a2a, Published(left[0], left[1..], true), log', clock, m)
  {
    assert [left[0]] + left[1..] == left;
    assert left[0] == a2a[m..][0];
  }

  lemma {:induction false} MarkQueue(cfg: Config, db: Db, row: A2ARow, left: seq<A2ARow>, log: A2ALog, now: int, m: nat)
    requires WfA2A(db.a2a, db.a2aSeq) && Queue(db.a2a, Published(row, left, true), log, now, m)
    ensures Queue(A2ASentRow(db, row.id, now).a2a, MarkedSent(row, left), log, now, m + 1)
  {
    assert ([row] + left)[0] == row;
    assert db.a2a[m] == row;
    A2AAtIs(db.a2a, db.a2aSeq, m);
    SentQueue(db.a2a, row, left, log, now, m, A2ASentRow(db, row.id, now).a2a[m]);
  }

  lemma {:induction false} A2AStepQueue(cfg: Config, db: Db, pc: A2APc, log: A2ALog, l: A2ALabel, now: int, m: nat) returns (m': nat)
    requires Decodes(cfg) && WfA2A(db.a2a, db.a2aSeq) && Queue(db.a2a, pc, log, now, m) && Smooth(A2A(l))
    ensures
      var r := A2AStep(cfg, db, pc, log, l, now);
      Queue(r.db.a2a, r.pc, r.log, now, m')
  {
    hide WfA2A, A2ASentRow, LogIsPrefix, RetryRow;
    m' := m;
    match l
    case A2AStart =>
      if pc.A2AIdle? {
        FirstDueIsNextBatch(cfg, db.a2a, m, now);
      }
    case A2ANext(ok, error) =>
      if pc.Rows? && pc.left != [] {
        assert pc.left[0] == db.a2a[m..][0] == db.a2a[m];
        assert cfg.decodes(pc.left[0].envelope);
        var t := Try(pc.left[0].id, pc.left[0].attempt + 1, now, ok);
        assert LogTry(log, pc.left[0], now, ok).tries == log.tries + [t] && t.ok;
        PublishQueue(db.a2a, pc.left, log, LogTry(log, pc.left[0], now, ok), now, m);
      }
    case A2AMark(error) =>
      if pc.Published? {
        MarkQueue(cfg, db, pc.row, pc.left, log, now, m);
        m' := m + 1;
      }
    case A2ABind =>
    case A2ADone =>
    case A2ACancel =>
  }

  ghost predicate QueueSys(cfg: Config, s: Sys, m: nat) {
    A2ASteady(cfg, s) && Queue(s.db.a2a, s.a2a, s.a2aLog, s.clock, m)
  }

  lemma {:induction false} StepQueue(cfg: Config, s: Sys, l: Label, m: nat) returns (m': nat)
    requires Decodes(cfg) && QueueSys(cfg, s, m) && Smooth(l)
    ensures QueueSys(cfg, Step(cfg, s, l), m')
  {
    hide Tracked, Wf, LogIsPrefix, PushStep, A2AStep, MediaStep, Apply, Enqueues, Decodes;
    StepA2ASteady(cfg, s, l);
    m' := m;
    match l
    case Op(op) =>
      OnlyEnqueuesA2A(s.db, op, s.clock);
      if op.EnqueueA2A? && Enqueues(s.db, op.message) {
        EnqueueQueue(s.db.a2a, s.a2a, s.a2aLog, s.clock, m, NewA2A(op.message, s.db.a2aSeq + 1 + op.gap, s.clock));
      }
    case Push(pl) => PushWrites(cfg, s.db, s.push, s.pushLog, pl, s.clock);
    case A2A(al) =>
      assert WfA2A(s.db.a2a, s.db.a2aSeq) by { SteadyWf(cfg, s); }
      m' := A2AStepQueue(cfg, s.db, s.a2a, s.a2aLog, al, s.clock, m);
    case Media(ml) => MediaWrites(cfg, s.db, s.media, s.mediaLog, ml, s.clock);
    case _ =>
  }

  ghost predicate AllSmooth(ls: seq<Label>) {
    forall i :: 0 <= i < |ls| ==> Smooth(ls[i])
  }

  lemma {:induction false} RunQueue(cfg: Config, s: Sys, ls: seq<Label>, m: nat) returns (m': nat)
    requires Decodes(cfg) && QueueSys(cfg, s, m) && AllSmooth(ls)
    ensures QueueSys(cfg, Run(cfg, s, ls), m')
    decreases |ls|
  {
    hide QueueSys, Step, Smooth, Decodes;
    m' := m;
    if ls != [] {
      m' := StepQueue(cfg, s, ls[0], m);
      m' := RunQueue(cfg, Step(cfg, s, ls[0]), ls[1..], m');
    }
  }

  /** While publishing works, messages go out in the order of their row ids, each exactly once: the
      publish log is always the id column of the table, up to where the SENT rows (or the one
      being sent) end. */
  lemma {:induction false} PublishedInOrder(cfg: Config, clock: nat, ls: seq<Label>)
    requires Decodes(cfg) && AllSmooth(ls)
    ensures
      var s := Run(cfg, Init(clock), ls);
      && |s.a2aLog.tries| <= |s.db.a2a|
      && (forall i :: 0 <= i < |s.a2aLog.tries| ==> s.a2aLog.tries[i].id == s.db.a2a[i].id)
      && (forall i, j :: 0 <= i < j < |s.a2aLog.tries| ==> s.a2aLog.tries[i].id < s.a2aLog.tries[j].id)
      && (s.a2a.A2AIdle? ==> forall i :: 0 <= i < |s.db.a2a| ==> (s.db.a2a[i].status == Sent <==> i < |s.a2aLog.tries|))
  {
    InitA2ASteady(cfg, clock);
    var m := RunQueue(cfg, Init(clock), ls, 0);
    SteadyWf(cfg, Run(cfg, Init(clock), ls));
  }

  // -------------------------------------------------------------------- drain

  /** One whole flush of a queue sends its next batch. */
  lemma {:induction false} FlushSendsBatch(cfg: Config, s: Sys, ls: seq<Label>, m: nat) returns (m': nat)
    requires Decodes(cfg) && QueueSys(cfg, s, m) && WholeFlush(cfg, s, ls) && AllSmooth(ls)
    ensures QueueSys(cfg, AfterFlush(cfg, s, ls), m') && AfterFlush(cfg, s, ls).a2a.A2AIdle?
    ensures |s.db.a2a| <= |AfterFlush(cfg, s, ls).db.a2a|
    ensures m' >= if |s.db.a2a| <= m + cfg.A2ABatch() then |s.db.a2a| else m + cfg.A2ABatch()
  {
    hide A2ASteady, WholeFlush, Smooth, Decodes;
    FlushTriesFirstDue(cfg, s, ls);
    FirstDueIsNextBatch(cfg, s.db.a2a, m, s.clock);
    var s' := AfterFlush(cfg, s, ls);
    m' := QueueAfterFlush(cfg, s, ls, m);
    var rows := FirstDue(cfg, s.db.a2a, s.clock);
    if m' < |s.db.a2a| && m' < m + cfg.A2ABatch() {
      BatchNotLeftPending(cfg, s, s'.db.a2a, m, m');
    }
  }

  lemma {:induction false} QueueAfterFlush(cfg: Config, s: Sys, ls: seq<Label>, m: nat) returns (m': nat)
    requires Decodes(cfg) && QueueSys(cfg, s, m) && AllSmooth(ls)
    ensures QueueSys(cfg, AfterFlush(cfg, s, ls), m')
  {
    hide QueueSys, Decodes;
    m' := RunQueue(cfg, s, [A2A(A2AStart)] + ls + [A2A(A2ADone)], m);
  }

  /** A row of the batch cannot still be PENDING after the flush. */
  lemma {:induction false} BatchNotLeftPending(cfg: Config, s: Sys, after: seq<A2ARow>, m: nat, i: nat)
    requires SentPrefix(s.db.a2a, m, s.clock) && i < |s.db.a2a| && i < m + cfg.A2ABatch()
    requires Effect(cfg, s.db.a2a, after, FirstDue(cfg, s.db.a2a, s.clock))
    ensures after[i].status != Pending
  {
    FirstDueIsNextBatch(cfg, s.db.a2a, m, s.clock);
    var rows := FirstDue(cfg, s.db.a2a, s.clock);
    assert RowEffect(cfg, s.db.a2a[i], after[i], rows);
    if i >= m {
      assert rows[i - m] == s.db.a2a[i];
      assert !Exhausted(cfg, s.db.a2a[i]);
    } else {
      assert s.db.a2a[i] !in rows;
    }
  }

  ghost predicate Rounds(cfg: Config, s: Sys, rounds: seq<Round>)
    decreases |rounds|
  {
    rounds != [] ==>
      && AllSmooth(rounds[0].between) && AllSmooth(rounds[0].flush)
      && WholeFlush(cfg, Run(cfg, s, rounds[0].between), rounds[0].flush)
      && Rounds(cfg, AfterRound(cfg, s, rounds[0]), rounds[1..])
  }

  function AfterRound(cfg: Config, s: Sys, r: Round): Sys {
    AfterFlush(cfg, Run(cfg, s, r.between), r.flush)
  }

  function AfterRounds(cfg: Config, s: Sys, rounds: seq<Round>): Sys
    decreases |rounds|
  {
    if rounds == [] then s else AfterRounds(cfg, AfterRound(cfg, s, rounds[0]), rounds[1..])
  }

  lemma {:induction false} RoundSendsBatch(cfg: Config, s: Sys, r: Round, m: nat) returns (m': nat)
    requires Decodes(cfg) && QueueSys(cfg, s, m) && AllSmooth(r.between) && AllSmooth(r.flush)
    requires WholeFlush(cfg, Run(cfg, s, r.between), r.flush)
    ensures QueueSys(cfg, AfterRound(cfg, s, r), m') && |s.db.a2a| <= |AfterRound(cfg, s, r).db.a2a|
    ensures m' >= if |s.db.a2a| <= m + cfg.A2ABatch() then |s.db.a2a| else m + cfg.A2ABatch()
  {
    hide WholeFlush, Smooth, Decodes, Wf, Steady;
    m' := RunQueue(cfg, s, r.between, m);
    SentStays(cfg, s, r.between, m, m');
    m' := FlushSendsBatch(cfg, Run(cfg, s, r.between), r.flush, m');
  }

  lemma {:induction false} SentStays(cfg: Config, s: Sys, ls: seq<Label>, m: nat, m': nat)
    requires QueueSys(cfg, s, m) && QueueSys(cfg, Run(cfg, s, ls), m')
    ensures m <= m' && |s.db.a2a| <= |Run(cfg, s, ls).db.a2a|
  {
    RunKeepsWf(cfg, s, ls);
    if m' < m {
      SentIsNeverRepublished(cfg, s, ls, m');
    }
  }

  lemma {:induction false} RoundsSend(cfg: Config, s: Sys, rounds: seq<Round>, m: nat, n: nat) returns (m': nat)
    requires Decodes(cfg) && QueueSys(cfg, s, m) && Rounds(cfg, s, rounds)
    requires n <= |s.db.a2a| && n - m <= |rounds| * cfg.A2ABatch()
    ensures QueueSys(cfg, AfterRounds(cfg, s, rounds), m') && n <= m'
    decreases |rounds|
  {
    hide QueueSys, WholeFlush, Smooth, Decodes, AfterRound;
    m' := m;
    if rounds != [] {
      m' := RoundSendsBatch(cfg, s, rounds[0], m);
      assert (|rounds| - 1) * cfg.A2ABatch() == |rounds| * cfg.A2ABatch() - cfg.A2ABatch();
      m' := RoundsSend(cfg, AfterRound(cfg, s, rounds[0]), rounds[1..], m', n);
    }
  }

  /** n queued rows are all SENT after ceil(n / batch) whole flushes, whatever is enqueued, acked or
      cancelled in between. */
  lemma {:induction false} QueueDrains(cfg: Config, clock: nat, ls: seq<Label>, rounds: seq<Round>)
    requires Decodes(cfg) && AllSmooth(ls) && Rounds(cfg, Run(cfg, Init(clock), ls), rounds)
    requires |Run(cfg, Init(clock), ls).db.a2a| <= |rounds| * cfg.A2ABatch()
    ensures
      var s := Run(cfg, Init(clock), ls);
      var s' := AfterRounds(cfg, s, rounds);
      forall i :: 0 <= i < |s.db.a2a| ==> i < |s'.db.a2a| && s'.db.a2a[i].status == Sent
  {
    InitA2ASteady(cfg, clock);
    var m := RunQueue(cfg, Init(clock), ls, 0);
    var s := Run(cfg, Init(clock), ls);
    var m' := RoundsSend(cfg, s, rounds, m, |s.db.a2a|);
  }
}
