/** What one flush of the a2a outbox achieves, and when it can achieve nothing. */
module A2AProgress {
  import opened Wrappers
  import opened Tables
  import opened System
  import opened Schema
  import opened A2ADelivery
  import Backoff

  // ------------------------------------------------------- effect of a flush

  /** A row the flush worked on: SENT, or one more attempt. */
  predicate Handled(r: A2ARow, r': A2ARow) {
    SameA2A(r, r') && if r'.status == Sent then r'.attempt == r.attempt else r'.status == Retry && r'.attempt == r.attempt + 1
  }

  ghost predicate RowEffect(cfg: Config, r: A2ARow, r': A2ARow, done: seq<A2ARow>) {
    if r in done && !Exhausted(cfg, r) then Handled(r, r') else r' == r
  }

  /** The rows done were handled unless exhausted, and nothing else that was there changed. */
  ghost predicate Effect(cfg: Config, before: seq<A2ARow>, after: seq<A2ARow>, done: seq<A2ARow>) {
    |before| <= |after| && forall i :: 0 <= i < |before| ==> RowEffect(cfg, before[i], after[i], done)
  }

  /** What may happen while a flush is going on: anything but its end. */
  predicate Inside(l: Label) {
    !l.Crash? && (l.A2A? ==> !l.a2a.A2AStart? && !l.a2a.A2ADone? && !l.a2a.A2ACancel?)
  }

  ghost predicate Batch(before: seq<A2ARow>, rows: seq<A2ARow>) {
    && (forall r :: r in rows ==> r in before)
    && (forall i, j :: 0 <= i < j < |rows| ==> rows[i].id < rows[j].id)
  }

  /** The flush of rows has got as far as its program counter says. */
  ghost predicate Underway(cfg: Config, before: seq<A2ARow>, rows: seq<A2ARow>, a2a: seq<A2ARow>, pc: A2APc) {
    match pc
    case A2AIdle => false
    case Rows(left) => |left| <= |rows| && left == rows[|rows| - |left|..] && Effect(cfg, before, a2a, rows[..|rows| - |left|])
    case Published(r, left, _) => Taken(rows, r, left) && Effect(cfg, before, a2a, rows[..|rows| - |left| - 1])
    case MarkedSent(r, left) => Taken(rows, r, left) && Effect(cfg, before, a2a, rows[..|rows| - |left|])
  }

  ghost predicate Taken(rows: seq<A2ARow>, r: A2ARow, left: seq<A2ARow>) {
    && |left| < |rows| && left == rows[|rows| - |left|..] && r == rows[|rows| - |left| - 1]
  }

  lemma {:induction false} NothingDone(cfg: Config, before: seq<A2ARow>)
    ensures Effect(cfg, before, before, [])
  {
  }

  /** Where in the table the next row of the batch is. */
  lemma {:induction false} NextIsUntouched(cfg: Config, before: seq<A2ARow>, rows: seq<A2ARow>, a2a: seq<A2ARow>, a2aSeq: int, k: nat, i: nat)
    requires WfA2A(a2a, a2aSeq) && Batch(before, rows) && k < |rows| && Effect(cfg, before, a2a, rows[..k])
    requires i < |before| && before[i] == rows[k]
    ensures A2AAt(a2a, rows[k].id) == i && a2a[i] == before[i]
  {
    assert rows[k] !in rows[..k];
    assert RowEffect(cfg, before[i], a2a[i], rows[..k]);
    A2AAtIs(a2a, a2aSeq, i);
  }

  /** Handling the next row of the batch. */
  lemma {:induction false} EffectOfOne(cfg: Config, before: seq<A2ARow>, beforeSeq: int, rows: seq<A2ARow>, a2a: seq<A2ARow>, a2aSeq: int, k: nat, r: A2ARow)
    requires WfA2A(before, beforeSeq) && WfA2A(a2a, a2aSeq) && Batch(before, rows) && k < |rows| && Effect(cfg, before, a2a, rows[..k])
    requires !Exhausted(cfg, rows[k]) && Handled(rows[k], r)
    ensures A2AAt(a2a, rows[k].id) < |a2a| && Effect(cfg, before, a2a[A2AAt(a2a, rows[k].id) := r], rows[..k + 1])
  {
    assert rows[k] in before;
    var i: nat :| i < |before| && before[i] == rows[k];
    NextIsUntouched(cfg, before, rows, a2a, a2aSeq, k, i);
    assert rows[..k + 1] == rows[..k] + [rows[k]];
    forall j | 0 <= j < |before| ensures RowEffect(cfg, before[j], a2a[i := r][j], rows[..k + 1]) {
      assert RowEffect(cfg, before[j], a2a[j], rows[..k]);
      assert j != i ==> before[j].id != before[i].id;
    }
  }

  lemma {:induction false} EffectOfSkip(cfg: Config, before: seq<A2ARow>, rows: seq<A2ARow>, a2a: seq<A2ARow>, k: nat)
    requires k < |rows| && Effect(cfg, before, a2a, rows[..k]) && Exhausted(cfg, rows[k])
    ensures Effect(cfg, before, a2a, rows[..k + 1])
  {
    assert rows[..k + 1] == rows[..k] + [rows[k]];
    forall j | 0 <= j < |before| ensures RowEffect(cfg, before[j], a2a[j], rows[..k + 1]) {
      assert RowEffect(cfg, before[j], a2a[j], rows[..k]);
    }
  }

  lemma {:induction false} EffectWithOneMore(cfg: Config, before: seq<A2ARow>, a2a: seq<A2ARow>, r: A2ARow, done: seq<A2ARow>)
    requires Effect(cfg, before, a2a, done)
    ensures Effect(cfg, before, a2a + [r], done)
  {
    forall j | 0 <= j < |before| ensures RowEffect(cfg, before[j], (a2a + [r])[j], done) {
      assert RowEffect(cfg, before[j], a2a[j], done);
    }
  }

  lemma {:induction false} RetryUnderway(cfg: Config, db: Db, before: seq<A2ARow>, beforeSeq: int, rows: seq<A2ARow>, k: nat, error: string, now: int)
    requires WfA2A(before, beforeSeq) && WfA2A(db.a2a, db.a2aSeq) && Batch(before, rows) && k < |rows|
    requires Effect(cfg, before, db.a2a, rows[..k]) && !Exhausted(cfg, rows[k])
    ensures Effect(cfg, before, RetryRow(cfg, db, rows[k], error, now).a2a, rows[..k + 1])
  {
    assert rows[k] in before;
    var i: nat :| i < |before| && before[i] == rows[k];
    NextIsUntouched(cfg, before, rows, db.a2a, db.a2aSeq, k, i);
    EffectOfOne(cfg, before, beforeSeq, rows, db.a2a, db.a2aSeq, k, RetryRow(cfg, db, rows[k], error, now).a2a[i]);
  }

  lemma {:induction false} SentUnderway(cfg: Config, db: Db, before: seq<A2ARow>, beforeSeq: int, rows: seq<A2ARow>, k: nat, now: int)
    requires WfA2A(before, beforeSeq) && WfA2A(db.a2a, db.a2aSeq) && Batch(before, rows) && k < |rows|
    requires Effect(cfg, before, db.a2a, rows[..k]) && !Exhausted(cfg, rows[k])
    ensures Effect(cfg, before, A2ASentRow(db, rows[k].id, now).a2a, rows[..k + 1])
  {
    assert rows[k] in before;
    var i: nat :| i < |before| && before[i] == rows[k];
    NextIsUntouched(cfg, before, rows, db.a2a, db.a2aSeq, k, i);
    EffectOfOne(cfg, before, beforeSeq, rows, db.a2a, db.a2aSeq, k, A2ASentRow(db, rows[k].id, now).a2a[i]);
  }

  lemma {:induction false} A2AStepUnderway(cfg: Config, db: Db, pc: A2APc, log: A2ALog, l: A2ALabel, now: int, before: seq<A2ARow>, beforeSeq: int, rows: seq<A2ARow>)
    requires Steady(cfg, db, pc, log, now) && WfA2A(before, beforeSeq) && Batch(before, rows)
    requires Underway(cfg, before, rows, db.a2a, pc) && Inside(A2A(l))
    ensures
      var r := A2AStep(cfg, db, pc, log, l, now);
      Underway(cfg, before, rows, r.db.a2a, r.pc)
  {
    hide Accounted, Effect, RetryRow, A2ASentRow, Snapshot, Listed, Batch;
    var k := if pc.A2AIdle? then 0 else |rows| - |pc.left|;
    match l
    case A2ANext(ok, error) =>
      if pc.Rows? && pc.left != [] {
        assert pc.left[0] == rows[k] && pc.left[1..] == rows[k + 1..];
        if Exhausted(cfg, rows[k]) {
          EffectOfSkip(cfg, before, rows, db.a2a, k);
        } else if !cfg.decodes(rows[k].envelope) {
          RetryUnderway(cfg, db, before, beforeSeq, rows, k, error, now);
        }
      }
    case A2AMark(error) =>
      if pc.Published? {
        if pc.ok {
          SentUnderway(cfg, db, before, beforeSeq, rows, k - 1, now);
        } else {
          RetryUnderway(cfg, db, before, beforeSeq, rows, k - 1, error, now);
        }
      }
    case _ =>
  }

  lemma {:induction false} StepUnderway(cfg: Config, s: Sys, l: Label, before: seq<A2ARow>, beforeSeq: int, rows: seq<A2ARow>)
    requires A2ASteady(cfg, s) && WfA2A(before, beforeSeq) && Batch(before, rows)
    requires Underway(cfg, before, rows, s.db.a2a, s.a2a) && Inside(l)
    ensures Underway(cfg, before, rows, Step(cfg, s, l).db.a2a, Step(cfg, s, l).a2a)
  {
    hide Tracked, Wf, WfA2A, Batch, Effect, PushStep, A2AStep, MediaStep, Apply, Enqueues;
    match l
    case Tick(_) =>
    case Op(op) =>
      OnlyEnqueuesA2A(s.db, op, s.clock);
      if op.EnqueueA2A? && Enqueues(s.db, op.message) && !s.a2a.A2AIdle? {
        var r := NewA2A(op.message, s.db.a2aSeq + 1 + op.gap, s.clock);
        var k := |rows| - |s.a2a.left| - if s.a2a.Published? then 1 else 0;
        EffectWithOneMore(cfg, before, s.db.a2a, r, rows[..k]);
      }
    case Push(pl) => PushWrites(cfg, s.db, s.push, s.pushLog, pl, s.clock);
    case A2A(al) => A2AStepUnderway(cfg, s.db, s.a2a, s.a2aLog, al, s.clock, before, beforeSeq, rows);
    case Media(ml) => MediaWrites(cfg, s.db, s.media, s.mediaLog, ml, s.clock);
  }

  lemma {:induction false} RunUnderway(cfg: Config, s: Sys, ls: seq<Label>, before: seq<A2ARow>, beforeSeq: int, rows: seq<A2ARow>)
    requires A2ASteady(cfg, s) && WfA2A(before, beforeSeq) && Batch(before, rows)
    requires Underway(cfg, before, rows, s.db.a2a, s.a2a) && forall i :: 0 <= i < |ls| ==> Inside(ls[i])
    ensures
      var s' := Run(cfg, s, ls);
      A2ASteady(cfg, s') && Underway(cfg, before, rows, s'.db.a2a, s'.a2a)
    decreases |ls|
  {
    hide A2ASteady, Underway, Step, Batch, WfA2A, Inside;
    if ls != [] {
      StepA2ASteady(cfg, s, ls[0]);
      StepUnderway(cfg, s, ls[0], before, beforeSeq, rows);
      RunUnderway(cfg, Step(cfg, s, ls[0]), ls[1..], before, beforeSeq, rows);
    }
  }

  function FirstDue(cfg: Config, a2a: seq<A2ARow>, now: int): seq<A2ARow> {
    Select(a2a, DueA2A(now), cfg.A2ABatch())
  }

  /** The labels of one flush, from its listing to its last row, others interleaved. */
  ghost predicate WholeFlush(cfg: Config, s: Sys, ls: seq<Label>) {
    && s.a2a.A2AIdle? && (forall i :: 0 <= i < |ls| ==> Inside(ls[i]))
    && Run(cfg, Step(cfg, s, A2A(A2AStart)), ls).a2a == Rows([])
  }

  function AfterFlush(cfg: Config, s: Sys, ls: seq<Label>): Sys {
    Run(cfg, s, [A2A(A2AStart)] + ls + [A2A(A2ADone)])
  }

  lemma {:induction false} FlushUnfolds(cfg: Config, s: Sys, ls: seq<Label>)
    ensures AfterFlush(cfg, s, ls) == Step(cfg, Run(cfg, Step(cfg, s, A2A(A2AStart)), ls), A2A(A2ADone))
  {
    hide Step;
    RunSnoc(cfg, s, [A2A(A2AStart)] + ls, A2A(A2ADone));
    assert ([A2A(A2AStart)] + ls)[1..] == ls;
  }

  lemma {:induction false} StartUnderway(cfg: Config, s: Sys)
    requires A2ASteady(cfg, s) && s.a2a.A2AIdle?
    ensures
      var s1 := Step(cfg, s, A2A(A2AStart));
      var rows := FirstDue(cfg, s.db.a2a, s.clock);
      && A2ASteady(cfg, s1) && Batch(s.db.a2a, rows) && Underway(cfg, s.db.a2a, rows, s1.db.a2a, s1.a2a)
  {
    hide Tracked, Wf, WfA2A, Effect;
    StepA2ASteady(cfg, s, A2A(A2AStart));
    var rows := FirstDue(cfg, s.db.a2a, s.clock);
    BatchIsSelection(cfg, s);
    NothingDone(cfg, s.db.a2a);
    assert rows[..0] == [] && rows[0..] == rows;
  }

  lemma {:induction false} BatchIsSelection(cfg: Config, s: Sys)
    requires A2ASteady(cfg, s)
    ensures Batch(s.db.a2a, FirstDue(cfg, s.db.a2a, s.clock))
  {
    SelectOrdered(s.db.a2a, DueA2A(s.clock), cfg.A2ABatch(), (r: A2ARow) => r.id);
  }

  /** A flush that runs to its end, whatever others do meanwhile, makes exactly one try of each of
      the first due rows that is not exhausted, records it in the row, and leaves every other row
      as it was. */
  lemma {:induction false} FlushTriesFirstDue(cfg: Config, s: Sys, ls: seq<Label>)
    requires A2ASteady(cfg, s) && WholeFlush(cfg, s, ls)
    ensures
      var s' := AfterFlush(cfg, s, ls);
      A2ASteady(cfg, s') && s'.a2a.A2AIdle? && Effect(cfg, s.db.a2a, s'.db.a2a, FirstDue(cfg, s.db.a2a, s.clock))
  {
    hide A2ASteady, Effect, Batch, WfA2A, Step, Run;
    var rows := FirstDue(cfg, s.db.a2a, s.clock);
    SteadyWf(cfg, s);
    StartUnderway(cfg, s);
    var s1 := Step(cfg, s, A2A(A2AStart));
    RunUnderway(cfg, s1, ls, s.db.a2a, s.db.a2aSeq, rows);
    assert rows[..|rows|] == rows;
    FlushUnfolds(cfg, s, ls);
    StepA2ASteady(cfg, Run(cfg, s1, ls), A2A(A2ADone));
    DoneIsQuiet(cfg, Run(cfg, s1, ls));
  }

  lemma {:induction false} DoneIsQuiet(cfg: Config, s: Sys)
    requires s.a2a == Rows([])
    ensures Step(cfg, s, A2A(A2ADone)) == s.(a2a := A2AIdle)
  {
  }

  // ------------------------------------------------------------- what is owed

  /** The tries still owed to rows that are not SENT, under a retry limit. */
  function Owed(cfg: Config, rows: seq<A2ARow>): int {
    if rows == [] then 0
    else (if rows[0].status == Sent then 0 else cfg.a2aMaxRetries - rows[0].attempt) + Owed(cfg, rows[1..])
  }

  function Worked(cfg: Config, done: seq<A2ARow>): A2ARow -> bool {
    (r: A2ARow) => r in done && !Exhausted(cfg, r)
  }

  lemma {:induction false} OwedDrops(cfg: Config, before: seq<A2ARow>, after: seq<A2ARow>, done: seq<A2ARow>)
    requires cfg.a2aMaxRetries > 0 && |before| == |after| && Effect(cfg, before, after, done)
    requires forall r :: r in done ==> Open(r.status)
    ensures Owed(cfg, after) + Count(before, Worked(cfg, done)) <= Owed(cfg, before)
    ensures Count(before, Worked(cfg, done)) == 0 ==> after == before
  {
    if before != [] {
      assert RowEffect(cfg, before[0], after[0], done);
      forall i | 0 <= i < |before[1..]| ensures RowEffect(cfg, before[1..][i], after[1..][i], done) {
        assert RowEffect(cfg, before[i + 1], after[i + 1], done);
      }
      OwedDrops(cfg, before[1..], after[1..], done);
      assert before == [before[0]] + before[1..] && after == [after[0]] + after[1..];
    }
  }

  /** The rows of the batch that the flush will try. */
  function Tries(cfg: Config, s: Sys): nat {
    Count(s.db.a2a, Worked(cfg, FirstDue(cfg, s.db.a2a, s.clock)))
  }

  /** Over the rows it finds, a whole flush lowers the number of tries owed by at least the number
      of rows it tries, and if it tries none it leaves them all as they are. */
  lemma {:induction false} FlushProgress(cfg: Config, s: Sys, ls: seq<Label>)
    requires A2ASteady(cfg, s) && WholeFlush(cfg, s, ls) && cfg.a2aMaxRetries > 0
    ensures
      var before, after := s.db.a2a, AfterFlush(cfg, s, ls).db.a2a;
      && |before| <= |after|
      && Owed(cfg, after[..|before|]) + Tries(cfg, s) <= Owed(cfg, before)
      && (Tries(cfg, s) == 0 ==> after[..|before|] == before)
  {
    hide A2ASteady, RowEffect, WholeFlush;
    FlushTriesFirstDue(cfg, s, ls);
    var before, after := s.db.a2a, AfterFlush(cfg, s, ls).db.a2a;
    var rows := FirstDue(cfg, s.db.a2a, s.clock);
    assert Effect(cfg, before, after[..|before|], rows);
    assert forall r :: r in rows ==> DueA2A(s.clock)(r);
    OwedDrops(cfg, before, after[..|before|], rows);
  }

  /** An exhausted row that is nevertheless due, and always will be. */
  function Stuck(cfg: Config, now: int): A2ARow -> bool {
    (r: A2ARow) => Open(r.status) && r.nextRetryAt <= now && Exhausted(cfg, r)
  }

  ghost predicate FirstLive(cfg: Config, s: Sys, i: nat) {
    && i < |s.db.a2a| && DueA2A(s.clock)(s.db.a2a[i]) && !Exhausted(cfg, s.db.a2a[i])
    && forall j :: 0 <= j < i && DueA2A(s.clock)(s.db.a2a[j]) ==> Exhausted(cfg, s.db.a2a[j])
  }

  /** The batch reaches the first live due row exactly when fewer than a batch of due rows, all of
      them exhausted, stand before it. */
  lemma {:induction false} TriesIffReached(cfg: Config, s: Sys, i: nat)
    requires FirstLive(cfg, s, i)
    ensures Tries(cfg, s) > 0 <==> Count(s.db.a2a[..i], DueA2A(s.clock)) < cfg.A2ABatch()
    ensures Count(s.db.a2a[..i], DueA2A(s.clock)) < cfg.A2ABatch() ==> s.db.a2a[i] in FirstDue(cfg, s.db.a2a, s.clock)
  {
    var due := DueA2A(s.clock);
    var rows := FirstDue(cfg, s.db.a2a, s.clock);
    if Count(s.db.a2a[..i], due) < cfg.A2ABatch() {
      SelectReaches(s.db.a2a, i, due, cfg.A2ABatch());
      CountHit(s.db.a2a, Worked(cfg, rows), i);
    } else {
      SelectFromPrefix(s.db.a2a, i, due, cfg.A2ABatch());
      forall r | r in rows ensures Exhausted(cfg, r) {
        assert r in s.db.a2a[..i] && due(r);
      }
      CountNoHit(s.db.a2a, Worked(cfg, rows));
    }
  }

  /** While fewer than a batch of due rows are exhausted, a flush that finds a live due row makes
      progress. */
  lemma {:induction false} ProgressWhileFewStuck(cfg: Config, s: Sys, ls: seq<Label>, i: nat)
    requires A2ASteady(cfg, s) && WholeFlush(cfg, s, ls) && cfg.a2aMaxRetries > 0
    requires FirstLive(cfg, s, i) && Count(s.db.a2a, Stuck(cfg, s.clock)) < cfg.A2ABatch()
    ensures |s.db.a2a| <= |AfterFlush(cfg, s, ls).db.a2a|
    ensures Owed(cfg, AfterFlush(cfg, s, ls).db.a2a[..|s.db.a2a|]) < Owed(cfg, s.db.a2a)
  {
    hide A2ASteady, WholeFlush;
    FlushProgress(cfg, s, ls);
    TriesIffReached(cfg, s, i);
    CountGrows(s.db.a2a[..i], s.db.a2a[..i], DueA2A(s.clock), Stuck(cfg, s.clock));
    CountSplit(s.db.a2a[..i], s.db.a2a[i..], Stuck(cfg, s.clock));
    assert s.db.a2a == s.db.a2a[..i] + s.db.a2a[i..];
  }

  // ----------------------------------------------------- head-of-line blocking

  ghost predicate Below(pc: A2APc, bound: int) {
    && (!pc.A2AIdle? ==> forall j :: 0 <= j < |pc.left| ==> pc.left[j].id <= bound)
    && (pc.Published? || pc.MarkedSent? ==> pc.row.id <= bound)
  }

  /** A batch of exhausted due rows among the first k, and nothing later being worked on. */
  ghost predicate Blocked(cfg: Config, a2a: seq<A2ARow>, pc: A2APc, clock: int, k: nat) {
    0 < k <= |a2a| && cfg.A2ABatch() <= Count(a2a[..k], Stuck(cfg, clock)) && Below(pc, a2a[k - 1].id)
  }

  /** No row from the k-th on was tried or changed. */
  ghost predicate Starved(a2a: seq<A2ARow>, log: A2ALog, a2a': seq<A2ARow>, log': A2ALog, k: nat) {
    && 0 < k <= |a2a| <= |a2a'| && a2a'[k - 1].id == a2a[k - 1].id
    && (forall i :: k <= i < |a2a| ==> a2a'[i] == a2a[i])
    && log.tries <= log'.tries
    && forall j :: |log.tries| <= j < |log'.tries| ==> log'.tries[j].id <= a2a[k - 1].id
  }

  /** Rows that are stuck stay as they are. */
  ghost predicate StuckKept(cfg: Config, a2a: seq<A2ARow>, a2a': seq<A2ARow>, clock: int) {
    |a2a| <= |a2a'| && forall i :: 0 <= i < |a2a| && Stuck(cfg, clock)(a2a[i]) ==> a2a'[i] == a2a[i]
  }

  lemma {:induction false} StillBlocked(cfg: Config, a2a: seq<A2ARow>, a2a': seq<A2ARow>, pc: A2APc, pc': A2APc, clock: int, clock': int, k: nat)
    requires Blocked(cfg, a2a, pc, clock, k) && StuckKept(cfg, a2a, a2a', clock) && clock <= clock'
    requires a2a'[k - 1].id == a2a[k - 1].id && Below(pc', a2a[k - 1].id)
    ensures Blocked(cfg, a2a', pc', clock', k)
  {
    CountGrows(a2a[..k], a2a'[..k], Stuck(cfg, clock), Stuck(cfg, clock'));
  }

  lemma {:induction false} ListingBelow(cfg: Config, a2a: seq<A2ARow>, a2aSeq: int, clock: int, k: nat)
    requires WfA2A(a2a, a2aSeq) && Blocked(cfg, a2a, A2AIdle, clock, k)
    ensures Below(Rows(FirstDue(cfg, a2a, clock)), a2a[k - 1].id)
  {
    CountGrows(a2a[..k], a2a[..k], Stuck(cfg, clock), DueA2A(clock));
    SelectFromPrefix(a2a, k, DueA2A(clock), cfg.A2ABatch());
    var rows := FirstDue(cfg, a2a, clock);
    forall j | 0 <= j < |rows| ensures rows[j].id <= a2a[k - 1].id {
      assert rows[j] in a2a[..k];
    }
  }

  lemma {:induction false} RowSetStarves(cfg: Config, a2a: seq<A2ARow>, a2aSeq: int, n: nat, r: A2ARow, log: A2ALog, log': A2ALog, now: int, k: nat)
    requires WfA2A(a2a, a2aSeq) && 0 < k <= |a2a| && n < |a2a| && r.id == a2a[n].id
    requires a2a[n].id <= a2a[k - 1].id && !Exhausted(cfg, a2a[n])
    requires log'.tries == log.tries || exists t :: log'.tries == log.tries + [t] && t.id == r.id
    ensures StuckKept(cfg, a2a, a2a[n := r], now) && Starved(a2a, log, a2a[n := r], log', k)
  {
  }

  lemma {:induction false} RetryStarves(cfg: Config, db: Db, row: A2ARow, log: A2ALog, log': A2ALog, error: string, now: int, k: nat)
    requires WfA2A(db.a2a, db.a2aSeq) && 0 < k <= |db.a2a| && Publishing(cfg, db.a2a, row) && row.id <= db.a2a[k - 1].id
    requires log'.tries == log.tries || log' == LogTry(log, row, now, false)
    ensures
      var a2a' := RetryRow(cfg, db, row, error, now).a2a;
      StuckKept(cfg, db.a2a, a2a', now) && Starved(db.a2a, log, a2a', log', k)
  {
    hide StuckKept, Starved;
    var n := A2AAt(db.a2a, row.id);
    var t := Try(row.id, row.attempt + 1, now, false);
    assert log'.tries == log.tries || (log'.tries == log.tries + [t] && t.id == row.id);
    RowSetStarves(cfg, db.a2a, db.a2aSeq, n, RetryRow(cfg, db, row, error, now).a2a[n], log, log', now, k);
  }

  lemma {:induction false} SentStarves(cfg: Config, db: Db, row: A2ARow, log: A2ALog, now: int, k: nat)
    requires WfA2A(db.a2a, db.a2aSeq) && 0 < k <= |db.a2a| && Publishing(cfg, db.a2a, row) && row.id <= db.a2a[k - 1].id
    ensures
      var a2a' := A2ASentRow(db, row.id, now).a2a;
      StuckKept(cfg, db.a2a, a2a', now) && Starved(db.a2a, log, a2a', log, k)
  {
    hide StuckKept, Starved;
    var n := A2AAt(db.a2a, row.id);
    RowSetStarves(cfg, db.a2a, db.a2aSeq, n, A2ASentRow(db, row.id, now).a2a[n], log, log, now, k);
  }

  /** Leaving the table alone, with at most one more try of a row among the first k. */
  lemma {:induction false} TryStarves(cfg: Config, a2a: seq<A2ARow>, log: A2ALog, log': A2ALog, now: int, k: nat)
    requires 0 < k <= |a2a|
    requires log'.tries == log.tries || exists t: Try :: log'.tries == log.tries + [t] && t.id <= a2a[k - 1].id
    ensures StuckKept(cfg, a2a, a2a, now) && Starved(a2a, log, a2a, log', k)
  {
  }

  lemma {:induction false} NextBlocked(cfg: Config, db: Db, left: seq<A2ARow>, log: A2ALog, ok: bool, error: string, now: int, k: nat)
    requires Steady(cfg, db, Rows(left), log, now) && Blocked(cfg, db.a2a, Rows(left), now, k) && left != []
    ensures
      var r := A2AStep(cfg, db, Rows(left), log, A2ANext(ok, error), now);
      && StuckKept(cfg, db.a2a, r.db.a2a, now) && Starved(db.a2a, log, r.db.a2a, r.log, k)
      && Below(r.pc, db.a2a[k - 1].id)
  {
    hide Accounted, Count, RetryRow, Listed, StuckKept, Starved;
    HeadListed(db.a2a, left, now);
    TryStarves(cfg, db.a2a, log, log, now, k);
    if !Exhausted(cfg, left[0]) {
      var t := Try(left[0].id, left[0].attempt + 1, now, ok);
      assert LogTry(log, left[0], now, ok).tries == log.tries + [t] && t.id <= db.a2a[k - 1].id;
      TryStarves(cfg, db.a2a, log, LogTry(log, left[0], now, ok), now, k);
      RetryStarves(cfg, db, left[0], log, LogTry(log, left[0], now, false), error, now, k);
    }
  }

  lemma {:induction false} A2AStepBlocked(cfg: Config, db: Db, pc: A2APc, log: A2ALog, l: A2ALabel, now: int, k: nat)
    requires Steady(cfg, db, pc, log, now) && Blocked(cfg, db.a2a, pc, now, k)
    ensures
      var r := A2AStep(cfg, db, pc, log, l, now);
      && StuckKept(cfg, db.a2a, r.db.a2a, now) && Starved(db.a2a, log, r.db.a2a, r.log, k)
      && Below(r.pc, db.a2a[k - 1].id)
  {
    hide Accounted, Count, RetryRow, A2ASentRow, Listed, Snapshot, StuckKept, Starved;
    TryStarves(cfg, db.a2a, log, log, now, k);
    match l
    case A2AStart =>
      if pc.A2AIdle? {
        ListingBelow(cfg, db.a2a, db.a2aSeq, now, k);
      }
    case A2ANext(ok, error) =>
      if pc.Rows? && pc.left != [] {
        NextBlocked(cfg, db, pc.left, log, ok, error, now, k);
      }
    case A2AMark(error) =>
      if pc.Published? {
        SentStarves(cfg, db, pc.row, log, now, k);
        RetryStarves(cfg, db, pc.row, log, log, error, now, k);
      }
    case _ =>
  }

  lemma {:induction false} StepBlocked(cfg: Config, s: Sys, l: Label, k: nat)
    requires A2ASteady(cfg, s) && Blocked(cfg, s.db.a2a, s.a2a, s.clock, k)
    ensures
      var s' := Step(cfg, s, l);
      Blocked(cfg, s'.db.a2a, s'.a2a, s'.clock, k) && Starved(s.db.a2a, s.a2aLog, s'.db.a2a, s'.a2aLog, k)
  {
    hide Tracked, Wf, PushStep, A2AStep, MediaStep, Apply, Enqueues, Count;
    var s' := Step(cfg, s, l);
    match l {
      case Op(op) => OnlyEnqueuesA2A(s.db, op, s.clock);
      case Push(pl) => PushWrites(cfg, s.db, s.push, s.pushLog, pl, s.clock);
      case A2A(al) => A2AStepBlocked(cfg, s.db, s.a2a, s.a2aLog, al, s.clock, k);
      case Media(ml) => MediaWrites(cfg, s.db, s.media, s.mediaLog, ml, s.clock);
      case _ =>
    }
    StillBlocked(cfg, s.db.a2a, s'.db.a2a, s.a2a, s'.a2a, s.clock, s'.clock, k);
  }

  /** Head-of-line blocking: once a batch of exhausted due rows stands among the first k, no row
      after them is ever tried or changed again, in any run. */
  lemma {:induction false} BlockedForever(cfg: Config, s: Sys, ls: seq<Label>, k: nat)
    requires A2ASteady(cfg, s) && Blocked(cfg, s.db.a2a, s.a2a, s.clock, k)
    ensures
      var s' := Run(cfg, s, ls);
      Starved(s.db.a2a, s.a2aLog, s'.db.a2a, s'.a2aLog, k)
    decreases |ls|
  {
    hide A2ASteady, Blocked, Step;
    if ls == [] {
      assert Starved(s.db.a2a, s.a2aLog, s.db.a2a, s.a2aLog, k) by { StepBlocked(cfg, s, Tick(0), k); }
    } else {
      StepA2ASteady(cfg, s, ls[0]);
      StepBlocked(cfg, s, ls[0], k);
      BlockedForever(cfg, Step(cfg, s, ls[0]), ls[1..], k);
    }
  }

  /** The fate of the first live due row is decided by a count: with fewer than a batch of due rows
      before it, the next whole flush tries it; otherwise no flush of any run ever does. */
  lemma {:induction false} FirstLiveRowIsTriedIff(cfg: Config, s: Sys, i: nat)
    requires A2ASteady(cfg, s) && s.a2a.A2AIdle? && FirstLive(cfg, s, i)
    ensures Count(s.db.a2a[..i], DueA2A(s.clock)) < cfg.A2ABatch() ==>
      forall ls :: WholeFlush(cfg, s, ls) ==>
        i < |AfterFlush(cfg, s, ls).db.a2a| && Handled(s.db.a2a[i], AfterFlush(cfg, s, ls).db.a2a[i])
    ensures Count(s.db.a2a[..i], DueA2A(s.clock)) >= cfg.A2ABatch() ==>
      forall ls :: i > 0 && Starved(s.db.a2a, s.a2aLog, Run(cfg, s, ls).db.a2a, Run(cfg, s, ls).a2aLog, i)
  {
    TriesIffReached(cfg, s, i);
    CountGrows(s.db.a2a[..i], s.db.a2a[..i], DueA2A(s.clock), Stuck(cfg, s.clock));
    if Count(s.db.a2a[..i], DueA2A(s.clock)) < cfg.A2ABatch() {
      forall ls | WholeFlush(cfg, s, ls)
        ensures i < |AfterFlush(cfg, s, ls).db.a2a| && Handled(s.db.a2a[i], AfterFlush(cfg, s, ls).db.a2a[i])
      {
        FlushTriesFirstDue(cfg, s, ls);
        assert RowEffect(cfg, s.db.a2a[i], AfterFlush(cfg, s, ls).db.a2a[i], FirstDue(cfg, s.db.a2a, s.clock));
      }
    } else {
      forall ls ensures Starved(s.db.a2a, s.a2aLog, Run(cfg, s, ls).db.a2a, Run(cfg, s, ls).a2aLog, i) {
        BlockedForever(cfg, s, ls, i);
      }
    }
  }
}
