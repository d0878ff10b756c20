/** The a2a flush loop as it is executed, and what the three loops share.  Each loop is shown to be a run of
    the system: the labels it returns lead the state machine to the very database the loop leaves
    behind, so everything proved of runs holds of the loops. */
module Dispatchers {
  import opened Wrappers
  import opened Tables
  import opened System
  import opened Schema
  import opened Store
  import opened Batches
  import Backoff
  import A = A2ADelivery
  import P = A2AProgress

  // ------------------------------------------------------------- everybody else

  /** What happens while a flush is waiting: the other flushers share its goroutine, so only
      store calls by others and the passing of time. */
  predicate Outside(l: Label) {
    l.Op? || l.Tick?
  }

  ghost predicate AllOutside(ls: seq<Label>) {
    forall i :: 0 <= i < |ls| ==> Outside(ls[i])
  }

  /** The store seen by the flush is the one in the state. */
  ghost predicate At(es: EventStore, s: Sys)
    reads es
  {
    es.db == s.db && es.clock == s.clock
  }

  method Meanwhile(es: EventStore, ls: seq<Label>, ghost cfg: Config, ghost s: Sys)
    requires At(es, s) && AllOutside(ls)
    modifies es
    ensures At(es, Run(cfg, s, ls))
    ensures Run(cfg, s, ls) == s.(db := es.db, clock := es.clock)
  {
    for i := 0 to |ls|
      invariant Run(cfg, s, ls[..i]) == s.(db := es.db, clock := es.clock)
    {
      assert ls[..i + 1] == ls[..i] + [ls[i]] && Outside(ls[i]);
      RunSnoc(cfg, s, ls[..i], ls[i]);
      match ls[i] {
        case Op(op) => es.db := Apply(es.db, op, es.clock);
        case Tick(elapsed) => es.clock := es.clock + elapsed;
      }
    }
    assert ls[..|ls|] == ls;
  }

  // ------------------------------------------------------------------ a2a flush

  /** One turn of the loop, as the world decides it. */
  datatype Turn = Turn(before: seq<Label>, cancelled: bool, ok: bool, during: seq<Label>, error: string)

  ghost predicate Fair(world: nat -> Turn) {
    forall i: nat :: AllOutside(world(i).before) && AllOutside(world(i).during)
  }

  datatype A2AStats = A2AStats(sent: nat, retried: nat, skipped: nat)

  datatype RowOutcome = RowSent | RowRetried | RowSkipped

  ghost predicate AllInside(ls: seq<Label>) {
    forall i :: 0 <= i < |ls| ==> P.Inside(ls[i])
  }

  /** What becomes of a row: skipped once it has used up its tries, a failed try if its envelope cannot
      be rebuilt, and else what the broker says. */
  ghost function OutcomeOf(cfg: Config, row: A2ARow, ok: bool): RowOutcome {
    if 0 < cfg.a2aMaxRetries <= row.attempt then RowSkipped
    else if cfg.decodes(row.envelope) && ok then RowSent
    else RowRetried
  }

  /** What a row's turn adds to the tries. */
  ghost predicate Tried(outcome: RowOutcome, log: A2ALog, log': A2ALog) {
    if outcome == RowSkipped then log'.tries == log.tries
    else |log'.tries| == |log.tries| + 1 && log.tries <= log'.tries && log'.tries[|log.tries|].ok == (outcome == RowSent)
  }

  ghost function TryOf(row: A2ARow, outcome: RowOutcome): seq<Delivery> {
    if outcome == RowSkipped then [] else [Delivery(row.id, outcome == RowSent)]
  }

  /** The row afterwards: SENT; or RETRY, one attempt on, and due when that attempt's delay is over; or
      as it was. */
  ghost function A2AMarked(cfg: Config, row: A2ARow, outcome: RowOutcome): A2ARow -> bool {
    (r: A2ARow) => SameA2A(row, r) && match outcome {
      case RowSent => r.status == Sent && r.attempt == row.attempt
      case RowRetried =>
        r.status == Retry && r.attempt == row.attempt + 1 && r.nextRetryAt == r.updatedAt + Backoff.DelayMs(row.attempt + 1, cfg.a2aMaxDelay)
      case RowSkipped => r == row
    }
  }

  function A2AId(r: A2ARow): int {
    r.id
  }

  ghost predicate Turned(cfg: Config, es: EventStore, s: Sys, row: A2ARow, left: seq<A2ARow>, ls: seq<Label>, outcome: RowOutcome)
    reads es
  {
    var s' := Run(cfg, s, ls);
    && AllInside(ls) && At(es, s') && A.A2ASteady(cfg, s') && s'.a2a == Rows(left)
    && s' == s.(db := s'.db, clock := s'.clock, a2a := s'.a2a, a2aLog := s'.a2aLog)
    && Tried(outcome, s.a2aLog, s'.a2aLog) && s'.a2aLog.tried == s.a2aLog.tried + TryOf(row, outcome)
    && Moves(s.db.a2a, s'.db.a2a, A2AId, row.id, A2AMarked(cfg, row, outcome))
  }

  /** Others add rows to the a2a table, and do no more to it. */
  lemma {:induction false} OutsideAddsA2A(cfg: Config, s: Sys, ls: seq<Label>)
    requires AllOutside(ls)
    ensures s.db.a2a <= Run(cfg, s, ls).db.a2a
    decreases |ls|
  {
    hide Apply;
    if ls != [] {
      assert Outside(ls[0]);
      if ls[0].Op? {
        A.OnlyEnqueuesA2A(s.db, ls[0].op, s.clock);
      }
      OutsideAddsA2A(cfg, Step(cfg, s, ls[0]), ls[1..]);
    }
  }

  /** The marks of a listed row change that row alone, each in its way; so does leaving it as it is. */
  lemma {:induction false} MarksMove(cfg: Config, db: Db, row: A2ARow, error: string, now: int)
    requires WfA2A(db.a2a, db.a2aSeq) && A.Listed(db.a2a, row)
    ensures Moves(db.a2a, A2ASentRow(db, row.id, now).a2a, A2AId, row.id, A2AMarked(cfg, row, RowSent))
    ensures Moves(db.a2a, RetryRow(cfg, db, row, error, now).a2a, A2AId, row.id, A2AMarked(cfg, row, RowRetried))
    ensures Moves(db.a2a, db.a2a, A2AId, row.id, A2AMarked(cfg, row, RowSkipped))
    ensures forall r :: BindSent(A2ASentRow(db, row.id, now), r, now).a2a == A2ASentRow(db, row.id, now).a2a
  {
    hide Truncate, Backoff.DelayMs;
    forall k | 0 <= k < |db.a2a| && db.a2a[k].id == row.id ensures k == A2AAt(db.a2a, row.id) {
      A.A2AAtIs(db.a2a, db.a2aSeq, k);
    }
  }

  lemma {:induction false} HeadIsListed(cfg: Config, s: Sys, row: A2ARow, left: seq<A2ARow>)
    requires A.A2ASteady(cfg, s) && s.a2a == Rows([row] + left)
    ensures A.Listed(s.db.a2a, row)
  {
    assert ([row] + left)[0] == row;
  }

  lemma {:induction false} OneStep(cfg: Config, s: Sys, l: Label)
    ensures Run(cfg, s, [l]) == Step(cfg, s, l)
  {
  }

  lemma {:induction false} SteadyAlong(cfg: Config, s: Sys, ls: seq<Label>)
    requires A.A2ASteady(cfg, s)
    ensures A.A2ASteady(cfg, Run(cfg, s, ls))
  {
    A.RunA2ASteady(cfg, s, ls);
  }

  method SkipRow(es: EventStore, cfg: Config, row: A2ARow, ghost s: Sys, ghost left: seq<A2ARow>) returns (ghost ls: seq<Label>)
    requires At(es, s) && A.A2ASteady(cfg, s) && s.a2a == Rows([row] + left) && Exhausted(cfg, row)
    ensures Turned(cfg, es, s, row, left, ls, RowSkipped)
  {
    hide A.A2ASteady;
    HeadIsListed(cfg, s, row, left);
    A.SteadyWf(cfg, s);
    MarksMove(cfg, s.db, row, "", s.clock);
    var l := A2A(A2ANext(true, ""));
    ls := [l];
    OneStep(cfg, s, l);
    assert ([row] + left)[1..] == left;
    SteadyAlong(cfg, s, ls);
  }

  method RetryUndecodable(es: EventStore, cfg: Config, row: A2ARow, error: string, ghost s: Sys, ghost left: seq<A2ARow>) returns (ghost ls: seq<Label>)
    requires At(es, s) && A.A2ASteady(cfg, s) && s.a2a == Rows([row] + left) && !Exhausted(cfg, row) && !cfg.decodes(row.envelope)
    requires cfg.a2aMaxDelay <= Backoff.LARGEST_CAP
    modifies es`db
    ensures Turned(cfg, es, s, row, left, ls, RowRetried)
  {
    hide A.A2ASteady, Backoff.DelayMs, Truncate, Moves, A2AMarked, WfA2A;
    HeadIsListed(cfg, s, row, left);
    A.SteadyWf(cfg, s);
    MarksMove(cfg, s.db, row, error, s.clock);
    var l := A2A(A2ANext(false, error));
    ls := [l];
    OneStep(cfg, s, l);
    assert ([row] + left)[1..] == left;
    SteadyAlong(cfg, s, ls);
    var delay := Backoff.CalculateBackoffMs(row.attempt + 1, cfg.a2aMaxDelay);
    es.MarkA2aOutboxRetry(row.id, row.attempt + 1, es.clock + delay, error);
  }

  /** After the publish: RETRY with a later due time, or SENT and the route bound. */
  method MarkRow(es: EventStore, cfg: Config, row: A2ARow, ok: bool, error: string, ghost s: Sys, ghost left: seq<A2ARow>) returns (ghost ls: seq<Label>)
    requires At(es, s) && A.A2ASteady(cfg, s) && s.a2a == Published(row, left, ok)
    requires cfg.a2aMaxDelay <= Backoff.LARGEST_CAP
    modifies es`db
    ensures
      var s' := Run(cfg, s, ls);
      && AllInside(ls) && At(es, s') && s' == s.(db := s'.db, a2a := Rows(left))
      && Moves(s.db.a2a, s'.db.a2a, A2AId, row.id, A2AMarked(cfg, row, if ok then RowSent else RowRetried))
  {
    hide A.A2ASteady, Backoff.DelayMs, Truncate, BindPeer, Moves, A2AMarked, WfA2A;
    PublishedIsListed(cfg, s, row, left, ok);
    A.SteadyWf(cfg, s);
    MarksMove(cfg, s.db, row, error, s.clock);
    var mark, bind := A2A(A2AMark(error)), A2A(A2ABind);
    if ok {
      ls := [mark, bind];
      assert ls[1..] == [bind];
      OneStep(cfg, Step(cfg, s, mark), bind);
      ListedRow(cfg, s, row, left, ok);
      es.MarkA2aOutboxSent(row.id);
    } else {
      ls := [mark];
      OneStep(cfg, s, mark);
      var delay := Backoff.CalculateBackoffMs(row.attempt + 1, cfg.a2aMaxDelay);
      es.MarkA2aOutboxRetry(row.id, row.attempt + 1, es.clock + delay, error);
    }
  }

  lemma {:induction false} ListedRow(cfg: Config, s: Sys, row: A2ARow, left: seq<A2ARow>, ok: bool)
    requires A.A2ASteady(cfg, s) && s.a2a == Published(row, left, ok)
    ensures A2AAt(s.db.a2a, row.id) < |s.db.a2a| && s.db.a2a[A2AAt(s.db.a2a, row.id)] == row
  {
    assert A.Listed(s.db.a2a, row);
  }

  lemma {:induction false} PublishedIsListed(cfg: Config, s: Sys, row: A2ARow, left: seq<A2ARow>, ok: bool)
    requires A.A2ASteady(cfg, s) && s.a2a == Published(row, left, ok)
    ensures A.Listed(s.db.a2a, row)
  {
  }

  method PublishRow(es: EventStore, cfg: Config, row: A2ARow, turn: Turn, ghost s: Sys, ghost left: seq<A2ARow>) returns (ghost ls: seq<Label>)
    requires At(es, s) && A.A2ASteady(cfg, s) && s.a2a == Rows([row] + left) && !Exhausted(cfg, row) && cfg.decodes(row.envelope)
    requires cfg.a2aMaxDelay <= Backoff.LARGEST_CAP && AllOutside(turn.during)
    modifies es
    ensures Turned(cfg, es, s, row, left, ls, if turn.ok then RowSent else RowRetried)
  {
    hide A.A2ASteady, AllOutside, Backoff.DelayMs, Moves, A2AMarked;
    var next := A2A(A2ANext(turn.ok, ""));
    ghost var s1 := Step(cfg, s, next);
    assert ([row] + left)[1..] == left;
    A.StepA2ASteady(cfg, s, next);
    Meanwhile(es, turn.during, cfg, s1);
    ghost var s2 := Run(cfg, s1, turn.during);
    SteadyAlong(cfg, s1, turn.during);
    OutsideAddsA2A(cfg, s1, turn.during);
    ghost var marks := MarkRow(es, cfg, row, turn.ok, turn.error, s2, left);
    ls := [next] + turn.during + marks;
    RunConcat(cfg, s, [next] + turn.during, marks);
    RunConcat(cfg, s, [next], turn.during);
    OneStep(cfg, s, next);
    SteadyAlong(cfg, s2, marks);
    MovesMore(s.db.a2a, s2.db.a2a, Run(cfg, s2, marks).db.a2a, A2AId, row.id, A2AMarked(cfg, row, if turn.ok then RowSent else RowRetried));
    InsideAll([next], turn.during, marks);
  }

  lemma {:induction false} InsideAll(a: seq<Label>, b: seq<Label>, c: seq<Label>)
    requires AllInside(a) && AllOutside(b) && AllInside(c)
    ensures AllInside(a + b + c)
  {
    forall i | 0 <= i < |b| ensures P.Inside(b[i]) {
      assert Outside(b[i]);
    }
  }

  /** How many of the tries added were successes. */
  function Successes(tries: seq<Try>): nat {
    Count(tries, (t: Try) => t.ok)
  }

  /** The statistics so far account for the rows so far. */
  ghost predicate StatsFit(stats: A2AStats, log: A2ALog, log': A2ALog, rows: nat) {
    && stats.sent + stats.retried + stats.skipped == rows
    && log.tries <= log'.tries && |log'.tries| == |log.tries| + stats.sent + stats.retried
    && Successes(log'.tries[|log.tries|..]) == stats.sent
  }

  function Bump(stats: A2AStats, outcome: RowOutcome): A2AStats {
    match outcome
    case RowSent => stats.(sent := stats.sent + 1)
    case RowRetried => stats.(retried := stats.retried + 1)
    case RowSkipped => stats.(skipped := stats.skipped + 1)
  }

  lemma {:induction false} StatsGrow(stats: A2AStats, outcome: RowOutcome, log: A2ALog, mid: A2ALog, log': A2ALog, rows: nat)
    requires StatsFit(stats, log, mid, rows) && Tried(outcome, mid, log')
    ensures StatsFit(Bump(stats, outcome), log, log', rows + 1)
  {
    var a, b := mid.tries[|log.tries|..], log'.tries[|log.tries|..];
    if outcome != RowSkipped {
      var t := log'.tries[|mid.tries|];
      assert b == a + [t];
      CountSplit(a, [t], (t: Try) => t.ok);
    } else {
      assert b == a;
    }
  }

  method TurnOf(es: EventStore, cfg: Config, row: A2ARow, turn: Turn, ghost s: Sys, ghost left: seq<A2ARow>) returns (outcome: RowOutcome, ghost ls: seq<Label>)
    requires At(es, s) && A.A2ASteady(cfg, s) && s.a2a == Rows([row] + left)
    requires cfg.a2aMaxDelay <= Backoff.LARGEST_CAP && AllOutside(turn.during)
    modifies es
    ensures Turned(cfg, es, s, row, left, ls, outcome) && outcome == OutcomeOf(cfg, row, turn.ok)
  {
    hide A.A2ASteady, AllOutside, Moves, A2AMarked;
    if Exhausted(cfg, row) {
      ls := SkipRow(es, cfg, row, s, left);
      outcome := RowSkipped;
    } else if !cfg.decodes(row.envelope) {
      ls := RetryUndecodable(es, cfg, row, turn.error, s, left);
      outcome := RowRetried;
    } else {
      ls := PublishRow(es, cfg, row, turn, s, left);
      outcome := if turn.ok then RowSent else RowRetried;
    }
  }

  /** How many of the first n rows had the outcome. */
  ghost function HowMany(cfg: Config, rows: seq<A2ARow>, world: nat -> Turn, n: nat, outcome: RowOutcome): nat
    requires n <= |rows|
  {
    if n == 0 then 0
    else HowMany(cfg, rows, world, n - 1, outcome) + if OutcomeOf(cfg, rows[n - 1], world(n - 1).ok) == outcome then 1 else 0
  }

  /** The tries of the first n rows, in order. */
  ghost function TriesMade(cfg: Config, rows: seq<A2ARow>, world: nat -> Turn, n: nat): seq<Delivery>
    requires n <= |rows|
  {
    if n == 0 then [] else TriesMade(cfg, rows, world, n - 1) + TryOf(rows[n - 1], OutcomeOf(cfg, rows[n - 1], world(n - 1).ok))
  }

  ghost function DoneAs(cfg: Config, rows: seq<A2ARow>, world: nat -> Turn): (nat, A2ARow) -> bool {
    (j: nat, r: A2ARow) => j < |rows| && A2AMarked(cfg, rows[j], OutcomeOf(cfg, rows[j], world(j).ok))(r)
  }

  /** The statistics count the outcomes of the first n rows, the tries are theirs, and so are the changes. */
  ghost predicate Flushed(cfg: Config, s: Sys, s': Sys, rows: seq<A2ARow>, world: nat -> Turn, stats: A2AStats, n: nat) {
    && n <= |rows|
    && stats.sent == HowMany(cfg, rows, world, n, RowSent)
    && stats.retried == HowMany(cfg, rows, world, n, RowRetried)
    && stats.skipped == HowMany(cfg, rows, world, n, RowSkipped)
    && s'.a2aLog.tried == s.a2aLog.tried + TriesMade(cfg, rows, world, n)
    && Through(s.db.a2a, s'.db.a2a, rows, n, A2AId, DoneAs(cfg, rows, world))
  }

  /** The end of a flush: finished, or cancelled between two rows. */
  function AfterA2A(cfg: Config, s: Sys, mid: seq<Label>, finished: bool): Sys {
    Run(cfg, s, [A2A(A2AStart)] + mid + [if finished then A2A(A2ADone) else A2A(A2ACancel)])
  }

  /** The first n turns went on, and the next one did not. */
  ghost predicate StoppedAt(world: nat -> Turn, n: nat, rows: nat) {
    n <= rows && (forall i: nat :: i < n ==> !world(i).cancelled) && (n < rows ==> world(n).cancelled)
  }

  /** Where the loop stands: the rows before the i-th are done. */
  ghost predicate Standing(cfg: Config, es: EventStore, s: Sys, rows: seq<A2ARow>, world: nat -> Turn, i: nat, mid: seq<Label>, stats: A2AStats)
    requires i <= |rows|
    reads es
  {
    var s1 := Step(cfg, s, A2A(A2AStart));
    var cur := Run(cfg, s1, mid);
    && AllInside(mid) && At(es, cur) && A.A2ASteady(cfg, cur) && cur.a2a == Rows(rows[i..])
    && cur == s.(db := cur.db, clock := cur.clock, a2a := cur.a2a, a2aLog := cur.a2aLog)
    && StatsFit(stats, s.a2aLog, cur.a2aLog, i) && Flushed(cfg, s, cur, rows, world, stats, i)
  }

  lemma {:induction false} FlushedOneMore(cfg: Config, s: Sys, cur: Sys, cur': Sys, rows: seq<A2ARow>, world: nat -> Turn, stats: A2AStats, n: nat, outcome: RowOutcome)
    requires n < |rows| && Flushed(cfg, s, cur, rows, world, stats, n) && outcome == OutcomeOf(cfg, rows[n], world(n).ok)
    requires cur'.a2aLog.tried == cur.a2aLog.tried + TryOf(rows[n], outcome)
    requires Moves(cur.db.a2a, cur'.db.a2a, A2AId, rows[n].id, A2AMarked(cfg, rows[n], outcome))
    requires rows[n] in s.db.a2a && Ascending(s.db.a2a, A2AId) && Ascending(rows, A2AId)
    ensures Flushed(cfg, s, cur', rows, world, Bump(stats, outcome), n + 1)
  {
    hide A2AMarked, Through, Moves, TryOf, OutcomeOf;
    ThroughOneMore(s.db.a2a, cur.db.a2a, cur'.db.a2a, rows, n, A2AId, DoneAs(cfg, rows, world), A2AMarked(cfg, rows[n], outcome));
  }

  /** The listed rows are rows of the table, both in id order. */
  lemma {:induction false} BatchInOrder(cfg: Config, s: Sys)
    requires A.A2ASteady(cfg, s)
    ensures
      var rows := P.FirstDue(cfg, s.db.a2a, s.clock);
      Ascending(s.db.a2a, A2AId) && Ascending(rows, A2AId) && forall r :: r in rows ==> r in s.db.a2a
  {
    P.BatchIsSelection(cfg, s);
    A.SteadyWf(cfg, s);
  }

  method A2ATurn(es: EventStore, cfg: Config, rows: seq<A2ARow>, world: nat -> Turn, i: nat, stats: A2AStats, ghost s: Sys, ghost mid: seq<Label>)
    returns (stats': A2AStats, ghost mid': seq<Label>)
    requires i < |rows| && Standing(cfg, es, s, rows, world, i, mid, stats)
    requires A.A2ASteady(cfg, s) && rows == P.FirstDue(cfg, s.db.a2a, s.clock)
    requires cfg.a2aMaxDelay <= Backoff.LARGEST_CAP && AllOutside(world(i).during)
    modifies es
    ensures Standing(cfg, es, s, rows, world, i + 1, mid', stats')
  {
    hide A.A2ASteady, AllOutside, Step, Flushed, Moves, A2AMarked, P.FirstDue;
    ghost var s1 := Step(cfg, s, A2A(A2AStart));
    ghost var cur := Run(cfg, s1, mid);
    assert rows[i..] == [rows[i]] + rows[i + 1..];
    var outcome;
    ghost var ls;
    outcome, ls := TurnOf(es, cfg, rows[i], world(i), cur, rows[i + 1..]);
    stats' := Bump(stats, outcome);
    mid' := mid + ls;
    RunConcat(cfg, s1, mid, ls);
    StatsGrow(stats, outcome, s.a2aLog, cur.a2aLog, Run(cfg, cur, ls).a2aLog, i);
    BatchInOrder(cfg, s);
    FlushedOneMore(cfg, s, cur, Run(cfg, cur, ls), rows, world, stats, i, outcome);
  }

  method A2APause(es: EventStore, cfg: Config, ghost rows: seq<A2ARow>, ghost world: nat -> Turn, ghost i: nat, ls: seq<Label>, ghost stats: A2AStats, ghost s: Sys, ghost mid: seq<Label>)
    returns (ghost mid': seq<Label>)
    requires i <= |rows| && Standing(cfg, es, s, rows, world, i, mid, stats) && AllOutside(ls)
    modifies es
    ensures Standing(cfg, es, s, rows, world, i, mid', stats)
  {
    hide A.A2ASteady, AllOutside, Step, Through, HowMany, TriesMade;
    ghost var s1 := Step(cfg, s, A2A(A2AStart));
    ghost var cur := Run(cfg, s1, mid);
    Meanwhile(es, ls, cfg, cur);
    mid' := mid + ls;
    RunConcat(cfg, s1, mid, ls);
    SteadyAlong(cfg, cur, ls);
    OutsideAddsA2A(cfg, cur, ls);
    ThroughMore(s.db.a2a, cur.db.a2a, Run(cfg, cur, ls).db.a2a, rows, i, A2AId, DoneAs(cfg, rows, world));
    InsideAll(mid, ls, []);
    assert mid + ls + [] == mid + ls;
  }

  /** The loop over the first due rows.  It gets through all of them, or up to the first turn that is
      cancelled; finished says which.  Each row it gets through has its outcome, is counted under it,
      tried once unless exhausted, in order, and marked; nothing else that was in the table changes. */
  method FlushA2AOutbox(es: EventStore, cfg: Config, world: nat -> Turn, ghost s: Sys)
    returns (stats: A2AStats, finished: bool, ghost mid: seq<Label>)
    requires At(es, s) && A.A2ASteady(cfg, s) && s.a2a.A2AIdle? && Fair(world) && cfg.a2aMaxDelay <= Backoff.LARGEST_CAP
    modifies es
    ensures
      var s' := AfterA2A(cfg, s, mid, finished);
      var rows, n := P.FirstDue(cfg, s.db.a2a, s.clock), stats.sent + stats.retried + stats.skipped;
      && At(es, s') && A.A2ASteady(cfg, s') && s'.a2a.A2AIdle? && AllInside(mid)
      && (finished ==> P.WholeFlush(cfg, s, mid)) && (finished <==> n == |rows|)
      && StoppedAt(world, n, |rows|)
      && StatsFit(stats, s.a2aLog, s'.a2aLog, n) && Flushed(cfg, s, s', rows, world, stats, n)
    ensures finished <==> forall i: nat :: i < |P.FirstDue(cfg, s.db.a2a, s.clock)| ==> !world(i).cancelled
    ensures finished ==> P.Effect(cfg, old(es.db).a2a, es.db.a2a, P.FirstDue(cfg, old(es.db).a2a, old(es.clock)))
  {
    hide A.A2ASteady, AllOutside, P.Effect, Flushed, AfterA2A, P.WholeFlush, Standing, StatsFit;
    var rows := es.ListPendingA2aOutbox(es.clock, cfg.a2aBatch);
    stats, mid := A2AStats(0, 0, 0), [];
    FlushStarts(cfg, es, s, rows, world);
    var i := 0;
    finished := true;
    while i < |rows|
      invariant 0 <= i <= |rows| && Standing(cfg, es, s, rows, world, i, mid, stats)
      invariant forall j: nat :: j < i ==> !world(j).cancelled
    {
      var turn := world(i);
      mid := A2APause(es, cfg, rows, world, i, turn.before, stats, s, mid);
      if turn.cancelled {
        finished := false;
        break;
      }
      stats, mid := A2ATurn(es, cfg, rows, world, i, stats, s, mid);
      i := i + 1;
    }
    FlushEnds(cfg, es, s, rows, world, i, mid, stats, finished);
  }

  lemma {:induction false} FlushStarts(cfg: Config, es: EventStore, s: Sys, rows: seq<A2ARow>, world: nat -> Turn)
    requires At(es, s) && A.A2ASteady(cfg, s) && s.a2a.A2AIdle? && rows == P.FirstDue(cfg, s.db.a2a, s.clock)
    ensures Standing(cfg, es, s, rows, world, 0, [], A2AStats(0, 0, 0))
  {
    hide A.A2ASteady, Select;
    A.StepA2ASteady(cfg, s, A2A(A2AStart));
    assert rows[0..] == rows;
    ThroughNone(s.db.a2a, rows, A2AId, DoneAs(cfg, rows, world));
  }

  lemma {:induction false} FlushEnds(cfg: Config, es: EventStore, s: Sys, rows: seq<A2ARow>, world: nat -> Turn, i: nat, mid: seq<Label>, stats: A2AStats, finished: bool)
    requires i <= |rows| && Standing(cfg, es, s, rows, world, i, mid, stats) && (finished ==> i == |rows|) && A.A2ASteady(cfg, s) && s.a2a.A2AIdle?
    ensures
      var s' := AfterA2A(cfg, s, mid, finished);
      && At(es, s') && A.A2ASteady(cfg, s') && s'.a2a.A2AIdle?
      && i == stats.sent + stats.retried + stats.skipped
      && AllInside(mid) && StatsFit(stats, s.a2aLog, s'.a2aLog, i) && Flushed(cfg, s, s', rows, world, stats, i)
      && (finished ==> P.WholeFlush(cfg, s, mid) && P.Effect(cfg, s.db.a2a, s'.db.a2a, P.FirstDue(cfg, s.db.a2a, s.clock)))
  {
    hide A.A2ASteady, Through, HowMany, TriesMade, P.Effect, P.FirstDue;
    var start, end := A2A(A2AStart), if finished then A2A(A2ADone) else A2A(A2ACancel);
    RunSnoc(cfg, s, [start] + mid, end);
    RunConcat(cfg, s, [start], mid);
    OneStep(cfg, s, start);
    A.StepA2ASteady(cfg, Run(cfg, Step(cfg, s, start), mid), end);
    if finished {
      P.FlushTriesFirstDue(cfg, s, mid);
    }
  }
}
