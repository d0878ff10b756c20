/** Head-of-line blocking happens: under every retry limit there is a run that blocks the outbox. */
module A2ABlocking {
  import opened Wrappers
  import opened Tables
  import opened System
  import opened Schema
  import opened A2ADelivery
  import opened A2AProgress
  import A2AFifo
  import Backoff

  /** The longest delay before a retry. */
  function LongestDelay(cfg: Config): (d: nat)
    ensures forall attempt :: Backoff.DelayMs(attempt, cfg.a2aMaxDelay) <= d
  {
    var cap := Backoff.EffectiveCap(cfg.a2aMaxDelay);
    if cap < Backoff.BASE_DELAY_MS then Backoff.BASE_DELAY_MS else cap
  }

  // ----------------------------------------------------------------- the run

  function Enqueues(inputs: seq<A2AInput>): seq<Label> {
    seq(|inputs|, i requires 0 <= i < |inputs| => Op(EnqueueA2A(inputs[i], 0)))
  }

  /** n rows taken up, each publish failing. */
  function Failures(n: nat): seq<Label> {
    if n == 0 then [] else [A2A(A2ANext(false, "")), A2A(A2AMark(""))] + Failures(n - 1)
  }

  function FailingRound(cfg: Config): seq<Label> {
    [A2A(A2AStart)] + Failures(cfg.A2ABatch()) + [A2A(A2ADone)] + [Tick(LongestDelay(cfg))]
  }

  function FailingRounds(cfg: Config, n: nat): seq<Label> {
    if n == 0 then [] else FailingRounds(cfg, n - 1) + FailingRound(cfg)
  }

  /** Queue the messages, then let every publish of a retry limit's worth of flushes fail. */
  function BlockingRun(cfg: Config, inputs: seq<A2AInput>): seq<Label>
    requires cfg.a2aMaxRetries > 0
  {
    Enqueues(inputs) + FailingRounds(cfg, cfg.a2aMaxRetries)
  }

  // ------------------------------------------------------------------ queueing

  ghost predicate Distinct(inputs: seq<A2AInput>) {
    && (forall i :: 0 <= i < |inputs| ==> inputs[i].messageId != "")
    && (forall i, j :: 0 <= i < j < |inputs| ==> inputs[i].messageId != inputs[j].messageId)
  }

  /** The table holds the inputs, untried and due. */
  ghost predicate Queued(s: Sys, inputs: seq<A2AInput>, clock: int) {
    && s.a2a.A2AIdle? && s.clock == clock && |s.db.a2a| == |inputs|
    && forall i :: 0 <= i < |inputs| ==>
         var r := s.db.a2a[i];
         r.messageId == inputs[i].messageId && r.status == Pending && r.attempt == 0 && r.nextRetryAt == clock
  }

  lemma {:induction false} EnqueuesQueue(cfg: Config, clock: nat, inputs: seq<A2AInput>)
    requires Distinct(inputs)
    ensures Queued(Run(cfg, Init(clock), Enqueues(inputs)), inputs, clock)
    decreases |inputs|
  {
    hide Step;
    if inputs == [] {
      assert Enqueues(inputs) == [];
    } else {
      var n := |inputs| - 1;
      EnqueuesQueue(cfg, clock, inputs[..n]);
      assert Enqueues(inputs) == Enqueues(inputs[..n]) + [Op(EnqueueA2A(inputs[n], 0))];
      RunSnoc(cfg, Init(clock), Enqueues(inputs[..n]), Op(EnqueueA2A(inputs[n], 0)));
      EnqueueOne(cfg, Run(cfg, Init(clock), Enqueues(inputs[..n])), inputs, clock);
    }
  }

  lemma {:induction false} EnqueueOne(cfg: Config, s: Sys, inputs: seq<A2AInput>, clock: int)
    requires Distinct(inputs) && inputs != [] && Queued(s, inputs[..|inputs| - 1], clock)
    ensures Queued(Step(cfg, s, Op(EnqueueA2A(inputs[|inputs| - 1], 0))), inputs, clock)
  {
    var n := |inputs| - 1;
    forall i | 0 <= i < n ensures s.db.a2a[i].messageId != inputs[n].messageId {
      assert inputs[..n][i] == inputs[i];
    }
  }

  // ------------------------------------------------------------------- failing

  /** Nothing has been sent, nothing is being sent, and every row is due within the longest delay. */
  ghost predicate Failing(cfg: Config, a2a: seq<A2ARow>, pc: A2APc, clock: int) {
    && (forall i :: 0 <= i < |a2a| ==> Open(a2a[i].status) && a2a[i].nextRetryAt <= clock + LongestDelay(cfg))
    && (pc.Published? ==> !pc.ok) && !pc.MarkedSent?
  }

  predicate Fails(l: A2ALabel) {
    l == A2AStart || l == A2ADone || l == A2ANext(false, "") || l == A2AMark("")
  }

  lemma {:induction false} RetryFails(cfg: Config, db: Db, r: A2ARow, pc: A2APc, now: int)
    requires Failing(cfg, db.a2a, pc, now)
    ensures Failing(cfg, RetryRow(cfg, db, r, "", now).a2a, A2AIdle, now)
  {
    hide Backoff.DelayMs, LongestDelay;
    assert Backoff.DelayMs(r.attempt + 1, cfg.a2aMaxDelay) <= LongestDelay(cfg);
  }

  lemma {:induction false} StepFails(cfg: Config, s: Sys, l: A2ALabel)
    requires Failing(cfg, s.db.a2a, s.a2a, s.clock) && Fails(l)
    ensures
      var s' := Step(cfg, s, A2A(l));
      Failing(cfg, s'.db.a2a, s'.a2a, s'.clock) && s'.clock == s.clock && |s'.db.a2a| == |s.db.a2a|
  {
    hide LongestDelay, Backoff.DelayMs, Truncate;
    if l.A2ANext? && s.a2a.Rows? && s.a2a.left != [] {
      RetryFails(cfg, s.db, s.a2a.left[0], s.a2a, s.clock);
    }
    if l.A2AMark? && s.a2a.Published? {
      RetryFails(cfg, s.db, s.a2a.row, s.a2a, s.clock);
    }
  }

  /** Two labels do away with the next row, whatever is wrong with it. */
  lemma {:induction false} FailOne(cfg: Config, s: Sys)
    requires s.a2a.Rows? && s.a2a.left != []
    ensures Step(cfg, Step(cfg, s, A2A(A2ANext(false, ""))), A2A(A2AMark(""))).a2a == Rows(s.a2a.left[1..])
  {
    hide RetryRow, LongestDelay;
  }

  lemma {:induction false} FailuresEndTheFlush(cfg: Config, s: Sys, n: nat)
    requires A2ASteady(cfg, s) && Failing(cfg, s.db.a2a, s.a2a, s.clock) && s.a2a.Rows? && |s.a2a.left| <= n
    ensures
      var s' := Run(cfg, s, Failures(n));
      && A2ASteady(cfg, s') && Failing(cfg, s'.db.a2a, s'.a2a, s'.clock) && s'.a2a == Rows([])
      && s'.clock == s.clock && |s'.db.a2a| == |s.db.a2a|
    decreases n
  {
    hide A2ASteady, Failing, Step, LongestDelay;
    if n > 0 {
      var a, b := A2A(A2ANext(false, "")), A2A(A2AMark(""));
      var s1 := Step(cfg, s, a);
      var s2 := Step(cfg, s1, b);
      StepFails(cfg, s, a.a2a);
      StepFails(cfg, s1, b.a2a);
      StepA2ASteady(cfg, s, a);
      StepA2ASteady(cfg, s1, b);
      if s.a2a.left == [] {
        NothingLeft(cfg, s);
      } else {
        FailOne(cfg, s);
      }
      FailuresEndTheFlush(cfg, s2, n - 1);
      RunConcat(cfg, s, [a, b], Failures(n - 1));
      assert [a, b][1..] == [b] && [b][1..] == [];
      assert Run(cfg, s1, [b]) == Run(cfg, s2, []);
    }
  }

  lemma {:induction false} NothingLeft(cfg: Config, s: Sys)
    requires s.a2a == Rows([])
    ensures Step(cfg, Step(cfg, s, A2A(A2ANext(false, ""))), A2A(A2AMark(""))).a2a == Rows([])
  {
  }

  lemma {:induction false} FailuresAreInside(n: nat)
    ensures forall i :: 0 <= i < |Failures(n)| ==> Inside(Failures(n)[i])
  {
    if n > 0 {
      FailuresAreInside(n - 1);
      var head := [A2A(A2ANext(false, "")), A2A(A2AMark(""))];
      forall i | 0 <= i < |Failures(n)| ensures Inside(Failures(n)[i]) {
        assert i >= 2 ==> Failures(n)[i] == Failures(n - 1)[i - 2];
      }
    }
  }

  // -------------------------------------------------------------------- rounds

  /** After j rounds the first batch of rows has failed j times, and the row behind it never been tried. */
  ghost predicate FailedTimes(cfg: Config, s: Sys, j: nat) {
    && A2ASteady(cfg, s) && s.a2a.A2AIdle? && Failing(cfg, s.db.a2a, s.a2a, s.clock)
    && |s.db.a2a| == cfg.A2ABatch() + 1
    && (forall i :: 0 <= i < |s.db.a2a| ==> s.db.a2a[i].nextRetryAt <= s.clock)
    && (forall i :: 0 <= i < cfg.A2ABatch() ==> s.db.a2a[i].attempt == j)
    && s.db.a2a[cfg.A2ABatch()].status == Pending && s.db.a2a[cfg.A2ABatch()].attempt == 0
  }

  lemma {:induction false} FirstBatchIsDue(cfg: Config, s: Sys, j: nat)
    requires FailedTimes(cfg, s, j)
    ensures FirstDue(cfg, s.db.a2a, s.clock) == s.db.a2a[..cfg.A2ABatch()]
  {
    hide A2ASteady, LongestDelay;
    A2AFifo.SelectTakes(s.db.a2a, DueA2A(s.clock), cfg.A2ABatch());
  }

  lemma {:induction false} RoundIsWholeFlush(cfg: Config, s: Sys, j: nat)
    requires FailedTimes(cfg, s, j)
    ensures WholeFlush(cfg, s, Failures(cfg.A2ABatch()))
    ensures
      var s' := AfterFlush(cfg, s, Failures(cfg.A2ABatch()));
      && A2ASteady(cfg, s') && s'.a2a.A2AIdle? && Failing(cfg, s'.db.a2a, s'.a2a, s'.clock)
      && s'.clock == s.clock && |s'.db.a2a| == |s.db.a2a|
  {
    hide A2ASteady, Failing, Step, Run, LongestDelay;
    var b := cfg.A2ABatch();
    var s1 := Step(cfg, s, A2A(A2AStart));
    StepFails(cfg, s, A2AStart);
    StepA2ASteady(cfg, s, A2A(A2AStart));
    Listing(cfg, s);
    FailuresEndTheFlush(cfg, s1, b);
    FailuresAreInside(b);
    var s2 := Run(cfg, s1, Failures(b));
    StepFails(cfg, s2, A2ADone);
    StepA2ASteady(cfg, s2, A2A(A2ADone));
    DoneIsQuiet(cfg, s2);
    FlushUnfolds(cfg, s, Failures(b));
  }

  lemma {:induction false} Listing(cfg: Config, s: Sys)
    requires s.a2a.A2AIdle?
    ensures Step(cfg, s, A2A(A2AStart)).a2a.Rows? && |Step(cfg, s, A2A(A2AStart)).a2a.left| <= cfg.A2ABatch()
  {
  }

  lemma {:induction false} RoundFailsBatch(cfg: Config, s: Sys, j: nat)
    requires FailedTimes(cfg, s, j) && j < cfg.a2aMaxRetries
    ensures FailedTimes(cfg, Run(cfg, s, FailingRound(cfg)), j + 1)
  {
    hide A2ASteady, LongestDelay, Run, WholeFlush;
    var b := cfg.A2ABatch();
    RoundIsWholeFlush(cfg, s, j);
    FlushTriesFirstDue(cfg, s, Failures(b));
    FirstBatchIsDue(cfg, s, j);
    var s1 := AfterFlush(cfg, s, Failures(b));
    SteadyWf(cfg, s);
    BatchFailed(cfg, s.db.a2a, s1.db.a2a, b, j);
    var tick := Tick(LongestDelay(cfg));
    RunSnoc(cfg, s, [A2A(A2AStart)] + Failures(b) + [A2A(A2ADone)], tick);
    StepA2ASteady(cfg, s1, tick);
  }

  /** The effect of a flush in which nothing was sent. */
  lemma {:induction false} BatchFailed(cfg: Config, before: seq<A2ARow>, after: seq<A2ARow>, b: nat, j: nat)
    requires |before| == |after| == b + 1 && Effect(cfg, before, after, before[..b])
    requires forall i :: 0 <= i < |after| ==> Open(after[i].status)
    requires forall i :: 0 <= i < b ==> before[i].attempt == j && !Exhausted(cfg, before[i])
    requires before[b].status == Pending && before[b].attempt == 0 && forall i :: 0 <= i < b ==> before[i].id != before[b].id
    ensures forall i :: 0 <= i < b ==> after[i].attempt == j + 1
    ensures after[b] == before[b]
  {
    forall i | 0 <= i < b ensures after[i].attempt == j + 1 {
      assert before[i] in before[..b];
      assert RowEffect(cfg, before[i], after[i], before[..b]);
    }
    assert RowEffect(cfg, before[b], after[b], before[..b]);
  }

  lemma {:induction false} RoundsFailBatch(cfg: Config, s: Sys, n: nat)
    requires FailedTimes(cfg, s, 0) && n <= cfg.a2aMaxRetries
    ensures FailedTimes(cfg, Run(cfg, s, FailingRounds(cfg, n)), n)
  {
    hide FailedTimes, FailingRound;
    if n > 0 {
      RoundsFailBatch(cfg, s, n - 1);
      RoundFailsBatch(cfg, Run(cfg, s, FailingRounds(cfg, n - 1)), n - 1);
      RunConcat(cfg, s, FailingRounds(cfg, n - 1), FailingRound(cfg));
    }
  }

  // --------------------------------------------------------------- main result

  /** Under every retry limit, for any batch of messages and one more: if every publish of the batch
      fails until the limit, the outbox is blocked, with the last message due, untried, and never
      to be tried again in any continuation. */
  lemma {:induction false} BlockingIsReachable(cfg: Config, clock: nat, inputs: seq<A2AInput>)
    requires cfg.a2aMaxRetries > 0 && |inputs| == cfg.A2ABatch() + 1 && Distinct(inputs)
    ensures
      var s := Run(cfg, Init(clock), BlockingRun(cfg, inputs));
      var b := cfg.A2ABatch();
      && Blocked(cfg, s.db.a2a, s.a2a, s.clock, b)
      && |s.db.a2a| == b + 1 && FirstLive(cfg, s, b) && s.db.a2a[b].attempt == 0
      && forall ls :: Starved(s.db.a2a, s.a2aLog, Run(cfg, s, ls).db.a2a, Run(cfg, s, ls).a2aLog, b)
  {
    hide Run, A2ASteady, LongestDelay, Starved, Blocked;
    var s0 := Run(cfg, Init(clock), Enqueues(inputs));
    InitA2ASteady(cfg, clock);
    RunA2ASteady(cfg, Init(clock), Enqueues(inputs));
    EnqueuesQueue(cfg, clock, inputs);
    assert FailedTimes(cfg, s0, 0);
    RoundsFailBatch(cfg, s0, cfg.a2aMaxRetries);
    RunConcat(cfg, Init(clock), Enqueues(inputs), FailingRounds(cfg, cfg.a2aMaxRetries));
    var s := Run(cfg, s0, FailingRounds(cfg, cfg.a2aMaxRetries));
    ExhaustedBatchBlocks(cfg, s);
    forall ls ensures Starved(s.db.a2a, s.a2aLog, Run(cfg, s, ls).db.a2a, Run(cfg, s, ls).a2aLog, cfg.A2ABatch()) {
      BlockedForever(cfg, s, ls, cfg.A2ABatch());
    }
  }

  lemma {:induction false} ExhaustedBatchBlocks(cfg: Config, s: Sys)
    requires cfg.a2aMaxRetries > 0 && FailedTimes(cfg, s, cfg.a2aMaxRetries)
    ensures Blocked(cfg, s.db.a2a, s.a2a, s.clock, cfg.A2ABatch())
  {
    hide A2ASteady, LongestDelay;
    var first := s.db.a2a[..cfg.A2ABatch()];
    CountAll(first, Stuck(cfg, s.clock));
  }
}
