/** The media queue drains: enough whole flushes, far enough apart, end every row. */
module MediaDrain {
  import opened Tables
  import opened System
  import opened Schema
  import opened MediaDelivery
  import Backoff

  // ------------------------------------------------------ rows only get closer

  /** Every row is as it was, or has fewer deliveries left. */
  ghost predicate Settles(cfg: Config, media: seq<MediaRow>, media': seq<MediaRow>) {
    && |media| <= |media'|
    && forall i :: 0 <= i < |media| ==> media'[i] == media[i] || RowOwed(cfg, media'[i]) < RowOwed(cfg, media[i])
  }

  /** No open row is put off by more than the longest delay. */
  ghost predicate Punctual(media: seq<MediaRow>, clock: int) {
    forall i :: 0 <= i < |media| && Open(media[i].status) ==> media[i].nextRetryAt <= clock + MEDIA_MAX_DELAY_MS
  }

  ghost predicate OnTime(cfg: Config, s: Sys) {
    MediaSteady(cfg, 0, s) && Punctual(s.db.media, s.clock)
  }

  lemma {:induction false} SettlesTrans(cfg: Config, a: seq<MediaRow>, b: seq<MediaRow>, c: seq<MediaRow>)
    requires Settles(cfg, a, b) && Settles(cfg, b, c)
    ensures Settles(cfg, a, c)
  {
    forall i | 0 <= i < |a| ensures c[i] == a[i] || RowOwed(cfg, c[i]) < RowOwed(cfg, a[i]) {
      assert b[i] == a[i] || RowOwed(cfg, b[i]) < RowOwed(cfg, a[i]);
    }
  }

  lemma {:induction false} RowOwedFits(cfg: Config, s: Sys, n: nat)
    requires MediaSteady(cfg, 0, s) && n < |s.db.media|
    ensures 0 <= RowOwed(cfg, s.db.media[n]) <= cfg.MediaMaxRetries()
    ensures RowOwed(cfg, s.db.media[n]) == 0 <==> Ended(s.db.media[n])
    ensures Ended(s.db.media[n]) <==> !Open(s.db.media[n].status)
  {
    hide Wf, PcHolds, Paid, WfMedia;
    RowFits(cfg, s.db.media, s.db.mediaSeq, s.media, s.mediaLog, n);
  }

  /** Marking a delivered row lowers what it owes, and puts it off by no more than the cap. */
  lemma {:induction false} MarkSettles(cfg: Config, db: Db, row: MediaRow, left: seq<MediaRow>, ok: bool, log: MediaLog, error: string, now: int) returns (n: nat)
    requires Steady(cfg, 0, db, MediaDelivered(row, left, ok), log) && Punctual(db.media, now)
    ensures
      var media' := MediaStep(cfg, db, MediaDelivered(row, left, ok), log, MediaMark(error), now).db.media;
      && n < |db.media| == |media'| && (forall i :: 0 <= i < |db.media| ==> (db.media[i] == row <==> i == n))
      && media' == db.media[n := media'[n]] && RowOwed(cfg, media'[n]) < RowOwed(cfg, row)
      && Punctual(media', now)
  {
    hide Paid, Truncate;
    HeadListed(db.media, [row] + left);
    n := MediaAt(db.media, row.id);
    RowFits(cfg, db.media, db.mediaSeq, MediaDelivered(row, left, ok), log, n);
    Backoff.DelaysGrow(row.attempt + 1, row.attempt + 1, MEDIA_MAX_DELAY_MS);
  }

  lemma {:induction false} StepSettles(cfg: Config, s: Sys, l: Label)
    requires OnTime(cfg, s)
    ensures Settles(cfg, s.db.media, Step(cfg, s, l).db.media) && OnTime(cfg, Step(cfg, s, l)) && s.clock <= Step(cfg, s, l).clock
  {
    hide Tracked, Wf, PushStep, A2AStep, Apply, MediaKnown, MarkMediaSent, MarkMediaFailure, Select;
    StepMediaSteady(cfg, 0, s, l);
    match l
    case Op(op) => OnlyEnqueuesMedia(s.db, op, s.clock);
    case Push(pl) => PushWrites(cfg, s.db, s.push, s.pushLog, pl, s.clock);
    case A2A(al) => A2AWrites(cfg, s.db, s.a2a, s.a2aLog, al, s.clock);
    case Media(ml) =>
      if ml.MediaMark? && s.media.MediaDelivered? {
        var n := MarkSettles(cfg, s.db, s.media.row, s.media.left, s.media.ok, s.mediaLog, ml.error, s.clock);
      }
    case _ =>
  }

  lemma {:induction false} RunSettles(cfg: Config, s: Sys, ls: seq<Label>)
    requires OnTime(cfg, s)
    ensures Settles(cfg, s.db.media, Run(cfg, s, ls).db.media) && OnTime(cfg, Run(cfg, s, ls)) && s.clock <= Run(cfg, s, ls).clock
    decreases |ls|
  {
    hide OnTime, Step;
    if ls != [] {
      var s' := Step(cfg, s, ls[0]);
      StepSettles(cfg, s, ls[0]);
      RunSettles(cfg, s', ls[1..]);
      SettlesTrans(cfg, s.db.media, s'.db.media, Run(cfg, s, ls).db.media);
    }
  }

  // ---------------------------------------------------------------- one flush

  predicate InHand(pc: MediaPc, r: MediaRow) {
    (!pc.MediaIdle? && r in pc.left) || (pc.MediaDelivered? && r == pc.row)
  }

  /** Row n, which was r when the flush began, is still ahead of the flusher or already settled. */
  ghost predicate Ahead(cfg: Config, s: Sys, n: nat, r: MediaRow) {
    n < |s.db.media| && (RowOwed(cfg, s.db.media[n]) < RowOwed(cfg, r) || (s.db.media[n] == r && InHand(s.media, r)))
  }

  lemma {:induction false} StepAhead(cfg: Config, s: Sys, l: Label, n: nat, r: MediaRow)
    requires OnTime(cfg, s) && Inside(l) && Ahead(cfg, s, n, r)
    ensures Ahead(cfg, Step(cfg, s, l), n, r)
  {
    hide Tracked, Wf, PushStep, A2AStep, Apply, MarkMediaSent, MarkMediaFailure, Select, Punctual;
    StepSettles(cfg, s, l);
    if l.Media? && l.media.MediaNext? && s.media.MediaRows? && s.media.left != [] {
      assert s.media.left == [s.media.left[0]] + s.media.left[1..];
    }
    if l.Media? && l.media.MediaMark? && s.media.MediaDelivered? {
      var m := MarkSettles(cfg, s.db, s.media.row, s.media.left, s.media.ok, s.mediaLog, l.media.error, s.clock);
    }
  }

  lemma {:induction false} RunAhead(cfg: Config, s: Sys, ls: seq<Label>, n: nat, r: MediaRow)
    requires OnTime(cfg, s) && (forall i :: 0 <= i < |ls| ==> Inside(ls[i])) && Ahead(cfg, s, n, r)
    ensures Ahead(cfg, Run(cfg, s, ls), n, r)
    decreases |ls|
  {
    hide OnTime, Step, Ahead, Inside, Settles;
    if ls != [] {
      StepAhead(cfg, s, ls[0], n, r);
      StepSettles(cfg, s, ls[0]);
      RunAhead(cfg, Step(cfg, s, ls[0]), ls[1..], n, r);
    }
  }

  /** With the first m rows ended, a due row among the next batch of rows is in the listing. */
  lemma {:induction false} BlockIsListed(cfg: Config, s: Sys, m: nat, n: nat)
    requires m <= n < |s.db.media| && n < m + cfg.MediaBatch()
    requires forall i :: 0 <= i < m ==> Ended(s.db.media[i])
    requires Open(s.db.media[n].status) && s.db.media[n].nextRetryAt <= s.clock
    ensures s.db.media[n] in FirstDue(cfg, s)
  {
    var rows := s.db.media[..n];
    assert rows == rows[..m] + rows[m..];
    CountSplit(rows[..m], rows[m..], DueMedia(s.clock));
    forall r | r in rows[..m] ensures !DueMedia(s.clock)(r) {
      var i :| 0 <= i < m && rows[i] == r;
      assert Ended(s.db.media[i]);
    }
    CountNoHit(rows[..m], DueMedia(s.clock));
    SelectReaches(s.db.media, n, DueMedia(s.clock), cfg.MediaBatch());
  }

  /** A whole flush takes a delivery off what such a row owes. */
  lemma {:induction false} FlushSettles(cfg: Config, s: Sys, ls: seq<Label>, m: nat, n: nat)
    requires OnTime(cfg, s) && WholeFlush(cfg, s, ls)
    requires m <= n < |s.db.media| && n < m + cfg.MediaBatch()
    requires forall i :: 0 <= i < m ==> Ended(s.db.media[i])
    requires Open(s.db.media[n].status) && s.db.media[n].nextRetryAt <= s.clock
    ensures n < |AfterFlush(cfg, s, ls).db.media| && RowOwed(cfg, AfterFlush(cfg, s, ls).db.media[n]) < RowOwed(cfg, s.db.media[n])
  {
    hide OnTime, Select, Settles, Inside, RowOwed;
    var s1 := Step(cfg, s, Media(MediaStart));
    StepSettles(cfg, s, Media(MediaStart));
    BlockIsListed(cfg, s, m, n);
    RunAhead(cfg, s1, ls, n, s.db.media[n]);
  }

  // -------------------------------------------------------------------- rounds

  /** Rounds of a pause that outlasts every delay, with anything going on in it, and a whole flush. */
  ghost predicate Rounds(cfg: Config, s: Sys, rounds: seq<Round>)
    decreases |rounds|
  {
    rounds != [] ==>
      var paused := Run(cfg, s, rounds[0].between);
      && s.clock + MEDIA_MAX_DELAY_MS <= paused.clock && WholeFlush(cfg, paused, rounds[0].flush)
      && Rounds(cfg, AfterRound(cfg, s, rounds[0]), rounds[1..])
  }

  function AfterRound(cfg: Config, s: Sys, r: Round): Sys {
    AfterFlush(cfg, Run(cfg, s, r.between), r.flush)
  }

  function AfterRounds(cfg: Config, s: Sys, rounds: seq<Round>): Sys
    decreases |rounds|
  {
    if rounds == [] then s else AfterRounds(cfg, AfterRound(cfg, s, rounds[0]), rounds[1..])
  }

  /** Of the first n rows, m have ended and the next batch owes at most k deliveries each. */
  ghost predicate Frontier(cfg: Config, media: seq<MediaRow>, n: nat, m: nat, k: nat) {
    && n <= |media|
    && forall i :: 0 <= i < n ==> (i < m ==> Ended(media[i])) && (i < m + cfg.MediaBatch() ==> RowOwed(cfg, media[i]) <= k)
  }

  lemma {:induction false} RoundSettles(cfg: Config, s: Sys, r: Round)
    requires OnTime(cfg, s)
    ensures
      var paused, s' := Run(cfg, s, r.between), AfterRound(cfg, s, r);
      && OnTime(cfg, paused) && OnTime(cfg, s')
      && Settles(cfg, s.db.media, paused.db.media) && Settles(cfg, paused.db.media, s'.db.media)
  {
    hide OnTime, Step, Settles;
    var paused := Run(cfg, s, r.between);
    RunSettles(cfg, s, r.between);
    var started := Step(cfg, paused, Media(MediaStart));
    StepSettles(cfg, paused, Media(MediaStart));
    RunSettles(cfg, started, r.flush);
    SettlesTrans(cfg, paused.db.media, started.db.media, AfterRound(cfg, s, r).db.media);
  }

  lemma {:induction false} EndedStays(cfg: Config, s: Sys, s': Sys, i: nat)
    requires OnTime(cfg, s) && OnTime(cfg, s') && Settles(cfg, s.db.media, s'.db.media)
    requires i < |s.db.media| && Ended(s.db.media[i])
    ensures s'.db.media[i] == s.db.media[i]
  {
    hide MediaSteady;
    RowOwedFits(cfg, s, i);
    RowOwedFits(cfg, s', i);
  }

  /** A round takes a delivery off every open row of the frontier. */
  lemma {:induction false} RoundAdvances(cfg: Config, s: Sys, r: Round, n: nat, m: nat, k: nat)
    requires OnTime(cfg, s) && Frontier(cfg, s.db.media, n, m, k) && k > 0
    requires s.clock + MEDIA_MAX_DELAY_MS <= Run(cfg, s, r.between).clock && WholeFlush(cfg, Run(cfg, s, r.between), r.flush)
    ensures OnTime(cfg, AfterRound(cfg, s, r)) && Frontier(cfg, AfterRound(cfg, s, r).db.media, n, m, k - 1)
  {
    hide MediaSteady, Run, WholeFlush, RowOwed;
    var paused, s' := Run(cfg, s, r.between), AfterRound(cfg, s, r);
    RoundSettles(cfg, s, r);
    forall i | 0 <= i < n && i < m ensures Ended(paused.db.media[i]) && Ended(s'.db.media[i]) {
      EndedStays(cfg, s, paused, i);
      EndedStays(cfg, paused, s', i);
    }
    forall i | 0 <= i < n && i < m + cfg.MediaBatch() ensures RowOwed(cfg, s'.db.media[i]) <= k - 1 {
      RowOwedFits(cfg, s', i);
      if Ended(paused.db.media[i]) {
        EndedStays(cfg, paused, s', i);
      } else if paused.db.media[i] == s.db.media[i] {
        assert m <= i;
        RowOwedFits(cfg, paused, i);
        FlushSettles(cfg, paused, r.flush, m, i);
      }
    }
  }

  /** Rows of the frontier that owe nothing have ended: the frontier moves on. */
  lemma {:induction false} NextBlock(cfg: Config, s: Sys, n: nat, m: nat)
    requires MediaSteady(cfg, 0, s) && Frontier(cfg, s.db.media, n, m, 0)
    ensures Frontier(cfg, s.db.media, n, m + cfg.MediaBatch(), cfg.MediaMaxRetries())
  {
    hide MediaSteady, RowOwed;
    forall i | 0 <= i < n ensures RowOwed(cfg, s.db.media[i]) <= cfg.MediaMaxRetries() && (RowOwed(cfg, s.db.media[i]) <= 0 ==> Ended(s.db.media[i])) {
      RowOwedFits(cfg, s, i);
    }
  }

  lemma {:induction false} RoundsAdvance(cfg: Config, s: Sys, rounds: seq<Round>, n: nat, m: nat, k: nat, blocks: nat)
    requires OnTime(cfg, s) && Rounds(cfg, s, rounds) && Frontier(cfg, s.db.media, n, m, k) && 0 < k <= cfg.MediaMaxRetries()
    requires n <= m + blocks * cfg.MediaBatch() && (blocks > 0 ==> (blocks - 1) * cfg.MediaMaxRetries() + k <= |rounds|)
    ensures var s' := AfterRounds(cfg, s, rounds); n <= |s'.db.media| && forall i :: 0 <= i < n ==> Ended(s'.db.media[i])
    decreases |rounds|
  {
    hide MediaSteady, Run, WholeFlush, RowOwed, AfterRound;
    if rounds != [] {
      var s' := AfterRound(cfg, s, rounds[0]);
      RoundAdvances(cfg, s, rounds[0], n, m, k);
      if k > 1 || blocks == 0 {
        RoundsAdvance(cfg, s', rounds[1..], n, m, if k > 1 then k - 1 else k, blocks);
      } else {
        NextBlock(cfg, s', n, m);
        assert blocks * cfg.MediaBatch() == (blocks - 1) * cfg.MediaBatch() + cfg.MediaBatch();
        assert blocks > 1 ==> (blocks - 1) * cfg.MediaMaxRetries() == (blocks - 2) * cfg.MediaMaxRetries() + cfg.MediaMaxRetries();
        RoundsAdvance(cfg, s', rounds[1..], n, m + cfg.MediaBatch(), cfg.MediaMaxRetries(), blocks - 1);
      }
    }
  }

  /** Every media row queued in any reachable state is SENT or FAILED after MaxRetries rounds for
      each batch of rows, whatever is queued, acked or crashes in the pauses. */
  lemma {:induction false} MediaDrains(cfg: Config, clock: nat, ls: seq<Label>, rounds: seq<Round>, blocks: nat)
    requires Rounds(cfg, Run(cfg, Init(clock), ls), rounds)
    requires |Run(cfg, Init(clock), ls).db.media| <= blocks * cfg.MediaBatch()
    requires blocks * cfg.MediaMaxRetries() <= |rounds|
    ensures
      var s := Run(cfg, Init(clock), ls);
      var s' := AfterRounds(cfg, s, rounds);
      forall i :: 0 <= i < |s.db.media| ==> i < |s'.db.media| && Ended(s'.db.media[i])
  {
    hide MediaSteady, Rounds, RowOwed;
    InitMediaSteady(cfg, clock);
    RunSettles(cfg, Init(clock), ls);
    var s := Run(cfg, Init(clock), ls);
    forall i | 0 <= i < |s.db.media| ensures RowOwed(cfg, s.db.media[i]) <= cfg.MediaMaxRetries() {
      RowOwedFits(cfg, s, i);
    }
    assert blocks > 0 ==> (blocks - 1) * cfg.MediaMaxRetries() + cfg.MediaMaxRetries() == blocks * cfg.MediaMaxRetries();
    RoundsAdvance(cfg, s, rounds, |s.db.media|, 0, cfg.MediaMaxRetries(), blocks);
  }
}
