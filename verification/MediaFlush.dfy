/** The media flush loop as it is executed: a run of the system that delivers the first due rows. */
module MediaFlush {
  import opened Wrappers
  import opened Tables
  import opened System
  import opened Schema
  import opened Store
  import opened Batches
  import opened Dispatchers
  import Backoff
  import M = MediaDelivery

  datatype MediaStats = MediaStats(sent: nat, retried: nat, failed: nat)

  datatype MediaOutcome = MediaSent | MediaRetried | MediaFailed

  ghost function MediaOutcomeOf(cfg: Config, row: MediaRow, ok: bool): MediaOutcome {
    var most := if cfg.mediaMaxRetries <= 0 then 10 else cfg.mediaMaxRetries;
    if ok then MediaSent else if row.attempt + 1 < most then MediaRetried else MediaFailed
  }

  /** The row afterwards: SENT; or RETRY, one attempt on, and due when that attempt's delay is over; or
      FAILED. */
  ghost function MediaMarked(cfg: Config, row: MediaRow, ok: bool): MediaRow -> bool {
    (r: MediaRow) => SameMedia(row, r) && match MediaOutcomeOf(cfg, row, ok) {
      case MediaSent => r.status == Sent && r.attempt == row.attempt
      case MediaRetried =>
        r.status == Retry && r.attempt == row.attempt + 1 && r.nextRetryAt == r.updatedAt + Backoff.DelayMs(row.attempt + 1, 300_000)
      case MediaFailed => r.status == Failed && r.attempt == row.attempt
    }
  }

  function MediaId(r: MediaRow): int {
    r.id
  }

  ghost function MediaDoneAs(cfg: Config, rows: seq<MediaRow>, world: nat -> Turn): (nat, MediaRow) -> bool {
    (j: nat, r: MediaRow) => j < |rows| && MediaMarked(cfg, rows[j], world(j).ok)(r)
  }

  /** How many of the first n rows had the outcome. */
  ghost function HowManyMedia(cfg: Config, rows: seq<MediaRow>, world: nat -> Turn, n: nat, outcome: MediaOutcome): nat
    requires n <= |rows|
  {
    if n == 0 then 0
    else HowManyMedia(cfg, rows, world, n - 1, outcome) + if MediaOutcomeOf(cfg, rows[n - 1], world(n - 1).ok) == outcome then 1 else 0
  }

  /** The deliveries of the first n rows, in order. */
  ghost function MediaSends(rows: seq<MediaRow>, world: nat -> Turn, n: nat): (sends: seq<Delivery>)
    requires n <= |rows|
    ensures |sends| == n
  {
    seq(n, j requires 0 <= j < n => Delivery(rows[j].id, world(j).ok))
  }

  ghost predicate MediaFlushed(cfg: Config, s: Sys, s': Sys, rows: seq<MediaRow>, world: nat -> Turn, stats: MediaStats, n: nat) {
    && n <= |rows|
    && stats.sent == HowManyMedia(cfg, rows, world, n, MediaSent)
    && stats.retried == HowManyMedia(cfg, rows, world, n, MediaRetried)
    && stats.failed == HowManyMedia(cfg, rows, world, n, MediaFailed)
    && s'.mediaLog.sends == s.mediaLog.sends + MediaSends(rows, world, n)
    && (Wf(s.db) ==> Through(s.db.media, s'.db.media, rows, n, MediaId, MediaDoneAs(cfg, rows, world)))
  }

  /** The marks of a row in the table change that row alone, each in its way. */
  lemma {:induction false} MediaMarksMove(cfg: Config, db: Db, row: MediaRow, ok: bool, error: string, now: int)
    requires WfMedia(db.media, db.mediaSeq) && row in db.media
    ensures
      var db' := if ok then MarkMediaSent(db, row.id, now) else MarkMediaFailure(cfg, db, row, error, now);
      Moves(db.media, db'.media, MediaId, row.id, MediaMarked(cfg, row, ok))
  {
    hide Truncate, Backoff.DelayMs;
    var n: nat :| n < |db.media| && db.media[n] == row;
    M.MediaAtIs(db.media, db.mediaSeq, n);
    forall k | 0 <= k < |db.media| && db.media[k].id == row.id ensures k == n {
      M.MediaAtIs(db.media, db.mediaSeq, k);
    }
  }

  /** Others add rows to the media table, and do no more to it. */
  lemma {:induction false} OutsideAddsMedia(cfg: Config, s: Sys, ls: seq<Label>)
    requires AllOutside(ls)
    ensures s.db.media <= Run(cfg, s, ls).db.media
    decreases |ls|
  {
    hide Apply, MediaKnown;
    if ls != [] {
      assert Outside(ls[0]);
      if ls[0].Op? {
        M.OnlyEnqueuesMedia(s.db, ls[0].op, s.clock);
      }
      OutsideAddsMedia(cfg, Step(cfg, s, ls[0]), ls[1..]);
    }
  }

  /** Where the loop stands: the rows before the i-th are delivered and marked. */
  ghost predicate MediaStanding(cfg: Config, es: EventStore, s: Sys, rows: seq<MediaRow>, world: nat -> Turn, i: nat, mid: seq<Label>, stats: MediaStats)
    requires i <= |rows|
    reads es
  {
    var cur := Run(cfg, Step(cfg, s, Media(MediaStart)), mid);
    && (forall j :: 0 <= j < |mid| ==> M.Inside(mid[j])) && At(es, cur) && cur.media == MediaRows(rows[i..])
    && s.mediaLog.sends <= cur.mediaLog.sends
    && Tallies(cur.mediaLog.sends[|s.mediaLog.sends|..], stats) && stats.sent + stats.retried + stats.failed == i
    && MediaFlushed(cfg, s, cur, rows, world, stats, i)
  }

  /** The statistics count the deliveries made and the successful ones among them. */
  ghost predicate Tallies(sends: seq<Delivery>, stats: MediaStats) {
    |sends| == stats.sent + stats.retried + stats.failed && Count(sends, (d: Delivery) => d.ok) == stats.sent
  }

  lemma {:induction false} TalliesGrow(sends: seq<Delivery>, stats: MediaStats, stats': MediaStats, d: Delivery)
    requires Tallies(sends, stats)
    requires stats'.sent == stats.sent + if d.ok then 1 else 0
    requires stats'.sent + stats'.retried + stats'.failed == stats.sent + stats.retried + stats.failed + 1
    ensures Tallies(sends + [d], stats')
  {
    CountSplit(sends, [d], (d: Delivery) => d.ok);
  }

  method MediaPause(es: EventStore, cfg: Config, ghost rows: seq<MediaRow>, ghost world: nat -> Turn, ghost i: nat, ls: seq<Label>, ghost stats: MediaStats, ghost s: Sys, ghost mid: seq<Label>)
    returns (ghost mid': seq<Label>)
    requires i <= |rows| && MediaStanding(cfg, es, s, rows, world, i, mid, stats) && AllOutside(ls)
    modifies es
    ensures MediaStanding(cfg, es, s, rows, world, i, mid', stats)
  {
    hide Step, Tallies, Through, Wf, HowManyMedia, MediaSends;
    ghost var s1 := Step(cfg, s, Media(MediaStart));
    Meanwhile(es, ls, cfg, Run(cfg, s1, mid));
    mid' := mid + ls;
    RunConcat(cfg, s1, mid, ls);
    assert forall j :: 0 <= j < |ls| ==> Outside(ls[j]);
    OutsideAddsMedia(cfg, Run(cfg, s1, mid), ls);
    if Wf(s.db) {
      ThroughMore(s.db.media, Run(cfg, s1, mid).db.media, es.db.media, rows, i, MediaId, MediaDoneAs(cfg, rows, world));
    }
  }

  /** The mark after a delivery: SENT, FAILED after the last attempt, RETRY otherwise. */
  method MarkMediaRow(es: EventStore, cfg: Config, row: MediaRow, ok: bool, error: string, stats: MediaStats)
    returns (stats': MediaStats)
    modifies es`db
    ensures es.db == if ok then MarkMediaSent(old(es.db), row.id, es.clock) else MarkMediaFailure(cfg, old(es.db), row, error, es.clock)
    ensures stats' ==
      if ok then stats.(sent := stats.sent + 1)
      else if row.attempt + 1 >= cfg.MediaMaxRetries() then stats.(failed := stats.failed + 1)
      else stats.(retried := stats.retried + 1)
  {
    if ok {
      es.MarkMediaSent(row.id);
      return stats.(sent := stats.sent + 1);
    }
    var nextAttempt := row.attempt + 1;
    if nextAttempt >= cfg.MediaMaxRetries() {
      es.MarkMediaFailed(row.id, error);
      return stats.(failed := stats.failed + 1);
    }
    var delay := Backoff.CalculateBackoffMs(nextAttempt, 300_000);
    es.MarkMediaRetry(row.id, nextAttempt, es.clock + delay, error);
    return stats.(retried := stats.retried + 1);
  }

  lemma {:induction false} DeliverStep(cfg: Config, s: Sys, row: MediaRow, left: seq<MediaRow>, ok: bool)
    requires s.media == MediaRows([row] + left)
    ensures Step(cfg, s, Media(MediaNext(ok)))
         == s.(media := MediaDelivered(row, left, ok), mediaLog := s.mediaLog.(sends := s.mediaLog.sends + [Delivery(row.id, ok)]))
  {
    assert ([row] + left)[1..] == left;
  }

  lemma {:induction false} MediaMarkStep(cfg: Config, s: Sys, row: MediaRow, left: seq<MediaRow>, ok: bool, error: string)
    requires s.media == MediaDelivered(row, left, ok)
    ensures Step(cfg, s, Media(MediaMark(error)))
         == s.(media := MediaRows(left), db := if ok then MarkMediaSent(s.db, row.id, s.clock) else MarkMediaFailure(cfg, s.db, row, error, s.clock))
  {
  }

  /** The next row of the batch is in the table as it was listed, and its turn is one more done. */
  lemma {:induction false} MediaOneMore(cfg: Config, s: Sys, cur: Sys, cur': Sys, rows: seq<MediaRow>, world: nat -> Turn, i: nat, error: string)
    requires i < |rows| && rows == M.FirstDue(cfg, s) && Wf(s.db) && Wf(cur.db) && cur.db.media <= cur'.db.media && Wf(cur'.db)
    requires Through(s.db.media, cur.db.media, rows, i, MediaId, MediaDoneAs(cfg, rows, world))
    ensures
      var ok := world(i).ok;
      var db' := if ok then MarkMediaSent(cur'.db, rows[i].id, cur'.clock) else MarkMediaFailure(cfg, cur'.db, rows[i], error, cur'.clock);
      Through(s.db.media, db'.media, rows, i + 1, MediaId, MediaDoneAs(cfg, rows, world))
  {
    hide MediaMarked, MarkMediaSent, MarkMediaFailure;
    MediaBatchInOrder(cfg, s);
    assert rows[i] in rows;
    var k: nat :| k < |s.db.media| && s.db.media[k] == rows[i];
    assert rows[i] !in rows[..i];
    assert RowThrough(s.db.media[k], cur.db.media[k], rows, i, MediaDoneAs(cfg, rows, world));
    assert cur'.db.media[k] == rows[i];
    MediaMarksMove(cfg, cur'.db, rows[i], world(i).ok, error, cur'.clock);
    var db' := if world(i).ok then MarkMediaSent(cur'.db, rows[i].id, cur'.clock) else MarkMediaFailure(cfg, cur'.db, rows[i], error, cur'.clock);
    ThroughMore(s.db.media, cur.db.media, cur'.db.media, rows, i, MediaId, MediaDoneAs(cfg, rows, world));
    ThroughOneMore(s.db.media, cur'.db.media, db'.media, rows, i, MediaId, MediaDoneAs(cfg, rows, world), MediaMarked(cfg, rows[i], world(i).ok));
  }

  lemma {:induction false} MediaBatchInOrder(cfg: Config, s: Sys)
    requires Wf(s.db)
    ensures
      var rows := M.FirstDue(cfg, s);
      Ascending(s.db.media, MediaId) && Ascending(rows, MediaId) && forall r :: r in rows ==> r in s.db.media
  {
    SelectOrdered(s.db.media, DueMedia(s.clock), cfg.MediaBatch(), MediaId);
  }

  lemma {:induction false} MediaCounts(cfg: Config, rows: seq<MediaRow>, world: nat -> Turn, i: nat, stats: MediaStats, stats': MediaStats)
    requires i < |rows|
    requires stats.sent == HowManyMedia(cfg, rows, world, i, MediaSent) && stats.retried == HowManyMedia(cfg, rows, world, i, MediaRetried)
    requires stats.failed == HowManyMedia(cfg, rows, world, i, MediaFailed)
    requires stats' ==
      if world(i).ok then stats.(sent := stats.sent + 1)
      else if rows[i].attempt + 1 >= cfg.MediaMaxRetries() then stats.(failed := stats.failed + 1)
      else stats.(retried := stats.retried + 1)
    ensures stats'.sent == HowManyMedia(cfg, rows, world, i + 1, MediaSent) && stats'.retried == HowManyMedia(cfg, rows, world, i + 1, MediaRetried)
    ensures stats'.failed == HowManyMedia(cfg, rows, world, i + 1, MediaFailed)
    ensures MediaSends(rows, world, i + 1) == MediaSends(rows, world, i) + [Delivery(rows[i].id, world(i).ok)]
  {
  }

  lemma {:induction false} TurnThrough(cfg: Config, s: Sys, cur: Sys, cur1: Sys, mid: seq<Label>, during: seq<Label>, rows: seq<MediaRow>, world: nat -> Turn, i: nat, error: string)
    requires i < |rows| && rows == M.FirstDue(cfg, s) && Wf(s.db) && AllOutside(during)
    requires cur == Run(cfg, Step(cfg, s, Media(MediaStart)), mid) && cur1.db == cur.db
    requires Through(s.db.media, cur.db.media, rows, i, MediaId, MediaDoneAs(cfg, rows, world))
    ensures
      var cur2, ok := Run(cfg, cur1, during), world(i).ok;
      var db' := if ok then MarkMediaSent(cur2.db, rows[i].id, cur2.clock) else MarkMediaFailure(cfg, cur2.db, rows[i], error, cur2.clock);
      Through(s.db.media, db'.media, rows, i + 1, MediaId, MediaDoneAs(cfg, rows, world))
  {
    hide Wf, Step, Through, M.FirstDue, MarkMediaSent, MarkMediaFailure, AllOutside, Run;
    StepKeepsWf(cfg, s, Media(MediaStart));
    RunKeepsWf(cfg, Step(cfg, s, Media(MediaStart)), mid);
    RunKeepsWf(cfg, cur1, during);
    OutsideAddsMedia(cfg, cur1, during);
    MediaOneMore(cfg, s, cur, Run(cfg, cur1, during), rows, world, i, error);
  }

  method MediaTurn(es: EventStore, cfg: Config, rows: seq<MediaRow>, world: nat -> Turn, i: nat, stats: MediaStats, ghost s: Sys, ghost mid: seq<Label>)
    returns (stats': MediaStats, ghost mid': seq<Label>)
    requires i < |rows| && rows == M.FirstDue(cfg, s) && MediaStanding(cfg, es, s, rows, world, i, mid, stats) && AllOutside(world(i).during)
    modifies es
    ensures MediaStanding(cfg, es, s, rows, world, i + 1, mid', stats')
  {
    hide Tallies, Step, MarkMediaSent, MarkMediaFailure, Through, Wf, HowManyMedia, MediaSends, M.FirstDue, Run, MediaDoneAs;
    var turn := world(i);
    ghost var s1 := Step(cfg, s, Media(MediaStart));
    ghost var cur := Run(cfg, s1, mid);
    ghost var next, mark := Media(MediaNext(turn.ok)), Media(MediaMark(turn.error));
    ghost var cur1 := Step(cfg, cur, next);
    assert rows[i..] == [rows[i]] + rows[i + 1..];
    DeliverStep(cfg, cur, rows[i], rows[i + 1..], turn.ok);
    Meanwhile(es, turn.during, cfg, cur1);
    ghost var cur2 := Run(cfg, cur1, turn.during);
    MediaMarkStep(cfg, cur2, rows[i], rows[i + 1..], turn.ok, turn.error);
    stats' := MarkMediaRow(es, cfg, rows[i], turn.ok, turn.error, stats);
    mid' := mid + [next] + turn.during + [mark];
    RunSnoc(cfg, s1, mid + [next] + turn.during, mark);
    RunConcat(cfg, s1, mid + [next], turn.during);
    RunSnoc(cfg, s1, mid, next);
    assert forall j :: 0 <= j < |turn.during| ==> Outside(turn.during[j]);
    ghost var d, n := Delivery(rows[i].id, turn.ok), |s.mediaLog.sends|;
    assert (cur.mediaLog.sends + [d])[n..] == cur.mediaLog.sends[n..] + [d];
    TalliesGrow(cur.mediaLog.sends[n..], stats, stats', d);
    MediaCounts(cfg, rows, world, i, stats, stats');
    if Wf(s.db) {
      TurnThrough(cfg, s, cur, cur1, mid, turn.during, rows, world, i, turn.error);
    }
  }

  /** The end of a media flush: finished, or cancelled between two rows. */
  function AfterMedia(cfg: Config, s: Sys, mid: seq<Label>, finished: bool): Sys {
    Run(cfg, s, [Media(MediaStart)] + mid + [if finished then Media(MediaDone) else Media(MediaCancel)])
  }

  /** The loop over the first due media rows, up to the first turn that is cancelled.  Each row is
      delivered once, in order, counted under its outcome and marked; nothing else that was in the
      table changes. */
  method FlushMediaOutbox(es: EventStore, cfg: Config, world: nat -> Turn, ghost s: Sys)
    returns (stats: MediaStats, finished: bool, ghost mid: seq<Label>)
    requires At(es, s) && s.media.MediaIdle? && Fair(world)
    modifies es
    ensures
      var s' := AfterMedia(cfg, s, mid, finished);
      var rows, n := M.FirstDue(cfg, s), stats.sent + stats.retried + stats.failed;
      && At(es, s') && s'.media.MediaIdle?
      && StoppedAt(world, n, |rows|) && (finished <==> n == |rows|)
      && (finished ==> M.WholeFlush(cfg, s, mid))
      && MediaFlushed(cfg, s, s', rows, world, stats, n)
      && s.mediaLog.sends <= s'.mediaLog.sends
      && Tallies(s'.mediaLog.sends[|s.mediaLog.sends|..], stats)
      && (finished ==> M.SentTo(s'.mediaLog.sends[|s.mediaLog.sends|..]) == M.Ids(M.FirstDue(cfg, s)))
    ensures finished <==> forall i: nat :: i < |M.FirstDue(cfg, s)| ==> !world(i).cancelled
  {
    hide AllOutside, MediaStanding, MediaFlushed, AfterMedia, M.WholeFlush, Tallies, M.SentTo, M.Ids;
    var rows := es.ListPendingMediaOutbox(es.clock, cfg.mediaBatch);
    stats, mid := MediaStats(0, 0, 0), [];
    MediaFlushStarts(cfg, es, s, rows, world);
    var i := 0;
    finished := true;
    while i < |rows|
      invariant 0 <= i <= |rows| && MediaStanding(cfg, es, s, rows, world, i, mid, stats)
      invariant forall j: nat :: j < i ==> !world(j).cancelled
    {
      var turn := world(i);
      mid := MediaPause(es, cfg, rows, world, i, turn.before, stats, s, mid);
      if turn.cancelled {
        finished := false;
        break;
      }
      stats, mid := MediaTurn(es, cfg, rows, world, i, stats, s, mid);
      i := i + 1;
    }
    MediaFlushEnds(cfg, es, s, rows, world, i, mid, stats, finished);
  }

  lemma {:induction false} MediaFlushStarts(cfg: Config, es: EventStore, s: Sys, rows: seq<MediaRow>, world: nat -> Turn)
    requires At(es, s) && s.media.MediaIdle? && rows == M.FirstDue(cfg, s)
    ensures MediaStanding(cfg, es, s, rows, world, 0, [], MediaStats(0, 0, 0))
  {
    hide Wf, Select;
    assert rows[0..] == rows && s.mediaLog.sends[|s.mediaLog.sends|..] == [];
    ThroughNone(s.db.media, rows, MediaId, MediaDoneAs(cfg, rows, world));
  }

  lemma {:induction false} MediaFlushEnds(cfg: Config, es: EventStore, s: Sys, rows: seq<MediaRow>, world: nat -> Turn, i: nat, mid: seq<Label>, stats: MediaStats, finished: bool)
    requires i <= |rows| && MediaStanding(cfg, es, s, rows, world, i, mid, stats) && (finished ==> i == |rows|) && s.media.MediaIdle?
    ensures
      var s' := AfterMedia(cfg, s, mid, finished);
      && At(es, s') && s'.media.MediaIdle? && i == stats.sent + stats.retried + stats.failed
      && MediaFlushed(cfg, s, s', rows, world, stats, i)
      && s.mediaLog.sends <= s'.mediaLog.sends && Tallies(s'.mediaLog.sends[|s.mediaLog.sends|..], stats)
      && (finished ==> M.WholeFlush(cfg, s, mid) && M.SentTo(s'.mediaLog.sends[|s.mediaLog.sends|..]) == M.Ids(M.FirstDue(cfg, s)))
  {
    hide Wf, Through, HowManyMedia, MediaSends, Tallies, M.SentTo, M.Ids, M.FirstDue;
    var start, end := Media(MediaStart), if finished then Media(MediaDone) else Media(MediaCancel);
    RunSnoc(cfg, s, [start] + mid, end);
    RunConcat(cfg, s, [start], mid);
    OneStep(cfg, s, start);
    if finished {
      M.FlushDeliversBatch(cfg, s, mid);
    }
  }
}
