/** What the push flusher does to its table over a whole run. */
module PushDelivery {
  import opened Wrappers
  import opened Tables
  import opened System
  import opened Schema
  import Backoff

  // ------------------------------------------------------- rows and snapshots

  /** The row a pick was taken from, still as listed: SENT if sent, else waiting. */
  ghost predicate Holds(push: seq<PushRow>, p: PushPick, sent: bool) {
    var n := PushAt(push, p.id);
    && n < |push| && push[n].eventId == p.eventId && push[n].attempt == p.attempt
    && (if sent then push[n].status == Sent else Open(push[n].status))
  }

  /** A snapshot in id order, every pick of which still holds. */
  ghost predicate Picked(push: seq<PushRow>, left: seq<PushPick>, sent: bool) {
    && (forall j :: 0 <= j < |left| ==> Holds(push, left[j], sent))
    && (forall i, j :: 0 <= i < j < |left| ==> left[i].id < left[j].id)
  }

  ghost predicate PicksHold(push: seq<PushRow>, pc: PushPc) {
    match pc
    case PushIdle => true
    case Cleanup(left, _) => Picked(push, left, true)
    case Dispatch(left) => Picked(push, left, false)
    case InFlight(pick, left) => Current(push, pick, left)
    case Delivered(pick, left, _) => Current(push, pick, left)
    case _ => false
  }

  ghost predicate Current(push: seq<PushRow>, pick: PushPick, left: seq<PushPick>) {
    Holds(push, pick, true) && Picked(push, left, false)
  }

  lemma {:induction false} PushAtIs(push: seq<PushRow>, pushSeq: int, n: nat)
    requires WfPush(push, pushSeq) && n < |push|
    ensures PushAt(push, push[n].id) == n && PushOf(push, push[n].eventId) == n
  {
  }

  /** Rows whose status, attempt and key stay keep their picks. */
  lemma {:induction false} HoldsKept(push: seq<PushRow>, push': seq<PushRow>, pushSeq': int, p: PushPick, sent: bool)
    requires Holds(push, p, sent) && PushKept(push, push') && WfPush(push', pushSeq')
    requires push'[PushAt(push, p.id)].status == push[PushAt(push, p.id)].status
    requires push'[PushAt(push, p.id)].attempt == push[PushAt(push, p.id)].attempt
    ensures Holds(push', p, sent)
  {
    var n := PushAt(push, p.id);
    assert SamePush(push[n], push'[n]);
    PushAtIs(push', pushSeq', n);
  }

  /** Rewriting one row keeps a snapshot that does not hold it. */
  lemma {:induction false} PickedKept(push: seq<PushRow>, pushSeq: int, n: nat, r: PushRow, left: seq<PushPick>, sent: bool)
    requires WfPush(push, pushSeq) && n < |push| && SamePush(push[n], r) && Picked(push, left, sent)
    requires forall j :: 0 <= j < |left| ==> left[j].id != r.id
    ensures WfPush(push[n := r], pushSeq) && Picked(push[n := r], left, sent)
  {
    var push' := push[n := r];
    forall j | 0 <= j < |left| ensures Holds(push', left[j], sent) {
      assert Holds(push, left[j], sent);
      HoldsKept(push, push', pushSeq, left[j], sent);
    }
  }

  lemma {:induction false} PickedWithOneMore(push: seq<PushRow>, r: PushRow, left: seq<PushPick>, sent: bool)
    requires Picked(push, left, sent) && WfPush(push + [r], r.id)
    ensures Picked(push + [r], left, sent)
  {
    var push' := push + [r];
    assert forall i :: 0 <= i < |push| ==> push'[i] == push[i];
    forall j | 0 <= j < |left| ensures Holds(push', left[j], sent) {
      assert Holds(push, left[j], sent);
      HoldsKept(push, push', r.id, left[j], sent);
    }
  }

  /** A listing is a snapshot. */
  lemma {:induction false} ListingPicked(push: seq<PushRow>, pushSeq: int, keep: PushRow -> bool, limit: nat, sent: bool)
    requires WfPush(push, pushSeq)
    requires forall r :: keep(r) ==> if sent then r.status == Sent else Open(r.status)
    ensures Picked(push, Picks(Select(push, keep, limit)), sent)
  {
    var rows := Select(push, keep, limit);
    SelectOrdered(push, keep, limit, (r: PushRow) => r.id);
    forall j | 0 <= j < |rows| ensures Holds(push, Picks(rows)[j], sent) {
      assert rows[j] in rows;
      var n: nat :| n < |push| && push[n] == rows[j];
      PushAtIs(push, pushSeq, n);
    }
  }

  // ------------------------------------------------------------- SENT in bulk

  /** The ids in flight or delivered but not yet cleaned up. */
  function SentIds(push: seq<PushRow>): set<int> {
    set i | 0 <= i < |push| && push[i].status == Sent :: push[i].id
  }

  function PickIds(left: seq<PushPick>): set<int> {
    set j | 0 <= j < |left| :: left[j].id
  }

  lemma {:induction false} PickIdsBound(left: seq<PushPick>)
    ensures |PickIds(left)| <= |left|
  {
    if left != [] {
      PickIdsBound(left[1..]);
      assert PickIds(left) == {left[0].id} + PickIds(left[1..]) by {
        assert forall j :: 0 < j < |left| ==> left[j] == left[1..][j - 1];
        assert forall j :: 0 <= j < |left[1..]| ==> left[1..][j] == left[j + 1];
      }
    }
  }

  lemma {:induction false} PickIdsExact(left: seq<PushPick>)
    requires forall i, j :: 0 <= i < j < |left| ==> left[i].id < left[j].id
    ensures |PickIds(left)| == |left|
  {
    if left != [] {
      PickIdsExact(left[1..]);
      assert PickIds(left) == {left[0].id} + PickIds(left[1..]) by {
        assert forall j :: 0 < j < |left| ==> left[j] == left[1..][j - 1];
        assert forall j :: 0 <= j < |left[1..]| ==> left[1..][j] == left[j + 1];
      }
    }
  }

  lemma {:induction false} SubsetCard(a: set<int>, b: set<int>)
    requires a <= b
    ensures |a| <= |b| && (|a| == |b| ==> a == b)
  {
    assert b == a + (b - a);
    assert |b| == |a| + |b - a|;
  }

  lemma {:induction false} SentIdsSet(push: seq<PushRow>, pushSeq: int, n: nat, r: PushRow)
    requires WfPush(push, pushSeq) && n < |push| && r.id == push[n].id
    ensures SentIds(push[n := r]) == if r.status == Sent then SentIds(push) + {r.id} else SentIds(push) - {r.id}
  {
    var push' := push[n := r];
    forall x ensures x in SentIds(push') <==> x in (if r.status == Sent then SentIds(push) + {r.id} else SentIds(push) - {r.id}) {
      if x in SentIds(push') {
        var i :| 0 <= i < |push'| && push'[i].status == Sent && push'[i].id == x;
      }
      if x in SentIds(push) && x != r.id {
        var i :| 0 <= i < |push| && push[i].status == Sent && push[i].id == x;
        assert push'[i] == push[i];
      }
      assert push'[n] == r;
    }
  }

  lemma {:induction false} SentIdsWithOneMore(push: seq<PushRow>, r: PushRow)
    requires r.status != Sent
    ensures SentIds(push + [r]) == SentIds(push)
  {
    var push' := push + [r];
    assert forall i :: 0 <= i < |push| ==> push'[i] == push[i];
  }

  lemma {:induction false} ListedAreSent(events: seq<Event>, push: seq<PushRow>, pushSeq: int, limit: nat)
    requires WfPush(push, pushSeq)
    ensures PickIds(Picks(Select(push, SentPush(events), limit))) <= SentIds(push)
  {
    var left := Picks(Select(push, SentPush(events), limit));
    ListingPicked(push, pushSeq, SentPush(events), limit, true);
    forall x | x in PickIds(left) ensures x in SentIds(push) {
      var j :| 0 <= j < |left| && left[j].id == x;
      assert Holds(push, left[j], true);
    }
  }

  lemma {:induction false} SentAreListed(events: seq<Event>, push: seq<PushRow>, limit: nat)
    requires PushReferences(events, push) && |Select(push, SentPush(events), limit)| < limit
    ensures SentIds(push) <= PickIds(Picks(Select(push, SentPush(events), limit)))
  {
    var rows := Select(push, SentPush(events), limit);
    var left := Picks(rows);
    SelectComplete(push, SentPush(events), limit);
    forall x | x in SentIds(push) ensures x in PickIds(left) {
      var i :| 0 <= i < |push| && push[i].status == Sent && push[i].id == x;
      assert Known(events, push[i].eventId);
      assert push[i] in rows;
      var j :| 0 <= j < |rows| && rows[j] == push[i];
      assert left[j].id == x;
    }
  }

  /** When at most limit rows are SENT, the cleanup listing names every one of them: no SENT row
      is lost to the LIMIT or, since every push row has its event, to the JOIN. */
  lemma {:induction false} CleanupListsAllSent(events: seq<Event>, push: seq<PushRow>, pushSeq: int, limit: nat)
    requires WfPush(push, pushSeq) && PushReferences(events, push) && |SentIds(push)| <= limit
    ensures PickIds(Picks(Select(push, SentPush(events), limit))) == SentIds(push)
  {
    var left := Picks(Select(push, SentPush(events), limit));
    ListedAreSent(events, push, pushSeq, limit);
    if |left| < limit {
      SentAreListed(events, push, limit);
    } else {
      ListingPicked(push, pushSeq, SentPush(events), limit, true);
      PickIdsExact(left);
      SubsetCard(PickIds(left), SentIds(push));
    }
  }

  /** At most a batch of rows is SENT at any moment, and during cleanup all of them are on the list. */
  ghost predicate Bounded(push: seq<PushRow>, pc: PushPc, batch: nat) {
    match pc
    case PushIdle => |SentIds(push)| <= batch
    case Cleanup(left, _) => SentIds(push) == PickIds(left) && |left| <= batch
    case Dispatch(left) => |SentIds(push)| + |left| <= batch
    case InFlight(_, left) => |SentIds(push)| + |left| <= batch
    case Delivered(_, left, _) => |SentIds(push)| + |left| <= batch
    case _ => false
  }

  // --------------------------------------------------------------- accounting

  /** Successful deliveries a row has behind it. */
  function Successes(r: PushRow, pc: PushPc, log: PushLog): nat {
    match pc
    case InFlight(pick, _) => if pick.id == r.id then 0 else Settled(r, log)
    case Delivered(pick, _, ok) => if pick.id == r.id then (if ok then 1 else 0) else Settled(r, log)
    case _ => Settled(r, log)
  }

  function Settled(r: PushRow, log: PushLog): nat {
    if (r.status == Sent || r.status == Acked) && r.id !in log.cut then 1 else 0
  }

  /** Failed deliveries beyond the row's attempt counter. */
  function Uncounted(r: PushRow, pc: PushPc, log: PushLog): nat {
    (if pc.Delivered? && pc.pick.id == r.id && !pc.ok then 1 else 0) + (if r.id in log.unrecorded then 1 else 0)
  }

  ghost predicate RowAccount(r: PushRow, pc: PushPc, log: PushLog) {
    && Tally(log.sends, r.id, true) == Successes(r, pc, log)
    && Tally(log.sends, r.id, false) == r.attempt + Uncounted(r, pc, log)
    && 0 <= r.attempt
    && (r.status == Pending ==> r.attempt == 0) && (r.status == Retry ==> 0 < r.attempt) && r.status != Failed
    && (r.id in log.cut ==> r.status == Sent || r.status == Acked)
    && (pc.InFlight? || pc.Delivered? ==> pc.pick.id !in log.cut)
  }

  ghost predicate Accounted(push: seq<PushRow>, pushSeq: int, pc: PushPc, log: PushLog) {
    && (forall i :: 0 <= i < |push| ==> RowAccount(push[i], pc, log))
    && (forall d :: d in log.sends ==> d.id <= pushSeq)
    && (forall id :: id in log.cut ==> id <= pushSeq)
    && log.unrecorded <= log.cut
  }

  // --------------------------------------------------------------- every step

  ghost predicate Tracked(push: seq<PushRow>, pushSeq: int, pc: PushPc, log: PushLog, batch: nat) {
    WfPush(push, pushSeq) && PicksHold(push, pc) && Bounded(push, pc, batch) && Accounted(push, pushSeq, pc, log)
  }

  lemma {:induction false} StartTracked(events: seq<Event>, push: seq<PushRow>, pushSeq: int, log: PushLog, batch: nat, since: int)
    requires Tracked(push, pushSeq, PushIdle, log, batch) && PushReferences(events, push)
    ensures Tracked(push, pushSeq, Cleanup(Picks(Select(push, SentPush(events), batch)), since), log, batch)
  {
    hide SentIds, PickIds, Holds;
    ListingPicked(push, pushSeq, SentPush(events), batch, true);
    CleanupListsAllSent(events, push, pushSeq, batch);
  }

  lemma {:induction false} ListTracked(events: seq<Event>, push: seq<PushRow>, pushSeq: int, log: PushLog, batch: nat, since: int)
    requires Tracked(push, pushSeq, Cleanup([], since), log, batch)
    ensures SentIds(push) == {}
    ensures Tracked(push, pushSeq, PushIdle, log, batch)
    ensures Tracked(push, pushSeq, Dispatch(Picks(Select(push, DuePush(events, since), batch))), log, batch)
  {
    ListingPicked(push, pushSeq, DuePush(events, since), batch, false);
    assert PickIds([]) == {};
  }

  lemma {:induction false} HeadPicked(push: seq<PushRow>, left: seq<PushPick>, sent: bool)
    requires Picked(push, left, sent) && left != []
    ensures Holds(push, left[0], sent) && Picked(push, left[1..], sent)
    ensures forall j :: 0 <= j < |left[1..]| ==> left[0].id < left[1..][j].id
  {
    assert forall j :: 0 <= j < |left[1..]| ==> left[1..][j] == left[j + 1];
  }

  lemma {:induction false} TailIds(left: seq<PushPick>)
    requires left != [] && forall i, j :: 0 <= i < j < |left| ==> left[i].id < left[j].id
    ensures PickIds(left[1..]) == PickIds(left) - {left[0].id}
  {
    assert forall j :: 0 < j < |left| ==> left[j] == left[1..][j - 1];
    assert forall j :: 0 <= j < |left[1..]| ==> left[1..][j] == left[j + 1];
  }

  /** Rewriting the row of one pick keeps every other row's account. */
  lemma {:induction false} AccountsKept(push: seq<PushRow>, pushSeq: int, n: nat, r: PushRow, pc: PushPc, pc': PushPc, log: PushLog)
    requires WfPush(push, pushSeq) && n < |push| && SamePush(push[n], r) && Accounted(push, pushSeq, pc, log)
    requires RowAccount(r, pc', log)
    requires forall i :: 0 <= i < |push| && i != n ==> RowAccount(push[i], pc', log)
    ensures Accounted(push[n := r], pushSeq, pc', log)
  {
    assert forall i :: 0 <= i < |push| ==> push[n := r][i] == if i == n then r else push[i];
  }

  lemma {:induction false} CleanupTracked(push: seq<PushRow>, pushSeq: int, left: seq<PushPick>, since: int, log: PushLog, batch: nat, n: nat, r: PushRow)
    requires Tracked(push, pushSeq, Cleanup(left, since), log, batch) && left != []
    requires n == PushAt(push, left[0].id) && n < |push| && SamePush(push[n], r) && r.status == Acked && r.attempt == push[n].attempt
    ensures Tracked(push[n := r], pushSeq, Cleanup(left[1..], since), log, batch)
  {
    hide Accounted, Picked;
    HeadPicked(push, left, true);
    PickedKept(push, pushSeq, n, r, left[1..], true);
    SentIdsSet(push, pushSeq, n, r);
    TailIds(left);
    CleanupAccounted(push, pushSeq, left, since, log, n, r);
  }

  lemma {:induction false} CleanupAccounted(push: seq<PushRow>, pushSeq: int, left: seq<PushPick>, since: int, log: PushLog, n: nat, r: PushRow)
    requires WfPush(push, pushSeq) && Accounted(push, pushSeq, Cleanup(left, since), log) && left != []
    requires n < |push| && SamePush(push[n], r) && push[n].status == Sent && r.status == Acked && r.attempt == push[n].attempt
    ensures Accounted(push[n := r], pushSeq, Cleanup(left[1..], since), log)
  {
    forall i | 0 <= i < |push| ensures RowAccount(push[i], Cleanup(left[1..], since), log) {
      assert RowAccount(push[i], Cleanup(left, since), log);
    }
    AccountsKept(push, pushSeq, n, r, Cleanup(left, since), Cleanup(left[1..], since), log);
  }

  lemma {:induction false} InflightPicked(push: seq<PushRow>, pushSeq: int, left: seq<PushPick>, n: nat, r: PushRow)
    requires WfPush(push, pushSeq) && Picked(push, left, false) && left != []
    requires n == PushAt(push, left[0].id) && n < |push| && SamePush(push[n], r) && r.status == Sent && r.attempt == push[n].attempt
    ensures WfPush(push[n := r], pushSeq) && Current(push[n := r], left[0], left[1..])
    ensures SentIds(push[n := r]) == SentIds(push) + {r.id}
  {
    HeadPicked(push, left, false);
    PickedKept(push, pushSeq, n, r, left[1..], false);
    SentIdsSet(push, pushSeq, n, r);
    PushAtIs(push[n := r], pushSeq, n);
  }

  lemma {:induction false} InflightAccounted(push: seq<PushRow>, pushSeq: int, left: seq<PushPick>, log: PushLog, n: nat, r: PushRow)
    requires WfPush(push, pushSeq) && Accounted(push, pushSeq, Dispatch(left), log) && left != [] && n < |push|
    requires push[n].id == left[0].id && Open(push[n].status)
    requires SamePush(push[n], r) && r.status == Sent && r.attempt == push[n].attempt
    ensures Accounted(push[n := r], pushSeq, InFlight(left[0], left[1..]), log)
  {
    forall i | 0 <= i < |push| && i != n ensures RowAccount(push[i], InFlight(left[0], left[1..]), log) {
      assert RowAccount(push[i], Dispatch(left), log) && RowAccount(push[n], Dispatch(left), log);
    }
    assert RowAccount(push[n], Dispatch(left), log);
    AccountsKept(push, pushSeq, n, r, Dispatch(left), InFlight(left[0], left[1..]), log);
  }

  lemma {:induction false} InflightTracked(push: seq<PushRow>, pushSeq: int, left: seq<PushPick>, log: PushLog, batch: nat, n: nat, r: PushRow)
    requires Tracked(push, pushSeq, Dispatch(left), log, batch) && left != []
    requires n == PushAt(push, left[0].id) && n < |push| && SamePush(push[n], r) && r.status == Sent && r.attempt == push[n].attempt
    ensures Tracked(push[n := r], pushSeq, InFlight(left[0], left[1..]), log, batch)
  {
    hide Accounted, SentIds;
    InflightPicked(push, pushSeq, left, n, r);
    assert Holds(push, left[0], false);
    InflightAccounted(push, pushSeq, left, log, n, r);
  }

  lemma {:induction false} SendTracked(push: seq<PushRow>, pushSeq: int, pick: PushPick, left: seq<PushPick>, ok: bool, log: PushLog, batch: nat)
    requires Tracked(push, pushSeq, InFlight(pick, left), log, batch)
    ensures Tracked(push, pushSeq, Delivered(pick, left, ok), log.(sends := log.sends + [Delivery(pick.id, ok)]), batch)
  {
    var log' := log.(sends := log.sends + [Delivery(pick.id, ok)]);
    forall i | 0 <= i < |push| ensures RowAccount(push[i], Delivered(pick, left, ok), log') {
      assert RowAccount(push[i], InFlight(pick, left), log);
    }
    assert push[PushAt(push, pick.id)].id <= pushSeq;
  }

  lemma {:induction false} MarkTracked(push: seq<PushRow>, pushSeq: int, pick: PushPick, left: seq<PushPick>, ok: bool, log: PushLog, batch: nat, n: nat, r: PushRow)
    requires Tracked(push, pushSeq, Delivered(pick, left, ok), log, batch)
    requires n == PushAt(push, pick.id) && n < |push| && SamePush(push[n], r)
    requires if ok then r.status == Sent && r.attempt == push[n].attempt else r.status == Retry && r.attempt == push[n].attempt + 1
    ensures Tracked(push[n := r], pushSeq, Dispatch(left), log, batch)
  {
    forall j | 0 <= j < |left| ensures left[j].id != r.id {
      assert Holds(push, left[j], false);
    }
    PickedKept(push, pushSeq, n, r, left, false);
    SentIdsSet(push, pushSeq, n, r);
    assert RowAccount(push[n], Delivered(pick, left, ok), log);
    AccountsKept(push, pushSeq, n, r, Delivered(pick, left, ok), Dispatch(left), log);
  }

  lemma {:induction false} CrashTracked(push: seq<PushRow>, pushSeq: int, pc: PushPc, log: PushLog, batch: nat)
    requires Tracked(push, pushSeq, pc, log, batch)
    ensures Tracked(push, pushSeq, PushIdle, PushCrash(pc, log), batch)
  {
    hide Accounted;
    if pc.Cleanup? {
      PickIdsBound(pc.left);
    }
    CrashAccounted(push, pushSeq, pc, log);
  }

  lemma {:induction false} CrashAccounted(push: seq<PushRow>, pushSeq: int, pc: PushPc, log: PushLog)
    requires WfPush(push, pushSeq) && PicksHold(push, pc) && Accounted(push, pushSeq, pc, log)
    ensures Accounted(push, pushSeq, PushIdle, PushCrash(pc, log))
  {
    hide Picked;
    var log' := PushCrash(pc, log);
    forall i | 0 <= i < |push| ensures RowAccount(push[i], PushIdle, log') {
      assert RowAccount(push[i], pc, log);
      assert (pc.InFlight? || pc.Delivered?) && push[i].id == pc.pick.id ==> PushAt(push, pc.pick.id) == i;
    }
    assert pc.InFlight? || pc.Delivered? ==> push[PushAt(push, pc.pick.id)].id <= pushSeq;
  }

  lemma {:induction false} InsertAccounted(push: seq<PushRow>, pushSeq: int, pc: PushPc, log: PushLog, r: PushRow)
    requires Accounted(push, pushSeq, pc, log) && pushSeq < r.id && r.status == Pending && r.attempt == 0
    requires pc.InFlight? || pc.Delivered? ==> pc.pick.id <= pushSeq && pc.pick.id !in log.cut
    ensures Accounted(push + [r], r.id, pc, log)
  {
    var push' := push + [r];
    assert Delivery(r.id, true) !in log.sends && Delivery(r.id, false) !in log.sends;
    forall i | 0 <= i < |push'| ensures RowAccount(push'[i], pc, log) {
      assert i < |push| ==> RowAccount(push[i], pc, log);
    }
  }

  lemma {:induction false} InsertTracked(push: seq<PushRow>, pushSeq: int, pc: PushPc, log: PushLog, batch: nat, r: PushRow)
    requires Tracked(push, pushSeq, pc, log, batch) && WfPush(push + [r], r.id)
    requires pushSeq < r.id && r.status == Pending && r.attempt == 0
    ensures Tracked(push + [r], r.id, pc, log, batch)
  {
    hide Accounted, SentIds;
    match pc {
      case PushIdle =>
      case Cleanup(left, _) => PickedWithOneMore(push, r, left, true);
      case Dispatch(left) => PickedWithOneMore(push, r, left, false);
      case InFlight(pick, left) => CurrentWithOneMore(push, pushSeq, pc, log, r);
      case Delivered(pick, left, _) => CurrentWithOneMore(push, pushSeq, pc, log, r);
      case _ =>
    }
    SentIdsWithOneMore(push, r);
    InsertAccounted(push, pushSeq, pc, log, r);
  }

  lemma {:induction false} CurrentWithOneMore(push: seq<PushRow>, pushSeq: int, pc: PushPc, log: PushLog, r: PushRow)
    requires (pc.InFlight? || pc.Delivered?) && Current(push, pc.pick, pc.left) && WfPush(push + [r], r.id)
    requires WfPush(push, pushSeq) && Accounted(push, pushSeq, pc, log)
    ensures Current(push + [r], pc.pick, pc.left) && pc.pick.id <= pushSeq && pc.pick.id !in log.cut
  {
    PickedWithOneMore(push, r, pc.left, false);
    PickedWithOneMore(push, r, [pc.pick], true);
    assert [pc.pick][0] == pc.pick;
    assert RowAccount(push[PushAt(push, pc.pick.id)], pc, log);
  }

  /** The push table does not show whether a mark still owes its event update, so a flusher in the
      middle of a mark is, for the table, where it will be after it. */
  function Marked(pc: PushPc): PushPc {
    match pc
    case AckingEvent(_, left, since) => Cleanup(left, since)
    case FlyingEvent(pick, left) => InFlight(pick, left)
    case SentEvent(_, left) => Dispatch(left)
    case _ => pc
  }

  ghost predicate Steady(cfg: Config, db: Db, pc: PushPc, log: PushLog) {
    Tracked(db.push, db.pushSeq, Marked(pc), log, cfg.PushBatch())
  }

  ghost predicate After(cfg: Config, r: PushState) {
    Steady(cfg, r.db, r.pc, r.log)
  }

  /** Nor do the accounts depend on torn. */
  lemma {:induction false} TornIsNeutral(push: seq<PushRow>, pushSeq: int, pc: PushPc, log: PushLog, torn: set<int>, batch: nat)
    requires Tracked(push, pushSeq, pc, log, batch)
    ensures Tracked(push, pushSeq, pc, log.(torn := torn), batch)
  {
    forall i | 0 <= i < |push| ensures RowAccount(push[i], pc, log.(torn := torn)) {
      assert RowAccount(push[i], pc, log);
    }
  }

  lemma {:induction false} CleanupSteady(cfg: Config, db: Db, left: seq<PushPick>, since: int, log: PushLog, now: int)
    requires Steady(cfg, db, Cleanup(left, since), log) && left != []
    ensures Steady(cfg, PushAckedRow(db, left[0].id, now), Cleanup(left[1..], since), log)
  {
    hide Accounted, Bounded, SentIds;
    var n := PushAt(db.push, left[0].id);
    assert Holds(db.push, left[0], true);
    CleanupTracked(db.push, db.pushSeq, left, since, log, cfg.PushBatch(), n, PushAckedRow(db, left[0].id, now).push[n]);
  }

  lemma {:induction false} InflightSteady(cfg: Config, db: Db, left: seq<PushPick>, log: PushLog, deadline: int, now: int)
    requires Steady(cfg, db, Dispatch(left), log) && left != []
    ensures Steady(cfg, PushSentRow(db, left[0].id, deadline, now), InFlight(left[0], left[1..]), log)
  {
    hide Accounted, Bounded, SentIds;
    var n := PushAt(db.push, left[0].id);
    assert Holds(db.push, left[0], false);
    InflightTracked(db.push, db.pushSeq, left, log, cfg.PushBatch(), n, PushSentRow(db, left[0].id, deadline, now).push[n]);
  }

  lemma {:induction false} SentSteady(cfg: Config, db: Db, pick: PushPick, left: seq<PushPick>, log: PushLog, deadline: int, now: int)
    requires Steady(cfg, db, Delivered(pick, left, true), log)
    ensures Steady(cfg, PushSentRow(db, pick.id, deadline, now), Dispatch(left), log)
  {
    hide Accounted, Bounded, SentIds;
    var n := PushAt(db.push, pick.id);
    assert Holds(db.push, pick, true);
    MarkTracked(db.push, db.pushSeq, pick, left, true, log, cfg.PushBatch(), n, PushSentRow(db, pick.id, deadline, now).push[n]);
  }

  lemma {:induction false} RetrySteady(cfg: Config, db: Db, pick: PushPick, left: seq<PushPick>, log: PushLog, at: int, error: string, now: int)
    requires Steady(cfg, db, Delivered(pick, left, false), log)
    ensures Steady(cfg, MarkPushRetry(db, pick.id, pick.attempt + 1, at, error, now), Dispatch(left), log)
  {
    hide Accounted, Bounded, SentIds;
    var n := PushAt(db.push, pick.id);
    assert Holds(db.push, pick, true);
    MarkTracked(db.push, db.pushSeq, pick, left, false, log, cfg.PushBatch(), n, MarkPushRetry(db, pick.id, pick.attempt + 1, at, error, now).push[n]);
  }

  lemma {:induction false} PushStepSteady(cfg: Config, db: Db, pc: PushPc, log: PushLog, l: PushLabel, now: int)
    requires Wf(db) && Steady(cfg, db, pc, log)
    ensures After(cfg, PushStep(cfg, db, pc, log, l, now))
  {
    hide Accounted, Bounded, SentIds, PicksHold, PushSentRow, PushAckedRow, MarkPushRetry, Select, Truncate, Backoff.DelayMs, Tracked, WfPush, WfEvents, WfA2A, WfMedia, PushReferences, AckReferences;
    match l
    case PushStart =>
      if pc.PushIdle? {
        StartTracked(db.events, db.push, db.pushSeq, log, cfg.PushBatch(), now);
      }
    case CleanupNext =>
      if pc.Cleanup? && pc.left != [] {
        CleanupSteady(cfg, db, pc.left, pc.since, log, now);
      }
    case PushList(available) =>
      if pc.Cleanup? && pc.left == [] {
        ListTracked(db.events, db.push, db.pushSeq, log, cfg.PushBatch(), pc.since);
      }
    case PushInflight =>
      if pc.Dispatch? && pc.left != [] {
        InflightSteady(cfg, db, pc.left, log, now + cfg.PushMaxDelay(), now);
      }
    case PushSend(ok) =>
      if pc.InFlight? {
        SendTracked(db.push, db.pushSeq, pc.pick, pc.left, ok, log, cfg.PushBatch());
      }
    case PushTarget(sessionId, sessionKey) =>
    case PushMark(error) =>
      if pc.Delivered? {
        if pc.ok {
          SentSteady(cfg, db, pc.pick, pc.left, log, now + ACK_DEADLINE_MS, now);
        } else {
          RetrySteady(cfg, db, pc.pick, pc.left, log, Backoff.NextRetryAt(now, pc.pick.attempt + 1, cfg.PushMaxDelay()), error, now);
        }
      }
    case PushEvent =>
      if Marked(pc) != pc {
        TornIsNeutral(db.push, db.pushSeq, Marked(pc), log, log.torn - {pc.pick.id}, cfg.PushBatch());
      }
    case PushStop => StopSteady(cfg, db, pc, log);
  }

  lemma {:induction false} StopSteady(cfg: Config, db: Db, pc: PushPc, log: PushLog)
    requires Steady(cfg, db, pc, log)
    ensures pc.Dispatch? ==> Steady(cfg, db, PushIdle, log)
  {
    if pc.Dispatch? {
      forall i | 0 <= i < |db.push| ensures RowAccount(db.push[i], PushIdle, log) {
        assert RowAccount(db.push[i], pc, log);
      }
    }
  }

  /** Of the store calls made by others, only an insert touches the push table. */
  lemma {:induction false} OnlyInsertsPush(db: Db, op: StoreOp, now: int)
    requires !op.Insert?
    ensures Apply(db, op, now).push == db.push && Apply(db, op, now).pushSeq == db.pushSeq
  {
  }

  predicate Queues(db: Db, x: EventInput) {
    InsertOutcome(db, x) == NoReason && x.pushEnabled
  }

  lemma {:induction false} InsertedPush(db: Db, x: EventInput, gap: nat, pushGap: nat, now: int)
    ensures
      var db' := InsertEvent(db, x, gap, pushGap, now);
      if Queues(db, x) then db'.push == db.push + [NewPush(x, db.pushSeq + 1 + pushGap, now)] && db'.pushSeq == db.pushSeq + 1 + pushGap
      else db'.push == db.push && db'.pushSeq == db.pushSeq
  {
    hide InsertOutcome;
  }

  lemma {:induction false} InsertSteady(cfg: Config, db: Db, pc: PushPc, log: PushLog, x: EventInput, gap: nat, pushGap: nat, now: int)
    requires Wf(db) && Steady(cfg, db, pc, log)
    ensures Steady(cfg, InsertEvent(db, x, gap, pushGap, now), pc, log)
  {
    hide InsertEvent, Tracked, Grows, WfPush, Queues;
    InsertKeepsWf(db, x, gap, pushGap, now);
    InsertedPush(db, x, gap, pushGap, now);
    if Queues(db, x) {
      InsertTracked(db.push, db.pushSeq, Marked(pc), log, cfg.PushBatch(), NewPush(x, db.pushSeq + 1 + pushGap, now));
    }
  }

  lemma {:induction false} OpSteady(cfg: Config, db: Db, pc: PushPc, log: PushLog, op: StoreOp, now: int)
    requires Wf(db) && Steady(cfg, db, pc, log)
    ensures Steady(cfg, Apply(db, op, now), pc, log)
  {
    hide Tracked, InsertEvent;
    if op.Insert? {
      InsertSteady(cfg, db, pc, log, op.input, op.gap, op.pushGap, now);
    } else {
      OnlyInsertsPush(db, op, now);
    }
  }

  lemma {:induction false} CrashSteady(cfg: Config, db: Db, pc: PushPc, log: PushLog)
    requires Steady(cfg, db, pc, log)
    ensures Steady(cfg, db, PushIdle, PushCrash(pc, log))
  {
    hide Tracked;
    CrashTracked(db.push, db.pushSeq, Marked(pc), log, cfg.PushBatch());
    var log' := PushCrash(Marked(pc), log);
    TornIsNeutral(db.push, db.pushSeq, PushIdle, log', PushCrash(pc, log).torn, cfg.PushBatch());
  }

  ghost predicate PushSteady(cfg: Config, s: Sys) {
    Wf(s.db) && Steady(cfg, s.db, s.push, s.pushLog)
  }

  lemma {:induction false} StepPushSteady(cfg: Config, s: Sys, l: Label)
    requires PushSteady(cfg, s)
    ensures PushSteady(cfg, Step(cfg, s, l))
  {
    hide Tracked, Wf, Grows, PushStep, Apply;
    StepKeepsWf(cfg, s, l);
    match l
    case Op(op) => OpSteady(cfg, s.db, s.push, s.pushLog, op, s.clock);
    case Push(pl) => PushStepSteady(cfg, s.db, s.push, s.pushLog, pl, s.clock);
    case Crash => CrashSteady(cfg, s.db, s.push, s.pushLog);
    case _ =>
  }

  lemma {:induction false} RunPushSteady(cfg: Config, s: Sys, ls: seq<Label>)
    requires PushSteady(cfg, s)
    ensures PushSteady(cfg, Run(cfg, s, ls))
    decreases |ls|
  {
    hide PushSteady, Step;
    if ls != [] {
      StepPushSteady(cfg, s, ls[0]);
      RunPushSteady(cfg, Step(cfg, s, ls[0]), ls[1..]);
    }
  }

  lemma {:induction false} InitPushSteady(cfg: Config, clock: nat)
    ensures PushSteady(cfg, Init(clock))
  {
    assert SentIds([]) == {};
  }

  // ------------------------------------------------------------ main theorems

  /** Delivery accounting on every reachable state, crashes included: no row is ever delivered
      twice; between flushes a row has been delivered exactly once if it is SENT or ACKED and no
      crash cut its delivery short, and not at all otherwise; and its attempt counter is the number
      of failed deliveries, short by one where a crash hid the failure. */
  lemma {:induction false} PushDeliveryAccounting(cfg: Config, clock: nat, ls: seq<Label>)
    ensures
      var s := Run(cfg, Init(clock), ls);
      && (forall r :: r in s.db.push ==> Tally(s.pushLog.sends, r.id, true) <= 1)
      && (s.push.PushIdle? ==> forall r :: r in s.db.push ==>
           && Tally(s.pushLog.sends, r.id, true) == (if (r.status == Sent || r.status == Acked) && r.id !in s.pushLog.cut then 1 else 0)
           && Tally(s.pushLog.sends, r.id, false) == r.attempt + (if r.id in s.pushLog.unrecorded then 1 else 0))
  {
    hide Run, Wf, PicksHold, Bounded, WfPush;
    InitPushSteady(cfg, clock);
    RunPushSteady(cfg, Init(clock), ls);
    var s := Run(cfg, Init(clock), ls);
    var pc := Marked(s.push);
    forall r | r in s.db.push ensures RowAccount(r, pc, s.pushLog) {
      var i :| 0 <= i < |s.db.push| && s.db.push[i] == r;
    }
  }

  lemma {:induction false} StepCutsNothing(cfg: Config, s: Sys, l: Label)
    requires !l.Crash?
    ensures Step(cfg, s, l).pushLog.cut == s.pushLog.cut && Step(cfg, s, l).pushLog.unrecorded == s.pushLog.unrecorded
  {
    hide PushSentRow, PushAckedRow, MarkPushRetry, SetTargetSession, SetEventState, A2AStep, MediaStep, Apply;
  }

  lemma {:induction false} CrashFreeCutsNothing(cfg: Config, s: Sys, ls: seq<Label>)
    requires CrashFree(ls)
    ensures Run(cfg, s, ls).pushLog.cut == s.pushLog.cut && Run(cfg, s, ls).pushLog.unrecorded == s.pushLog.unrecorded
    decreases |ls|
  {
    hide Step;
    if ls != [] {
      StepCutsNothing(cfg, s, ls[0]);
      CrashFreeCutsNothing(cfg, Step(cfg, s, ls[0]), ls[1..]);
    }
  }

  /** Without crashes the counters are exact: SENT and ACKED mean delivered once, everything else
      means never delivered, and attempt counts the failures. */
  lemma {:induction false} CrashFreeAccounting(cfg: Config, clock: nat, ls: seq<Label>)
    requires CrashFree(ls) && Run(cfg, Init(clock), ls).push.PushIdle?
    ensures
      var s := Run(cfg, Init(clock), ls);
      forall r :: r in s.db.push ==>
        && Tally(s.pushLog.sends, r.id, true) == (if r.status == Sent || r.status == Acked then 1 else 0)
        && Tally(s.pushLog.sends, r.id, false) == r.attempt
  {
    PushDeliveryAccounting(cfg, clock, ls);
    CrashFreeCutsNothing(cfg, Init(clock), ls);
  }

  /** A row is ACKED without ever having been delivered exactly when a crash cut its delivery. */
  lemma {:induction false} AckedUndeliveredIffCut(cfg: Config, clock: nat, ls: seq<Label>, r: PushRow)
    requires Run(cfg, Init(clock), ls).push.PushIdle? && r in Run(cfg, Init(clock), ls).db.push && r.status == Acked
    ensures
      var log := Run(cfg, Init(clock), ls).pushLog;
      Tally(log.sends, r.id, true) == 0 <==> r.id in log.cut
  {
    PushDeliveryAccounting(cfg, clock, ls);
  }

  /** Such a run, for any first message: the listener dies after marking the row in flight, and
      the next flush acknowledges what was never sent. */
  function FirstListing(x: EventInput): seq<Label> {
    [Op(Insert(x, 0, 0)), Push(PushStart), Push(PushList(true))]
  }

  const DEATH_IN_FLIGHT := [Push(PushInflight), Push(PushEvent), Crash]

  const NEXT_FLUSH := [Push(PushStart), Push(CleanupNext), Push(PushEvent), Push(PushList(false))]

  ghost predicate LeftInFlight(s: Sys, eventId: string) {
    && s.push.PushIdle? && s.pushLog.sends == [] && s.db.acks == map[]
    && |s.db.push| == 1 && s.db.push[0].status == Sent && s.db.push[0].eventId == eventId
    && |s.db.events| == 1 && s.db.events[0].eventId == eventId
  }

  ghost predicate AboutToPush(s: Sys, x: EventInput, ts: int) {
    && s.push == Dispatch([PushPick(1, x.eventId, 0)]) && s.pushLog.sends == [] && s.db.acks == map[]
    && s.db.push == [NewPush(x, 1, ts)] && s.db.events == [NewEvent(x, 1, ts)]
  }

  lemma {:induction false} FirstListingPicksRow(cfg: Config, clock: nat, x: EventInput)
    requires x.pushEnabled
    ensures AboutToPush(Run(cfg, Init(clock), FirstListing(x)), x, clock)
  {
    hide A2AStep, MediaStep, Truncate;
    var ls := FirstListing(x);
    var s1 := Step(cfg, Init(clock), ls[0]);
    assert s1.db.events == [NewEvent(x, 1, clock)] && s1.db.push == [NewPush(x, 1, clock)];
    var s2 := Step(cfg, s1, ls[1]);
    assert Select(s1.db.push, SentPush(s1.db.events), cfg.PushBatch()) == [];
    var s3 := Step(cfg, s2, ls[2]);
    assert Select(s2.db.push, DuePush(s2.db.events, clock), cfg.PushBatch()) == s2.db.push;
    assert ls[1..] == [ls[1], ls[2]] && [ls[1], ls[2]][1..] == [ls[2]] && [ls[2]][1..] == [];
    assert Run(cfg, s2, [ls[2]]) == Run(cfg, s3, []);
  }

  lemma {:induction false} DeathLeavesRow(cfg: Config, s: Sys, x: EventInput, ts: int)
    requires AboutToPush(s, x, ts)
    ensures LeftInFlight(Run(cfg, s, DEATH_IN_FLIGHT), x.eventId)
  {
    var s1 := Step(cfg, s, DEATH_IN_FLIGHT[0]);
    assert s1.push == FlyingEvent(PushPick(1, x.eventId, 0), []);
    var s2 := Step(cfg, s1, DEATH_IN_FLIGHT[1]);
    assert DEATH_IN_FLIGHT[1..] == [DEATH_IN_FLIGHT[1], DEATH_IN_FLIGHT[2]];
    assert Run(cfg, s, DEATH_IN_FLIGHT) == Step(cfg, s2, Crash);
  }

  lemma {:induction false} NextFlushAcknowledges(cfg: Config, s: Sys, eventId: string)
    requires LeftInFlight(s, eventId)
    ensures
      var s' := Run(cfg, s, NEXT_FLUSH);
      && s'.push.PushIdle? && |s'.db.push| == 1 && s'.db.push[0].status == Acked && s'.pushLog.sends == []
      && |s'.db.events| == 1 && s'.db.events[0].state == Consumed && s'.db.acks == map[]
  {
    var ls := NEXT_FLUSH;
    var s1 := Step(cfg, s, ls[0]);
    assert Select(s.db.push, SentPush(s.db.events), cfg.PushBatch()) == s.db.push;
    assert s1.push == Cleanup([PushPick(s.db.push[0].id, eventId, s.db.push[0].attempt)], s.clock);
    var s2 := Step(cfg, s1, ls[1]);
    assert |s2.db.push| == 1 && s2.db.push[0].status == Acked;
    var s3 := Step(cfg, s2, ls[2]);
    assert s3.push == Cleanup([], s.clock);
    assert ls[1..] == [ls[1], ls[2], ls[3]] && ls[1..][1..] == [ls[2], ls[3]] && [ls[2], ls[3]][1..] == [ls[3]];
    assert Run(cfg, s, ls) == Step(cfg, s3, ls[3]);
  }

  lemma {:induction false} CrashLosesDelivery(cfg: Config, clock: nat, x: EventInput)
    requires x.pushEnabled
    ensures
      var s := Run(cfg, Init(clock), FirstListing(x) + DEATH_IN_FLIGHT + NEXT_FLUSH);
      && s.push.PushIdle? && |s.db.push| == 1 && s.db.push[0].status == Acked && s.pushLog.sends == []
      && |s.db.events| == 1 && s.db.events[0].state == Consumed && s.db.acks == map[]
  {
    hide Step;
    FirstListingPicksRow(cfg, clock, x);
    var s := Run(cfg, Init(clock), FirstListing(x));
    RunConcat(cfg, Init(clock), FirstListing(x), DEATH_IN_FLIGHT);
    DeathLeavesRow(cfg, s, x, clock);
    RunConcat(cfg, Init(clock), FirstListing(x) + DEATH_IN_FLIGHT, NEXT_FLUSH);
    NextFlushAcknowledges(cfg, Run(cfg, s, DEATH_IN_FLIGHT), x.eventId);
  }

  /** In every reachable state at most a batch of pushes is in flight or waiting to be cleaned up,
      and phase 1 of a flush always clears every one of them. */
  lemma {:induction false} InFlightIsBounded(cfg: Config, clock: nat, ls: seq<Label>)
    ensures
      var s := Run(cfg, Init(clock), ls);
      && |SentIds(s.db.push)| <= cfg.PushBatch()
      && (s.push.Cleanup? && s.push.left == [] ==> SentIds(s.db.push) == {})
  {
    InitPushSteady(cfg, clock);
    RunPushSteady(cfg, Init(clock), ls);
    var s := Run(cfg, Init(clock), ls);
    if Marked(s.push).Cleanup? {
      PickIdsBound(s.push.left);
    }
  }
}
