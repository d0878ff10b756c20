/** Reply routes: a last-writer-wins register per peer that fills its gaps from the past, and the
    lookup that reads it. */
module Routes {
  import opened Wrappers
  import opened Tables
  import opened System
  import opened Schema
  import opened A2ADelivery

  // ------------------------------------------------------ binding, one peer

  datatype Bind = Bind(sessionId: string, sessionKey: string, source: string, updatedAt: int)

  predicate WellFormed(b: Bind) {
    b.sessionId != "" || b.sessionKey != ""
  }

  /** Not a stale binding, nor an empty one. */
  predicate Accepts(current: Option<Route>, b: Bind) {
    WellFormed(b) && (current == None || current.value.updatedAt <= b.updatedAt)
  }

  /** One bind of a peer whose current route is given. */
  function Rebind(current: Option<Route>, b: Bind): Option<Route> {
    if Accepts(current, b)
    then Some(Merge(current, b.sessionId, b.sessionKey, b.source, b.updatedAt))
    else current
  }

  function RebindAll(current: Option<Route>, binds: seq<Bind>): Option<Route>
    decreases |binds|
  {
    if binds == [] then current else RebindAll(Rebind(current, binds[0]), binds[1..])
  }

  /** The store call does this to its own peer and nothing to the others. */
  lemma {:induction false} BindPeerIsRebind(db: Db, peerId: string, b: Bind, other: string)
    requires peerId != ""
    ensures
      RouteOf(BindPeer(db, peerId, b.sessionId, b.sessionKey, b.source, b.updatedAt), other)
      == if other == peerId then Rebind(RouteOf(db, peerId), b) else RouteOf(db, other)
  {
  }

  ghost predicate AllWellFormed(binds: seq<Bind>) {
    forall i :: 0 <= i < |binds| ==> WellFormed(binds[i])
  }

  predicate Usable(r: Option<Route>) {
    r.Some? && (r.value.sessionId != "" || r.value.sessionKey != "")
  }

  /** A field, once known, is never forgotten, and time does not go back. */
  predicate Advances(r: Route, r': Route) {
    r.updatedAt <= r'.updatedAt && (r.sessionId != "" ==> r'.sessionId != "") && (r.sessionKey != "" ==> r'.sessionKey != "")
  }

  lemma {:induction false} RoutesOnlyAdvance(r: Route, binds: seq<Bind>)
    ensures RebindAll(Some(r), binds).Some? && Advances(r, RebindAll(Some(r), binds).value)
    decreases |binds|
  {
    if binds != [] {
      RoutesOnlyAdvance(Rebind(Some(r), binds[0]).value, binds[1..]);
    }
  }

  /** From no route, updatedAt is the maximum over all well-formed binds: it is one of their times,
      and none of them is later. */
  lemma {:induction false} UpdatedAtIsMax(current: Option<Route>, binds: seq<Bind>)
    requires AllWellFormed(binds)
    ensures
      var r := RebindAll(current, binds);
      && (r == None <==> current == None && binds == [])
      && (forall i :: 0 <= i < |binds| ==> r.Some? && binds[i].updatedAt <= r.value.updatedAt)
      && (current.Some? ==> r.Some? && current.value.updatedAt <= r.value.updatedAt)
      && (r.Some? ==>
        || (current.Some? && r.value.updatedAt == current.value.updatedAt)
        || exists i :: 0 <= i < |binds| && binds[i].updatedAt == r.value.updatedAt)
    decreases |binds|
  {
    if binds != [] {
      assert WellFormed(binds[0]);
      forall i | 0 <= i < |binds[1..]| ensures WellFormed(binds[1..][i]) {
        assert WellFormed(binds[i + 1]);
      }
      UpdatedAtIsMax(Rebind(current, binds[0]), binds[1..]);
      var r := RebindAll(current, binds);
      forall i | 0 <= i < |binds| ensures binds[i].updatedAt <= r.value.updatedAt {
        assert i > 0 ==> binds[i] == binds[1..][i - 1];
      }
      assert forall i :: 0 <= i < |binds[1..]| ==> binds[1..][i] == binds[i + 1];
    }
  }

  lemma {:induction false} RebindConcat(current: Option<Route>, a: seq<Bind>, b: seq<Bind>)
    ensures RebindAll(current, a + b) == RebindAll(RebindAll(current, a), b)
    decreases |a|
  {
    if a == [] {
      assert a + b == b;
    } else {
      assert (a + b)[1..] == a[1..] + b;
      RebindConcat(Rebind(current, a[0]), a[1..], b);
    }
  }

  /** Binds older than the route change nothing. */
  lemma {:induction false} StaleBindsAreIgnored(r: Route, binds: seq<Bind>)
    requires forall i :: 0 <= i < |binds| ==> binds[i].updatedAt < r.updatedAt
    ensures RebindAll(Some(r), binds) == Some(r)
    decreases |binds|
  {
    if binds != [] {
      StaleBindsAreIgnored(r, binds[1..]);
    }
  }

  // --------------------------------------------------------------- convergence

  ghost predicate DistinctTimes(binds: seq<Bind>) {
    forall i, j :: 0 <= i < j < |binds| ==> binds[i].updatedAt != binds[j].updatedAt
  }

  ghost predicate NewestAt(binds: seq<Bind>, n: nat) {
    n < |binds| && forall i :: 0 <= i < |binds| && i != n ==> binds[i].updatedAt < binds[n].updatedAt
  }

  /** The route the newest bind leaves: its own fields, with gaps filled by whatever came before. */
  lemma {:induction false} NewestWins(binds: seq<Bind>, n: nat)
    requires AllWellFormed(binds) && NewestAt(binds, n)
    ensures
      var before := RebindAll(None, binds[..n]);
      RebindAll(None, binds) == Some(Merge(before, binds[n].sessionId, binds[n].sessionKey, binds[n].source, binds[n].updatedAt))
  {
    var b := binds[n];
    var before := RebindAll(None, binds[..n]);
    assert AllWellFormed(binds[..n]) by {
      assert forall i :: 0 <= i < n ==> WellFormed(binds[i]);
    }
    UpdatedAtIsMax(None, binds[..n]);
    assert before.Some? ==> exists i :: 0 <= i < n && binds[i].updatedAt == before.value.updatedAt;
    assert WellFormed(b);
    var r := Merge(before, b.sessionId, b.sessionKey, b.source, b.updatedAt);
    assert Rebind(before, b) == Some(r);
    assert binds == binds[..n] + ([b] + binds[n + 1..]);
    RebindConcat(None, binds[..n], [b] + binds[n + 1..]);
    assert ([b] + binds[n + 1..])[1..] == binds[n + 1..];
    StaleBindsAreIgnored(r, binds[n + 1..]);
  }

  /** The binds leave nothing to the order: the newest has each field, or no bind has it. */
  ghost predicate Complete(binds: seq<Bind>, n: nat)
    requires n < |binds|
  {
    && (binds[n].sessionId != "" || forall b :: b in binds ==> b.sessionId == "")
    && (binds[n].sessionKey != "" || forall b :: b in binds ==> b.sessionKey == "")
  }

  lemma {:induction false} FieldsComeFromBinds(current: Option<Route>, binds: seq<Bind>)
    ensures
      var r := RebindAll(current, binds);
      && ((current.Some? ==> current.value.sessionId == "") && (forall b :: b in binds ==> b.sessionId == "") && r.Some? ==> r.value.sessionId == "")
      && ((current.Some? ==> current.value.sessionKey == "") && (forall b :: b in binds ==> b.sessionKey == "") && r.Some? ==> r.value.sessionKey == "")
    decreases |binds|
  {
    if binds != [] {
      assert binds[0] in binds && forall b :: b in binds[1..] ==> b in binds;
      FieldsComeFromBinds(Rebind(current, binds[0]), binds[1..]);
    }
  }

  /** Complete binds end in the newest one, word for word. */
  lemma {:induction false} CompleteEndsInNewest(binds: seq<Bind>, n: nat)
    requires AllWellFormed(binds) && NewestAt(binds, n) && Complete(binds, n)
    ensures RebindAll(None, binds) == Some(Route(binds[n].sessionId, binds[n].sessionKey, binds[n].source, binds[n].updatedAt))
  {
    NewestWins(binds, n);
    assert forall b :: b in binds[..n] ==> b in binds;
    FieldsComeFromBinds(None, binds[..n]);
  }

  lemma {:induction false} SameBindsSameNewest(a: seq<Bind>, n: nat, b: seq<Bind>) returns (m: nat)
    requires multiset(a) == multiset(b) && AllWellFormed(a) && DistinctTimes(a) && NewestAt(a, n)
    ensures AllWellFormed(b) && NewestAt(b, m) && b[m] == a[n]
    ensures forall x :: x in a <==> x in b
  {
    assert forall x :: x in a <==> x in multiset(a);
    assert forall x :: x in b <==> x in multiset(b);
    assert a[n] in b;
    OnceOnly(a, n);
    m :| m < |b| && b[m] == a[n];
    OthersDiffer(b, m);
    forall i | 0 <= i < |b| ensures WellFormed(b[i]) && (i != m ==> b[i].updatedAt < b[m].updatedAt) {
      assert b[i] in a;
      var j: nat :| j < |a| && a[j] == b[i];
      assert WellFormed(a[j]);
      assert i != m ==> b[i] != b[m];
    }
  }

  /** With distinct times, no bind occurs twice. */
  lemma {:induction false} OnceOnly(a: seq<Bind>, n: nat)
    requires DistinctTimes(a) && n < |a|
    ensures multiset(a)[a[n]] == 1
  {
    assert a == a[..n] + [a[n]] + a[n + 1..];
    assert a[n] !in a[..n] && a[n] !in a[n + 1..];
  }

  lemma {:induction false} OthersDiffer(b: seq<Bind>, m: nat)
    requires m < |b| && multiset(b)[b[m]] == 1
    ensures forall i :: 0 <= i < |b| && i != m ==> b[i] != b[m]
  {
    assert b == b[..m] + [b[m]] + b[m + 1..];
    assert b[m] !in multiset(b[..m]) && b[m] !in multiset(b[m + 1..]);
    forall i | 0 <= i < |b| && i != m ensures b[i] != b[m] {
      assert b[i] in b[..m] || b[i] in b[m + 1..];
    }
  }

  function Without(binds: seq<Bind>, n: nat): seq<Bind>
    requires n < |binds|
  {
    binds[..n] + binds[n + 1..]
  }

  /** The newest first: everything after it is stale. */
  function NewestFirst(binds: seq<Bind>, n: nat): seq<Bind>
    requires n < |binds|
  {
    [binds[n]] + Without(binds, n)
  }

  /** Another bind first and the newest last: the first one's fields survive. */
  function NewestLast(binds: seq<Bind>, n: nat, k: nat): seq<Bind>
    requires n < |binds| && k < |binds| - 1
  {
    var rest := Without(binds, n);
    [rest[k]] + Without(rest, k) + [binds[n]]
  }

  lemma {:induction false} Rearranged(binds: seq<Bind>, n: nat)
    requires n < |binds|
    ensures multiset([binds[n]] + Without(binds, n)) == multiset(binds)
  {
    assert binds == binds[..n] + [binds[n]] + binds[n + 1..];
  }

  /** The final route does not depend on the order the binds arrive in. */
  ghost predicate Converges(binds: seq<Bind>) {
    forall p, q :: multiset(p) == multiset(binds) && multiset(q) == multiset(binds) ==> RebindAll(None, p) == RebindAll(None, q)
  }

  /** A gap in the newest bind that another bind could fill makes the order matter. */
  lemma {:induction false} GapDiverges(binds: seq<Bind>, n: nat, k: nat)
    requires AllWellFormed(binds) && NewestAt(binds, n) && k < |binds| - 1
    requires
      var b, other := binds[n], Without(binds, n)[k];
      (b.sessionId == "" && other.sessionId != "") || (b.sessionKey == "" && other.sessionKey != "")
    ensures RebindAll(None, NewestFirst(binds, n)) != RebindAll(None, NewestLast(binds, n, k))
    ensures multiset(NewestFirst(binds, n)) == multiset(NewestLast(binds, n, k)) == multiset(binds)
  {
    var p, q, rest := NewestFirst(binds, n), NewestLast(binds, n, k), Without(binds, n);
    Rearranged(binds, n);
    Rearranged(rest, k);
    var b := binds[n];
    assert WellFormed(b) && WellFormed(rest[k]);
    assert p[1..] == rest;
    StaleBindsAreIgnored(Merge(None, b.sessionId, b.sessionKey, b.source, b.updatedAt), rest);
    RoutesOnlyAdvance(Rebind(None, q[0]).value, q[1..]);
  }

  /** Binds with distinct times converge, in whatever order they arrive, exactly when the newest of
      them has each field that any of them has. */
  lemma {:induction false} ConvergesIffComplete(binds: seq<Bind>, n: nat)
    requires AllWellFormed(binds) && DistinctTimes(binds) && NewestAt(binds, n)
    ensures Converges(binds) <==> Complete(binds, n)
  {
    if Complete(binds, n) {
      forall p, q | multiset(p) == multiset(binds) && multiset(q) == multiset(binds)
        ensures RebindAll(None, p) == RebindAll(None, q)
      {
        var i := SameBindsSameNewest(binds, n, p);
        var j := SameBindsSameNewest(binds, n, q);
        CompleteEndsInNewest(p, i);
        CompleteEndsInNewest(q, j);
      }
    } else {
      var b :| b in binds && ((binds[n].sessionId == "" && b.sessionId != "") || (binds[n].sessionKey == "" && b.sessionKey != ""));
      assert binds == binds[..n] + [binds[n]] + binds[n + 1..];
      assert b in Without(binds, n);
      var k: nat :| k < |binds| - 1 && Without(binds, n)[k] == b;
      GapDiverges(binds, n, k);
    }
  }

  // ------------------------------------------------------ two binds at once

  /** The SELECT and the UPSERT of a bind, with other processes free to write in between: the route
      it read decides, and what it writes replaces whatever is there by then. */
  function RebindFrom(read: Option<Route>, current: Option<Route>, b: Bind): Option<Route> {
    if Accepts(read, b) then Some(Merge(read, b.sessionId, b.sessionKey, b.source, b.updatedAt)) else current
  }

  /** Bind a writes between the read and the write of bind b. */
  function Raced(current: Option<Route>, a: Bind, b: Bind): Option<Route> {
    RebindFrom(current, Rebind(current, a), b)
  }

  /** What a contributes and b leaves open. */
  predicate Fills(current: Option<Route>, a: Bind, b: Bind) {
    || (b.sessionId == "" && a.sessionId != "" && (current.Some? ==> a.sessionId != current.value.sessionId))
    || (b.sessionKey == "" && a.sessionKey != "" && (current.Some? ==> a.sessionKey != current.value.sessionKey))
  }

  /** A race of two binds ends as if one had run after the other, except when the overwritten one is
      newer, or as new and the only one to know a field.  A newer one overwritten takes the time back. */
  lemma {:induction false} RaceIsSerialIff(current: Option<Route>, a: Bind, b: Bind)
    ensures
      var lost := Accepts(current, a) && Accepts(current, b) && (b.updatedAt < a.updatedAt || (b.updatedAt == a.updatedAt && Fills(current, a, b)));
      Raced(current, a, b) in {RebindAll(current, [a, b]), RebindAll(current, [b, a])} <==> !lost
    ensures
      Accepts(current, a) && Accepts(current, b) && b.updatedAt < a.updatedAt ==>
        Raced(current, a, b).value.updatedAt < Rebind(current, a).value.updatedAt
  {
    TwoBinds(current, a, b);
    TwoBinds(current, b, a);
  }

  lemma {:induction false} TwoBinds(current: Option<Route>, a: Bind, b: Bind)
    ensures RebindAll(current, [a, b]) == Rebind(Rebind(current, a), b)
  {
    assert [a, b][1..] == [b] && [b][1..] == [];
    assert RebindAll(Rebind(current, a), [b]) == RebindAll(Rebind(Rebind(current, a), b), []);
  }
}
