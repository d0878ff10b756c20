/** Choosing the session a push is delivered to. */
module Sessions {
  import opened Wrappers

  const MAIN_KEY := "agent:main:main"

  datatype Session = Session(key: string, updatedAt: int, sessionId: string)

  function Split(s: string, sep: char): (parts: seq<string>)
    ensures |parts| >= 1
  {
    if s == "" then [""]
    else
      var rest := Split(s[1..], sep);
      if s[0] == sep then [""] + rest else [[s[0]] + rest[0]] + rest[1..]
  }

  function JoinWith(parts: seq<string>, sep: char): string {
    if |parts| == 0 then "" else if |parts| == 1 then parts[0] else parts[0] + [sep] + JoinWith(parts[1..], sep)
  }

  datatype ChannelTarget = ChannelTarget(channel: string, target: string)

  /** agent:<agentId>:<channel>:<kind>:<target>, where the target may itself hold colons. */
  function ParseSessionKey(key: string): ChannelTarget {
    var parts := Split(key, ':');
    if |parts| < 5 then ChannelTarget("", "") else ChannelTarget(parts[2], JoinWith(parts[4..], ':'))
  }

  lemma {:induction false} JoinInvertsSplit(s: string, sep: char)
    ensures JoinWith(Split(s, sep), sep) == s
  {
    if s != "" {
      var rest := Split(s[1..], sep);
      JoinInvertsSplit(s[1..], sep);
      if s[0] == sep {
        assert ([""] + rest)[1..] == rest;
      } else {
        assert ([[s[0]] + rest[0]] + rest[1..])[1..] == rest[1..];
      }
      assert s == [s[0]] + s[1..];
    }
  }

  lemma {:induction false} JoinSplitsOff(xs: seq<string>, ys: seq<string>, sep: char)
    requires xs != [] && ys != []
    ensures JoinWith(xs + ys, sep) == JoinWith(xs, sep) + [sep] + JoinWith(ys, sep)
    decreases |xs|
  {
    if |xs| == 1 {
      assert (xs + ys)[1..] == ys;
    } else {
      assert (xs + ys)[1..] == xs[1..] + ys;
      JoinSplitsOff(xs[1..], ys, sep);
    }
  }

  /** A key that parses is exactly its first four parts and its target, joined again by colons. */
  lemma {:induction false} ParsedKeyRebuilds(key: string)
    requires |Split(key, ':')| >= 5
    ensures
      var p := Split(key, ':');
      key == p[0] + ":" + p[1] + ":" + ParseSessionKey(key).channel + ":" + p[3] + ":" + ParseSessionKey(key).target
  {
    var p := Split(key, ':');
    JoinInvertsSplit(key, ':');
    assert p == p[..4] + p[4..];
    JoinSplitsOff(p[..4], p[4..], ':');
    assert p[..4] == [p[0]] + ([p[1]] + ([p[2]] + [p[3]]));
    JoinSplitsOff([p[0]], [p[1]] + ([p[2]] + [p[3]]), ':');
    JoinSplitsOff([p[1]], [p[2]] + [p[3]], ':');
    JoinSplitsOff([p[2]], [p[3]], ':');
  }

  predicate NoColon(s: string) {
    forall i :: 0 <= i < |s| ==> s[i] != ':'
  }

  lemma {:induction false} SplitsAtColon(a: string, rest: string)
    requires NoColon(a)
    ensures Split(a, ':') == [a]
    ensures Split(a + ":" + rest, ':') == [a] + Split(rest, ':')
  {
    if a == "" {
      assert a + ":" + rest == ":" + rest && (":" + rest)[1..] == rest;
    } else {
      var tail := a[1..] + ":" + rest;
      assert (a + ":" + rest)[1..] == tail && (a + ":" + rest)[0] == a[0];
      assert forall i :: 0 <= i < |a[1..]| ==> a[1..][i] == a[i + 1];
      SplitsAtColon(a[1..], rest);
      assert a == [a[0]] + a[1..];
    }
  }

  /** A key of four parts and a target, the target with any colons of its own, names its third part and
      its target. */
  lemma {:induction false} KeyParses(agent: string, id: string, channel: string, kind: string, target: string)
    requires NoColon(agent) && NoColon(id) && NoColon(channel) && NoColon(kind)
    ensures ParseSessionKey(agent + ":" + id + ":" + channel + ":" + kind + ":" + target) == ChannelTarget(channel, target)
  {
    hide Split, JoinWith, NoColon;
    var e := kind + ":" + target;
    var d := channel + ":" + e;
    var c := id + ":" + d;
    SplitsAtColon(kind, target);
    SplitsAtColon(channel, e);
    SplitsAtColon(id, d);
    SplitsAtColon(agent, c);
    assert agent + ":" + id + ":" + channel + ":" + kind + ":" + target == agent + ":" + c;
    var parts, last := Split(agent + ":" + c, ':'), Split(target, ':');
    assert parts == [agent] + ([id] + ([channel] + ([kind] + last)));
    assert |parts| == 4 + |last| && parts[2] == channel && parts[4..] == last;
    JoinInvertsSplit(target, ':');
  }

  /** Any other key names nothing: one that names something has that form. */
  lemma {:induction false} NamingKeysParse(key: string) returns (agent: string, id: string, kind: string)
    requires ParseSessionKey(key) != ChannelTarget("", "")
    ensures NoColon(agent) && NoColon(id) && NoColon(kind) && NoColon(ParseSessionKey(key).channel)
    ensures key == agent + ":" + id + ":" + ParseSessionKey(key).channel + ":" + kind + ":" + ParseSessionKey(key).target
  {
    var parts := Split(key, ':');
    PartsHaveNoColon(key);
    ParsedKeyRebuilds(key);
    agent, id, kind := parts[0], parts[1], parts[3];
  }

  lemma {:induction false} PartsHaveNoColon(s: string)
    ensures forall i :: 0 <= i < |Split(s, ':')| ==> NoColon(Split(s, ':')[i])
  {
    if s != "" {
      PartsHaveNoColon(s[1..]);
    }
  }

  /** The white space that strings.TrimSpace removes. */
  predicate IsSpace(c: char) {
    var n := c as int;
    9 <= n <= 13 || n == 0x20 || n == 0x85 || n == 0xA0 || n == 0x1680 || 0x2000 <= n <= 0x200A
    || n == 0x2028 || n == 0x2029 || n == 0x202F || n == 0x205F || n == 0x3000
  }

  /** The code points with the Unicode property White_Space. */
  const WHITE_SPACE: set<int> := {
    9, 10, 11, 12, 13, 0x20, 0x85, 0xA0, 0x1680, 0x2000, 0x2001, 0x2002, 0x2003, 0x2004, 0x2005, 0x2006, 0x2007, 0x2008, 0x2009, 0x200A,
    0x2028, 0x2029, 0x202F, 0x205F, 0x3000}

  lemma {:induction false} SpacesAre(c: char)
    ensures IsSpace(c) <==> c as int in WHITE_SPACE
  {
  }

  predicate Blank(s: string) {
    forall i :: 0 <= i < |s| ==> IsSpace(s[i])
  }

  predicate Contains(s: string, sub: string) {
    sub <= s || (s != "" && Contains(s[1..], sub))
  }

  predicate HasChannel(s: Session) {
    var p := ParseSessionKey(s.key);
    p.channel != "" && p.target != ""
  }

  /** lower stands for strings.ToLower. */
  predicate IsFeishu(s: Session, lower: string -> string) {
    Contains(lower(s.key), "feishu")
  }

  /** The channel tier's order: feishu first, then the more recent. */
  predicate Preferred(s: Session, t: Session, lower: string -> string) {
    (IsFeishu(s, lower) && !IsFeishu(t, lower))
    || (IsFeishu(s, lower) == IsFeishu(t, lower) && s.updatedAt > t.updatedAt)
  }

  predicate Usable(s: Session) {
    !Blank(s.sessionId)
  }

  predicate NonMain(s: Session) {
    s.key != MAIN_KEY && Usable(s)
  }

  /** i is the first of the best channel sessions. */
  ghost predicate BestChannel(sessions: seq<Session>, i: nat, lower: string -> string) {
    && i < |sessions| && HasChannel(sessions[i])
    && (forall j :: 0 <= j < |sessions| && HasChannel(sessions[j]) ==> !Preferred(sessions[j], sessions[i], lower))
    && (forall j :: 0 <= j < i && HasChannel(sessions[j]) ==> Preferred(sessions[i], sessions[j], lower))
  }

  /** i is the first of the most recent sessions other than the main one. */
  ghost predicate BestNonMain(sessions: seq<Session>, i: nat) {
    && i < |sessions| && NonMain(sessions[i])
    && (forall j :: 0 <= j < |sessions| && NonMain(sessions[j]) ==> sessions[j].updatedAt <= sessions[i].updatedAt)
    && (forall j :: 0 <= j < i && NonMain(sessions[j]) ==> sessions[j].updatedAt < sessions[i].updatedAt)
  }

  ghost predicate FirstUsable(sessions: seq<Session>, i: nat) {
    i < |sessions| && Usable(sessions[i]) && forall j :: 0 <= j < i ==> !Usable(sessions[j])
  }

  /** The three tiers, each tried only when the one before gives no usable session. */
  ghost predicate Chosen(sessions: seq<Session>, r: Option<nat>, lower: string -> string) {
    if exists i: nat :: BestChannel(sessions, i, lower) && Usable(sessions[i]) then
      r.Some? && BestChannel(sessions, r.value, lower)
    else if exists i: nat :: BestNonMain(sessions, i) then
      r.Some? && BestNonMain(sessions, r.value)
    else if r.Some? then FirstUsable(sessions, r.value)
    else forall i :: 0 <= i < |sessions| ==> !Usable(sessions[i])
  }

  /** sub stands in s at k. */
  ghost predicate StandsAt(s: string, sub: string, k: int) {
    0 <= k <= |s| - |sub| && s[k..k + |sub|] == sub
  }

  /** The key speaks of feishu, in whatever case lower folds. */
  ghost predicate OfFeishu(s: Session, lower: string -> string) {
    exists k :: StandsAt(lower(s.key), "feishu", k)
  }

  lemma {:induction false} ContainsIff(s: string, sub: string)
    ensures Contains(s, sub) <==> exists k :: StandsAt(s, sub, k)
  {
    assert sub <= s <==> StandsAt(s, sub, 0);
    if s != "" {
      ContainsIff(s[1..], sub);
      if k :| StandsAt(s[1..], sub, k) {
        assert s[k + 1..k + 1 + |sub|] == s[1..][k..k + |sub|];
        assert StandsAt(s, sub, k + 1);
      }
      if k :| StandsAt(s, sub, k) {
        assert k > 0 ==> s[1..][k - 1..k - 1 + |sub|] == s[k..k + |sub|];
        assert k > 0 ==> StandsAt(s[1..], sub, k - 1);
      }
    }
  }

  /** The best channel session, in the columns of the list: its key names a channel and a target; a
      feishu one comes before any other, then the more recent, then the earlier in the list. */
  lemma {:induction false} BestChannelMeans(sessions: seq<Session>, i: nat, lower: string -> string)
    requires BestChannel(sessions, i, lower)
    ensures ParseSessionKey(sessions[i].key).channel != "" && ParseSessionKey(sessions[i].key).target != ""
    ensures
      forall j :: 0 <= j < |sessions| && ParseSessionKey(sessions[j].key).channel != "" && ParseSessionKey(sessions[j].key).target != "" ==>
        && (OfFeishu(sessions[j], lower) ==> OfFeishu(sessions[i], lower))
        && (OfFeishu(sessions[j], lower) == OfFeishu(sessions[i], lower) ==>
              sessions[j].updatedAt <= sessions[i].updatedAt && (j < i ==> sessions[j].updatedAt < sessions[i].updatedAt))
  {
    hide Contains, ParseSessionKey;
    forall j | 0 <= j < |sessions| ensures IsFeishu(sessions[j], lower) <==> OfFeishu(sessions[j], lower) {
      ContainsIff(lower(sessions[j].key), "feishu");
    }
    assert forall j :: 0 <= j < |sessions| && HasChannel(sessions[j]) ==> !Preferred(sessions[j], sessions[i], lower);
  }

  /** A session id with something in it. */
  ghost predicate Named(s: Session) {
    exists k :: 0 <= k < |s.sessionId| && s.sessionId[k] as int !in WHITE_SPACE
  }

  lemma {:induction false} UsableIff(s: Session)
    ensures Usable(s) <==> Named(s)
  {
    hide IsSpace;
    forall k | 0 <= k < |s.sessionId| ensures IsSpace(s.sessionId[k]) <==> s.sessionId[k] as int in WHITE_SPACE {
      SpacesAre(s.sessionId[k]);
    }
  }

  /** The best of the others, in the columns of the list: not the main session, with an id, the most
      recent such and of those the first. */
  lemma {:induction false} BestNonMainMeans(sessions: seq<Session>, i: nat)
    requires BestNonMain(sessions, i)
    ensures sessions[i].key != "agent:main:main" && Named(sessions[i])
    ensures
      forall j :: 0 <= j < |sessions| && sessions[j].key != "agent:main:main" && Named(sessions[j]) ==>
        sessions[j].updatedAt <= sessions[i].updatedAt && (j < i ==> sessions[j].updatedAt < sessions[i].updatedAt)
  {
    hide Usable, Named;
    forall j | 0 <= j < |sessions| ensures Usable(sessions[j]) <==> Named(sessions[j]) {
      UsableIff(sessions[j]);
    }
    assert forall j :: 0 <= j < |sessions| && sessions[j].key != "agent:main:main" && Named(sessions[j]) ==> NonMain(sessions[j]);
  }

  lemma {:induction false} BestChannelUnique(sessions: seq<Session>, i: nat, j: nat, lower: string -> string)
    requires BestChannel(sessions, i, lower) && BestChannel(sessions, j, lower)
    ensures i == j
  {
  }

  lemma {:induction false} BestNonMainUnique(sessions: seq<Session>, i: nat, j: nat)
    requires BestNonMain(sessions, i) && BestNonMain(sessions, j)
    ensures i == j
  {
  }

  /** Chosen leaves no freedom, and its choice is usable and missing only when nothing is. */
  lemma {:induction false} ChoiceIsDetermined(sessions: seq<Session>, r: Option<nat>, r': Option<nat>, lower: string -> string)
    requires Chosen(sessions, r, lower) && Chosen(sessions, r', lower)
    ensures r == r'
    ensures r.Some? ==> r.value < |sessions| && Usable(sessions[r.value])
    ensures r.None? <==> forall i :: 0 <= i < |sessions| ==> !Usable(sessions[i])
  {
    if i: nat :| BestChannel(sessions, i, lower) && Usable(sessions[i]) {
      BestChannelUnique(sessions, i, r.value, lower);
      BestChannelUnique(sessions, i, r'.value, lower);
    } else if i: nat :| BestNonMain(sessions, i) {
      BestNonMainUnique(sessions, r.value, r'.value);
    } else if r.Some? && r'.Some? {
      assert r.value == r'.value;
    }
  }

  lemma {:induction false} PrefixExtends(sessions: seq<Session>, n: nat)
    requires n < |sessions|
    ensures sessions[..n + 1] == sessions[..n] + [sessions[n]]
  {
  }

  lemma {:induction false} BestChannelStep(sessions: seq<Session>, s: Session, best: nat, lower: string -> string)
    requires BestChannel(sessions, best, lower)
    ensures
      BestChannel(sessions + [s], if HasChannel(s) && Preferred(s, sessions[best], lower) then |sessions| else best, lower)
  {
    var all := sessions + [s];
    var best' := if HasChannel(s) && Preferred(s, sessions[best], lower) then |sessions| else best;
    forall j | 0 <= j < |all| && HasChannel(all[j])
      ensures !Preferred(all[j], all[best'], lower) && (j < best' ==> Preferred(all[best'], all[j], lower))
    {
      if j < |sessions| {
        assert all[j] == sessions[j];
        assert !Preferred(sessions[j], sessions[best], lower);
        assert j < best ==> Preferred(sessions[best], sessions[j], lower);
      }
    }
  }

  method PickChannelSession(sessions: seq<Session>, lower: string -> string) returns (best: Option<nat>)
    ensures best.Some? ==> BestChannel(sessions, best.value, lower)
    ensures best.None? ==> forall j :: 0 <= j < |sessions| ==> !HasChannel(sessions[j])
  {
    best := None;
    for i := 0 to |sessions|
      invariant best.Some? ==> best.value < i && BestChannel(sessions[..i], best.value, lower)
      invariant best.None? ==> forall j :: 0 <= j < i ==> !HasChannel(sessions[j])
    {
      PrefixExtends(sessions, i);
      if best.Some? {
        BestChannelStep(sessions[..i], sessions[i], best.value, lower);
      }
      if HasChannel(sessions[i]) && (best.None? || Preferred(sessions[i], sessions[best.value], lower)) {
        best := Some(i);
      }
    }
    assert sessions[..|sessions|] == sessions;
  }

  method PickNonMainSession(sessions: seq<Session>) returns (best: Option<nat>)
    ensures best.Some? ==> BestNonMain(sessions, best.value)
    ensures best.None? ==> forall j :: 0 <= j < |sessions| ==> !NonMain(sessions[j])
  {
    best := None;
    for i := 0 to |sessions|
      invariant best.Some? ==> best.value < i && BestNonMain(sessions[..i], best.value)
      invariant best.None? ==> forall j :: 0 <= j < i ==> !NonMain(sessions[j])
    {
      PrefixExtends(sessions, i);
      if NonMain(sessions[i]) && (best.None? || sessions[i].updatedAt > sessions[best.value].updatedAt) {
        best := Some(i);
      }
    }
    assert sessions[..|sessions|] == sessions;
  }

  /** No channel session can be chosen: there is none, or the best of them has no session id. */
  ghost predicate NoChannelChoice(sessions: seq<Session>, lower: string -> string) {
    forall i: nat :: BestChannel(sessions, i, lower) ==> !Usable(sessions[i])
  }

  lemma {:induction false} NoChannelChoiceFrom(sessions: seq<Session>, best: Option<nat>, lower: string -> string)
    requires best.Some? ==> BestChannel(sessions, best.value, lower) && !Usable(sessions[best.value])
    requires best.None? ==> forall j :: 0 <= j < |sessions| ==> !HasChannel(sessions[j])
    ensures NoChannelChoice(sessions, lower)
  {
    forall i: nat | BestChannel(sessions, i, lower) ensures !Usable(sessions[i]) {
      BestChannelUnique(sessions, i, best.value, lower);
    }
  }

  lemma {:induction false} ChannelTier(sessions: seq<Session>, i: nat, lower: string -> string)
    requires BestChannel(sessions, i, lower) && Usable(sessions[i])
    ensures Chosen(sessions, Some(i), lower)
  {
  }

  lemma {:induction false} NonMainTier(sessions: seq<Session>, i: nat, lower: string -> string)
    requires NoChannelChoice(sessions, lower) && BestNonMain(sessions, i)
    ensures Chosen(sessions, Some(i), lower)
  {
  }

  lemma {:induction false} LastTier(sessions: seq<Session>, r: Option<nat>, lower: string -> string)
    requires NoChannelChoice(sessions, lower) && forall j :: 0 <= j < |sessions| ==> !NonMain(sessions[j])
    requires if r.Some? then FirstUsable(sessions, r.value) else forall j :: 0 <= j < |sessions| ==> !Usable(sessions[j])
    ensures Chosen(sessions, r, lower)
  {
  }

  method PickFirstUsable(sessions: seq<Session>) returns (r: Option<nat>)
    ensures if r.Some? then FirstUsable(sessions, r.value) else forall j :: 0 <= j < |sessions| ==> !Usable(sessions[j])
  {
    for i := 0 to |sessions|
      invariant forall j :: 0 <= j < i ==> !Usable(sessions[j])
    {
      if Usable(sessions[i]) {
        return Some(i);
      }
    }
    return None;
  }

  method ResolvePushSession(sessions: seq<Session>, lower: string -> string) returns (r: Option<nat>)
    ensures Chosen(sessions, r, lower)
  {
    r := PickChannelSession(sessions, lower);
    if r.Some? && Usable(sessions[r.value]) {
      ChannelTier(sessions, r.value, lower);
      return;
    }
    NoChannelChoiceFrom(sessions, r, lower);
    r := PickNonMainSession(sessions);
    if r.Some? {
      NonMainTier(sessions, r.value, lower);
    } else {
      r := PickFirstUsable(sessions);
      LastTier(sessions, r, lower);
    }
  }
}
