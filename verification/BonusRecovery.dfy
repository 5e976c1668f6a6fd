/** What repeated repair passes achieve: convergence, its exact condition, and no starvation. */
module BonusRecovery {
  import opened Prelude
  import opened Ordering
  import opened TaskTable
  import opened BonusSources
  import opened BonusAdmission
  import opened BonusMeaning
  import opened BonusTasks

  function MissingOf(s: Stock): set<SortKey> {
    Missing(s.world, s.events, s.tasks)
  }

  function OrphansOf(s: Stock): set<SortKey> {
    Orphans(s.world, s.events)
  }

  /** The work left: missing pairs and terminal unscored sessions without a source. */
  function Backlog(s: Stock): nat {
    |MissingOf(s)| + |OrphansOf(s)|
  }

  /** Orphans whose marker key some other event already holds. */
  function Stuck(s: Stock): set<SortKey> {
    set k | k in OrphansOf(s) && MarkerTaken(s.events, k.id)
  }

  predicate Settled(s: Stock) {
    MissingOf(s) == {} && OrphansOf(s) == {}
  }

  lemma PairIsListed(s: Stock, e: Uuid, sid: Uuid)
    requires sid in s.world.sessions && MissingPair(s.world, s.events, s.tasks, e, sid)
    ensures MissingOf(s) != {}
  {
    assert SortKey(s.events[e].receivedAt, e, sid) in MissingOf(s);
  }

  lemma OrphanIsListed(s: Stock, sid: Uuid)
    requires Orphan(s.world, s.events, sid)
    ensures OrphansOf(s) != {}
  {
    assert SortKey(s.world.sessions[sid].createdAt, sid, "") in OrphansOf(s);
  }

  /** A settled store has a task for every source pair and for every terminal unscored session. */
  lemma SettledMeans(s: Stock, sid: Uuid)
    requires Settled(s) && sid in s.world.sessions
    ensures forall e :: e in s.events && sid in SourceSessions(s.world, s.events[e]) ==> HasTask(s.tasks, e, sid)
    ensures s.world.sessions[sid].terminal && sid !in s.world.scored ==> exists e :: e in s.events && HasTask(s.tasks, e, sid)
  {
    hide Related, HasTask, SourceSessions;
    forall e | e in s.events ensures Related(s.world, s.events[e], sid) <==> sid in SourceSessions(s.world, s.events[e]) {
      EveryClass(s.world, s.events[e], sid);
    }
    forall e | e in s.events && Related(s.world, s.events[e], sid) ensures HasTask(s.tasks, e, sid) {
      if !HasTask(s.tasks, e, sid) { PairIsListed(s, e, sid); }
    }
    if s.world.sessions[sid].terminal && sid !in s.world.scored {
      if !HasSource(s.world, s.events, sid) { OrphanIsListed(s, sid); }
      var e :| e in s.events && Related(s.world, s.events[e], sid);
      assert HasTask(s.tasks, e, sid);
    }
  }

  lemma SettledIsNoBacklog(s: Stock)
    ensures Settled(s) <==> Backlog(s) == 0
  {
  }

  /** Nothing selected has its marker key taken. */
  predicate Unhindered(s: Stock, limit: nat) {
    forall k :: k in SelectedBy(s, limit) ==> !MarkerTaken(s.events, k.id)
  }

  lemma Selected(s: Stock, limit: nat)
    ensures PendingOf(s, limit) <= MissingOf(s) && MarkedBy(s, limit) <= SelectedBy(s, limit) <= OrphansOf(s)
    ensures |PendingOf(s, limit)| == Min(limit, |MissingOf(s)|)
    ensures |SelectedBy(s, limit)| == Min(limit - |PendingOf(s, limit)|, |OrphansOf(s)|)
    ensures Unhindered(s, limit) <==> MarkedBy(s, limit) == SelectedBy(s, limit)
  {
    hide Missing, Orphans, MarkerTaken, First;
    FirstIsPart(MissingOf(s), limit);
    FirstSize(MissingOf(s), limit);
    FirstIsPart(OrphansOf(s), limit - |PendingOf(s, limit)|);
    FirstSize(OrphansOf(s), limit - |PendingOf(s, limit)|);
  }

  /**
   * A pass removes from the backlog exactly the units it reports, at most min(limit, backlog), and
   * that many exactly when no selected session has its marker key taken.
   */
  lemma PassDoesItsShare(s: Stock, t: Stock, limit: nat)
    requires Passed(s, t, limit)
    ensures Backlog(t) == Backlog(s) - UnitsOf(s, limit).admitted
    ensures UnitsOf(s, limit).admitted <= Min(limit, Backlog(s))
    ensures UnitsOf(s, limit).admitted == Min(limit, Backlog(s)) <==> Unhindered(s, limit)
  {
    hide Missing, Orphans, PendingOf, SelectedBy, MarkedBy, Unhindered, Grew, Takes;
    Selected(s, limit);
    SizeOfPart(PendingOf(s, limit), MissingOf(s));
    SizeOfPart(MarkedBy(s, limit), SelectedBy(s, limit));
    SizeOfPart(MarkedBy(s, limit), OrphansOf(s));
  }

  lemma OneOwner(s: Stock, a: SortKey, b: SortKey)
    requires a in OrphansOf(s) && b in OrphansOf(s) && a.id == b.id
    ensures a == b
  {
    OrphanKey(s.world, s.events, a);
    OrphanKey(s.world, s.events, b);
  }

  /** No pass frees a stuck session, and no pass makes one. */
  lemma PassKeepsStuck(s: Stock, t: Stock, limit: nat)
    requires Passed(s, t, limit)
    ensures Stuck(t) == Stuck(s)
  {
    hide Missing, Orphans, MarkerTaken, PendingOf, SelectedBy, Grew;
    Selected(s, limit);
    forall k | k in OrphansOf(t) ensures !Holder(MarkedBy(s, limit), k.id) {
      forall x | x in MarkedBy(s, limit) && x.id == k.id ensures x == k { OneOwner(s, x, k); }
    }
  }

  /** Passes one after another with no new input in between. */
  ghost predicate Passes(states: seq<Stock>, limits: seq<nat>) {
    && |states| == |limits| + 1
    && forall i :: 0 <= i < |limits| ==> Bounded(limits[i], MAX_RECOVERY) && Passed(states[i], states[i + 1], limits[i])
  }

  function Sum(limits: seq<nat>, n: nat): nat
    requires n <= |limits|
  {
    if n == 0 then 0 else Sum(limits, n - 1) + limits[n - 1]
  }

  lemma {:induction false} PassesKeepStuck(states: seq<Stock>, limits: seq<nat>, n: nat)
    requires Passes(states, limits) && n <= |limits|
    ensures Stuck(states[n]) == Stuck(states[0])
  {
    hide Passed, Stuck;
    if n > 0 {
      PassesKeepStuck(states, limits, n - 1);
      PassKeepsStuck(states[n - 1], states[n], limits[n - 1]);
    }
  }

  lemma NoneStuckIsUnhindered(s: Stock, limit: nat)
    requires Stuck(s) == {}
    ensures Unhindered(s, limit)
  {
    hide Missing, Orphans, MarkerTaken, First;
    Selected(s, limit);
    forall k | k in SelectedBy(s, limit) ensures !MarkerTaken(s.events, k.id) { assert k !in Stuck(s); }
  }

  /** With no stuck session every pass does its full share, whatever limits the passes use. */
  lemma {:induction false} UnstuckConverges(states: seq<Stock>, limits: seq<nat>, n: nat)
    requires Passes(states, limits) && n <= |limits| && Stuck(states[0]) == {}
    ensures Backlog(states[n]) == Max(0, Backlog(states[0]) - Sum(limits, n))
  {
    hide Passed, Stuck, Backlog, Unhindered, UnitsOf;
    if n > 0 {
      UnstuckConverges(states, limits, n - 1);
      PassesKeepStuck(states, limits, n - 1);
      NoneStuckIsUnhindered(states[n - 1], limits[n - 1]);
      PassDoesItsShare(states[n - 1], states[n], limits[n - 1]);
    }
  }

  /**
   * The exact condition. A run of passes whose limits add up to the backlog settles the store if
   * and only if no orphan's marker key was taken by another event at the start; before the limits
   * add up it is never settled.
   */
  lemma SettlesExactlyWhen(states: seq<Stock>, limits: seq<nat>, n: nat)
    requires Passes(states, limits) && n <= |limits|
    ensures Settled(states[n]) <==> Stuck(states[0]) == {} && Sum(limits, n) >= Backlog(states[0])
  {
    hide Passed, Sum, Backlog;
    SettledIsNoBacklog(states[n]);
    PassesKeepStuck(states, limits, n);
    if Stuck(states[0]) == {} {
      UnstuckConverges(states, limits, n);
    } else {
      var k :| k in Stuck(states[0]);
      assert k in Stuck(states[n]);
    }
  }

  lemma {:induction false} SumOfEqual(limits: seq<nat>, limit: nat, n: nat)
    requires n <= |limits| && forall i :: 0 <= i < |limits| ==> limits[i] == limit
    ensures Sum(limits, n) == n * limit
  {
    if n > 0 {
      SumOfEqual(limits, limit, n - 1);
      assert n * limit == (n - 1) * limit + limit;
    }
  }

  /**
   * Recovery converges: over a log whose marker keys belong to their own sessions, the backlog after
   * any passes is the initial one less the sum of their limits, or zero, and the log stays so.
   */
  lemma RecoveryConverges(states: seq<Stock>, limits: seq<nat>, n: nat)
    requires Passes(states, limits) && n <= |limits| && OwnKeys(states[0].events)
    ensures Backlog(states[n]) == Max(0, Backlog(states[0]) - Sum(limits, n))
    ensures OwnKeys(states[n].events)
  {
    hide Passed, Backlog, OwnKeys, Stuck;
    OwnKeysLeaveNobodyStuck(states[0]);
    UnstuckConverges(states, limits, n);
    PassesKeepOwnKeys(states, limits, n);
  }

  /** With one limit throughout, n passes settle the store exactly when n is at least ceil(backlog / limit). */
  lemma SettlesAfterCeiling(states: seq<Stock>, limits: seq<nat>, limit: nat, n: nat)
    requires Passes(states, limits) && n <= |limits| && Bounded(limit, MAX_RECOVERY) && OwnKeys(states[0].events)
    requires forall i :: 0 <= i < |limits| ==> limits[i] == limit
    ensures Settled(states[n]) <==> n >= (Backlog(states[0]) + limit - 1) / limit
  {
    hide Passed, Settled, Backlog, Stuck, Sum, OwnKeys;
    OwnKeysLeaveNobodyStuck(states[0]);
    SettlesExactlyWhen(states, limits, n);
    SumOfEqual(limits, limit, n);
    Ceiling(n, limit, Backlog(states[0]));
  }

  lemma PassKeepsOwnKeys(s: Stock, t: Stock, limit: nat)
    requires Passed(s, t, limit) && OwnKeys(s.events)
    ensures OwnKeys(t.events)
  {
    hide Missing, Orphans, OwnKey;
  }

  lemma {:induction false} PassesKeepOwnKeys(states: seq<Stock>, limits: seq<nat>, n: nat)
    requires Passes(states, limits) && n <= |limits| && OwnKeys(states[0].events)
    ensures OwnKeys(states[n].events)
  {
    hide Passed, OwnKeys;
    if n > 0 {
      PassesKeepOwnKeys(states, limits, n - 1);
      PassKeepsOwnKeys(states[n - 1], states[n], limits[n - 1]);
    }
  }

  lemma Ceiling(n: nat, d: nat, m: nat)
    requires d > 0
    ensures n * d >= m <==> n >= (m + d - 1) / d
  {
    var q, r := (m + d - 1) / d, (m + d - 1) % d;
    assert q * d + r == m + d - 1;
    if n >= q { AtLeast(d, n, q); } else { AtLeast(d, q - 1, n); AtLeast(d, q, q - 1); assert (q - 1) * d == q * d - d; }
  }

  lemma AtLeast(d: nat, a: int, b: int)
    requires a >= b
    ensures a * d >= b * d
  {
    assert (a - b) * d >= 0;
  }

  /** Where marker keys belong to their own sessions nobody is stuck: a marker is a source of its session. */
  lemma OwnKeysLeaveNobodyStuck(s: Stock)
    requires OwnKeys(s.events)
    ensures Stuck(s) == {}
  {
    hide RelatedTo;
    forall k | k in OrphansOf(s) ensures !MarkerTaken(s.events, k.id) {
      OrphanKey(s.world, s.events, k);
      var sid: Uuid := k.id;
      forall e | e in s.events ensures s.events[e].idempotencyKey != Some(MarkerKey(sid)) {
        if s.events[e].idempotencyKey == Some(MarkerKey(sid)) { OwnKeyIsSource(s, e, sid); }
      }
    }
  }

  lemma OwnKeyIsSource(s: Stock, e: Uuid, sid: Uuid)
    requires OwnKeys(s.events) && e in s.events && s.events[e].idempotencyKey == Some(MarkerKey(sid)) && sid in s.world.sessions
    ensures !Orphan(s.world, s.events, sid)
  {
    assert OwnKey(s.events[e]);
    MarkerTargets(s.world, s.events[e], sid, sid);
    SourceIsNoOrphan(s, e, sid);
  }

  lemma SourceIsNoOrphan(s: Stock, e: Uuid, sid: Uuid)
    requires e in s.events && Related(s.world, s.events[e], sid)
    ensures !Orphan(s.world, s.events, sid)
  {}

  // ---------------------------------------------------------------- sessions behind stuck ones

  function Free(s: Stock, k: SortKey): set<SortKey> {
    Earlier(OrphansOf(s), k) - Earlier(Stuck(s), k)
  }

  /** A session that a pass leaves unmarked sees at least limit - stuck markable ones before it go. */
  lemma UnmarkedMovesUp(s: Stock, t: Stock, limit: nat, k: SortKey)
    requires Passed(s, t, limit) && MissingOf(s) == {}
    requires k in OrphansOf(t) && k !in Stuck(s)
    ensures MissingOf(t) == {} && k in OrphansOf(s)
    ensures |Free(t, k)| + limit <= |Free(s, k)| + |Earlier(Stuck(s), k)|
  {
    hide Missing, Orphans, MarkerTaken, Grew, Takes, First, Earlier;
    var selected := SelectedBy(s, limit);
    NoPending(s, limit);
    Selected(s, limit);
    PassKeepsStuck(s, t, limit);
    LeftOutMovesUp(OrphansOf(s), limit, k);
    MarkedAreFree(s, t, limit, k);
  }

  lemma NoPending(s: Stock, limit: nat)
    requires MissingOf(s) == {}
    ensures PendingOf(s, limit) == {} && |PendingOf(s, limit)| == 0 && SelectedBy(s, limit) == First(OrphansOf(s), limit)
  {
    hide Missing, Orphans;
  }

  lemma Counts(selected: set<SortKey>, marked: set<SortKey>, stuck: set<SortKey>, free: set<SortKey>)
    requires marked <= selected && selected - marked <= stuck && marked <= free
    ensures |free - marked| + |selected| <= |free| + |stuck|
  {
    SizeOfPart(marked, selected);
    SizeOfPart(selected - marked, stuck);
    SizeOfPart(marked, free);
  }

  /** The selected sessions before k split into the stuck ones and those that leave. */
  lemma MarkedAreFree(s: Stock, t: Stock, limit: nat, k: SortKey)
    requires SelectedBy(s, limit) <= Earlier(OrphansOf(s), k) && |SelectedBy(s, limit)| == limit
    requires Stuck(t) == Stuck(s) && OrphansOf(t) == OrphansOf(s) - MarkedBy(s, limit)
    ensures |Free(t, k)| + limit <= |Free(s, k)| + |Earlier(Stuck(s), k)|
  {
    hide Missing, Orphans, MarkerTaken, Grew, Takes, First, SelectedBy, PendingOf;
    var selected := SelectedBy(s, limit);
    var marked := MarkedBy(s, limit);
    assert selected - marked <= Earlier(Stuck(s), k) && marked <= Free(s, k) && Free(t, k) == Free(s, k) - marked && marked <= selected;
    Counts(selected, marked, Earlier(Stuck(s), k), Free(s, k));
  }

  /**
   * Stuck sessions take up places in every pass. Fewer of them than the limit before k only slow
   * k down: with no pair missing, k is marked as soon as n passes have room for all before it.
   */
  lemma {:induction false} MarkedDespiteStuck(states: seq<Stock>, limits: seq<nat>, limit: nat, n: nat, k: SortKey)
    requires Passes(states, limits) && n <= |limits| && forall i :: 0 <= i < |limits| ==> limits[i] == limit
    requires MissingOf(states[0]) == {} && k in OrphansOf(states[n]) && k !in Stuck(states[0])
    ensures k in OrphansOf(states[0]) && MissingOf(states[n]) == {}
    ensures |Free(states[n], k)| + n * limit <= |Free(states[0], k)| + n * |Earlier(Stuck(states[0]), k)|
  {
    hide Passed, MissingOf, OrphansOf, Stuck, Free, Earlier;
    if n > 0 {
      PassShrinks(states[n - 1], states[n], limit, k);
      MarkedDespiteStuck(states, limits, limit, n - 1, k);
      PassesKeepStuck(states, limits, n - 1);
      UnmarkedMovesUp(states[n - 1], states[n], limit, k);
      NextMultiple(n, limit);
      NextMultiple(n, |Earlier(Stuck(states[0]), k)|);
    }
  }

  lemma PassDrainsMissing(s: Stock, t: Stock, limit: nat)
    requires Passed(s, t, limit)
    ensures |MissingOf(t)| == Max(0, |MissingOf(s)| - limit)
  {
    hide Missing, Orphans, Grew, Takes, First;
    Selected(s, limit);
    SizeOfPart(PendingOf(s, limit), MissingOf(s));
  }

  lemma {:induction false} MissingDrains(states: seq<Stock>, limits: seq<nat>, limit: nat, n: nat)
    requires Passes(states, limits) && n <= |limits| && forall i :: 0 <= i < |limits| ==> limits[i] == limit
    ensures |MissingOf(states[n])| == Max(0, |MissingOf(states[0])| - n * limit)
  {
    hide Passed, MissingOf;
    if n > 0 {
      MissingDrains(states, limits, limit, n - 1);
      PassDrainsMissing(states[n - 1], states[n], limit);
      NextMultiple(n, limit);
    }
  }

  lemma FreeStep(s: Stock, t: Stock, limit: nat, k: SortKey)
    requires Passed(s, t, limit)
    ensures |Free(t, k)| <= |Free(s, k)|
  {
    hide Missing, Orphans, MarkerTaken, Grew, Takes;
    PassKeepsStuck(s, t, limit);
    assert Free(t, k) <= Free(s, k);
    SizeOfPart(Free(t, k), Free(s, k));
  }

  lemma {:induction false} FreeShrinks(states: seq<Stock>, limits: seq<nat>, n: nat, k: SortKey)
    requires Passes(states, limits) && n <= |limits|
    ensures |Free(states[n], k)| <= |Free(states[0], k)|
  {
    hide Passed, Free;
    if n > 0 {
      FreeShrinks(states, limits, n - 1, k);
      FreeStep(states[n - 1], states[n], limits[n - 1], k);
    }
  }

  lemma LaterPasses(states: seq<Stock>, limits: seq<nat>, q: nat)
    requires Passes(states, limits) && q <= |limits|
    ensures Passes(states[q..], limits[q..])
  {
    hide Passed;
  }

  /**
   * From any start: ceil(missing / limit) passes admit the missing pairs, and from then on every pass
   * moves k up by limit less the stuck sessions before it, so it is marked once the markable ones
   * before it have gone.
   */
  lemma MarkedInTime(states: seq<Stock>, limits: seq<nat>, limit: nat, n: nat, k: SortKey)
    requires Passes(states, limits) && n <= |limits| && Bounded(limit, MAX_RECOVERY) && k !in Stuck(states[0])
    requires forall i :: 0 <= i < |limits| ==> limits[i] == limit
    requires var q := (|MissingOf(states[0])| + limit - 1) / limit;
      n >= q && (n - q) * (limit - |Earlier(Stuck(states[0]), k)|) > |Free(states[0], k)|
    ensures k !in OrphansOf(states[n])
  {
    hide Passed, MissingOf, OrphansOf, Stuck, Free, Earlier;
    var q: nat := (|MissingOf(states[0])| + limit - 1) / limit;
    var stuck := |Earlier(Stuck(states[0]), k)|;
    Ceiling(q, limit, |MissingOf(states[0])|);
    MissingDrains(states, limits, limit, q);
    FreeShrinks(states, limits, q, k);
    PassesKeepStuck(states, limits, q);
    LaterPasses(states, limits, q);
    assert (n - q) * (limit - stuck) == (n - q) * limit - (n - q) * stuck;
    if k in OrphansOf(states[n]) { MarkedDespiteStuck(states[q..], limits[q..], limit, n - q, k); }
  }

  lemma PassShrinks(s: Stock, t: Stock, limit: nat, k: SortKey)
    requires Passed(s, t, limit) && k in OrphansOf(t)
    ensures k in OrphansOf(s)
  {
    hide Missing, Orphans;
  }

  lemma NextMultiple(n: nat, d: int)
    requires n > 0
    ensures n * d == (n - 1) * d + d
  {}

  /** As many of them as the limit before k, and no pass ever reaches k. */
  lemma {:induction false} StarvedBehindStuck(states: seq<Stock>, limits: seq<nat>, limit: nat, n: nat, k: SortKey)
    requires Passes(states, limits) && n <= |limits| && forall i :: 0 <= i < |limits| ==> limits[i] <= limit
    requires k in OrphansOf(states[0]) && |Earlier(Stuck(states[0]), k)| >= limit
    ensures k in OrphansOf(states[n])
  {
    hide MissingOf, OrphansOf, Stuck, Earlier, Passed;
    if n > 0 {
      StarvedBehindStuck(states, limits, limit, n - 1, k);
      PassesKeepStuck(states, limits, n - 1);
      NotReached(states[n - 1], states[n], limits[n - 1], k);
    }
  }

  lemma NotReached(s: Stock, t: Stock, limit: nat, k: SortKey)
    requires Passed(s, t, limit) && k in OrphansOf(s) && |Earlier(Stuck(s), k)| >= limit
    ensures k in OrphansOf(t)
  {
    hide Missing, Orphans, MarkerTaken, Grew, Takes, First;
    Selected(s, limit);
    assert Earlier(Stuck(s), k) <= Earlier(OrphansOf(s), k);
    SizeOfPart(Earlier(Stuck(s), k), Earlier(OrphansOf(s), k));
    FirstIsRankBelow(OrphansOf(s), Max(0, limit - |PendingOf(s, limit)|), k);
  }

  // ---------------------------------------------------------------- missing pairs do not starve

  /** Passes with any activity in between that puts no new pair before k. */
  ghost predicate Rounds(before: seq<Stock>, after: seq<Stock>, limit: nat, k: SortKey) {
    && |before| == |after|
    && (forall i :: 0 <= i < |after| ==> Passed(before[i], after[i], limit))
    && forall i :: 0 <= i < |after| - 1 ==> Earlier(MissingOf(before[i + 1]), k) <= Earlier(MissingOf(after[i]), k)
  }

  lemma PendingMovesUp(s: Stock, t: Stock, limit: nat, k: SortKey)
    requires Passed(s, t, limit) && k in MissingOf(s) && k in MissingOf(t)
    ensures |Earlier(MissingOf(t), k)| == |Earlier(MissingOf(s), k)| - limit
  {
    hide Missing, Orphans, MarkerTaken, Grew, Takes, First, Earlier;
    LeftOutMovesUp(MissingOf(s), limit, k);
  }

  /**
   * A pair still missing after n passes had at least n * limit pairs before it at the start,
   * however many admitted or irrelevant events precede it: the pair of rank r, counted from one,
   * is admitted within ceil(r / limit) passes.
   */
  lemma {:induction false} NoPairStarves(before: seq<Stock>, after: seq<Stock>, limit: nat, k: SortKey, n: nat)
    requires Rounds(before, after, limit, k) && 0 < n <= |after|
    requires forall i :: 0 <= i < n ==> k in MissingOf(before[i]) && k in MissingOf(after[i])
    ensures |Earlier(MissingOf(after[n - 1]), k)| + n * limit <= |Earlier(MissingOf(before[0]), k)|
  {
    hide Passed, MissingOf, Earlier;
    PendingMovesUp(before[n - 1], after[n - 1], limit, k);
    if n > 1 {
      NoPairStarves(before, after, limit, k, n - 1);
      SizeOfPart(Earlier(MissingOf(before[n - 1]), k), Earlier(MissingOf(after[n - 2]), k));
      NextMultiple(n, limit);
    }
  }

  /** The bound itself: after ceil(r / limit) passes the pair has left the anti-join at some point. */
  lemma AdmittedInTime(before: seq<Stock>, after: seq<Stock>, limit: nat, k: SortKey, n: nat)
    requires Rounds(before, after, limit, k) && 0 < n <= |after| && Bounded(limit, MAX_RECOVERY)
    requires n >= (|Earlier(MissingOf(before[0]), k)| + 1 + limit - 1) / limit
    ensures exists i :: 0 <= i < n && (k !in MissingOf(before[i]) || k !in MissingOf(after[i]))
  {
    hide Passed, MissingOf, Earlier;
    Ceiling(n, limit, |Earlier(MissingOf(before[0]), k)| + 1);
    if forall i :: 0 <= i < n ==> k in MissingOf(before[i]) && k in MissingOf(after[i]) {
      NoPairStarves(before, after, limit, k, n);
    }
  }

  /** A pass admits a missing pair exactly when fewer than limit missing pairs sort before it. */
  lemma AdmittedByRank(s: Stock, t: Stock, limit: nat, k: SortKey)
    requires Passed(s, t, limit) && k in MissingOf(s)
    ensures k !in MissingOf(t) <==> |Earlier(MissingOf(s), k)| < limit
  {
    hide Missing, Orphans, Grew, Takes, First, Earlier;
    FirstIsRankBelow(MissingOf(s), limit, k);
  }

  // ---------------------------------------------------------------- a store that never settles

  const SESSION: Uuid := "00000000-0000-4000-8000-000000000001"
  const EVENT: Uuid := "00000000-0000-4000-8000-000000000002"
  const EMPLOYEE: Uuid := "00000000-0000-4000-8000-000000000003"

  /** One finished unscored session, and an unrelated event that holds its marker key. */
  function Squatted(): Stock {
    Stock(
      World(map[SESSION := Session(EMPLOYEE, None, None, Day(Month(2026, 1), 1), true, None, 0)],
            map[], {}, map[], {}, map[], map[], map[], map[], {}),
      map[EVENT := Event(OtherEvent("NOTE"), 0, 0, None, None, map[], Some(MarkerKey(SESSION)))],
      map[])
  }

  /** On this store every pass of every size does nothing and leaves the session without a task. */
  lemma SquattedKeyNeverSettles(limit: nat)
    requires Bounded(limit, MAX_RECOVERY)
    ensures Stuck(Squatted()) != {} && !Settled(Squatted())
    ensures UnitsOf(Squatted(), limit) == Recovery(0, 0)
    ensures Passed(Squatted(), Squatted(), limit)
  {
    var s := Squatted();
    var k := SortKey(0, SESSION, "");
    forall sid ensures !Related(s.world, s.events[EVENT], sid) {}
    assert s.events[EVENT].idempotencyKey == Some(MarkerKey(SESSION));
    assert Orphan(s.world, s.events, SESSION);
    assert OrphansOf(s) == {k} && MissingOf(s) == {};
    assert k in Stuck(s);
    NoPending(s, limit);
    assert MarkedBy(s, limit) == {};
    TakesNothing(s.events);
  }
}
