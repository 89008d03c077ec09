/** The per-node caches in front of the database: the organization status cache (internal/tenant/status.go) and the
    entitlement cache (internal/billing/billing.go).  They differ in one thing: the status cache stores nothing when
    the database has no answer, the entitlement cache stores "no plan".  A lookup is three steps - check under the
    lock, ask the database, store under the lock - between which anything else may happen. */
module TtlCache {
  import opened Prelude

  /** A committed change of an organization's row; None is a missing row. */
  datatype Change<V> = Change(time: int, org: int, answer: Option<V>)

  /** The value a lookup got from the database, and the moment it asked: the time, and how much history was committed. */
  datatype Fetched<V> = Fetched(org: int, answer: Option<V>, failed: bool, time: int, version: nat)

  /** A cached value with its deadline; what was fetched and when it was stored is kept for the reasoning. */
  datatype Entry<V> = Entry(answer: Option<V>, until: int, fetched: Fetched<V>, stored: int)

  datatype State<V> = State(now: int, history: seq<Change<V>>, entries: map<int, Entry<V>>, pending: seq<Fetched<V>>)

  datatype Policy = Policy(ttl: int, keepMissing: bool)

  /** The database's answer after the given changes. */
  function Latest<V>(history: seq<Change<V>>, org: int): Option<V> {
    if history == [] then None
    else
      var last := history[|history| - 1];
      if last.org == org then last.answer else Latest(history[..|history| - 1], org)
  }

  predicate Hit<V>(s: State<V>, org: int) { org in s.entries && s.now < s.entries[org].until }

  function Ask<V>(s: State<V>, org: int, fails: bool): Fetched<V> {
    Fetched(org, if fails then None else Latest(s.history, org), fails, s.now, |s.history|)
  }

  predicate Stores<V>(p: Policy, f: Fetched<V>) { p.keepMissing || f.answer.Some? }

  function Put<V>(p: Policy, entries: map<int, Entry<V>>, f: Fetched<V>, now: int): map<int, Entry<V>> {
    if Stores(p, f) then entries[f.org := Entry(f.answer, now + p.ttl, f, now)] else entries
  }

  /** AskDatabase is the second step of a lookup whose check missed; the entry may have appeared since. */
  datatype Action<V> =
    | Wait(ticks: nat)
    | Update(org: int, answer: Option<V>)
    | AskDatabase(org: int, fails: bool)
    | StoreAnswer(lookup: nat)
    | Invalidate(org: int)
    | InvalidateAll

  function Step<V>(p: Policy, s: State<V>, a: Action<V>): State<V> {
    match a
    case Wait(d) => s.(now := s.now + d)
    case Update(org, v) => s.(history := s.history + [Change(s.now, org, v)])
    case AskDatabase(org, fails) => s.(pending := s.pending + [Ask(s, org, fails)])
    case StoreAnswer(i) =>
      if i >= |s.pending| then s
      else s.(entries := Put(p, s.entries, s.pending[i], s.now), pending := s.pending[..i] + s.pending[i + 1..])
    case Invalidate(org) => s.(entries := s.entries - {org})
    case InvalidateAll => s.(entries := map[])
  }

  function Run<V>(p: Policy, s: State<V>, actions: seq<Action<V>>): State<V> {
    if actions == [] then s else Step(p, Run(p, s, actions[..|actions| - 1]), actions[|actions| - 1])
  }

  function Start<V>(now: int): State<V> { State(now, [], map[], []) }

  // ---- the cache ----------------------------------------------------------

  class Cache<V(!new)> {
    var entries: map<int, Entry<V>>
    const policy: Policy

    constructor (policy: Policy)
      ensures entries == map[] && this.policy == policy
    {
      this.policy, entries := policy, map[];
    }

    /** The first locked section of a lookup: Some on a hit, None when the database must be asked.  It misses exactly
        when there is no entry or its deadline has come, and in every state the cache can be in, what it returns is
        fresh enough. */
    method Check(org: int, now: int) returns (r: Option<Option<V>>)
      ensures r.None? <==> org !in entries || entries[org].until <= now
      ensures forall s: State<V> | Inv(policy, s) && s.entries == entries && s.now == now && r.Some? ::
                FreshEnough(policy, s, org, r.value)
    {
      if org in entries && now < entries[org].until {
        forall s: State<V> | Inv(policy, s) && s.entries == entries && s.now == now
          ensures FreshEnough(policy, s, org, entries[org].answer)
        {
          HitFreshEnough(policy, s, org);
        }
        return Some(entries[org].answer);
      }
      return None;
    }

    /** The last locked section: the status cache keeps only real answers, the entitlement cache keeps any. */
    method StoreFetched(f: Fetched<V>, now: int)
      modifies this
      ensures entries == Put(policy, old(entries), f, now)
      ensures if f.answer.None? && !policy.keepMissing then entries == old(entries)
              else
                && entries.Keys == old(entries.Keys) + {f.org}
                && entries[f.org].answer == f.answer && entries[f.org].until == now + policy.ttl
                && forall org | org in old(entries) && org != f.org :: entries[org] == old(entries[org])
    {
      if !policy.keepMissing && f.answer.None? { return; }
      entries := entries[f.org := Entry(f.answer, now + policy.ttl, f, now)];
    }

    method Invalidate(org: int)
      modifies this
      ensures entries == old(entries) - {org}
    {
      entries := entries - {org};
    }

    method InvalidateAll()
      modifies this
      ensures entries == map[]
    {
      entries := map[];
    }
  }

  // ---- how stale an answer can be -----------------------------------------

  /** The fetched answer was the database's at the moment of asking: it is the one after the first `version` changes,
      none of which was later, while every other change came no earlier. */
  ghost predicate Genuine<V>(s: State<V>, f: Fetched<V>) {
    f.version <= |s.history| && f.time <= s.now &&
    (!f.failed ==> f.answer == Latest(s.history[..f.version], f.org)) && (f.failed ==> f.answer.None?) &&
    (forall k | 0 <= k < f.version :: s.history[k].time <= f.time) &&
    (forall k | f.version <= k < |s.history| :: f.time <= s.history[k].time)
  }

  ghost predicate Inv<V>(p: Policy, s: State<V>) {
    && (forall k | 0 <= k < |s.history| :: s.history[k].time <= s.now)
    && (forall i | 0 <= i < |s.pending| :: Genuine(s, s.pending[i]))
    && (forall org | org in s.entries :: Kept(p, s, org, s.entries[org]))
  }

  ghost predicate Kept<V>(p: Policy, s: State<V>, org: int, e: Entry<V>) {
    Genuine(s, e.fetched) && e.fetched.org == org && e.answer == e.fetched.answer && Stores(p, e.fetched) &&
    e.until == e.stored + p.ttl && e.fetched.time <= e.stored <= s.now
  }

  /** What the cached fetch of an organization entitles a caller to: the answer was the database's own at the moment
      of asking, less than ttl before now plus that entry's fetch-to-store delay ago; or it stands for a failed fetch,
      which only the entitlement cache keeps. */
  ghost predicate FreshEnough<V>(p: Policy, s: State<V>, org: int, answer: Option<V>) {
    org in s.entries &&
    var e := s.entries[org];
    Genuine(s, e.fetched) && e.fetched.org == org &&
    (!e.fetched.failed ==> answer == Latest(s.history[..e.fetched.version], org)) &&
    (e.fetched.failed ==> p.keepMissing && answer.None?) &&
    e.fetched.time <= e.stored <= s.now < e.stored + p.ttl
  }

  lemma {:induction false} HitFreshEnough<V>(p: Policy, s: State<V>, org: int)
    requires Inv(p, s) && Hit(s, org)
    ensures FreshEnough(p, s, org, s.entries[org].answer)
  {
    assert Kept(p, s, org, s.entries[org]);
  }

  lemma {:induction false} GenuineStays<V>(p: Policy, s: State<V>, a: Action<V>, f: Fetched<V>)
    requires Genuine(s, f) && forall k | 0 <= k < |s.history| :: s.history[k].time <= s.now
    ensures Genuine(Step(p, s, a), f)
  {
    if a.Update? { assert Step(p, s, a).history[..f.version] == s.history[..f.version]; }
  }

  lemma {:induction false} StepKeepsInv<V>(p: Policy, s: State<V>, a: Action<V>)
    requires Inv(p, s)
    ensures Inv(p, Step(p, s, a))
  {
    var t := Step(p, s, a);
    forall f | Genuine(s, f) ensures Genuine(t, f) { GenuineStays(p, s, a, f); }
    if a.AskDatabase? {
      assert s.history[..|s.history|] == s.history;
      assert Genuine(s, Ask(s, a.org, a.fails));
    }
    if a.StoreAnswer? && a.lookup < |s.pending| {
      assert Genuine(s, s.pending[a.lookup]);
    }
    hide Genuine;
    forall org | org in t.entries ensures Kept(p, t, org, t.entries[org]) {
      if org in s.entries { assert Kept(p, s, org, s.entries[org]); }
    }
  }

  lemma {:induction false} RunKeepsInv<V>(p: Policy, now: int, actions: seq<Action<V>>)
    ensures Inv(p, Run(p, Start(now), actions))
  {
    if actions != [] {
      RunKeepsInv(p, now, actions[..|actions| - 1]);
      StepKeepsInv(p, Run(p, Start(now), actions[..|actions| - 1]), actions[|actions| - 1]);
    }
  }

  /** In every interleaving of lookups, invalidations and database changes, a served answer was the database's at a
      moment less than ttl plus that entry's own fetch-to-store delay ago (or stands for a failed fetch, which only
      the entitlement cache keeps). */
  lemma {:induction false} ServedFreshEnough<V>(p: Policy, now: int, actions: seq<Action<V>>, org: int)
    requires Hit(Run(p, Start(now), actions), org)
    ensures var s := Run(p, Start(now), actions);
            FreshEnough(p, s, org, s.entries[org].answer) &&
            s.now - s.entries[org].fetched.time < p.ttl + (s.entries[org].stored - s.entries[org].fetched.time)
  {
    RunKeepsInv(p, now, actions);
    HitFreshEnough(p, Run(p, Start(now), actions), org);
  }

  lemma {:induction false} LatestIgnoresOthers<V>(history: seq<Change<V>>, k: nat, org: int)
    requires k <= |history| && forall i | k <= i < |history| :: history[i].org != org
    ensures Latest(history, org) == Latest(history[..k], org)
  {
    if k < |history| {
      var n := |history| - 1;
      LatestIgnoresOthers(history[..n], k, org);
      assert history[..n][..k] == history[..k];
    } else {
      assert history[..k] == history;
    }
  }

  /** Once an organization's last change is older than ttl plus the entry's delay, every cached answer for it that
      came from the database is current: a suspension bites on every node within that time. */
  lemma {:induction false} ChangesBite<V>(p: Policy, now: int, actions: seq<Action<V>>, org: int, since: int)
    requires var s := Run(p, Start(now), actions);
             Hit(s, org) && !s.entries[org].fetched.failed &&
             (forall k | 0 <= k < |s.history| && s.history[k].org == org :: s.history[k].time <= since) &&
             since + p.ttl + (s.entries[org].stored - s.entries[org].fetched.time) <= s.now
    ensures var s := Run(p, Start(now), actions);
            s.entries[org].answer == Latest(s.history, org)
  {
    var s := Run(p, Start(now), actions);
    RunKeepsInv(p, now, actions);
    var e := s.entries[org];
    assert Kept(p, s, org, e);
    LatestIgnoresOthers(s.history, e.fetched.version, org);
  }

  // ---- invalidation -------------------------------------------------------

  /** Every lookup of the organization that is under way and whose answer will be stored holds the current one. */
  ghost predicate PendingCurrent<V>(p: Policy, s: State<V>, org: int) {
    forall i | 0 <= i < |s.pending| && s.pending[i].org == org && !s.pending[i].failed && Stores(p, s.pending[i]) ::
      s.pending[i].answer == Latest(s.history, org)
  }

  /** A hit of the organization returns the current answer, unless it stands for a failed fetch. */
  ghost predicate ServesCurrent<V>(s: State<V>, org: int) {
    Hit(s, org) && !s.entries[org].fetched.failed ==> s.entries[org].answer == Latest(s.history, org)
  }

  ghost predicate NothingStale<V>(p: Policy, s: State<V>, org: int) {
    (org in s.entries && !s.entries[org].fetched.failed ==> s.entries[org].answer == Latest(s.history, org)) &&
    PendingCurrent(p, s, org)
  }

  predicate NoUpdateOf<V>(actions: seq<Action<V>>, org: int) {
    forall k | 0 <= k < |actions| && actions[k].Update? :: actions[k].org != org
  }

  function AfterInvalidate<V>(p: Policy, s: State<V>, org: int, actions: seq<Action<V>>): State<V> {
    Run(p, Step(p, s, Invalidate(org)), actions)
  }

  /** What an invalidation is for - every later answer is the current one, until the row changes again - is met in
      every continuation exactly when every lookup under way whose answer will be stored already holds the current
      answer; in particular when none is under way. */
  lemma {:induction false} InvalidateCurrentIff<V(!new)>(p: Policy, s: State<V>, org: int)
    requires Inv(p, s) && 0 < p.ttl
    ensures (forall actions | NoUpdateOf(actions, org) :: ServesCurrent(AfterInvalidate(p, s, org, actions), org))
            <==> PendingCurrent(p, s, org)
  {
    if PendingCurrent(p, s, org) {
      forall actions | NoUpdateOf(actions, org) ensures ServesCurrent(AfterInvalidate(p, s, org, actions), org) {
        FreshAfterInvalidate(p, s, actions, org);
      }
    }
    if forall actions | NoUpdateOf(actions, org) :: ServesCurrent(AfterInvalidate(p, s, org, actions), org) {
      forall i | 0 <= i < |s.pending| && s.pending[i].org == org && !s.pending[i].failed && Stores(p, s.pending[i])
        ensures s.pending[i].answer == Latest(s.history, org)
      {
        LateStoreServed(p, s, i);
        assert ServesCurrent(AfterInvalidate(p, s, org, [StoreAnswer(i)]), org);
      }
    }
  }

  lemma {:induction false} FreshAfterInvalidate<V>(p: Policy, s: State<V>, actions: seq<Action<V>>, org: int)
    requires Inv(p, s) && PendingCurrent(p, s, org) && NoUpdateOf(actions, org)
    ensures var t := AfterInvalidate(p, s, org, actions);
            Inv(p, t) && NothingStale(p, t, org)
  {
    if actions == [] {
      StepKeepsInv(p, s, Invalidate(org));
    } else {
      var n := |actions| - 1;
      FreshAfterInvalidate(p, s, actions[..n], org);
      var t := AfterInvalidate(p, s, org, actions[..n]);
      StepKeepsInv(p, t, actions[n]);
      StepKeepsFresh(p, t, actions[n], org);
    }
  }

  lemma {:induction false} StepKeepsFresh<V>(p: Policy, s: State<V>, a: Action<V>, org: int)
    requires Inv(p, s) && NothingStale(p, s, org) && (a.Update? ==> a.org != org)
    ensures NothingStale(p, Step(p, s, a), org)
  {
    var t := Step(p, s, a);
    if a.Update? { assert t.history[..|s.history|] == s.history; }
    hide Genuine, Latest;
    if org in s.entries { assert Kept(p, s, org, s.entries[org]); }
  }

  /** A lookup from before a change, stored after the invalidation, is what breaks it. */
  lemma {:induction false} LateStoreServed<V>(p: Policy, s: State<V>, i: nat)
    requires i < |s.pending| && 0 < p.ttl && Stores(p, s.pending[i])
    ensures var f := s.pending[i];
            var t := AfterInvalidate(p, s, f.org, [StoreAnswer(i)]);
            Hit(t, f.org) && t.entries[f.org].fetched == f && t.entries[f.org].answer == f.answer && t.history == s.history
  {
    var u := Step(p, s, Invalidate(s.pending[i].org));
    var none: seq<Action<V>> := [];
    assert [StoreAnswer(i)][..0] == none;
    assert Run(p, u, none) == u;
  }

  /** For instance: asked while active, suspended, invalidated, stored - and served as active again. */
  lemma {:induction false} SuspensionMissed()
    ensures var p := Policy(30, false);
            var t := Run(p, Start(0), [Update(7, Some("active")), AskDatabase(7, false), Update(7, Some("suspended")),
                                       Invalidate(7), StoreAnswer(0)]);
            Hit(t, 7) && t.entries[7].answer == Some("active") && Latest(t.history, 7) == Some("suspended")
  {
    var p := Policy(30, false);
    var a, b, c, d := Update(7, Some("active")), AskDatabase(7, false), Update(7, Some("suspended")), Invalidate(7);
    var e: Action<string> := StoreAnswer(0);
    assert [a][..0] == [] && [a, b][..1] == [a] && [a, b, c][..2] == [a, b];
    assert [a, b, c, d][..3] == [a, b, c] && [a, b, c, d, e][..4] == [a, b, c, d];
    var h1, h2 := Change(0, 7, Some("active")), Change(0, 7, Some("suspended"));
    var f := Fetched(7, Some("active"), false, 0, 1);
    assert Run(p, Start(0), [a]) == State(0, [h1], map[], []);
    assert Run(p, Start(0), [a, b]) == State(0, [h1], map[], [f]);
    assert Run(p, Start(0), [a, b, c]) == State(0, [h1, h2], map[], [f]);
    assert Run(p, Start(0), [a, b, c, d]) == State(0, [h1, h2], map[], [f]);
  }
}
