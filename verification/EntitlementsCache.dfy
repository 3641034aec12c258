/**
 The entitlements cache: a map in insertion order (section 24.1 of ECMA-262) with a time to live, an
 invalidation, and an eviction of the first key when it is full. A read that misses looks the value up in
 the database and stores it later; everything else can happen before and in between.
 */
module EntitlementsCache {
  import opened Wrappers
  import opened Sums

  type Tenant = nat
  type Value = nat

  datatype Entry = Entry(value: Value, expiresAt: nat)

  /** The map, as its keys in order and what is under them. */
  datatype Cache = Cache(order: seq<Tenant>, entries: map<Tenant, Entry>)

  const Empty := Cache([], map[])

  ghost predicate CacheOk(c: Cache) {
    Distinct(c.order) && Elements(c.order) == c.entries.Keys
  }

  function Without(order: seq<Tenant>, t: Tenant): seq<Tenant> {
    if order == [] then []
    else Without(order[..|order| - 1], t) + if order[|order| - 1] == t then [] else [order[|order| - 1]]
  }

  function Remove(c: Cache, t: Tenant): Cache {
    Cache(Without(c.order, t), c.entries - {t})
  }

  /** `Map.set`: a key that is there keeps its place. */
  function Put(c: Cache, t: Tenant, e: Entry): Cache {
    Cache(if t in c.entries then c.order else c.order + [t], c.entries[t := e])
  }

  function Evict(c: Cache, max: nat): Cache {
    if |c.order| >= max && c.order != [] then Remove(c, c.order[0]) else c
  }

  /** The eviction looks at the size only, whether or not the key is there already. */
  function Store(c: Cache, max: nat, t: Tenant, e: Entry): Cache {
    Put(Evict(c, max), t, e)
  }

  predicate LiveHit(c: Cache, t: Tenant, now: nat) {
    t in c.entries && c.entries[t].expiresAt > now
  }

  /** A live hit moves its key to the end. */
  function Touch(c: Cache, t: Tenant): Cache
    requires t in c.entries
  {
    Put(Remove(c, t), t, c.entries[t])
  }

  /** The end of a read that missed: with no time to live, nothing is kept. */
  function Keep(c: Cache, cfg: Config, t: Tenant, value: Value, now: nat): Cache {
    if cfg.ttl > 0 then Store(c, cfg.max, t, Entry(value, now + cfg.ttl)) else c
  }

  datatype Config = Config(ttl: nat, max: nat)

  // ---- The map operations ----

  lemma {:induction false} WithoutKeepsOrder(order: seq<Tenant>, t: Tenant)
    requires Distinct(order)
    ensures Distinct(Without(order, t)) && Elements(Without(order, t)) == Elements(order) - {t}
    ensures |Without(order, t)| == |order| - if t in order then 1 else 0
    ensures order != [] && order[0] == t ==> Without(order, t) == order[1..]
  {
    if order == [] {
    } else {
      var init, last := order[..|order| - 1], order[|order| - 1];
      DistinctPrefix(order);
      WithoutKeepsOrder(init, t);
      assert last !in Elements(Without(init, t));
      if last == t {
        assert Elements(Without(order, t)) == Elements(order) - {t};
        assert t !in init;
        assert |order| > 1 ==> order[0] == init[0];
      } else {
        assert Without(order, t) == Without(init, t) + [last];
        assert Elements(Without(order, t)) == Elements(Without(init, t)) + {last};
        assert t in order <==> t in init;
        if order[0] == t {
          assert order[1..] == init[1..] + [last];
        }
      }
    }
  }

  lemma RemoveOk(c: Cache, t: Tenant)
    requires CacheOk(c)
    ensures CacheOk(Remove(c, t))
    ensures |Remove(c, t).order| == |c.order| - if t in c.entries then 1 else 0
  {
    WithoutKeepsOrder(c.order, t);
    assert t in c.entries <==> t in Elements(c.order);
  }

  lemma PutOk(c: Cache, t: Tenant, e: Entry)
    requires CacheOk(c)
    ensures CacheOk(Put(c, t, e))
    ensures |Put(c, t, e).order| == |c.order| + if t in c.entries then 0 else 1
  {
    if t !in c.entries {
      assert t !in Elements(c.order);
      assert Elements(c.order + [t]) == Elements(c.order) + {t};
    }
  }

  function Capacity(max: nat): nat {
    if max == 0 then 1 else max
  }

  lemma StoreOk(c: Cache, max: nat, t: Tenant, e: Entry)
    requires CacheOk(c) && |c.order| <= Capacity(max)
    ensures CacheOk(Store(c, max, t, e)) && |Store(c, max, t, e).order| <= Capacity(max)
  {
    if |c.order| >= max && c.order != [] {
      assert c.order[0] in Elements(c.order);
      RemoveOk(c, c.order[0]);
    }
    PutOk(Evict(c, max), t, e);
  }

  lemma TouchOk(c: Cache, t: Tenant)
    requires CacheOk(c) && t in c.entries
    ensures CacheOk(Touch(c, t)) && |Touch(c, t).order| == |c.order|
  {
    RemoveOk(c, t);
    PutOk(Remove(c, t), t, c.entries[t]);
  }

  /**
   Storing: the key is there with its new entry; below the maximum every other key stays; at it the first
   key goes, and no other.
   */
  lemma StoreMeans(c: Cache, max: nat, t: Tenant, e: Entry, other: Tenant)
    requires CacheOk(c) && other != t
    ensures var c' := Store(c, max, t, e);
      && t in c'.entries && c'.entries[t] == e
      && (other in c'.entries <==> other in c.entries && (|c.order| < max || other != c.order[0]))
      && (other in c'.entries ==> c'.entries[other] == c.entries[other])
  {
    if other in c.entries {
      assert other in Elements(c.order);
    }
  }

  /** A hit changes no entry, and puts its key at the end of the others in their order. */
  lemma TouchMeans(c: Cache, t: Tenant)
    requires CacheOk(c) && t in c.entries
    ensures Touch(c, t).entries == c.entries && Touch(c, t).order == Without(c.order, t) + [t]
  {
  }

  /** An invalidation removes its key and nothing else. */
  lemma RemoveMeans(c: Cache, t: Tenant, other: Tenant)
    requires CacheOk(c) && other != t
    ensures t !in Remove(c, t).entries && (other in Remove(c, t).entries <==> other in c.entries)
    ensures other in c.entries ==> Remove(c, t).entries[other] == c.entries[other]
    ensures t !in Remove(c, t).order && forall x | x in c.order && x != t :: x in Remove(c, t).order
  {
    WithoutKeepsOrder(c.order, t);
    forall x | x in c.order && x != t
      ensures x in Remove(c, t).order
    {
      assert x in Elements(c.order) - {t};
    }
    assert t !in Elements(Without(c.order, t));
  }

  /** With no time to live nothing is kept; otherwise the value is, for exactly that long from now. */
  lemma KeepMeans(c: Cache, cfg: Config, t: Tenant, value: Value, now: nat)
    ensures cfg.ttl == 0 ==> Keep(c, cfg, t, value, now) == c
    ensures cfg.ttl > 0 ==> t in Keep(c, cfg, t, value, now).entries && Keep(c, cfg, t, value, now).entries[t] == Entry(value, now + cfg.ttl)
  {
  }

  /**
   Refreshing an expired key in a full cache throws out the first key although no room was needed,
   unless the refreshed key is itself the first: a bystander is lost and one place stays empty.
   */
  lemma RefreshEvictsBystander(c: Cache, max: nat, t: Tenant, e: Entry)
    requires CacheOk(c) && max >= 1 && |c.order| == max && t in c.entries
    ensures var c' := Store(c, max, t, e);
      if t == c.order[0] then |c'.order| == max && c'.order == c.order[1..] + [t]
      else |c'.order| == max - 1 && c'.order == c.order[1..] && c.order[0] !in c'.entries
  {
    WithoutKeepsOrder(c.order, c.order[0]);
  }

  // ---- Runs ----

  /** A read that missed; `value` is there once it has been looked up, at step `looked`. */
  datatype Fetch = Fetch(tenant: Tenant, value: Option<Value>, looked: nat, stored: bool)

  /** The steps at which a cached value was looked up and stored. */
  datatype Origin = Origin(looked: nat, stored: nat)

  /**
   `steps` counts the steps so far. `touched` and `origin` are history: the step that last hit a key live
   or inserted it afresh (refreshing an expired key in place does not count), and where its value is from.
   */
  datatype State = State(
    cache: Cache,
    clock: nat,
    db: map<Tenant, Value>,
    fetches: seq<Fetch>,
    steps: nat,
    touched: map<Tenant, nat>,
    origin: map<Tenant, Origin>)

  const Initial := State(Empty, 0, map[], [], 0, map[], map[])

  datatype Action =
    | Advance(now: nat)
    | Commit(t: Tenant, value: Value)
    | Invalidate(t: Tenant)
    | Hit(t: Tenant)
    | Miss(t: Tenant)
    | LookUp(f: nat)
    | Finish(f: nat)

  /** What the database holds for a tenant; zero stands for no subscription. */
  function Current(db: map<Tenant, Value>, t: Tenant): Value {
    if t in db then db[t] else 0
  }

  predicate Enabled(s: State, a: Action) {
    match a
    case Advance(now) => now >= s.clock
    case Commit(_, _) => true
    case Invalidate(_) => true
    case Hit(t) => LiveHit(s.cache, t, s.clock)
    case Miss(t) => !LiveHit(s.cache, t, s.clock)
    case LookUp(f) => f < |s.fetches| && s.fetches[f].value.None?
    case Finish(f) => f < |s.fetches| && s.fetches[f].value.Some? && !s.fetches[f].stored
  }

  /** Whether the end of a read puts its key at the end of the order. */
  predicate Inserts(c: Cache, cfg: Config, t: Tenant) {
    cfg.ttl > 0 && t !in Evict(c, cfg.max).entries
  }

  function Move(s: State, cfg: Config, a: Action): State
    requires Enabled(s, a)
  {
    match a
    case Advance(now) => s.(clock := now)
    case Commit(t, value) => s.(db := s.db[t := value])
    case Invalidate(t) => s.(cache := Remove(s.cache, t))
    case Hit(t) => s.(cache := Touch(s.cache, t), touched := s.touched[t := s.steps])
    case Miss(t) => s.(fetches := s.fetches + [Fetch(t, None, 0, false)])
    case LookUp(f) =>
      var fetch := s.fetches[f];
      s.(fetches := s.fetches[f := fetch.(value := Some(Current(s.db, fetch.tenant)), looked := s.steps)])
    case Finish(f) =>
      var fetch := s.fetches[f];
      s.(cache := Keep(s.cache, cfg, fetch.tenant, fetch.value.value, s.clock),
         fetches := s.fetches[f := fetch.(stored := true)],
         touched := if Inserts(s.cache, cfg, fetch.tenant) then s.touched[fetch.tenant := s.steps] else s.touched,
         origin := if cfg.ttl > 0 then s.origin[fetch.tenant := Origin(fetch.looked, s.steps)] else s.origin)
  }

  function Step(s: State, cfg: Config, a: Action): State
    requires Enabled(s, a)
  {
    Move(s, cfg, a).(steps := s.steps + 1)
  }

  ghost predicate IsRun(run: seq<State>, actions: seq<Action>, cfg: Config) {
    && |run| == |actions| + 1 && run[0] == Initial
    && forall i | 0 <= i < |actions| :: Enabled(run[i], actions[i]) && run[i + 1] == Step(run[i], cfg, actions[i])
  }

  /** The keys stand in the order of their last touch. */
  ghost predicate ByTouch(order: seq<Tenant>, touched: map<Tenant, nat>) {
    && (forall i | 0 <= i < |order| :: order[i] in touched)
    && (forall i, j | 0 <= i < j < |order| :: touched[order[i]] < touched[order[j]])
  }

  ghost predicate Inv(s: State, cfg: Config) {
    && CacheOk(s.cache) && |s.cache.order| <= Capacity(cfg.max)
    && ByTouch(s.cache.order, s.touched)
    && (forall t | t in s.touched :: s.touched[t] < s.steps)
  }

  lemma {:induction false} WithoutByTouch(order: seq<Tenant>, touched: map<Tenant, nat>, t: Tenant)
    requires ByTouch(order, touched)
    ensures ByTouch(Without(order, t), touched)
    ensures forall x | x in Without(order, t) :: x in order && x != t
  {
    if order == [] {
    } else {
      var init, last := order[..|order| - 1], order[|order| - 1];
      WithoutByTouch(init, touched, t);
      assert forall x | x in Without(init, t) :: x in touched && touched[x] < touched[last] by {
        forall x | x in Without(init, t)
          ensures x in touched && touched[x] < touched[last]
        {
          var i :| 0 <= i < |init| && init[i] == x;
          assert order[i] == x;
        }
      }
    }
  }

  /** A key that is not there goes to the end with the newest touch. */
  lemma TouchedLast(order: seq<Tenant>, touched: map<Tenant, nat>, t: Tenant, tick: nat)
    requires ByTouch(order, touched) && t !in order
    requires forall x | x in touched :: touched[x] < tick
    ensures ByTouch(order + [t], touched[t := tick])
  {
  }

  lemma HitKeeps(s: State, cfg: Config, t: Tenant)
    requires Inv(s, cfg) && Enabled(s, Hit(t))
    ensures Inv(Step(s, cfg, Hit(t)), cfg)
  {
    TouchOk(s.cache, t);
    WithoutByTouch(s.cache.order, s.touched, t);
    TouchedLast(Without(s.cache.order, t), s.touched, t, s.steps);
  }

  /** Storing keeps the order by touch, and touches exactly when it inserts. */
  lemma StoreByTouch(c: Cache, max: nat, t: Tenant, e: Entry, touched: map<Tenant, nat>, tick: nat)
    requires CacheOk(c) && ByTouch(c.order, touched) && forall x | x in touched :: touched[x] < tick
    ensures ByTouch(Store(c, max, t, e).order, if t !in Evict(c, max).entries then touched[t := tick] else touched)
  {
    var kept := Evict(c, max);
    if kept != c {
      WithoutByTouch(c.order, touched, c.order[0]);
      RemoveOk(c, c.order[0]);
    }
    if t !in kept.entries {
      assert t !in Elements(kept.order);
      TouchedLast(kept.order, touched, t, tick);
    }
  }

  lemma FinishKeeps(s: State, cfg: Config, f: nat)
    requires Inv(s, cfg) && Enabled(s, Finish(f))
    ensures Inv(Step(s, cfg, Finish(f)), cfg)
  {
    hide CacheOk, ByTouch, Evict, Store;
    var t, e := s.fetches[f].tenant, Entry(s.fetches[f].value.value, s.clock + cfg.ttl);
    if cfg.ttl > 0 {
      StoreOk(s.cache, cfg.max, t, e);
      StoreByTouch(s.cache, cfg.max, t, e, s.touched, s.steps);
    }
  }

  lemma {:induction false} RunKeeps(run: seq<State>, actions: seq<Action>, cfg: Config, i: nat)
    requires IsRun(run, actions, cfg) && i < |run|
    ensures Inv(run[i], cfg) && run[i].steps == i
  {
    if i == 0 {
    } else {
      RunKeeps(run, actions, cfg, i - 1);
      assert run[i - 1 + 1] == Step(run[i - 1], cfg, actions[i - 1]);
      match actions[i - 1]
      case Hit(t) => HitKeeps(run[i - 1], cfg, t);
      case Finish(f) => FinishKeeps(run[i - 1], cfg, f);
      case Invalidate(t) =>
        RemoveOk(run[i - 1].cache, t);
        WithoutByTouch(run[i - 1].cache.order, run[i - 1].touched, t);
      case _ =>
    }
  }

  // ---- Size and order, in every run ----

  /** The cache never holds more than its maximum, except that a maximum of zero still lets one entry in. */
  lemma SizeBounded(run: seq<State>, actions: seq<Action>, cfg: Config, i: nat)
    requires IsRun(run, actions, cfg) && i < |run|
    ensures |run[i].cache.order| == |run[i].cache.entries| <= Capacity(cfg.max)
  {
    RunKeeps(run, actions, cfg, i);
    DistinctSize(run[i].cache.order);
  }

  lemma {:induction false} DistinctSize(order: seq<Tenant>)
    requires Distinct(order)
    ensures |Elements(order)| == |order|
  {
    if order == [] {
      assert Elements(order) == {};
    } else {
      DistinctPrefix(order);
      DistinctSize(order[..|order| - 1]);
    }
  }

  /** A maximum of zero is never kept: whatever the cache held, the end of a read leaves exactly its own entry. */
  lemma ZeroMaximumHoldsOne(run: seq<State>, actions: seq<Action>, cfg: Config, i: nat, f: nat)
    requires IsRun(run, actions, cfg) && i < |actions| && actions[i] == Finish(f) && cfg.max == 0 && cfg.ttl > 0
    ensures run[i + 1].cache.order == [run[i].fetches[f].tenant]
  {
    RunKeeps(run, actions, cfg, i);
    var c := run[i].cache;
    if c.order != [] {
      WithoutKeepsOrder(c.order, c.order[0]);
      RemoveOk(c, c.order[0]);
    }
    assert Evict(c, 0).order == [] && Elements(Evict(c, 0).order) == {};
  }

  /** The order is that of the last touches, so the key an eviction takes is the least recently touched. */
  lemma EvictsLeastRecentlyTouched(run: seq<State>, actions: seq<Action>, cfg: Config, i: nat, t: Tenant)
    requires IsRun(run, actions, cfg) && i < |run| && t in run[i].cache.entries
    requires |run[i].cache.order| >= cfg.max
    ensures var s := run[i];
      && ByTouch(s.cache.order, s.touched)
      && (t !in Evict(s.cache, cfg.max).entries <==>
          forall x | x in s.cache.entries && x != t :: x in s.touched && t in s.touched && s.touched[t] < s.touched[x])
  {
    RunKeeps(run, actions, cfg, i);
    var s := run[i];
    assert t in Elements(s.cache.order);
    var k :| 0 <= k < |s.cache.order| && s.cache.order[k] == t;
    var first := s.cache.order[0];
    assert first in Elements(s.cache.order);
    if t == first {
      forall x | x in s.cache.entries && x != t
        ensures x in s.touched && s.touched[t] < s.touched[x]
      {
        assert x in Elements(s.cache.order);
        var j :| 0 <= j < |s.cache.order| && s.cache.order[j] == x;
      }
    }
  }

  // ---- Freshness, in every run ----

  /** Whether an invalidation of the tenant lies between two points of a run. */
  predicate InvalidatedBetween(actions: seq<Action>, i: nat, j: nat, t: Tenant)
    requires i <= j <= |actions|
  {
    exists m | i <= m < j :: actions[m] == Invalidate(t)
  }

  /** One step of a fetch that has its value after it: it has just been looked up, or had it already. */
  lemma FetchStep(s: State, cfg: Config, a: Action, f: nat)
    requires Enabled(s, a) && f < |Step(s, cfg, a).fetches| && Step(s, cfg, a).fetches[f].value.Some?
    ensures f < |s.fetches|
    ensures var (fetch, fetch') := (s.fetches[f], Step(s, cfg, a).fetches[f]);
      if a == LookUp(f) then
        fetch.value.None? && fetch' == fetch.(value := Some(Current(s.db, fetch.tenant)), looked := s.steps)
      else
        fetch.value.Some? && fetch' == fetch.(stored := fetch'.stored) && (fetch.stored || a == Finish(f) ==> fetch'.stored)
  {
  }

  /** A looked-up value is the database's at the step of its look-up, which is past. */
  lemma {:induction false} FetchedValue(run: seq<State>, actions: seq<Action>, cfg: Config, j: nat, f: nat)
    requires IsRun(run, actions, cfg) && j < |run| && f < |run[j].fetches| && run[j].fetches[f].value.Some?
    ensures var fetch := run[j].fetches[f];
      fetch.looked < j && actions[fetch.looked] == LookUp(f)
      && fetch.value.value == Current(run[fetch.looked].db, fetch.tenant)
  {
    hide Step, Enabled, Inv;
    if j == 0 {
      assert false;
    } else {
      RunKeeps(run, actions, cfg, j - 1);
      assert run[j - 1 + 1] == Step(run[j - 1], cfg, actions[j - 1]);
      FetchStep(run[j - 1], cfg, actions[j - 1], f);
      if actions[j - 1] != LookUp(f) {
        FetchedValue(run, actions, cfg, j - 1, f);
      }
    }
  }

  /** A cached entry is a looked-up value, stored with its full time to live, its tenant not invalidated since. */
  ghost predicate FromOrigin(run: seq<State>, actions: seq<Action>, cfg: Config, j: nat, t: Tenant)
    requires IsRun(run, actions, cfg) && j < |run| && t in run[j].cache.entries
  {
    && t in run[j].origin
    && var o := run[j].origin[t];
       && o.looked < o.stored < j
       && run[j].cache.entries[t] == Entry(Current(run[o.looked].db, t), run[o.stored].clock + cfg.ttl)
       && actions[o.stored].Finish? && actions[o.looked] == LookUp(actions[o.stored].f)
       && run[o.stored].fetches[actions[o.stored].f].tenant == t
       && run[o.stored].fetches[actions[o.stored].f].looked == o.looked
       && !InvalidatedBetween(actions, o.stored, j, t)
  }

  predicate Stores(s: State, cfg: Config, a: Action, t: Tenant)
    requires Enabled(s, a)
  {
    a.Finish? && s.fetches[a.f].tenant == t && cfg.ttl > 0
  }

  /** An entry is there after a step because the step has stored it, or as it was there before. */
  lemma EntryStep(s: State, cfg: Config, a: Action, t: Tenant)
    requires Enabled(s, a) && t in Step(s, cfg, a).cache.entries
    ensures var s' := Step(s, cfg, a);
      if Stores(s, cfg, a, t) then
        && s'.cache.entries[t] == Entry(s.fetches[a.f].value.value, s.clock + cfg.ttl)
        && t in s'.origin && s'.origin[t] == Origin(s.fetches[a.f].looked, s.steps)
      else
        && t in s.cache.entries && s'.cache.entries[t] == s.cache.entries[t] && a != Invalidate(t)
        && (t in s'.origin <==> t in s.origin) && (t in s.origin ==> s'.origin[t] == s.origin[t])
  {
  }

  lemma {:induction false} EntryOrigin(run: seq<State>, actions: seq<Action>, cfg: Config, j: nat, t: Tenant)
    requires IsRun(run, actions, cfg) && j < |run| && t in run[j].cache.entries
    ensures FromOrigin(run, actions, cfg, j, t)
  {
    hide Step, Inv;
    if j == 0 {
      assert false;
    } else {
      var s, a := run[j - 1], actions[j - 1];
      RunKeeps(run, actions, cfg, j - 1);
      assert run[j - 1 + 1] == Step(s, cfg, a);
      EntryStep(s, cfg, a, t);
      if Stores(s, cfg, a, t) {
        FetchedValue(run, actions, cfg, j - 1, a.f);
      } else {
        EntryOrigin(run, actions, cfg, j - 1, t);
      }
    }
  }

  /**
   Freshness of a hit. Its value was the database's at a look-up in the past; its age is less than one time
   to live more than what passed between that look-up and its store; and it is not older than the last
   invalidation of its tenant exactly when none fell between those two.
   */
  lemma HitFreshness(run: seq<State>, actions: seq<Action>, cfg: Config, j: nat, t: Tenant)
    requires IsRun(run, actions, cfg) && j < |actions| && actions[j] == Hit(t)
    ensures t in run[j].cache.entries && t in run[j].origin && run[j].origin[t].looked < run[j].origin[t].stored < j
    ensures var (o, now) := (run[j].origin[t], run[j].clock);
      && run[j].cache.entries[t].value == Current(run[o.looked].db, t)
      && now - run[o.looked].clock < cfg.ttl + (run[o.stored].clock - run[o.looked].clock)
      && (InvalidatedBetween(actions, o.looked, j, t) <==> InvalidatedBetween(actions, o.looked, o.stored, t))
  {
    EntryOrigin(run, actions, cfg, j, t);
  }

  /** A read hits exactly when the tenant's value is cached and its time to live, counted from its store, is not over. */
  lemma HitExactlyWhen(run: seq<State>, actions: seq<Action>, cfg: Config, j: nat, t: Tenant)
    requires IsRun(run, actions, cfg) && j < |run|
    ensures Enabled(run[j], Hit(t)) <==> !Enabled(run[j], Miss(t))
    ensures Enabled(run[j], Hit(t)) <==>
      t in run[j].cache.entries && t in run[j].origin && run[j].origin[t].stored < j
      && run[j].clock < run[run[j].origin[t].stored].clock + cfg.ttl
  {
    if t in run[j].cache.entries {
      EntryOrigin(run, actions, cfg, j, t);
    }
  }

  /** Freshness of a read that missed: the same, its value being returned as it is stored. */
  lemma MissFreshness(run: seq<State>, actions: seq<Action>, cfg: Config, j: nat, f: nat)
    requires IsRun(run, actions, cfg) && j < |actions| && actions[j] == Finish(f)
    ensures var fetch := run[j].fetches[f];
      fetch.looked < j && actions[fetch.looked] == LookUp(f) && fetch.value.value == Current(run[fetch.looked].db, fetch.tenant)
  {
    FetchedValue(run, actions, cfg, j, f);
  }

  lemma {:induction false} ValueStays(run: seq<State>, actions: seq<Action>, cfg: Config, m: nat, i: nat, t: Tenant)
    requires IsRun(run, actions, cfg) && m <= i < |run|
    requires forall n | m <= n < i :: !(actions[n].Commit? && actions[n].t == t)
    ensures Current(run[i].db, t) == Current(run[m].db, t)
  {
    if m == i {
    } else {
      ValueStays(run, actions, cfg, m, i - 1, t);
    }
  }

  /** What a look-up finds is what was last committed for its tenant, and zero before the first commit. */
  lemma LookUpFindsLastCommit(run: seq<State>, actions: seq<Action>, cfg: Config, i: nat, t: Tenant)
    requires IsRun(run, actions, cfg) && i < |run|
    ensures (forall n | 0 <= n < i :: !(actions[n].Commit? && actions[n].t == t)) ==> Current(run[i].db, t) == 0
    ensures forall k | 0 <= k < i && actions[k].Commit? && actions[k].t == t
        && (forall n | k < n < i :: !(actions[n].Commit? && actions[n].t == t)) ::
      Current(run[i].db, t) == actions[k].value
  {
    if forall n | 0 <= n < i :: !(actions[n].Commit? && actions[n].t == t) {
      ValueStays(run, actions, cfg, 0, i, t);
    }
    forall k | 0 <= k < i && actions[k].Commit? && actions[k].t == t
        && (forall n | k < n < i :: !(actions[n].Commit? && actions[n].t == t))
      ensures Current(run[i].db, t) == actions[k].value
    {
      assert run[k + 1] == Step(run[k], cfg, actions[k]);
      ValueStays(run, actions, cfg, k + 1, i, t);
    }
  }

  /** A read of the tenant has looked its value up and not yet stored it. */
  ghost predicate InFlight(s: State, t: Tenant) {
    exists f | 0 <= f < |s.fetches| :: s.fetches[f].tenant == t && s.fetches[f].value.Some? && !s.fetches[f].stored
  }

  /** A fetch that has been looked up before a point of the run and is stored after it was in flight there. */
  lemma {:induction false} LookedUpBefore(run: seq<State>, actions: seq<Action>, cfg: Config, m: nat, j: nat, f: nat)
    requires IsRun(run, actions, cfg) && m <= j < |run| && f < |run[j].fetches|
    requires run[j].fetches[f].value.Some? && !run[j].fetches[f].stored && run[j].fetches[f].looked < m
    ensures InFlight(run[m], run[j].fetches[f].tenant)
  {
    hide Step, Enabled, Inv;
    if m < j {
      RunKeeps(run, actions, cfg, j - 1);
      assert run[j - 1 + 1] == Step(run[j - 1], cfg, actions[j - 1]);
      FetchStep(run[j - 1], cfg, actions[j - 1], f);
      LookedUpBefore(run, actions, cfg, m, j - 1, f);
    }
  }

  /**
   After an invalidation at which no read of the tenant was in flight, until the next change, hits return
   the current value: no drift is left.
   */
  lemma InvalidationRemovesDrift(run: seq<State>, actions: seq<Action>, cfg: Config, m: nat, j: nat, t: Tenant)
    requires IsRun(run, actions, cfg) && m < j < |actions| && actions[m] == Invalidate(t) && actions[j] == Hit(t)
    requires !InFlight(run[m], t)
    requires forall n | m < n < j :: !(actions[n].Commit? && actions[n].t == t)
    ensures t in run[j].origin && run[j].origin[t].looked > m
    ensures t in run[j].cache.entries && run[j].cache.entries[t].value == Current(run[j].db, t)
  {
    EntryOrigin(run, actions, cfg, j, t);
    var o := run[j].origin[t];
    assert o.stored > m by {
      assert !InvalidatedBetween(actions, o.stored, j, t);
    }
    if o.looked < m {
      LookedUpBefore(run, actions, cfg, m, o.stored, actions[o.stored].f);
      assert false;
    }
    assert o.looked > m;
    ValueStays(run, actions, cfg, o.looked, j, t);
  }

  function Last(run: seq<State>): State
    requires run != []
  {
    run[|run| - 1]
  }

  lemma Extend(run: seq<State>, actions: seq<Action>, cfg: Config, a: Action) returns (run': seq<State>)
    requires IsRun(run, actions, cfg) && Enabled(Last(run), a)
    ensures run' == run + [Step(Last(run), cfg, a)] && IsRun(run', actions + [a], cfg)
  {
    run' := run + [Step(Last(run), cfg, a)];
    forall i | 0 <= i < |actions + [a]|
      ensures Enabled(run'[i], (actions + [a])[i]) && run'[i + 1] == Step(run'[i], cfg, (actions + [a])[i])
    {
      if i < |actions| {
        assert Enabled(run[i], actions[i]) && run[i + 1] == Step(run[i], cfg, actions[i]);
      }
    }
  }

  /** The last step of the run is a hit of the tenant on a value looked up before step `m`. */
  ghost predicate HitsOlder(run: seq<State>, actions: seq<Action>, m: nat, t: Tenant) {
    && actions != [] && |run| == |actions| + 1 && m < |actions| - 1 && actions[|actions| - 1] == Hit(t)
    && t in run[|actions| - 1].origin && run[|actions| - 1].origin[t].looked < m
  }

  /** A read in flight at an invalidation stores after it, and the next read hits the old value. */
  lemma LateStoreRevivesDrift(run: seq<State>, actions: seq<Action>, cfg: Config, t: Tenant) returns (run': seq<State>, actions': seq<Action>)
    requires IsRun(run, actions, cfg) && InFlight(Last(run), t) && cfg.ttl > 0
    ensures IsRun(run', actions', cfg) && run <= run' && actions + [Invalidate(t)] <= actions'
    ensures HitsOlder(run', actions', |actions|, t)
  {
    hide Step, Move;
    var s := Last(run);
    var f :| 0 <= f < |s.fetches| && s.fetches[f].tenant == t && s.fetches[f].value.Some? && !s.fetches[f].stored;
    FetchedValue(run, actions, cfg, |actions|, f);
    LateStore(s, cfg, f);
    var gone := Extend(run, actions, cfg, Invalidate(t));
    var late := Extend(gone, actions + [Invalidate(t)], cfg, Finish(f));
    actions' := actions + [Invalidate(t)] + [Finish(f)] + [Hit(t)];
    run' := Extend(late, actions + [Invalidate(t)] + [Finish(f)], cfg, Hit(t));
    assert run'[|actions'| - 1] == Last(late);
  }

  /** A fetch in flight does not notice the invalidation, and leaves a live entry with its old origin. */
  lemma LateStore(s: State, cfg: Config, f: nat)
    requires Enabled(s, Finish(f)) && cfg.ttl > 0
    ensures var t := s.fetches[f].tenant;
      var gone := Step(s, cfg, Invalidate(t));
      && Enabled(gone, Finish(f))
      && var late := Step(gone, cfg, Finish(f));
         Enabled(late, Hit(t)) && t in late.origin && late.origin[t].looked == s.fetches[f].looked
  {
  }

  lemma OlderWasInFlight(run: seq<State>, actions: seq<Action>, cfg: Config, m: nat, t: Tenant)
    requires IsRun(run, actions, cfg) && m < |actions| && actions[m] == Invalidate(t) && HitsOlder(run, actions, m, t)
    ensures InFlight(run[m], t)
  {
    var j := |actions| - 1;
    EntryOrigin(run, actions, cfg, j, t);
    var o := run[j].origin[t];
    assert o.stored > m by {
      assert !InvalidatedBetween(actions, o.stored, j, t);
    }
    LookedUpBefore(run, actions, cfg, m, o.stored, actions[o.stored].f);
  }

  /**
   What an invalidation is for: that no later hit returns a value looked up before it. That holds of every
   continuation exactly when no read of the tenant is in flight at that moment.
   */
  lemma DriftPossibleExactlyWhen(run: seq<State>, actions: seq<Action>, cfg: Config, t: Tenant)
    requires IsRun(run, actions, cfg) && cfg.ttl > 0
    ensures (exists run': seq<State>, actions': seq<Action> | IsRun(run', actions', cfg) && run <= run' && actions + [Invalidate(t)] <= actions' ::
               HitsOlder(run', actions', |actions|, t))
       <==> InFlight(Last(run), t)
  {
    var m := |actions|;
    if run': seq<State>, actions': seq<Action> :| IsRun(run', actions', cfg) && run <= run' && actions + [Invalidate(t)] <= actions' && HitsOlder(run', actions', m, t) {
      assert actions'[m] == (actions + [Invalidate(t)])[m] && run'[m] == run[m];
      OlderWasInFlight(run', actions', cfg, m, t);
    }
    if InFlight(Last(run), t) {
      var run', actions' := LateStoreRevivesDrift(run, actions, cfg, t);
    }
  }

  // ---- The service ----

  class Service {
    var order: seq<Tenant>
    var entries: map<Tenant, Entry>
    const ttl: nat
    const max: nat

    function Contents(): (c: Cache)
      reads this
    {
      Cache(order, entries)
    }

    constructor (ttl: nat, max: nat)
      ensures Contents() == Empty && this.ttl == ttl && this.max == max
    {
      order, entries := [], map[];
      this.ttl, this.max := ttl, max;
    }

    method DeleteKey(t: Tenant)
      modifies this`order, this`entries
      ensures Contents() == Remove(old(Contents()), t)
    {
      var kept := [];
      for i := 0 to |order|
        invariant order == old(order) && entries == old(entries)
        invariant kept == Without(order[..i], t)
      {
        assert order[..i + 1][..i] == order[..i];
        if order[i] != t {
          kept := kept + [order[i]];
        }
      }
      assert order[..|order|] == order;
      order, entries := kept, entries - {t};
    }

    method SetKey(t: Tenant, e: Entry)
      modifies this`order, this`entries
      ensures Contents() == Put(old(Contents()), t, e)
    {
      if t !in entries {
        order := order + [t];
      }
      entries := entries[t := e];
    }

    /**
     The tenant's entitlements at time `now`. When they are not cached, `current` is what the database
     answers, and by then the others have made the cache `meanwhile` and it is `later`.
     */
    method GetCurrent(t: Tenant, now: nat, current: Value, meanwhile: Cache, later: nat) returns (value: Value)
      modifies this`order, this`entries
      ensures LiveHit(old(Contents()), t, now) ==>
        Contents() == Touch(old(Contents()), t) && value == old(entries)[t].value
      ensures !LiveHit(old(Contents()), t, now) ==>
        Contents() == Keep(meanwhile, Config(ttl, max), t, current, later) && value == current
    {
      if t in entries && entries[t].expiresAt > now {
        var cached := entries[t];
        DeleteKey(t);
        SetKey(t, cached);
        return cached.value;
      }
      order, entries := meanwhile.order, meanwhile.entries;
      if ttl > 0 {
        StoreEntry(t, Entry(current, later + ttl));
      }
      return current;
    }

    method StoreEntry(t: Tenant, e: Entry)
      modifies this`order, this`entries
      ensures Contents() == Store(old(Contents()), max, t, e)
    {
      if |order| >= max {
        if order != [] {
          DeleteKey(order[0]);
        }
      }
      SetKey(t, e);
    }
  }
}
