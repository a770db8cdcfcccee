/** The timer queue of a worker: a tree from deadlines to lists of entries, a cached copy of
    its least key that is read without the lock, and caches of entries and lists. */
module TimerQueue {
  import opened Prelude
  import T = Timers

  const MAX_CACHED: nat := 64

  /** The waker of an entry is a protocol of its own; here only its place in the queue counts. */
  class RawEntry {
    var queued: bool

    constructor ()
      ensures !queued
    {
      queued := false;
    }
  }

  datatype Delay = Delay(deadline: nat, entry: RawEntry)

  class Expired {
    var entries: seq<RawEntry>

    constructor ()
      ensures entries == []
    {
      entries := [];
    }
  }

  lemma LeastExists(keys: set<nat>, k: nat)
    requires k in keys
    ensures exists m :: m in keys && forall j | j in keys :: m <= j
  {
    if m :| m in keys && m < k { LeastExists(keys, m); }
  }

  /** The first key of a BTreeMap. */
  function Least(keys: set<nat>): (k: nat)
    requires keys != {}
    ensures k in keys && forall j | j in keys :: k <= j
  {
    var some :| some in keys;
    LeastExists(keys, some);
    var k :| k in keys && forall j | j in keys :: k <= j;
    k
  }

  /** The first key, or 0 for an empty tree. */
  function FirstKey(tree: map<nat, seq<RawEntry>>): (k: nat)
    ensures tree != map[] ==> k in tree && forall j | j in tree :: k <= j
    ensures tree == map[] ==> k == 0
  {
    if tree == map[] then 0 else Least(tree.Keys)
  }

  /** The name and deadline of a delay that has been handed out. */
  datatype Ticket = Ticket(id: nat, deadline: nat)

  type Tree = map<nat, seq<RawEntry>>

  // ---- the representation, on values -------------------------------------------------------------

  /** Live entries have names of their own, and every waiting delay is some live entry's. */
  ghost predicate NamesOk(live: map<RawEntry, Ticket>, model: T.State) {
    && (forall e | e in live :: live[e].id < model.next)
    && (forall e, f | e in live && f in live && live[e].id == live[f].id :: e == f)
    && (forall e | e in live && live[e].id in model.pending :: model.pending[live[e].id] == live[e].deadline)
    && (forall id | id in model.pending :: exists e :: e in live && live[e].id == id)
  }

  /** The waiting delays of the model are the queued entries. */
  ghost predicate LiveFits(live: map<RawEntry, Ticket>, model: T.State, queued: set<RawEntry>) {
    NamesOk(live, model) && forall e | e in live :: e in queued <==> live[e].id in model.pending
  }

  /** An entry is queued exactly when it is in one list, once, at its delay's deadline. */
  ghost predicate TreeFits(tree: Tree, live: map<RawEntry, Ticket>, queued: set<RawEntry>) {
    && (forall e | e in queued :: e in live)
    && (forall d | d in tree :: 0 < d <= T.MAX && tree[d] != [])
    && (forall d, e | d in tree && e in tree[d] :: e in queued && live[e].deadline == d)
    && (forall d, i, j | d in tree && 0 <= i < j < |tree[d]| :: tree[d][i] != tree[d][j])
    && (forall e | e in queued :: live[e].deadline in tree && e in tree[live[e].deadline])
  }

  /** What `poll` has moved so far, in order; the model still has it waiting. */
  ghost predicate Moved(tree: Tree, live: map<RawEntry, Ticket>, model: T.State, queued: set<RawEntry>, current: nat,
                        es: seq<RawEntry>)
  {
    && (forall e | e in es :: e in live && e !in queued && live[e].id in model.pending && live[e].deadline <= current)
    && (forall i, j | 0 <= i < j < |es| :: es[i] != es[j] && live[es[i]].deadline <= live[es[j]].deadline)
    && (forall e | e in live && live[e].id in model.pending :: e in queued || e in es)
    && (forall e | e in live && e in queued :: live[e].id in model.pending)
    && (forall d, e | d in tree && e in es :: live[e].deadline < d)
  }

  lemma NothingMoved(tree: Tree, live: map<RawEntry, Ticket>, model: T.State, queued: set<RawEntry>, current: nat)
    requires LiveFits(live, model, queued)
    ensures NamesOk(live, model) && Moved(tree, live, model, queued, current, [])
  {
  }

  function Members(list: seq<RawEntry>): (r: set<RawEntry>) { set e | e in list }

  lemma DrainFits(tree: Tree, live: map<RawEntry, Ticket>, queued: set<RawEntry>, d: nat)
    requires TreeFits(tree, live, queued) && d in tree
    ensures TreeFits(tree - {d}, live, queued - Members(tree[d])) && Members(tree[d]) <= live.Keys
  {
    var rest := tree - {d};
    assert forall e | e in tree[d] :: live[e].deadline == d;
    assert forall k | k in rest :: k in tree && rest[k] == tree[k] && k != d;
    forall k, e | k in rest && e in rest[k] ensures e in queued - Members(tree[d]) {
      assert e in tree[k];
    }
    forall k, i, j | k in rest && 0 <= i < j < |rest[k]| ensures rest[k][i] != rest[k][j] {
      assert tree[k][i] != tree[k][j];
    }
  }

  lemma DrainMoves(tree: Tree, live: map<RawEntry, Ticket>, model: T.State, queued: set<RawEntry>, current: nat,
                   es: seq<RawEntry>, d: nat)
    requires TreeFits(tree, live, queued) && Moved(tree, live, model, queued, current, es)
    requires d in tree && d <= current && forall k | k in tree :: d <= k
    ensures Moved(tree - {d}, live, model, queued - Members(tree[d]), current, es + tree[d])
  {
    var all := es + tree[d];
    forall i, j | 0 <= i < j < |all| ensures all[i] != all[j] && live[all[i]].deadline <= live[all[j]].deadline {
      assert i < |es| ==> all[i] in es;
      assert i >= |es| ==> all[i] in tree[d];
      assert j >= |es| ==> all[j] in tree[d];
    }
  }

  lemma KeysShrink(tree: Tree, d: nat)
    requires d in tree
    ensures |(tree - {d}).Keys| < |tree.Keys|
  {
    assert (tree - {d}).Keys == tree.Keys - {d};
  }

  /** One turn of the loop in `poll`. */
  lemma DrainTurn(tree: Tree, live: map<RawEntry, Ticket>, model: T.State, queued: set<RawEntry>, current: nat,
                  es: seq<RawEntry>, d: nat, before: seq<RawEntry>)
    requires TreeFits(tree, live, queued) && Moved(tree, live, model, queued, current, es)
    requires d in tree && d <= current && forall k | k in tree :: d <= k
    ensures TreeFits(tree - {d}, live, queued - Members(tree[d])) && Members(tree[d]) <= live.Keys
    ensures Moved(tree - {d}, live, model, queued - Members(tree[d]), current, es + tree[d])
    ensures before + es + tree[d] == before + (es + tree[d]) && |(tree - {d}).Keys| < |tree.Keys|
  {
    hide TreeFits, Moved;
    DrainFits(tree, live, queued, d);
    DrainMoves(tree, live, model, queued, current, es, d);
    Associative(before, es, tree[d]);
    KeysShrink(tree, d);
  }

  function Dues(live: map<RawEntry, Ticket>, es: seq<RawEntry>, at: nat): (due: seq<T.Firing>)
    requires forall e | e in es :: e in live
    ensures |due| == |es|
    ensures forall k | 0 <= k < |es| :: due[k] == T.Firing(live[es[k]].id, live[es[k]].deadline, at)
  {
    seq(|es|, k requires 0 <= k < |es| && es[k] in live => T.Firing(live[es[k]].id, live[es[k]].deadline, at))
  }

  function AfterPoll(model: T.State, live: map<RawEntry, Ticket>, es: seq<RawEntry>, at: nat): (r: T.State)
    requires forall e | e in es :: e in live
  {
    model.(current := at,
           pending := map id | id in model.pending && model.pending[id] > at :: model.pending[id],
           fired := model.fired + Dues(live, es, at))
  }

  lemma DuesExpire(tree: Tree, live: map<RawEntry, Ticket>, model: T.State, queued: set<RawEntry>, current: nat,
                   es: seq<RawEntry>)
    requires NamesOk(live, model) && TreeFits(tree, live, queued) && Moved(tree, live, model, queued, current, es)
    requires forall d | d in tree :: d > current
    ensures T.Expires(model, current, Dues(live, es, current))
  {
    var due := Dues(live, es, current);
    forall id | T.Due(model, id, current) ensures exists k :: 0 <= k < |due| && due[k].id == id {
      var e :| e in live && live[e].id == id;
      assert e in es;
      var k :| 0 <= k < |es| && es[k] == e;
      assert due[k].id == id;
    }
  }

  /** A completed `poll` is the poll of the model. */
  lemma PollRefines(started: nat, tree: Tree, live: map<RawEntry, Ticket>, model: T.State, queued: set<RawEntry>,
                    now: nat, current: nat, es: seq<RawEntry>)
    requires TreeFits(tree, live, queued) && Moved(tree, live, model, queued, current, es)
    requires current == T.Max(model.current, now) && forall d | d in tree :: d > current
    requires NamesOk(live, model) && T.Ok(model)
    ensures forall e | e in es :: e in live && e !in queued
    ensures var model' := AfterPoll(model, live, es, current);
      T.Step(started, model, T.Poll(now), model') && T.Ok(model') && LiveFits(live, model', queued)
  {
    DuesExpire(tree, live, model, queued, current, es);
    T.StepOk(started, model, T.Poll(now), AfterPoll(model, live, es, current));
  }

  lemma FirstKeyWith(tree: Tree, tree': Tree, d: nat)
    requires d > 0 && (forall k | k in tree :: k > 0) && tree'.Keys == tree.Keys + {d}
    ensures FirstKey(tree') == if FirstKey(tree) == 0 || d < FirstKey(tree) then d else FirstKey(tree)
  {
  }

  lemma FirstKeyWithout(tree: Tree, d: nat)
    requires d in tree && d != FirstKey(tree)
    ensures FirstKey(tree - {d}) == FirstKey(tree)
  {
    assert (tree - {d}).Keys == tree.Keys - {d};
    assert Least(tree.Keys) in (tree - {d}).Keys;
  }

  /** The tree with e queued at d. */
  function Inserted(tree: Tree, d: nat, e: RawEntry): (r: Tree) {
    tree[d := (if d in tree then tree[d] else []) + [e]]
  }

  lemma InsertFits(tree: Tree, live: map<RawEntry, Ticket>, queued: set<RawEntry>, e: RawEntry, id: nat, d: nat)
    requires TreeFits(tree, live, queued) && e !in live && 0 < d <= T.MAX
    ensures TreeFits(Inserted(tree, d, e), live[e := Ticket(id, d)], queued + {e})
  {
    var tree' := Inserted(tree, d, e);
    assert forall k | k in tree && k != d :: tree'[k] == tree[k];
    forall f | f in queued ensures live[f].deadline in tree' && f in tree'[live[f].deadline] {
      assert f in tree[live[f].deadline];
    }
    forall k, i, j | k in tree' && 0 <= i < j < |tree'[k]| ensures tree'[k][i] != tree'[k][j] {
      if k in tree && j < |tree[k]| { assert tree[k][i] != tree[k][j]; }
      else if k in tree && k == d { assert tree[d][i] in tree[d]; }
    }
  }

  lemma InsertLive(live: map<RawEntry, Ticket>, model: T.State, queued: set<RawEntry>, e: RawEntry, d: nat,
    model': T.State)
    requires LiveFits(live, model, queued) && e !in live && T.Ok(model)
    requires model'.next == model.next + 1 && model'.pending == model.pending[model.next := d]
    ensures LiveFits(live[e := Ticket(model.next, d)], model', queued + {e})
  {
    var live' := live[e := Ticket(model.next, d)];
    forall id | id in model'.pending ensures exists f :: f in live' && live'[f].id == id {
      if id == model.next { assert live'[e].id == id; }
      else {
        var f: RawEntry :| f in live && live[f].id == id;
        assert live'[f].id == id;
      }
    }
  }

  lemma TimePasses(live: map<RawEntry, Ticket>, model: T.State, queued: set<RawEntry>, current: nat)
    requires LiveFits(live, model, queued)
    ensures LiveFits(live, model.(current := current), queued)
  {
  }

  lemma KeysPositive(tree: Tree, live: map<RawEntry, Ticket>, queued: set<RawEntry>)
    requires TreeFits(tree, live, queued)
    ensures forall d | d in tree :: d > 0
    ensures FirstKey(tree) == 0 <==> tree == map[]
    ensures forall d, e | d in tree && e in tree[d] :: e in queued
    ensures forall e | e in queued :: e in live && live[e].deadline in tree && e in tree[live[e].deadline]
  {
  }

  /** An entry that is not queued can be forgotten. */
  lemma ForgetFits(tree: Tree, live: map<RawEntry, Ticket>, queued: set<RawEntry>, e: RawEntry)
    requires TreeFits(tree, live, queued) && e !in queued
    ensures TreeFits(tree, live - {e}, queued - {e})
  {
    assert queued - {e} == queued;
  }

  /** The tree with e, at index k of its list, taken out. */
  function Removed(tree: Tree, d: nat, k: nat): (r: Tree)
    requires d in tree && k < |tree[d]|
  {
    if |tree[d]| == 1 then tree - {d} else tree[d := SwapRemove(tree[d], k)]
  }

  /** What is left in the list of the entry that is taken out. */
  lemma RemovedList(list: seq<RawEntry>, k: nat)
    requires k < |list| && forall i, j | 0 <= i < j < |list| :: list[i] != list[j]
    ensures var r := SwapRemove(list, k);
      && (forall i, j | 0 <= i < j < |r| :: r[i] != r[j])
      && (forall e :: e in r <==> e in list && e != list[k])
  {
    var r := SwapRemove(list, k);
    forall e | e in list && e != list[k] ensures e in r {
      var i :| 0 <= i < |list| && list[i] == e;
      assert r[if i == |list| - 1 then k else i] == e;
    }
  }

  lemma RemoveFits(tree: Tree, live: map<RawEntry, Ticket>, queued: set<RawEntry>, d: nat, k: nat)
    requires TreeFits(tree, live, queued) && d in tree && k < |tree[d]|
    ensures TreeFits(Removed(tree, d, k), live - {tree[d][k]}, queued - {tree[d][k]})
  {
    var e := tree[d][k];
    var tree' := Removed(tree, d, k);
    assert e in tree[d];
    RemovedList(tree[d], k);
    hide SwapRemove;
    assert forall j | j in tree' && j != d :: j in tree && tree'[j] == tree[j];
    assert d in tree' ==> forall f :: f in tree'[d] <==> f in tree[d] && f != e;
    RemovedMembers(tree, live, queued, d, k);
    forall j, f | j in tree' && f in tree'[j] ensures f in queued && f != e && live[f].deadline == j {
      assert f in tree[j];
    }
  }

  lemma RemovedMembers(tree: Tree, live: map<RawEntry, Ticket>, queued: set<RawEntry>, d: nat, k: nat)
    requires TreeFits(tree, live, queued) && d in tree && k < |tree[d]|
    ensures var tree', e := Removed(tree, d, k), tree[d][k];
      forall f | f in queued && f != e :: live[f].deadline in tree' && f in tree'[live[f].deadline]
  {
    var e := tree[d][k];
    var tree' := Removed(tree, d, k);
    assert e in tree[d];
    RemovedList(tree[d], k);
    hide SwapRemove;
    forall f | f in queued && f != e ensures live[f].deadline in tree' && f in tree'[live[f].deadline] {
      assert f in tree[live[f].deadline];
      assert |tree[d]| == 1 ==> tree[d] == [e];
    }
  }

  lemma RemoveLive(live: map<RawEntry, Ticket>, model: T.State, queued: set<RawEntry>, e: RawEntry)
    requires LiveFits(live, model, queued) && e in live
    ensures LiveFits(live - {e}, model.(pending := model.pending - {live[e].id}), queued - {e})
  {
    var model' := model.(pending := model.pending - {live[e].id});
    forall id | id in model'.pending ensures exists f :: f in live - {e} && (live - {e})[f].id == id {
      var f: RawEntry :| f in live && live[f].id == id;
      assert f in live - {e};
    }
  }

  // ---- the queue -----------------------------------------------------------------------------------

  class Queue {
    const started: nat
    var expires: nat
    var current: nat
    var entryCache: seq<RawEntry>
    var listCache: seq<seq<RawEntry>>
    var tree: Tree

    ghost var live: map<RawEntry, Ticket>   // the entries of delays that are not completed
    ghost var model: T.State                // what the queue stands for

    ghost function Queued(): (r: set<RawEntry>)
      reads `live, live.Keys
    {
      set e | e in live && e.queued
    }

    /** The entries the queue may change. */
    ghost function Entries(): (r: set<RawEntry>)
      reads this
    {
      live.Keys + Members(entryCache)
    }

    ghost predicate CacheOk()
      reads `entryCache, `listCache, `live, entryCache
    {
      && |entryCache| <= MAX_CACHED && |listCache| <= MAX_CACHED
      && (forall k | 0 <= k < |listCache| :: listCache[k] == [])
      && (forall e | e in entryCache :: e !in live && !e.queued)
      && (forall i, j | 0 <= i < j < |entryCache| :: entryCache[i] != entryCache[j])
    }

    ghost predicate Valid()
      reads this, live.Keys, entryCache
    {
      && LiveFits(live, model, Queued()) && TreeFits(tree, live, Queued()) && CacheOk()
      && expires == FirstKey(tree)
      && model.current == current
      && T.Ok(model)
    }

    constructor (instant: nat)
      ensures Valid() && started == instant && live == map[] && model == T.Initial && entryCache == []
    {
      started := instant;
      expires, current := 0, 0;
      entryCache, listCache, tree := [], [], map[];
      live, model := map[], T.Initial;
    }

    /** The peek without the lock is exact between operations. */
    method Expires() returns (e: Option<nat>)
      requires Valid()
      ensures e.None? <==> model.pending == map[]
      ensures e.Some? ==> (exists id :: id in model.pending && model.pending[id] == e.value)
      ensures e.Some? ==> forall id | id in model.pending :: e.value <= model.pending[id]
    {
      e := if expires == 0 then None else Some(expires);
      forall id | id in model.pending ensures model.pending[id] in tree {
        var x :| x in live && live[x].id == id;
      }
      if tree != map[] {
        assert tree[expires][0] in tree[expires];
        assert live[tree[expires][0]].id in model.pending;
      }
    }

    /** The drain of one list: the assert of the original is the first requires. */
    method Unqueue(list: seq<RawEntry>)
      requires forall e | e in list :: e.queued
      requires forall i, j | 0 <= i < j < |list| :: list[i] != list[j]
      modifies Members(list)
      ensures forall e | e in list :: !e.queued
    {
      for k := 0 to |list|
        invariant forall i | 0 <= i < k :: !list[i].queued
        invariant forall i | k <= i < |list| :: list[i].queued
      {
        list[k].queued := false;
      }
    }

    /** One turn of the loop in `poll`. */
    method Drain(deadline: nat, expired: Expired)
      requires TreeFits(tree, live, Queued()) && CacheOk() && deadline in tree
      modifies this`tree, this`listCache, expired, Members(tree[deadline])
      ensures tree == old(tree) - {deadline} && CacheOk()
      ensures Queued() == old(Queued()) - Members(old(tree)[deadline])
      ensures expired.entries == old(expired.entries) + old(tree)[deadline]
    {
      var list := tree[deadline];
      assert forall e | e in list :: e in Queued();
      assert forall i, j | 0 <= i < j < |list| :: tree[deadline][i] != tree[deadline][j];
      tree := tree - {deadline};
      Unqueue(list);
      expired.entries := expired.entries + list;
      if |listCache| < MAX_CACHED { listCache := listCache + [[]]; }
    }

    /** The loop of `poll`. */
    method DrainDue(expired: Expired) returns (ghost es: seq<RawEntry>)
      requires TreeFits(tree, live, Queued()) && CacheOk() && Moved(tree, live, model, Queued(), current, [])
      modifies this`tree, this`listCache, this`expires, expired, live.Keys
      ensures TreeFits(tree, live, Queued()) && CacheOk() && Moved(tree, live, model, Queued(), current, es)
      ensures expires == FirstKey(tree) && forall d | d in tree :: d > current
      ensures expired.entries == old(expired.entries) + es
    {
      hide TreeFits, Moved, CacheOk, FirstKey, Queued, Members;
      es := [];
      while tree != map[]
        invariant TreeFits(tree, live, Queued()) && CacheOk() && Moved(tree, live, model, Queued(), current, es)
        invariant expired.entries == old(expired.entries) + es
        decreases |tree.Keys|
      {
        var deadline := FirstKey(tree);
        if deadline > current {
          expires := deadline;
          return;
        }
        DrainTurn(tree, live, model, Queued(), current, es, deadline, old(expired.entries));
        es := es + tree[deadline];
        Drain(deadline, expired);
      }
      expires := 0;
    }

    /** Moves every entry that is due to `expired`, earliest deadline first. */
    method Poll(now: nat, expired: Expired) returns (ghost es: seq<RawEntry>)
      requires Valid()
      modifies this, expired, live.Keys
      ensures Valid() && live == old(live) && entryCache == old(entryCache)
      ensures T.Step(started, old(model), T.Poll(now), model)
      ensures expired.entries == old(expired.entries) + es && forall e | e in es :: e in live && !e.queued
      ensures model.fired == old(model.fired) + Dues(live, es, current)
    {
      hide TreeFits, Moved, LiveFits, NamesOk, T.Ok, T.Step;
      current := T.Max(current, now);
      NothingMoved(tree, live, model, Queued(), current);
      es := DrainDue(expired);
      ghost var queued := Queued();
      PollRefines(started, tree, live, model, queued, now, current, es);
      model := AfterPoll(model, live, es, current);
      assert Queued() == queued;
    }

    /** `entry_cache.alloc()`: the last cached entry, or a new one. */
    method AllocEntry() returns (e: RawEntry)
      requires CacheOk()
      modifies this`entryCache
      ensures CacheOk() && e !in live && !e.queued && e !in entryCache
      ensures forall f | f in entryCache :: f in old(entryCache)
      ensures e in old(entryCache) || fresh(e)
    {
      var n := |entryCache|;
      if n > 0 {
        e := entryCache[n - 1];
        entryCache := entryCache[..n - 1];
      } else {
        e := new RawEntry();
      }
    }

    /** `list_cache.alloc()` */
    method AllocList() returns (list: seq<RawEntry>)
      requires CacheOk()
      modifies this`listCache
      ensures CacheOk() && list == []
    {
      var n := |listCache|;
      if n > 0 {
        list := listCache[n - 1];
        listCache := listCache[..n - 1];
      } else {
        list := [];
      }
    }

    /** `list_cache.free()` */
    method FreeList(list: seq<RawEntry>)
      requires CacheOk() && list == []
      modifies this`listCache
      ensures CacheOk()
    {
      if |listCache| < MAX_CACHED { listCache := listCache + [list]; }
    }

    /** Appends the entry to the list of its deadline, or to a list of its own. */
    method Link(deadline: nat, e: RawEntry)
      requires CacheOk()
      modifies this`listCache, this`tree
      ensures CacheOk() && tree == Inserted(old(tree), deadline, e)
    {
      var list := AllocList();
      if deadline in tree {
        tree := tree[deadline := tree[deadline] + [e]];
        FreeList(list);
      } else {
        tree := tree[deadline := list + [e]];
      }
    }

    /** `schedule` once the deadline is known to lie ahead. */
    method Enqueue(deadline: nat) returns (e: RawEntry)
      requires TreeFits(tree, live, Queued()) && CacheOk() && expires == FirstKey(tree) && 0 < deadline <= T.MAX
      modifies this`expires, this`entryCache, this`listCache, this`tree, Members(entryCache)
      ensures e !in live && e.queued && e !in entryCache && (e in old(entryCache) || fresh(e))
      ensures CacheOk() && forall f | f in entryCache :: f in old(entryCache)
      ensures tree == Inserted(old(tree), deadline, e) && expires == FirstKey(tree)
    {
      KeysPositive(tree, live, Queued());
      hide TreeFits;
      if expires == 0 || deadline < expires { expires := deadline; }
      e := AllocEntry();
      Link(deadline, e);
      FirstKeyWith(old(tree), tree, deadline);
      e.queued := true;
    }

    /** Makes a delay wait, unless its time has already come. */
    method Schedule(when: T.When, now: nat) returns (delay: Option<Delay>)
      requires Valid()
      modifies this, Members(entryCache)
      ensures Valid() && T.Step(started, old(model), T.Schedule(when, now), model)
      ensures model.next == old(model.next) + if delay.Some? then 1 else 0
      ensures delay.None? ==> live == old(live)
      ensures fresh(Entries() - old(Entries()))
      ensures delay.Some? ==>
        var Delay(deadline, e) := delay.value;
        && e !in old(live) && (e in old(entryCache) || fresh(e))
        && live == old(live)[e := Ticket(old(model.next), deadline)]
        && old(model.next) in model.pending && model.pending[old(model.next)] == deadline
    {
      hide TreeFits, LiveFits, NamesOk, T.Ok;
      if when == T.After(0) { return None; }
      ghost var after := T.AfterSchedule(started, model, when, now);
      T.StepOk(started, model, T.Schedule(when, now), after);
      ghost var queued := Queued();
      current := T.Since(started, now);
      var deadline := T.DeadlineOf(started, when, current);
      if deadline <= current {
        TimePasses(live, model, queued, current);
        model := after;
        assert Queued() == queued;
        return None;
      }
      var e := Await(deadline, after);
      delay := Some(Delay(deadline, e));
    }

    /** `schedule` for a deadline that lies ahead; `after` is what the queue then stands for. */
    method Await(deadline: nat, ghost after: T.State) returns (e: RawEntry)
      requires LiveFits(live, model, Queued()) && TreeFits(tree, live, Queued()) && CacheOk() &&
        expires == FirstKey(tree)
      requires 0 < deadline <= T.MAX && T.Ok(model) && T.Ok(after) && after.current == current
      requires after.next == model.next + 1 && after.pending == model.pending[model.next := deadline]
      modifies this`expires, this`entryCache, this`listCache, this`tree, this`live, this`model, Members(entryCache)
      ensures Valid() && model == after && live == old(live)[e := Ticket(old(model.next), deadline)]
      ensures e !in old(live) && (e in old(entryCache) || fresh(e))
      ensures forall f | f in entryCache :: f in old(entryCache)
    {
      hide TreeFits, LiveFits, NamesOk, T.Ok;
      ghost var queued, before := Queued(), tree;
      e := Enqueue(deadline);
      InsertFits(before, live, queued, e, model.next, deadline);
      InsertLive(live, model, queued, e, deadline, after);
      live := live[e := Ticket(model.next, deadline)];
      model := after;
      assert Queued() == queued + {e};
    }

    /** The scan for an entry that must be in the list of its deadline. */
    method Find(list: seq<RawEntry>, e: RawEntry) returns (k: nat)
      requires e in list
      ensures k < |list| && list[k] == e
    {
      k := 0;
      while list[k] != e
        invariant k < |list| && e !in list[..k]
        decreases |list| - k
      {
        assert list == list[..k] + [list[k]] + list[k + 1..];
        k := k + 1;
      }
    }

    /** `complete` for an entry that is still queued. */
    method Dequeue(deadline: nat, e: RawEntry) returns (ghost k: nat)
      requires TreeFits(tree, live, Queued()) && CacheOk() && expires == FirstKey(tree)
      requires e in live && e.queued && live[e].deadline == deadline
      modifies this`tree, this`listCache, this`expires
      ensures deadline in old(tree) && k < |old(tree)[deadline]| && old(tree)[deadline][k] == e
      ensures tree == Removed(old(tree), deadline, k) && expires == FirstKey(tree) && CacheOk()
    {
      KeysPositive(tree, live, Queued());
      hide TreeFits;
      assert e in Queued();
      var list := tree[deadline];
      var index := Find(list, e);
      k := index;
      list := SwapRemove(list, index);
      if |list| == 0 {
        if deadline != FirstKey(tree) { FirstKeyWithout(tree, deadline); }
        tree := tree - {deadline};
        FreeList(list);
        assert expires != 0;
        if expires == deadline { expires := FirstKey(tree); }
      } else {
        ghost var before := tree;
        tree := tree[deadline := list];
        assert tree.Keys == before.Keys;
      }
    }

    /** Takes the entry of a delay out of the queue, if it is still there, and recycles it. */
    method Complete(delay: Delay)
      requires Valid() && delay.entry in live && live[delay.entry].deadline == delay.deadline
      modifies this, delay.entry
      ensures Valid() && live == old(live) - {delay.entry}
      ensures T.Step(started, old(model), T.Complete(old(live)[delay.entry].id), model)
      ensures model.next == old(model.next) && Entries() <= old(Entries())
    {
      hide TreeFits, LiveFits, NamesOk, T.Ok;
      var Delay(deadline, e) := delay;
      ghost var queued := Queued();
      ghost var after := model.(pending := model.pending - {live[e].id});
      T.StepOk(started, model, T.Complete(live[e].id), after);
      RemoveLive(live, model, queued, e);
      ghost var before := tree;
      if e.queued {
        ghost var k := Dequeue(deadline, e);
        RemoveFits(before, live, queued, deadline, k);
      } else {
        ForgetFits(tree, live, queued, e);
      }
      Recycle(e);
      model := after;
    }

    /** The end of `complete`: the entry may serve another delay. */
    method Recycle(e: RawEntry)
      requires CacheOk() && e in live
      modifies this`entryCache, this`live, e
      ensures CacheOk() && live == old(live) - {e} && Queued() == old(Queued()) - {e}
      ensures forall f | f in entryCache :: f in old(entryCache) || f == e
    {
      e.queued := false;
      if |entryCache| < MAX_CACHED { entryCache := entryCache + [e]; }
      live := live - {e};
    }
  }
}
