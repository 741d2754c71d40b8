/**
 The mapping from agent keys to forum topics: what each operation of the class Mapping does to
 the table of entries.
 */
module MappingSpec {
  import opened Text
  import opened Ordering
  import opened Agents

  datatype Entry = Entry(thread: int, name: string, status: Status, closed: bool, muted: bool, at: int)

  type Topics = map<string, Entry>

  /** A partial edit of a topic; absent fields stay as they are. */
  datatype Patch = Patch(name: Option<string>, status: Option<Status>)
  {
    predicate Empty() {
      name.None? && status.None?
    }
  }

  // ---- Single entries ----

  function LinkedEntry(a: Agent, thread: int, echoed: string, now: int): Entry
  {
    Entry(thread, if echoed != "" then echoed else DesiredName(a), a.status, false, false, now)
  }

  function Patched(e: Entry, p: Patch, now: int): Entry
  {
    e.(name := if p.name.Some? then p.name.value else e.name,
       status := if p.status.Some? then p.status.value else e.status,
       at := now)
  }

  /** The patch that brings a live entry to the agent's name and status. */
  function Diff(t: Topics, k: string, a: Agent): Patch
  {
    if k !in t || !t[k].status.Live() then Patch(None, None)
    else if DesiredName(a) != t[k].name then Patch(Some(DesiredName(a)), Some(a.status))
    else if a.status != t[k].status then Patch(None, Some(a.status))
    else Patch(None, None)
  }

  function Apply(t: Topics, k: string, p: Patch, now: int): Topics
  {
    if k in t then t[k := Patched(t[k], p, now)] else t
  }

  function MarkExited(t: Topics, k: string, now: int): Topics
  {
    if k in t then t[k := t[k].(status := Exited, at := now)] else t
  }

  function MarkClosed(t: Topics, k: string, closed: bool, now: int): Topics
  {
    if k in t then t[k := t[k].(closed := closed, at := now)] else t
  }

  function SetMuted(t: Topics, k: string, muted: bool, now: int): Topics
  {
    if k in t then t[k := t[k].(muted := muted, at := now)] else t
  }

  function Forget(t: Topics, k: string): Topics
  {
    t - {k}
  }

  // ---- Lists for the passes ----

  /** The stored keys that parse, in order. */
  function Keys(t: Topics): seq<string>
  {
    Filter(SortedStrings(t.Keys), Parses)
  }

  predicate Orphan(t: Topics, live: set<string>, k: string)
  {
    k in t && t[k].status.Live() && !t[k].muted && k !in live
  }

  predicate OpenAfterExit(t: Topics, k: string)
  {
    k in t && !t[k].status.Live() && !t[k].closed && !t[k].muted
  }

  function IsOrphan(t: Topics, live: set<string>): string -> bool
  {
    (k: string) => Orphan(t, live, k)
  }

  function IsOpen(t: Topics): string -> bool
  {
    (k: string) => OpenAfterExit(t, k)
  }

  function Orphans(t: Topics, live: set<string>): seq<string>
  {
    Filter(Keys(t), IsOrphan(t, live))
  }

  function Unclosed(t: Topics): seq<string>
  {
    Filter(Keys(t), IsOpen(t))
  }

  lemma KeysElements(t: Topics)
    ensures forall k :: k in Keys(t) <==> k in t && Parses(k)
  {
    SortedStringsElements(t.Keys);
    FilterElements(SortedStrings(t.Keys), Parses);
  }

  lemma OrphansElements(t: Topics, live: set<string>)
    ensures forall k :: k in Orphans(t, live) <==> Parses(k) && Orphan(t, live, k)
  {
    KeysElements(t);
    FilterElements(Keys(t), IsOrphan(t, live));
  }

  lemma UnclosedElements(t: Topics)
    ensures forall k :: k in Unclosed(t) <==> Parses(k) && OpenAfterExit(t, k)
  {
    KeysElements(t);
    FilterElements(Keys(t), IsOpen(t));
  }

  // ---- Duplicates ----

  /** a is newer than b: changed later, or at the same time and live while b is not. */
  predicate Newer(t: Topics, a: string, b: string)
    requires a in t && b in t
  {
    if t[a].at != t[b].at then t[a].at > t[b].at else t[a].status.Live() && !t[b].status.Live()
  }

  /** a wins over b as the entry of their thread: newer, or as new and first by key. */
  predicate Beats(t: Topics, a: string, b: string)
    requires a in t && b in t
  {
    Newer(t, a, b) || (!Newer(t, b, a) && Before(a, b))
  }

  /** k holds its thread: it beats every other entry with the same thread id. */
  ghost predicate Holds(t: Topics, k: string)
    requires k in t
  {
    forall j :: j in t && j != k && t[j].thread == t[k].thread ==> Beats(t, k, j)
  }

  lemma BeatsOrder(t: Topics, a: string, b: string, c: string)
    requires a in t && b in t && c in t
    ensures !Beats(t, a, a)
    ensures a != b ==> (Beats(t, a, b) <==> !Beats(t, b, a))
    ensures Beats(t, a, b) && Beats(t, b, c) ==> Beats(t, a, c)
  {
    BeforeIsStrictTotal();
  }

  function Deduped(t: Topics): Topics
  {
    map k | k in t && (forall j :: j in t && j != k && t[j].thread == t[k].thread ==> Beats(t, k, j)) :: t[k]
  }

  ghost predicate ThreadsUnique(t: Topics)
  {
    forall j, k :: j in t && k in t && j != k ==> t[j].thread != t[k].thread
  }

  /** The winner of a non-empty set of entries. */
  lemma BestExists(t: Topics, s: set<string>) returns (best: string)
    requires s != {} && s <= t.Keys
    ensures best in s && forall j :: j in s && j != best ==> Beats(t, best, j)
  {
    var e :| e in s;
    best := e;
    if s != {e} {
      var m := BestExists(t, s - {e});
      best := if Beats(t, e, m) then e else m;
      forall j | j in s && j != best
        ensures Beats(t, best, j)
      {
        BeatsOrder(t, e, m, j);
        BeatsOrder(t, m, e, j);
        assert j != e ==> j in s - {e};
      }
    }
  }

  /** Whatever order the entries are visited in: one entry per thread survives, the winner. */
  lemma DedupeKeepsOnePerThread(t: Topics)
    ensures ThreadsUnique(Deduped(t))
    ensures forall k :: k in Deduped(t) ==> k in t && Deduped(t)[k] == t[k]
    ensures forall k :: k in t ==> exists w :: w in Deduped(t) && t[w].thread == t[k].thread && Holds(t, w)
  {
    var d := Deduped(t);
    forall j, k | j in d && k in d && j != k
      ensures d[j].thread != d[k].thread
    {
      BeatsOrder(t, j, k, j);
    }
    forall k | k in t
      ensures exists w :: w in d && t[w].thread == t[k].thread && Holds(t, w)
    {
      var same := set j | j in t && t[j].thread == t[k].thread;
      assert k in same;
      var w := BestExists(t, same);
      assert forall j :: j in t && j != w && t[j].thread == t[w].thread ==> j in same;
      assert Holds(t, w) && w in d;
    }
  }

  lemma DedupeOfUnique(t: Topics)
    requires ThreadsUnique(t)
    ensures Deduped(t) == t
  {
  }

  // ---- Which agent is behind a thread ----

  /** The entry that answers for a thread: the one that holds it. */
  ghost predicate Answers(t: Topics, thread: int, k: string)
  {
    k in t && t[k].thread == thread && Holds(t, k)
  }

  lemma AnswerUnique(t: Topics, thread: int, j: string, k: string)
    requires Answers(t, thread, j) && Answers(t, thread, k)
    ensures j == k
  {
    if j != k {
      BeatsOrder(t, j, k, j);
    }
  }

  /** Dropping the duplicates does not change which agent a thread belongs to. */
  lemma DedupeKeepsAnswers(t: Topics, thread: int, k: string)
    ensures Answers(t, thread, k) <==> Answers(Deduped(t), thread, k)
  {
    var d := Deduped(t);
    DedupeKeepsOnePerThread(t);
    if Answers(d, thread, k) {
      assert Holds(t, k);
    }
  }

  /**
   No other entry of the thread was changed later; of those changed at the same time w is live if any
   is, and the first by key among its equals.
   */
  ghost predicate Newest(t: Topics, w: string)
  {
    && w in t
    && forall j :: j in t && j != w && t[j].thread == t[w].thread ==>
         && t[j].at <= t[w].at
         && (t[j].at == t[w].at && t[j].status.Live() ==> t[w].status.Live())
         && (t[j].at == t[w].at && t[j].status.Live() == t[w].status.Live() ==> Before(w, j))
  }

  ghost predicate NewestOf(t: Topics, thread: int, w: string)
  {
    Newest(t, w) && t[w].thread == thread
  }

  /** A thread belongs to the newest of its entries. */
  lemma AnswerIsNewest(t: Topics, thread: int, w: string)
    ensures Answers(t, thread, w) <==> NewestOf(t, thread, w)
  {
    hide Before;
    if w in t {
      NewestHolds(t, w);
    }
  }

  lemma NewestHolds(t: Topics, w: string)
    requires w in t
    ensures Holds(t, w) <==> Newest(t, w)
  {
    hide Before;
    forall j | j in t && j != w && t[j].thread == t[w].thread && Newest(t, w)
      ensures Beats(t, w, j)
    {
    }
  }

  /** Of the duplicates of a thread the newest survives. */
  lemma SurvivorIsNewest(t: Topics)
    ensures forall w :: w in Deduped(t) <==> Newest(t, w)
    ensures forall w :: w in Deduped(t) ==> Deduped(t)[w] == t[w]
  {
    hide Beats, Newest;
    forall w | w in t
      ensures w in Deduped(t) <==> Newest(t, w)
    {
      NewestHolds(t, w);
    }
    assert forall w :: Newest(t, w) ==> w in t by { NewestIsEntry(t); }
  }

  lemma NewestIsEntry(t: Topics)
    ensures forall w :: Newest(t, w) ==> w in t
  {
  }

  // ---- Size and age ----

  /** Ordered by last change, then by key. */
  predicate Older(t: Topics, a: string, b: string)
  {
    var x, y := if a in t then t[a].at else 0, if b in t then t[b].at else 0;
    x < y || (x == y && Before(a, b))
  }

  function ByAge(t: Topics): (string, string) -> bool
  {
    (a: string, b: string) => Older(t, a, b)
  }

  lemma ByAgeIsStrictTotal(t: Topics)
    ensures StrictTotal(ByAge(t))
  {
    BeforeIsStrictTotal();
    var lt := ByAge(t);
    assert forall x: string, y: string :: lt(x, y) <==> Older(t, x, y);
  }

  function OldestFirst(t: Topics, s: set<string>): seq<string>
  {
    ByAgeIsStrictTotal(t);
    Sorted(s, ByAge(t))
  }

  function ExitedKeys(t: Topics): set<string>
  {
    set k | k in t && !t[k].status.Live()
  }

  /** How many entries Prune removes. */
  function Excess(t: Topics, limit: int): nat
  {
    if limit <= 0 || |t| <= limit then 0
    else if |t| - limit <= |ExitedKeys(t)| then |t| - limit else |ExitedKeys(t)|
  }

  function PrunedKeys(t: Topics, limit: int): set<string>
  {
    ByAgeIsStrictTotal(t);
    var victims := OldestFirst(t, ExitedKeys(t))[..Excess(t, limit)];
    set k | k in victims
  }

  function Prune(t: Topics, limit: int): Topics
  {
    t - PrunedKeys(t, limit)
  }

  lemma OldestFirstElements(t: Topics, s: set<string>)
    ensures |OldestFirst(t, s)| == |s|
    ensures forall k :: k in OldestFirst(t, s) <==> k in s
    ensures forall i, j :: 0 <= i < j < |s| ==> Older(t, OldestFirst(t, s)[i], OldestFirst(t, s)[j])
    ensures forall i, j :: 0 <= i < j < |s| ==> OldestFirst(t, s)[i] != OldestFirst(t, s)[j]
  {
    ByAgeIsStrictTotal(t);
    SortedElements(s, ByAge(t));
    SortedAscends(s, ByAge(t));
  }

  lemma {:induction false} DistinctSize<T>(q: seq<T>)
    requires forall i, j :: 0 <= i < j < |q| ==> q[i] != q[j]
    ensures |set x | x in q| == |q|
  {
    if q != [] {
      var init, x := q[..|q| - 1], q[|q| - 1];
      DistinctSize(init);
      assert (set y | y in q) == (set y | y in init) + {x};
      assert x !in init;
    }
  }

  lemma PrunedKeysShape(t: Topics, limit: int)
    ensures PrunedKeys(t, limit) <= ExitedKeys(t)
    ensures |PrunedKeys(t, limit)| == Excess(t, limit)
    ensures forall gone, kept :: gone in PrunedKeys(t, limit) && kept in ExitedKeys(t) - PrunedKeys(t, limit)
              ==> Older(t, gone, kept)
  {
    hide OldestFirst, Older, Excess, ExitedKeys;
    var q := OldestFirst(t, ExitedKeys(t));
    OldestFirstElements(t, ExitedKeys(t));
    var n := Excess(t, limit);
    assert n <= |q| by { ExcessBound(t, limit); }
    DistinctSize(q[..n]);
    forall gone, kept | gone in PrunedKeys(t, limit) && kept in ExitedKeys(t) - PrunedKeys(t, limit)
      ensures Older(t, gone, kept)
    {
      var i :| 0 <= i < n && q[i] == gone;
      var j :| 0 <= j < |q| && q[j] == kept;
    }
  }

  lemma ExcessBound(t: Topics, limit: int)
    ensures Excess(t, limit) <= |ExitedKeys(t)| <= |t|
  {
    SubsetSize(ExitedKeys(t), t.Keys);
  }

  lemma SubsetSize<T>(a: set<T>, b: set<T>)
    requires a <= b
    ensures |a| <= |b| && |b - a| == |b| - |a|
  {
    assert b == a + (b - a);
  }

  /**
   Over the limit, Prune leaves exactly the limit, or every live entry when they alone exceed it;
   it removes exited entries only, and none that changed after an exited one it keeps.
   */
  lemma PruneLeavesLimit(t: Topics, limit: int)
    requires limit > 0 && |t| > limit
    ensures var p, live := Prune(t, limit), |t| - |ExitedKeys(t)|;
      && |p| == (if limit > live then limit else live)
      && (forall k :: k in p ==> k in t && p[k] == t[k])
      && (forall k :: k in t && t[k].status.Live() ==> k in p)
      && (forall gone, kept :: gone in t && gone !in p && kept in p && !t[kept].status.Live() ==>
            t[gone].at <= t[kept].at)
  {
    var gone := PrunedKeys(t, limit);
    PrunedKeysShape(t, limit);
    ExcessBound(t, limit);
    SubsetSize(gone, t.Keys);
    assert Prune(t, limit).Keys == t.Keys - gone;
    forall g, k | g in t && g in gone && k in t && k !in gone && !t[k].status.Live()
      ensures t[g].at <= t[k].at
    {
      assert Older(t, g, k);
    }
  }

  lemma PruneUnderLimit(t: Topics, limit: int)
    ensures limit <= 0 || |t| <= limit ==> Prune(t, limit) == t
  {
  }

  /** Still over the limit, every exited entry went. */
  lemma NoExitedLeft(t: Topics, limit: int)
    requires 0 < limit < |Prune(t, limit)|
    ensures ExitedKeys(Prune(t, limit)) == {}
  {
    if |t| <= limit {
      PruneUnderLimit(t, limit);
    }
    PruneLeavesLimit(t, limit);
    PrunedKeysShape(t, limit);
    ExcessBound(t, limit);
    SubsetSize(ExitedKeys(t), t.Keys);
    assert PrunedKeys(t, limit) == ExitedKeys(t) by {
      SubsetSize(PrunedKeys(t, limit), ExitedKeys(t));
    }
  }

  /** A second prune removes nothing. */
  lemma PruneIdempotent(t: Topics, limit: int)
    ensures Prune(Prune(t, limit), limit) == Prune(t, limit)
  {
    if limit > 0 && |t| > limit {
      var p := Prune(t, limit);
      PruneLeavesLimit(t, limit);
      if |p| > limit {
        NoExitedLeft(t, limit);
        PrunedKeysShape(p, limit);
      }
    } else {
      PruneUnderLimit(t, limit);
    }
  }

  // ---- Candidates of the sweep ----

  predicate IsStale(t: Topics, k: string, now: int, maxAge: int)
  {
    k in t && Parses(k) && !t[k].status.Live() && t[k].closed && now - t[k].at > maxAge
  }

  function Stale(t: Topics, now: int, maxAge: int): seq<string>
  {
    OldestFirst(t, set k | k in t && IsStale(t, k, now, maxAge))
  }

  lemma StaleElements(t: Topics, now: int, maxAge: int)
    ensures forall k :: k in Stale(t, now, maxAge) <==> IsStale(t, k, now, maxAge)
    ensures var q := Stale(t, now, maxAge);
      forall i, j :: 0 <= i < j < |q| ==>
        q[i] in t && q[j] in t && q[i] != q[j] && t[q[i]].at <= t[q[j]].at
  {
    var s := set k | k in t && IsStale(t, k, now, maxAge);
    OldestFirstElements(t, s);
    var q := Stale(t, now, maxAge);
    forall i, j | 0 <= i < j < |q|
      ensures q[i] != q[j] && q[i] in t && q[j] in t && t[q[i]].at <= t[q[j]].at
    {
      assert q[i] in s && q[j] in s && Older(t, q[i], q[j]);
    }
  }
}
