/**
 The mapping aggregate, updated in place, and the read-only view published from it.
 */
module Mapping {
  import opened Text
  import opened Ordering
  import opened Agents
  import opened S = MappingSpec

  class Mapping {
    var topics: Topics

    constructor (topics: Topics)
      ensures this.topics == topics
    {
      this.topics := topics;
    }

    method SetMuted(k: string, muted: bool, now: int)
      modifies this
      ensures topics == S.SetMuted(old(topics), k, muted, now)
    {
      if k in topics {
        topics := topics[k := topics[k].(muted := muted, at := now)];
      }
    }

    /** Records a freshly created topic, under the name Telegram confirmed if it gave one. */
    method Link(a: Agent, thread: int, echoed: string, now: int)
      modifies this
      ensures topics == old(topics)[a.Id() := LinkedEntry(a, thread, echoed, now)]
    {
      var name := DesiredName(a);
      if echoed != "" {
        name := echoed;
      }
      topics := topics[a.Id() := Entry(thread, name, a.status, false, false, now)];
    }

    method Diff(k: string, a: Agent) returns (p: Patch)
      ensures p == S.Diff(topics, k, a)
    {
      p := Patch(None, None);
      if k !in topics || !topics[k].status.Live() {
        return;
      }
      if DesiredName(a) != topics[k].name {
        p := Patch(Some(DesiredName(a)), Some(a.status));
      }
      if a.status != topics[k].status {
        p := p.(status := Some(a.status));
      }
    }

    method Apply(k: string, p: Patch, now: int)
      modifies this
      ensures topics == S.Apply(old(topics), k, p, now)
    {
      if k !in topics {
        return;
      }
      var e := topics[k];
      if p.name.Some? {
        e := e.(name := p.name.value);
      }
      if p.status.Some? {
        e := e.(status := p.status.value);
      }
      topics := topics[k := e.(at := now)];
    }

    method MarkExited(k: string, now: int)
      modifies this
      ensures topics == S.MarkExited(old(topics), k, now)
    {
      if k in topics {
        topics := topics[k := topics[k].(status := Exited, at := now)];
      }
    }

    /** MarkClosed and MarkReopened. */
    method MarkClosed(k: string, closed: bool, now: int)
      modifies this
      ensures topics == S.MarkClosed(old(topics), k, closed, now)
    {
      if k in topics {
        topics := topics[k := topics[k].(closed := closed, at := now)];
      }
    }

    method Forget(k: string)
      modifies this
      ensures topics == S.Forget(old(topics), k)
    {
      topics := topics - {k};
    }

    method Keys() returns (out: seq<string>)
      ensures out == S.Keys(topics)
    {
      hide Parses;
      var keys := SortedStrings(topics.Keys);
      out := [];
      for i := 0 to |keys|
        invariant out == Filter(keys[..i], Parses)
      {
        assert keys[..i + 1][..i] == keys[..i];
        if Parses(keys[i]) {
          out := out + [keys[i]];
        }
      }
      assert keys[..|keys|] == keys;
    }

    method Orphans(live: set<string>) returns (out: seq<string>)
      ensures out == S.Orphans(topics, live)
    {
      hide Parses;
      var t := topics;
      var keys := Keys();
      KeysElements(t);
      out := [];
      for i := 0 to |keys|
        invariant out == Filter(keys[..i], IsOrphan(t, live))
      {
        assert keys[..i + 1][..i] == keys[..i];
        var e := t[keys[i]];
        if e.status.Live() && !e.muted && keys[i] !in live {
          out := out + [keys[i]];
        }
      }
      assert keys[..|keys|] == keys;
    }

    method Unclosed() returns (out: seq<string>)
      ensures out == S.Unclosed(topics)
    {
      hide Parses;
      var t := topics;
      var keys := Keys();
      KeysElements(t);
      out := [];
      for i := 0 to |keys|
        invariant out == Filter(keys[..i], IsOpen(t))
      {
        assert keys[..i + 1][..i] == keys[..i];
        var e := t[keys[i]];
        if !e.status.Live() && !e.closed && !e.muted {
          out := out + [keys[i]];
        }
      }
      assert keys[..|keys|] == keys;
    }

    /** The agent behind a thread; the newest entry when several share it. */
    method KeyForThread(thread: int) returns (r: Option<string>)
      ensures r.Some? ==> Answers(topics, thread, r.value) && Parses(r.value)
      ensures r.None? ==> forall k :: Answers(topics, thread, k) ==> !Parses(k)
      ensures r.Some? ==> NewestOf(topics, thread, r.value)
      ensures r.None? ==> forall k :: NewestOf(topics, thread, k) ==> !Parses(k)
    {
      hide Parses, Answers, NewestOf;
      forall k
        ensures Answers(topics, thread, k) <==> NewestOf(topics, thread, k)
      {
        AnswerIsNewest(topics, thread, k);
      }
      var best := BestFor(topics, thread);
      if best.None? {
        return None;
      }
      forall k | Answers(topics, thread, k)
        ensures k == best.value
      {
        AnswerUnique(topics, thread, k, best.value);
      }
      r := if Parses(best.value) then best else None;
    }

    /** Keeps one entry per thread id; returns how many were dropped. */
    method DedupeThreads() returns (removed: nat)
      modifies this
      ensures topics == Deduped(old(topics))
      ensures forall k :: k in topics <==> Newest(old(topics), k)
      ensures removed == |old(topics)| - |topics|
    {
      hide Beats, Holds, Deduped, Newest;
      var best := BestPerThread(topics);
      removed := 0;
      var left := topics.Keys;
      ghost var t := topics;
      while left != {}
        invariant left <= topics.Keys <= t.Keys
        invariant forall k :: k in topics ==> topics[k] == t[k]
        invariant forall k :: k in t && k !in left ==> (k in topics <==> Holds(t, k))
        invariant removed == |t| - |topics|
        decreases |left|
      {
        var k :| k in left;
        if best[topics[k].thread] != k {
          assert (topics - {k}).Keys == topics.Keys - {k};
          topics := topics - {k};
          removed := removed + 1;
        }
        left := left - {k};
      }
      DedupedIs(t, topics);
      SurvivorIsNewest(t);
    }

    /** Drops the oldest exited entries over the limit; returns how many. */
    method Prune(limit: int) returns (removed: nat)
      modifies this
      ensures topics == S.Prune(old(topics), limit)
      ensures removed == |old(topics)| - |topics|
    {
      hide OldestFirst, Older, ExitedKeys, FirstKeys;
      if limit <= 0 || |topics| <= limit {
        PruneUnderLimit(topics, limit);
        return 0;
      }
      ghost var t := topics;
      var exited := OldestFirst(topics, ExitedKeys(topics));
      OldestFirstElements(topics, ExitedKeys(topics));
      ExitedAreEntries(topics);
      NoFirstKeys(exited);
      removed := 0;
      while removed < |exited| && |topics| > limit
        invariant 0 <= removed <= |exited|
        invariant topics == t - FirstKeys(exited, removed)
        invariant |topics| == |t| - removed
        invariant removed > 0 ==> |topics| >= limit
      {
        var k := exited[removed];
        FirstKeysNext(exited, removed);
        assert k in topics;
        assert (topics - {k}).Keys == topics.Keys - {k};
        assert t - FirstKeys(exited, removed) - {k} == t - FirstKeys(exited, removed + 1);
        topics := topics - {k};
        removed := removed + 1;
      }
      ExcessBound(t, limit);
      assert removed == Excess(t, limit);
      PrunedAreFirst(t, limit, exited);
    }

    /** The candidates of the sweep, oldest first. */
    method Stale(now: int, maxAge: int) returns (out: seq<string>)
      ensures forall k :: k in out <==> IsStale(topics, k, now, maxAge)
      ensures forall i, j :: 0 <= i < j < |out| ==> Older(topics, out[i], out[j]) && out[i] != out[j]
      ensures out == S.Stale(topics, now, maxAge)
    {
      hide Parses, Older;
      var t := topics;
      var keys := Keys();
      KeysElements(t);
      out := [];
      for i := 0 to |keys|
        invariant forall k :: k in out <==> k in keys[..i] && IsStale(t, k, now, maxAge)
      {
        assert keys[..i + 1] == keys[..i] + [keys[i]];
        var e := t[keys[i]];
        if !e.status.Live() && e.closed && now - e.at > maxAge {
          out := out + [keys[i]];
        }
      }
      assert keys[..|keys|] == keys;
      ghost var stale := set k | k in t && IsStale(t, k, now, maxAge);
      OldestFirstElements(t, stale);
      hide IsStale;
      out := SortByAge(t, out, stale);
    }
  }

  /** sort.Slice by last change, then by key; equal keys are kept once. */
  method SortByAge(t: Topics, keys: seq<string>, ghost s: set<string>) returns (out: seq<string>)
    requires forall k :: k in keys <==> k in s
    ensures out == OldestFirst(t, s)
  {
    hide Older;
    out := [];
    for i := 0 to |keys|
      invariant Ascends(out, ByAge(t)) && forall k :: k in out <==> k in keys[..i]
    {
      assert keys[..i + 1] == keys[..i] + [keys[i]];
      out := InsertByAge(t, out, keys[i]);
    }
    assert keys[..|keys|] == keys;
    ByAgeIsStrictTotal(t);
    AscendingIsSorted(out, s, ByAge(t));
  }

  method InsertByAge(t: Topics, q: seq<string>, k: string) returns (r: seq<string>)
    requires Ascends(q, ByAge(t))
    ensures Ascends(r, ByAge(t)) && forall j :: j in r <==> j == k || j in q
  {
    hide Older;
    ByAgeIsStrictTotal(t);
    var p := 0;
    while p < |q| && Older(t, q[p], k)
      invariant 0 <= p <= |q|
      invariant forall i :: 0 <= i < p ==> Older(t, q[i], k)
    {
      p := p + 1;
    }
    if p < |q| && q[p] == k {
      return q;
    }
    r := q[..p] + [k] + q[p..];
    assert q == q[..p] + q[p..];
    InsertAscends(t, q, k, p);
  }

  lemma InsertAscends(t: Topics, q: seq<string>, k: string, p: nat)
    requires Ascends(q, ByAge(t)) && p <= |q| && forall i :: 0 <= i < p ==> Older(t, q[i], k)
    requires p < |q| ==> !Older(t, q[p], k) && q[p] != k
    ensures Ascends(q[..p] + [k] + q[p..], ByAge(t))
  {
    hide Older;
    ByAgeIsStrictTotal(t);
    var r, lt := q[..p] + [k] + q[p..], ByAge(t);
    forall i | p <= i < |q|
      ensures lt(k, q[i])
    {
      assert lt(k, q[p]);
      assert i > p ==> lt(q[p], q[i]);
    }
    forall i, j | 0 <= i < j < |r|
      ensures lt(r[i], r[j])
    {
      if i < p {
        assert j < p ==> lt(q[i], q[j]);
        assert j > p ==> lt(q[i], q[j - 1]);
      } else if i > p {
        assert lt(q[i - 1], q[j - 1]);
      }
    }
  }

  lemma DedupedMeans(t: Topics)
    ensures forall k :: k in Deduped(t) ==> k in t && Deduped(t)[k] == t[k]
    ensures forall k :: k in t ==> (k in Deduped(t) <==> Holds(t, k))
  {
    hide Beats;
  }

  lemma DedupedIs(t: Topics, d: Topics)
    requires forall k :: k in d ==> k in t && d[k] == t[k]
    requires forall k :: k in t ==> (k in d <==> Holds(t, k))
    ensures d == Deduped(t)
  {
    hide Beats;
    DedupedMeans(t);
    hide Deduped, Holds;
  }

  lemma ExitedAreEntries(t: Topics)
    ensures ExitedKeys(t) <= t.Keys
  {
  }

  lemma NoFirstKeys(q: seq<string>)
    ensures FirstKeys(q, 0) == {}
  {
  }

  lemma PrunedAreFirst(t: Topics, limit: int, exited: seq<string>)
    requires exited == OldestFirst(t, ExitedKeys(t))
    ensures Excess(t, limit) <= |exited|
    ensures S.Prune(t, limit) == t - FirstKeys(exited, Excess(t, limit))
  {
    hide OldestFirst, Excess;
    ExcessBound(t, limit);
    OldestFirstElements(t, ExitedKeys(t));
  }

  ghost predicate AllIn(keys: seq<string>, t: Topics)
  {
    forall k :: k in keys ==> k in t
  }

  ghost predicate Ascending(keys: seq<string>)
  {
    forall a, b :: 0 <= a < b < |keys| ==> Before(keys[a], keys[b])
  }

  lemma SortedKeysOf(t: Topics)
    ensures var keys := SortedStrings(t.Keys);
      AllIn(keys, t) && Ascending(keys) && forall k :: k in t ==> k in keys
  {
    hide Before;
    SortedStringsElements(t.Keys);
  }

  /** best holds the winner of each thread among the first i keys. */
  ghost predicate BestSoFar(t: Topics, keys: seq<string>, i: nat, best: map<int, string>)
    requires i <= |keys| && AllIn(keys, t)
  {
    && (forall th :: th in best ==> best[th] in keys[..i] && t[best[th]].thread == th)
    && (forall j :: 0 <= j < i ==>
          t[keys[j]].thread in best
          && (keys[j] != best[t[keys[j]].thread] ==> Beats(t, best[t[keys[j]].thread], keys[j])))
  }

  lemma BestNext(t: Topics, keys: seq<string>, i: nat, best: map<int, string>)
    requires i < |keys| && AllIn(keys, t) && Ascending(keys)
    requires BestSoFar(t, keys, i, best)
    ensures var th := t[keys[i]].thread;
      BestSoFar(t, keys, i + 1, if th !in best || Newer(t, keys[i], best[th]) then best[th := keys[i]] else best)
  {
    hide Before, Beats;
    var k, th := keys[i], t[keys[i]].thread;
    assert keys[..i + 1] == keys[..i] + [k];
    if th in best {
      NewcomerWins(t, keys, i, best[th]);
    }
  }

  /** The first loop of DedupeThreads: the winner of each thread. */
  method BestPerThread(t: Topics) returns (best: map<int, string>)
    ensures forall k :: k in t ==> t[k].thread in best
    ensures forall k :: k in t ==> (best[t[k].thread] == k <==> Holds(t, k))
  {
    hide BestSoFar, Newer, Holds, Ascending, SortedStrings;
    var keys := SortedStrings(t.Keys);
    SortedKeysOf(t);
    best := map[];
    NoneBest(t, keys);
    for i := 0 to |keys|
      invariant BestSoFar(t, keys, i, best)
    {
      var k := keys[i];
      assert k in t;
      BestNext(t, keys, i, best);
      if t[k].thread !in best {
        best := best[t[k].thread := k];
      } else {
        BestIsEntry(t, keys, i, best, t[k].thread);
        if Newer(t, k, best[t[k].thread]) {
          best := best[t[k].thread := k];
        }
      }
    }
    WinnersHold(t, keys, best);
  }

  lemma BestIsEntry(t: Topics, keys: seq<string>, i: nat, best: map<int, string>, th: int)
    requires i <= |keys| && AllIn(keys, t) && BestSoFar(t, keys, i, best) && th in best
    ensures best[th] in t
  {
  }

  /** The loop of KeyForThread. */
  method BestFor(t: Topics, thread: int) returns (best: Option<string>)
    ensures best.Some? ==> Answers(t, thread, best.value)
    ensures best.None? ==> forall k :: !Answers(t, thread, k)
  {
    hide Beats, Newer, Ascending, SortedStrings;
    var keys := SortedStrings(t.Keys);
    SortedKeysOf(t);
    best := None;
    for i := 0 to |keys|
      invariant best.Some? ==> best.value in keys[..i] && best.value in t && t[best.value].thread == thread
      invariant best.None? ==> forall j :: 0 <= j < i ==> t[keys[j]].thread != thread
      invariant best.Some? ==> forall j :: 0 <= j < i && t[keys[j]].thread == thread && keys[j] != best.value
                                 ==> Beats(t, best.value, keys[j])
    {
      var k := keys[i];
      assert keys[..i + 1] == keys[..i] + [k];
      if t[k].thread == thread {
        if best.Some? {
          NewcomerWins(t, keys, i, best.value);
        }
        if best.None? || Newer(t, k, best.value) {
          best := Some(k);
        }
      }
    }
  }

  lemma NoneBest(t: Topics, keys: seq<string>)
    requires AllIn(keys, t)
    ensures BestSoFar(t, keys, 0, map[])
  {
  }

  /** A key later in order wins over the best so far only when it is newer. */
  lemma NewcomerWins(t: Topics, keys: seq<string>, i: nat, best: string)
    requires i < |keys| && best in keys[..i] && keys[i] in t && best in t
    requires Ascending(keys) && AllIn(keys, t)
    ensures Beats(t, keys[i], best) <==> Newer(t, keys[i], best)
    ensures Beats(t, best, keys[i]) <==> !Newer(t, keys[i], best)
    ensures Newer(t, keys[i], best) ==>
      forall j :: 0 <= j < i && Beats(t, best, keys[j]) ==> Beats(t, keys[i], keys[j])
  {
    hide Before;
    var b :| 0 <= b < i && keys[b] == best;
    BeforeIsStrictTotal();
    assert Before(best, keys[i]);
    BeatsOrder(t, best, keys[i], best);
    forall j | 0 <= j < i && Beats(t, best, keys[j]) && Newer(t, keys[i], best)
      ensures Beats(t, keys[i], keys[j])
    {
      BeatsOrder(t, keys[i], best, keys[j]);
    }
  }

  lemma WinnersHold(t: Topics, keys: seq<string>, best: map<int, string>)
    requires AllIn(keys, t) && forall k :: k in t ==> k in keys
    requires BestSoFar(t, keys, |keys|, best)
    ensures forall k :: k in t ==> t[k].thread in best
    ensures forall k :: k in t ==> (best[t[k].thread] == k <==> Holds(t, k))
  {
    hide Beats;
    assert keys[..|keys|] == keys;
    forall k | k in t
      ensures t[k].thread in best && (k != best[t[k].thread] ==> Beats(t, best[t[k].thread], k))
    {
      var j :| 0 <= j < |keys| && keys[j] == k;
    }
    forall k | k in t
      ensures best[t[k].thread] == k <==> Holds(t, k)
    {
      var w := best[t[k].thread];
      if k != w {
        BeatsOrder(t, w, k, w);
      }
    }
  }

  ghost function FirstKeys(q: seq<string>, n: nat): set<string>
    requires n <= |q|
  {
    set k | k in q[..n]
  }

  lemma FirstKeysNext(q: seq<string>, n: nat)
    requires n < |q| && forall i, j :: 0 <= i < j < |q| ==> q[i] != q[j]
    ensures FirstKeys(q, n + 1) == FirstKeys(q, n) + {q[n]} && q[n] !in FirstKeys(q, n)
  {
    assert q[..n + 1] == q[..n] + [q[n]];
  }

  /** The snapshot other goroutines read in place of the mapping. */
  class TopicView {
    var entries: map<string, Entry>
    var byThread: map<int, string>

    constructor ()
      ensures entries == map[] && byThread == map[]
    {
      entries, byThread := map[], map[];
    }

    /** The view answers every key that parses and every thread as the mapping does. */
    ghost predicate Mirrors(t: Topics)
      reads this
    {
      && (forall k :: k in entries <==> k in t && Parses(k))
      && (forall k :: k in entries ==> entries[k] == t[k])
      && (forall th, k :: (th in byThread && byThread[th] == k) <==> Answers(t, th, k) && Parses(k))
    }

    /** Replaces the snapshot by the mapping's current content. */
    method Publish(m: Mapping)
      modifies this
      ensures Mirrors(m.topics)
    {
      var es, threads := Snapshot(m);
      entries, byThread := es, threads;
    }

    /** What the mapping t, last published, holds for a key that parses. */
    method Entry(k: string, ghost t: Topics) returns (e: Option<Entry>)
      requires Mirrors(t)
      ensures e == if k in t && Parses(k) then Some(t[k]) else None
    {
      hide Parses;
      e := if k in entries then Some(entries[k]) else None;
    }

    /** What the mapping t, last published, answers for a thread. */
    method KeyForThread(thread: int, ghost t: Topics) returns (k: Option<string>)
      requires Mirrors(t)
      ensures k.Some? ==> Answers(t, thread, k.value) && Parses(k.value)
      ensures k.None? ==> forall j :: Answers(t, thread, j) ==> !Parses(j)
      ensures k.Some? ==> NewestOf(t, thread, k.value)
    {
      hide Parses, Answers, NewestOf;
      if thread in byThread {
        AnswerIsNewest(t, thread, byThread[thread]);
      }
      k := if thread in byThread then Some(byThread[thread]) else None;
    }
  }

  /** The threads answered after the first i keys. */
  ghost predicate ThreadsSoFar(t: Topics, keys: seq<string>, i: nat, threads: map<int, string>)
    requires i <= |keys| && AllIn(keys, t)
  {
    && (forall th :: th in threads ==> Answers(t, th, threads[th]) && Parses(threads[th]))
    && (forall j, k :: 0 <= j < i && Answers(t, t[keys[j]].thread, k) && Parses(k) ==> t[keys[j]].thread in threads)
  }

  /** The loop of Publish. */
  method Snapshot(m: Mapping) returns (es: map<string, Entry>, threads: map<int, string>)
    ensures forall k :: k in es <==> k in m.topics && Parses(k)
    ensures forall k :: k in es ==> es[k] == m.topics[k]
    ensures forall th, k :: (th in threads && threads[th] == k) <==> Answers(m.topics, th, k) && Parses(k)
  {
    hide Parses, ThreadsSoFar, EntriesSoFar, Answers;
    var t := m.topics;
    es, threads := map[], map[];
    var keys := m.Keys();
    KeysElements(t);
    NoThreads(t, keys);
    for i := 0 to |keys|
      invariant EntriesSoFar(t, keys, i, es)
      invariant ThreadsSoFar(t, keys, i, threads)
    {
      EntriesNext(t, keys, i, es);
      var e := t[keys[i]];
      es := es[keys[i] := e];
      var answer: Option<string> := None;
      if e.thread !in threads {
        answer := m.KeyForThread(e.thread);
      }
      ThreadsNext(t, keys, i, threads, answer);
      if answer.Some? {
        threads := threads[e.thread := answer.value];
      }
    }
    EntriesComplete(t, keys, es);
    AnswersComplete(t, keys, threads);
  }

  /** The entries of the first i keys. */
  ghost predicate EntriesSoFar(t: Topics, keys: seq<string>, i: nat, es: map<string, Entry>)
    requires i <= |keys| && AllIn(keys, t)
  {
    && (forall k :: k in es <==> k in keys[..i])
    && (forall k :: k in es ==> k in t && es[k] == t[k])
  }

  lemma EntriesNext(t: Topics, keys: seq<string>, i: nat, es: map<string, Entry>)
    requires i < |keys| && AllIn(keys, t) && EntriesSoFar(t, keys, i, es)
    ensures EntriesSoFar(t, keys, i + 1, es[keys[i] := t[keys[i]]])
  {
    assert keys[..i + 1] == keys[..i] + [keys[i]];
  }

  lemma EntriesComplete(t: Topics, keys: seq<string>, es: map<string, Entry>)
    requires AllIn(keys, t) && EntriesSoFar(t, keys, |keys|, es)
    ensures forall k :: k in es <==> k in keys
    ensures forall k :: k in es ==> es[k] == t[k]
  {
    assert keys[..|keys|] == keys;
  }

  lemma NoThreads(t: Topics, keys: seq<string>)
    requires AllIn(keys, t)
    ensures ThreadsSoFar(t, keys, 0, map[]) && EntriesSoFar(t, keys, 0, map[])
  {
  }

  lemma ThreadsNext(t: Topics, keys: seq<string>, i: nat, threads: map<int, string>, answer: Option<string>)
    requires i < |keys| && AllIn(keys, t) && ThreadsSoFar(t, keys, i, threads)
    requires t[keys[i]].thread in threads ==> answer.None?
    requires answer.Some? ==> Answers(t, t[keys[i]].thread, answer.value) && Parses(answer.value)
    requires t[keys[i]].thread !in threads && answer.None? ==>
      forall k :: Answers(t, t[keys[i]].thread, k) ==> !Parses(k)
    ensures ThreadsSoFar(t, keys, i + 1,
                         if answer.Some? then threads[t[keys[i]].thread := answer.value] else threads)
  {
    hide Parses, Answers;
  }

  lemma AnswersComplete(t: Topics, keys: seq<string>, threads: map<int, string>)
    requires forall k :: k in keys <==> k in t && Parses(k)
    requires ThreadsSoFar(t, keys, |keys|, threads)
    ensures forall th, k :: (th in threads && threads[th] == k) <==> Answers(t, th, k) && Parses(k)
  {
    hide Parses;
    forall th, k | Answers(t, th, k) && Parses(k)
      ensures th in threads && threads[th] == k
    {
      assert k in keys;
      var j :| 0 <= j < |keys| && keys[j] == k;
      AnswerUnique(t, th, k, threads[th]);
    }
  }
}
