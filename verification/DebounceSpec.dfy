/**
 The debouncer as interleaved atomic steps: calls under the mutex, and the goroutine of each timer
 generation waking up, taking the lock and sending.
 */
module DebounceSpec {
  import opened Ordering

  /** Where the goroutine of a generation is. */
  datatype Pc = Waiting | Woken | Sending | Ended

  datatype Gen = Gen(key: string, pc: Pc)

  /** How a generation ended. */
  datatype Fate = Delivered | Superseded | Cancelled | Drained

  datatype Ending = Ending(gen: nat, fate: Fate)

  /**
   pending maps each key to the generation whose cancel channel is stored for it; closed are the
   cancel channels closed so far; panicked is set by closing one twice. The log records the end of
   each generation in order.
   */
  datatype State = State(
    gens: seq<Gen>,
    pending: map<string, nat>,
    closed: set<nat>,
    panicked: bool,
    due: seq<string>,
    log: seq<Ending>)

  const EMPTY: State := State([], map[], {}, false, [], [])

  // ---- Steps ----

  function CloseChannel(s: State, g: nat): State
  {
    if g in s.closed then s.(panicked := true) else s.(closed := s.closed + {g})
  }

  /** Stops the generation stored for the key, if any. */
  function Stop(s: State, key: string, fate: Fate): State
  {
    if key in s.pending then
      CloseChannel(s, s.pending[key]).(pending := s.pending - {key},
                                       log := s.log + [Ending(s.pending[key], fate)])
    else s
  }

  function Schedule(s: State, key: string): State
  {
    var s1 := Stop(s, key, Superseded);
    s1.(gens := s1.gens + [Gen(key, Waiting)], pending := s1.pending[key := |s1.gens|])
  }

  function Cancel(s: State, key: string): State
  {
    Stop(s, key, Cancelled)
  }

  function StopAll(s: State, keys: seq<string>): State
    decreases keys
  {
    if keys == [] then s else StopAll(Stop(s, keys[0], Drained), keys[1..])
  }

  function Drain(s: State): State
  {
    StopAll(s, SortedStrings(s.pending.Keys))
  }

  function SetPc(s: State, g: nat, pc: Pc): State
    requires g < |s.gens|
  {
    s.(gens := s.gens[g := s.gens[g].(pc := pc)])
  }

  /** The select takes the timer; it may, even when the cancel channel is closed as well. */
  function TimerWins(s: State, g: nat): State
  {
    if g < |s.gens| && s.gens[g].pc.Waiting? then SetPc(s, g, Woken) else s
  }

  /** The select takes the closed cancel channel. */
  function CancelWins(s: State, g: nat): State
  {
    if g < |s.gens| && s.gens[g].pc.Waiting? && g in s.closed then SetPc(s, g, Ended) else s
  }

  /** Under the lock: only the generation still stored for the key goes on. */
  function Enter(s: State, g: nat): State
  {
    if g < |s.gens| && s.gens[g].pc.Woken? then
      var key := s.gens[g].key;
      if key in s.pending && s.pending[key] == g then SetPc(s, g, Sending).(pending := s.pending - {key})
      else SetPc(s, g, Ended)
    else s
  }

  function Send(s: State, g: nat): State
  {
    if g < |s.gens| && s.gens[g].pc.Sending? then
      SetPc(s, g, Ended).(due := s.due + [s.gens[g].key], log := s.log + [Ending(g, Delivered)])
    else s
  }

  datatype Step =
    | DoSchedule(key: string)
    | DoCancel(key: string)
    | DoDrain
    | DoTimer(gen: nat)
    | DoCancelled(gen: nat)
    | DoEnter(gen: nat)
    | DoSend(gen: nat)

  function Do(s: State, step: Step): State
  {
    match step
    case DoSchedule(key) => Schedule(s, key)
    case DoCancel(key) => Cancel(s, key)
    case DoDrain => Drain(s)
    case DoTimer(g) => TimerWins(s, g)
    case DoCancelled(g) => CancelWins(s, g)
    case DoEnter(g) => Enter(s, g)
    case DoSend(g) => Send(s, g)
  }

  function DoAll(s: State, steps: seq<Step>): State
    decreases steps
  {
    if steps == [] then s else DoAll(Do(s, steps[0]), steps[1..])
  }

  // ---- The invariant ----

  ghost predicate Logged(s: State, g: nat)
  {
    exists i :: 0 <= i < |s.log| && s.log[i].gen == g
  }

  ghost predicate Stored(s: State, g: nat)
  {
    g < |s.gens| && s.gens[g].key in s.pending && s.pending[s.gens[g].key] == g
  }

  ghost predicate OnItsWay(s: State, g: nat)
  {
    g < |s.gens| && s.gens[g].pc.Sending?
  }

  ghost predicate StoredWell(s: State)
  {
    forall k :: k in s.pending ==>
      var g := s.pending[k];
      g < |s.gens| && s.gens[g].key == k && (s.gens[g].pc.Waiting? || s.gens[g].pc.Woken?)
  }

  /** No generation ends twice. */
  ghost predicate EndsOnce(s: State)
  {
    forall i, j :: 0 <= i < j < |s.log| ==> s.log[i].gen != s.log[j].gen
  }

  /** Every generation is stored, on its way or logged, and only one of these. */
  ghost predicate Partitioned(s: State)
  {
    && (forall i :: 0 <= i < |s.log| ==> s.log[i].gen < |s.gens|)
    && (forall g: nat :: g < |s.gens| ==>
          (Stored(s, g) || OnItsWay(s, g) || Logged(s, g))
          && !(Stored(s, g) && Logged(s, g)) && !(OnItsWay(s, g) && Logged(s, g)))
  }

  /** The channels closed are those of the generations stopped. */
  ghost predicate ClosedStopped(s: State)
  {
    forall g: nat :: g in s.closed ==> Logged(s, g)
  }

  /** The deliveries are the logged ones, in order. */
  function Deliveries(gens: seq<Gen>, log: seq<Ending>): seq<string>
    requires forall i :: 0 <= i < |log| ==> log[i].gen < |gens|
  {
    if log == [] then []
    else
      Deliveries(gens, log[..|log| - 1])
      + (if log[|log| - 1].fate.Delivered? then [gens[log[|log| - 1].gen].key] else [])
  }

  ghost predicate Inv(s: State)
  {
    && StoredWell(s) && EndsOnce(s) && Partitioned(s) && ClosedStopped(s) && !s.panicked
    && s.due == Deliveries(s.gens, s.log)
  }

  lemma {:induction false} DeliveriesKeys(gens: seq<Gen>, gens': seq<Gen>, log: seq<Ending>)
    requires |gens| <= |gens'| && forall g :: 0 <= g < |gens| ==> gens'[g].key == gens[g].key
    requires forall i :: 0 <= i < |log| ==> log[i].gen < |gens|
    ensures Deliveries(gens', log) == Deliveries(gens, log)
  {
    if log != [] {
      DeliveriesKeys(gens, gens', log[..|log| - 1]);
    }
  }

  lemma LogGrows(s: State, s': State, entry: Ending)
    requires s'.log == s.log + [entry]
    ensures forall g :: Logged(s', g) <==> Logged(s, g) || g == entry.gen
  {
    forall g
      ensures Logged(s', g) <==> Logged(s, g) || g == entry.gen
    {
      if Logged(s, g) {
        var i :| 0 <= i < |s.log| && s.log[i].gen == g;
        assert s'.log[i].gen == g;
      }
      assert s'.log[|s.log|] == entry;
    }
  }

  lemma LogGrowsOnce(s: State, s': State, entry: Ending)
    requires EndsOnce(s) && !Logged(s, entry.gen) && s'.log == s.log + [entry]
    ensures EndsOnce(s')
  {
    forall i | 0 <= i < |s.log|
      ensures s.log[i].gen != entry.gen
    {
      assert s'.log[i] == s.log[i];
    }
  }

  lemma DeliveriesGrow(gens: seq<Gen>, log: seq<Ending>, entry: Ending)
    requires (forall i :: 0 <= i < |log| ==> log[i].gen < |gens|) && entry.gen < |gens|
    ensures forall i :: 0 <= i < |log + [entry]| ==> (log + [entry])[i].gen < |gens|
    ensures Deliveries(gens, log + [entry]) ==
            Deliveries(gens, log) + if entry.fate.Delivered? then [gens[entry.gen].key] else []
  {
    assert (log + [entry])[..|log|] == log;
  }

  lemma StopKeeps(s: State, key: string, fate: Fate)
    requires Inv(s) && !fate.Delivered?
    ensures Inv(Stop(s, key, fate))
  {
    hide Deliveries, EndsOnce, Logged;
    if key in s.pending {
      var g, s' := s.pending[key], Stop(s, key, fate);
      assert Stored(s, g);
      LogGrows(s, s', Ending(g, fate));
      LogGrowsOnce(s, s', Ending(g, fate));
      DeliveriesGrow(s.gens, s.log, Ending(g, fate));
    }
  }

  /** A new generation is stored for a key that had none. */
  lemma StoreKeeps(s: State, key: string)
    requires Inv(s) && key !in s.pending
    ensures Inv(s.(gens := s.gens + [Gen(key, Waiting)], pending := s.pending[key := |s.gens|]))
  {
    var s' := s.(gens := s.gens + [Gen(key, Waiting)], pending := s.pending[key := |s.gens|]);
    assert forall g :: Logged(s', g) <==> Logged(s, g);
    forall g: nat | g < |s.gens|
      ensures Stored(s', g) <==> Stored(s, g)
    {
      assert s'.gens[g] == s.gens[g];
    }
    DeliveriesKeys(s.gens, s'.gens, s.log);
  }

  lemma ScheduleKeeps(s: State, key: string)
    requires Inv(s)
    ensures Inv(Schedule(s, key))
  {
    hide Inv;
    StopKeeps(s, key, Superseded);
    StoreKeeps(Stop(s, key, Superseded), key);
  }

  lemma {:induction false} StopAllKeeps(s: State, keys: seq<string>)
    requires Inv(s)
    ensures Inv(StopAll(s, keys))
    decreases keys
  {
    hide Inv, Stop;
    if keys != [] {
      StopKeeps(s, keys[0], Drained);
      StopAllKeeps(Stop(s, keys[0], Drained), keys[1..]);
    }
  }

  /** A goroutine that moves on without touching pending or the log. */
  lemma PcKeeps(s: State, g: nat, pc: Pc)
    requires Inv(s) && g < |s.gens| && !s.gens[g].pc.Sending? && !pc.Sending?
    requires Stored(s, g) ==> pc.Woken?
    ensures Inv(SetPc(s, g, pc))
  {
    var s' := SetPc(s, g, pc);
    assert forall j :: Logged(s', j) <==> Logged(s, j);
    assert forall j: nat :: j < |s.gens| ==> (Stored(s', j) <==> Stored(s, j));
    DeliveriesKeys(s.gens, s'.gens, s.log);
  }

  lemma EnterKeeps(s: State, g: nat)
    requires Inv(s)
    ensures Inv(Enter(s, g))
  {
    if g < |s.gens| && s.gens[g].pc.Woken? {
      if Stored(s, g) {
        var s' := Enter(s, g);
        assert forall j :: Logged(s', j) <==> Logged(s, j);
        forall j: nat | j < |s.gens|
          ensures Stored(s', j) <==> Stored(s, j) && j != g
        {
          assert s'.gens[j].key == s.gens[j].key;
        }
        DeliveriesKeys(s.gens, s'.gens, s.log);
      } else {
        PcKeeps(s, g, Ended);
      }
    }
  }

  lemma SendKeeps(s: State, g: nat)
    requires Inv(s)
    ensures Inv(Send(s, g))
  {
    hide Deliveries, EndsOnce, Logged;
    if g < |s.gens| && s.gens[g].pc.Sending? {
      var s' := Send(s, g);
      assert OnItsWay(s, g);
      LogGrows(s, s', Ending(g, Delivered));
      LogGrowsOnce(s, s', Ending(g, Delivered));
      DeliveriesGrow(s.gens, s.log, Ending(g, Delivered));
      DeliveriesKeys(s.gens, s'.gens, s'.log);
      forall j: nat | j < |s.gens|
        ensures Stored(s', j) <==> Stored(s, j)
      {
        assert s'.gens[j].key == s.gens[j].key;
      }
    }
  }

  lemma TimerKeeps(s: State, g: nat)
    requires Inv(s)
    ensures Inv(TimerWins(s, g))
  {
    hide Inv;
    if g < |s.gens| && s.gens[g].pc.Waiting? {
      PcKeeps(s, g, Woken);
    }
  }

  /** A cancelled generation is no longer stored. */
  lemma ClosedIsNotStored(s: State, g: nat)
    requires Inv(s) && g < |s.gens| && g in s.closed
    ensures !Stored(s, g)
  {
    hide StoredWell, EndsOnce, Deliveries, Logged, Stored;
    assert Logged(s, g);
  }

  lemma CancelledKeeps(s: State, g: nat)
    requires Inv(s)
    ensures Inv(CancelWins(s, g))
  {
    hide Inv, Stored;
    if g < |s.gens| && s.gens[g].pc.Waiting? && g in s.closed {
      ClosedIsNotStored(s, g);
      PcKeeps(s, g, Ended);
    }
  }

  lemma StepKeeps(s: State, step: Step)
    requires Inv(s)
    ensures Inv(Do(s, step))
  {
    hide Inv, Schedule, Stop, TimerWins, CancelWins, Enter, Send, StopAll, SortedStrings;
    match step
    case DoSchedule(key) => ScheduleKeeps(s, key);
    case DoCancel(key) => StopKeeps(s, key, Cancelled);
    case DoDrain => StopAllKeeps(s, SortedStrings(s.pending.Keys));
    case DoTimer(g) => TimerKeeps(s, g);
    case DoCancelled(g) => CancelledKeeps(s, g);
    case DoEnter(g) => EnterKeeps(s, g);
    case DoSend(g) => SendKeeps(s, g);
  }

  lemma {:induction false} RunKeeps(s: State, steps: seq<Step>)
    requires Inv(s)
    ensures Inv(DoAll(s, steps))
    decreases steps
  {
    hide Inv, Do;
    if steps != [] {
      StepKeeps(s, steps[0]);
      RunKeeps(Do(s, steps[0]), steps[1..]);
    }
  }

  // ---- What any run guarantees ----

  lemma {:induction false} LogOnlyGrows(s: State, steps: seq<Step>)
    ensures s.log <= DoAll(s, steps).log
    decreases steps
  {
    if steps != [] {
      hide Do;
      StepLog(s, steps[0]);
      LogOnlyGrows(Do(s, steps[0]), steps[1..]);
    }
  }

  lemma StepLog(s: State, step: Step)
    ensures s.log <= Do(s, step).log
  {
    hide StopAll, SortedStrings;
    StopAllLog(s, SortedStrings(s.pending.Keys));
  }

  lemma {:induction false} StopAllLog(s: State, keys: seq<string>)
    ensures s.log <= StopAll(s, keys).log
    decreases keys
  {
    if keys != [] {
      StopAllLog(Stop(s, keys[0], Drained), keys[1..]);
    }
  }

  /**
   Over any interleaving: a generation that was superseded, cancelled or drained is never
   delivered afterwards, even when its timer had already fired; no cancel channel is closed twice.
   */
  lemma StoppedNeverDelivers(s: State, steps: seq<Step>, i: nat)
    requires Inv(s) && i < |s.log| && !s.log[i].fate.Delivered?
    ensures var s' := DoAll(s, steps);
      && !s'.panicked
      && forall j :: 0 <= j < |s'.log| && s'.log[j].gen == s.log[i].gen ==> s'.log[j] == s.log[i]
  {
    hide StoredWell, Partitioned, ClosedStopped, Do;
    RunKeeps(s, steps);
    LogOnlyGrows(s, steps);
  }

  /** A call that supersedes, cancels or drains the key's timer. */
  predicate Touches(step: Step, key: string)
  {
    match step
    case DoSchedule(k) => k == key
    case DoCancel(k) => k == key
    case DoDrain => true
    case _ => false
  }

  /** The generation is armed or on its way, or was delivered. */
  ghost predicate Kept(s: State, g: nat, key: string)
  {
    && g < |s.gens| && s.gens[g].key == key
    && (Stored(s, g) || OnItsWay(s, g) || Ending(g, Delivered) in s.log)
  }

  lemma StepKept(s: State, step: Step, g: nat, key: string)
    requires Inv(s) && Kept(s, g, key) && !Touches(step, key)
    ensures Kept(Do(s, step), g, key)
  {
    hide StopAll, SortedStrings, EndsOnce, Deliveries, StoredWell;
    if step.DoCancelled? && step.gen < |s.gens| && step.gen in s.closed {
      ClosedIsNotStored(s, step.gen);
    }
  }

  /** A timer that nobody touches is not lost: it stays armed until it is delivered. */
  lemma {:induction false} UntouchedIsKept(s: State, steps: seq<Step>, g: nat, key: string)
    requires Inv(s) && Kept(s, g, key)
    requires forall i :: 0 <= i < |steps| ==> !Touches(steps[i], key)
    ensures Kept(DoAll(s, steps), g, key)
    decreases steps
  {
    hide Inv, Do, Kept, Touches;
    if steps != [] {
      StepKept(s, steps[0], g, key);
      StepKeeps(s, steps[0]);
      UntouchedIsKept(Do(s, steps[0]), steps[1..], g, key);
    }
  }

  /** A schedule arms a new timer; when it fires, and its goroutine runs, the key is delivered. */
  lemma ScheduledDelivers(s: State, key: string)
    requires Inv(s)
    ensures var g, armed := |s.gens|, Schedule(s, key);
      && Kept(armed, g, key) && armed.due == s.due
      && var sent := Send(Enter(TimerWins(armed, g), g), g);
         sent.due == s.due + [key] && Ending(g, Delivered) in sent.log && key !in sent.pending
  {
    hide StoredWell, EndsOnce, Partitioned, ClosedStopped;
  }

  ghost function Indices(n: nat): set<nat>
  {
    if n == 0 then {} else Indices(n - 1) + {n - 1}
  }

  lemma {:induction false} IndicesSize(n: nat)
    ensures |Indices(n)| == n
    ensures forall g: nat :: g in Indices(n) <==> g < n
  {
    if n > 0 {
      IndicesSize(n - 1);
    }
  }

  ghost function LoggedGens(log: seq<Ending>): set<nat>
  {
    if log == [] then {} else LoggedGens(log[..|log| - 1]) + {log[|log| - 1].gen}
  }

  lemma {:induction false} LoggedMeans(log: seq<Ending>, g: nat)
    ensures g in LoggedGens(log) <==> exists i :: 0 <= i < |log| && log[i].gen == g
  {
    if log != [] {
      var init := log[..|log| - 1];
      LoggedMeans(init, g);
      if exists i :: 0 <= i < |log| && log[i].gen == g {
        var i :| 0 <= i < |log| && log[i].gen == g;
        assert i < |init| ==> init[i].gen == g;
      }
    }
  }

  lemma {:induction false} LoggedSize(log: seq<Ending>)
    requires forall i, j :: 0 <= i < j < |log| ==> log[i].gen != log[j].gen
    ensures |LoggedGens(log)| == |log|
  {
    if log != [] {
      LoggedSize(log[..|log| - 1]);
      LoggedMeans(log[..|log| - 1], log[|log| - 1].gen);
    }
  }

  ghost function StoredGens(pending: map<string, nat>): set<nat>
  {
    set k | k in pending :: pending[k]
  }

  lemma {:induction false} StoredSize(pending: map<string, nat>)
    requires forall j, k :: j in pending && k in pending && j != k ==> pending[j] != pending[k]
    ensures |StoredGens(pending)| == |pending|
    decreases |pending|
  {
    if pending != map[] {
      var k :| k in pending;
      var rest := pending - {k};
      assert rest.Keys == pending.Keys - {k};
      assert |rest| == |pending| - 1;
      StoredSize(rest);
      StoredWithout(pending, k);
    }
  }

  lemma StoredWithout(pending: map<string, nat>, k: string)
    requires k in pending
    requires forall j :: j in pending && j != k ==> pending[j] != pending[k]
    ensures StoredGens(pending) == StoredGens(pending - {k}) + {pending[k]}
    ensures pending[k] !in StoredGens(pending - {k})
  {
    var rest := pending - {k};
    forall g
      ensures g in StoredGens(pending) <==> g in StoredGens(rest) || g == pending[k]
    {
      if g in StoredGens(pending) && g != pending[k] {
        var j :| j in pending && pending[j] == g;
        assert j in rest && rest[j] == g;
      }
      if g in StoredGens(rest) {
        var j :| j in rest && rest[j] == g;
        assert j in pending && pending[j] == g;
      }
    }
  }

  ghost function SendingGens(s: State): set<nat>
  {
    set g: nat | g < |s.gens| && s.gens[g].pc.Sending?
  }

  lemma SetsMean(s: State)
    requires StoredWell(s)
    ensures forall g: nat :: g in LoggedGens(s.log) <==> Logged(s, g)
    ensures forall g: nat :: g in StoredGens(s.pending) <==> Stored(s, g)
    ensures forall g: nat :: g in SendingGens(s) <==> OnItsWay(s, g)
  {
    forall g: nat
      ensures g in LoggedGens(s.log) <==> Logged(s, g)
    {
      LoggedMeans(s.log, g);
    }
    forall g: nat
      ensures g in StoredGens(s.pending) <==> Stored(s, g)
    {
      if g in StoredGens(s.pending) {
        var k :| k in s.pending && s.pending[k] == g;
      }
    }
  }

  lemma SumOfThree(all: set<nat>, a: set<nat>, b: set<nat>, c: set<nat>)
    requires a !! b && a !! c && b !! c
    requires forall g :: g in all <==> g in a || g in b || g in c
    ensures |all| == |a| + |b| + |c|
  {
    assert all == a + b + c;
  }

  /** Deliveries, other endings and generations still open add up to the schedules. */
  lemma SchedulesAddUp(s: State)
    requires Inv(s)
    ensures |s.log| + |s.pending| + |SendingGens(s)| == |s.gens|
  {
    LoggedSize(s.log);
    StoredSize(s.pending);
    IndicesSize(|s.gens|);
    SetsMean(s);
    var logged, stored, sending := LoggedGens(s.log), StoredGens(s.pending), SendingGens(s);
    hide LoggedGens, StoredGens, SendingGens;
    forall g: nat
      ensures !(g in logged && g in stored) && !(g in logged && g in sending) && !(g in stored && g in sending)
      ensures g in Indices(|s.gens|) <==> g in logged || g in stored || g in sending
    {
      assert Logged(s, g) || Stored(s, g) || OnItsWay(s, g) ==> g < |s.gens|;
    }
    SumOfThree(Indices(|s.gens|), logged, stored, sending);
  }

  /** From a new debouncer, any interleaving keeps the invariant and the balance. */
  lemma AnyInterleaving(steps: seq<Step>)
    ensures var s := DoAll(EMPTY, steps);
      && Inv(s)
      && |s.log| + |s.pending| + |SendingGens(s)| == |s.gens|
  {
    assert Inv(EMPTY);
    RunKeeps(EMPTY, steps);
    SchedulesAddUp(DoAll(EMPTY, steps));
  }
}
