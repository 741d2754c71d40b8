/**
 The debouncer: cancel channels per key under a mutex, one goroutine per timer. Each method is one
 atomic step of the interleaving.
 */
module Debounce {
  import opened Ordering
  import S = DebounceSpec

  class Debouncer {
    var gens: seq<S.Gen>
    var pending: map<string, nat>
    var closed: set<nat>
    var panicked: bool
    var due: seq<string>
    ghost var log: seq<S.Ending>

    ghost function Value(): S.State
      reads this
    {
      S.State(gens, pending, closed, panicked, due, log)
    }

    constructor ()
      ensures Value() == S.EMPTY
    {
      gens, pending, closed, panicked, due, log := [], map[], {}, false, [], [];
    }

    /** Closing a closed channel panics. */
    method CloseChannel(g: nat)
      modifies this
      ensures Value() == S.CloseChannel(old(Value()), g)
    {
      if g in closed {
        panicked := true;
      } else {
        closed := closed + {g};
      }
    }

    /** Arms the timer for key, replacing the one already armed. */
    method Schedule(key: string)
      modifies this
      ensures Value() == S.Schedule(old(Value()), key)
      ensures pending.Keys == old(pending).Keys + {key}
    {
      if key in pending {
        CloseChannel(pending[key]);
        log := log + [S.Ending(pending[key], S.Superseded)];
        pending := pending - {key};
      }
      pending := pending[key := |gens|];
      gens := gens + [S.Gen(key, S.Waiting)];
    }

    /** Disarms key; was says whether it was armed. */
    method Cancel(key: string) returns (was: bool)
      modifies this
      ensures Value() == S.Cancel(old(Value()), key)
      ensures was <==> key in old(pending)
      ensures pending.Keys == old(pending).Keys - {key}
    {
      if key !in pending {
        return false;
      }
      CloseChannel(pending[key]);
      log := log + [S.Ending(pending[key], S.Cancelled)];
      pending := pending - {key};
      return true;
    }

    /** One turn of the loop of Drain. */
    method StopOne(key: string)
      modifies this
      ensures Value() == S.Stop(old(Value()), key, S.Drained)
      ensures pending == old(pending) - {key}
    {
      if key in pending {
        CloseChannel(pending[key]);
        log := log + [S.Ending(pending[key], S.Drained)];
        pending := pending - {key};
      }
    }

    /** Stops all that is armed; the owner gets the keys, sorted. */
    method Drain() returns (keys: seq<string>)
      modifies this
      ensures Value() == S.Drain(old(Value()))
      ensures keys == SortedStrings(old(pending).Keys) && pending == map[]
    {
      hide S.Stop, SortedStrings, Within;
      keys := SortedStrings(pending.Keys);
      SortedStringsElements(pending.Keys);
      AllWithin(pending, keys);
      var i := 0;
      assert keys[0..] == keys;
      while i < |keys|
        invariant 0 <= i <= |keys|
        invariant S.StopAll(Value(), keys[i..]) == S.Drain(old(Value()))
        invariant Within(pending, keys[i..])
      {
        assert keys[i..][0] == keys[i] && keys[i..][1..] == keys[i + 1..];
        WithinTail(pending, keys[i..]);
        StopOne(keys[i]);
        i := i + 1;
      }
      WithinNone(pending);
    }

    /** The goroutine's select takes the timer. */
    method TimerWins(g: nat)
      modifies this
      ensures Value() == S.TimerWins(old(Value()), g)
    {
      if g < |gens| && gens[g].pc.Waiting? {
        gens := gens[g := gens[g].(pc := S.Woken)];
      }
    }

    /** The goroutine's select takes the cancel channel. */
    method CancelWins(g: nat)
      modifies this
      ensures Value() == S.CancelWins(old(Value()), g)
    {
      if g < |gens| && gens[g].pc.Waiting? && g in closed {
        gens := gens[g := gens[g].(pc := S.Ended)];
      }
    }

    /** The goroutine under the lock. */
    method Enter(g: nat)
      modifies this
      ensures Value() == S.Enter(old(Value()), g)
    {
      if g < |gens| && gens[g].pc.Woken? {
        var key := gens[g].key;
        if key !in pending || pending[key] != g {
          gens := gens[g := gens[g].(pc := S.Ended)];
          return;
        }
        pending := pending - {key};
        gens := gens[g := gens[g].(pc := S.Sending)];
      }
    }

    /** The goroutine sends on the due channel. */
    method Send(g: nat)
      modifies this
      ensures Value() == S.Send(old(Value()), g)
    {
      if g < |gens| && gens[g].pc.Sending? {
        due := due + [gens[g].key];
        gens := gens[g := gens[g].(pc := S.Ended)];
        log := log + [S.Ending(g, S.Delivered)];
      }
    }
  }

  ghost predicate Within(pending: map<string, nat>, keys: seq<string>)
  {
    forall k :: k in pending ==> k in keys
  }

  lemma AllWithin(pending: map<string, nat>, keys: seq<string>)
    requires forall k :: k in keys <==> k in pending.Keys
    ensures Within(pending, keys)
  {
  }

  lemma WithinTail(pending: map<string, nat>, keys: seq<string>)
    requires keys != [] && Within(pending, keys)
    ensures Within(pending - {keys[0]}, keys[1..])
  {
    assert keys == [keys[0]] + keys[1..];
  }

  lemma WithinNone(pending: map<string, nat>)
    requires Within(pending, [])
    ensures pending == map[]
  {
  }
}
