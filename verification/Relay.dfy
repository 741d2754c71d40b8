/**
 The relay: its state in memory and on disk, and the deployment that walks a plan step by step.
 Saves and calls end as they like; every method is a run of the atomic steps of RelaySpec.
 */
module Relay {
  import opened Text
  import opened DeployPlan
  import S = RelaySpec

  class Relay {
    var mem: S.Data
    var disk: S.Data
    var failed: bool
    var up: bool
    ghost var pc: S.Pc
    ghost var issued: map<string, seq<string>>
    ghost var created: seq<string>
    ghost var admitted: seq<(string, int)>
    ghost var clock: int

    ghost function Value(): S.Sys
      reads this
    {
      S.Sys(mem, disk, failed, up, pc, issued, created, admitted, clock)
    }

    /** A new process over the state file. */
    constructor (disk: S.Data)
      ensures Value() == S.Sys(disk, disk, false, true, S.Idle, map[], [], [], 0)
    {
      mem, this.disk, failed, up := disk, disk, false, true;
      pc, issued, created, admitted, clock := S.Idle, map[], [], [], 0;
    }

    /** Writes the file, unless a write failed before; the process may die writing. */
    method Save() returns (ok: bool, ghost out: S.SaveOut)
      modifies this
      ensures S.SaveResult(Value(), ok) == S.Save(old(Value()), out)
    {
      var how: S.SaveOut := *;
      out := how;
      if failed {
        return false, out;
      }
      match how
      case Saved =>
        disk := mem;
        ok := true;
      case SaveError(durable) =>
        failed := true;
        disk := if durable then mem else disk;
        ok := false;
      case SaveCrash(durable) =>
        disk := if durable then mem else disk;
        up, pc := false, S.Idle;
        ok := false;
    }

    /** Admits an event key unless it was seen in the last 48 hours. */
    method Once(key: string, now: int) returns (ok: bool, ghost act: S.Act)
      requires up && now >= clock
      modifies this
      ensures Value() == S.Do(old(Value()), act) && S.Legal(old(Value()), act)
      ensures act.DoOnce? && act.key == key && act.now == now && ok == S.Once(old(Value()), key, now, act.out).ok
      ensures ok <==> admitted == old(admitted) + [(key, now)]
      ensures key in old(mem).seen ==> !ok
    {
      ghost var out: S.SaveOut := S.Saved;
      act := S.DoOnce(key, now, out);
      if key in mem.seen {
        return false, act;
      }
      var seen := map k | k in mem.seen && now - mem.seen[k] <= S.WINDOW :: mem.seen[k];
      mem := mem.(seen := seen[key := now]);
      clock := now;
      ok, out := Save();
      act := S.DoOnce(key, now, out);
      if ok {
        admitted := admitted + [(key, now)];
      }
    }

    method SetTopic(key: string, t: S.Topic)
      modifies this`mem
      ensures Value() == S.SetTopic(old(Value()), key, t)
    {
      mem := mem.(topics := mem.topics[key := t]);
    }

    /** The topic of a workspace and floor, created on first use. */
    method EnsureTopic(ws: string, floor: string, name: string) returns (ok: bool, ghost act: S.Act)
      requires up
      modifies this
      ensures Value() == S.Do(old(Value()), act) && S.Legal(old(Value()), act)
      ensures act.DoEnsure? && act.ws == ws && act.floor == floor && act.name == name
      ensures ok == S.EnsureTopic(old(Value()), ws, floor, name, act.first, act.call, act.thread, act.second).ok
      ensures ok ==> S.Scope(ws, floor) in mem.topics && !mem.topics[S.Scope(ws, floor)].pending
    {
      var call: S.CallOut := *;
      var thread: int := *;
      ghost var first, second: S.SaveOut := S.Saved, S.Saved;
      var key := S.Scope(ws, floor);
      act := S.DoEnsure(ws, floor, name, first, call, thread, second);
      if key in mem.topics {
        var t := mem.topics[key];
        if t.pending {
          return false, act;
        }
        if t.name == name {
          return true, act;
        }
        match call {
          case CallError => ok := false;
          case CallCrash(_) =>
            up, pc := false, S.Idle;
            ok := false;
          case Result(_) =>
            SetTopic(key, t.(name := name));
            ok, first := Save();
            act := S.DoEnsure(ws, floor, name, first, call, thread, second);
        }
        return;
      }
      SetTopic(key, S.Topic(ws, floor, name, 0, true));
      ok, first := Save();
      act := S.DoEnsure(ws, floor, name, first, call, thread, second);
      if !ok {
        return;
      }
      created := created + [key];
      match call
      case CallError => ok := false;
      case CallCrash(_) =>
        up, pc := false, S.Idle;
        ok := false;
      case Result(_) =>
        SetTopic(key, S.Topic(ws, floor, name, thread, false));
        ok, second := Save();
        act := S.DoEnsure(ws, floor, name, first, call, thread, second);
    }

    // ---- Deployments ----

    method SetJob(j: string, job: S.Job)
      modifies this`mem
      ensures Value() == S.SetJob(old(Value()), j, job)
    {
      mem := mem.(jobs := mem.jobs[j := job]);
    }

    /** Saves, and moves the deployment on or ends it. */
    method SaveAnd(ghost next: S.Pc) returns (ok: bool, ghost out: S.SaveOut)
      modifies this
      ensures Value() == S.SaveAnd(old(Value()), out, next)
      ensures ok ==> pc == next && mem == old(mem) && disk == mem && up == old(up)
      ensures !ok ==> pc == S.Idle
    {
      ok, out := Save();
      pc := if ok then next else S.Idle;
    }

    /** The step pending on disk, then the call, then its answer on disk; or the start of that. */
    static ghost predicate WriteAhead(acts: seq<S.Act>)
    {
      && 1 <= |acts| <= 3 && acts[0].DoBegin?
      && (|acts| > 1 ==> acts[1].DoCall?)
      && (|acts| > 2 ==> acts[2].DoEnd?)
    }

    /** One step: kept results are not repeated, a pending step is an error, else write ahead. */
    method Step(j: string, name: string, ghost i: nat) returns (ok: bool, result: string, ghost acts: seq<S.Act>)
      requires up && pc == S.At(j, i) && j in mem.jobs
      requires i < |S.Steps(mem.jobs[j])| && S.Steps(mem.jobs[j])[i] == name && name != ""
      modifies this
      ensures Value() == S.DoAll(old(Value()), acts) && S.LegalRun(old(Value()), acts)
      ensures ok ==> up && pc == S.At(j, i + 1) && j in mem.jobs && mem.jobs[j].plan == old(mem.jobs[j].plan)
                     && name in mem.jobs[j].results && mem.jobs[j].results[name] == result
      ensures if name in old(mem.jobs[j].results) then acts == [S.DoAdvance] && issued == old(issued)
              else WriteAhead(acts)
      ensures !ok ==> pc == S.Idle
    {
      hide S.Do, StepNames;
      result := "";
      ghost var s0 := Value();
      var job := mem.jobs[j];
      if name in job.results {
        result := job.results[name];
        SkipIs(s0, j, name, i);
        pc := S.At(j, i + 1);
        acts := [S.DoAdvance];
        OneAct(s0, S.DoAdvance);
        return true, result, acts;
      }
      ghost var first;
      ok, first := Begin(j, name, i);
      ghost var s1 := Value();
      OneAct(s0, S.DoBegin(first));
      acts := [S.DoBegin(first)];
      if !ok {
        return;
      }
      var call: S.CallOut := *;
      result := Call(j, name, i, call);
      ghost var s2 := Value();
      OneAct(s1, S.DoCall(call));
      MoreActs(s0, acts, [S.DoCall(call)]);
      acts := acts + [S.DoCall(call)];
      if !call.Result? {
        return false, result, acts;
      }
      ghost var second;
      ok, second := End(j, name, i, result);
      OneAct(s2, S.DoEnd(second));
      MoreActs(s0, acts, [S.DoEnd(second)]);
      acts := acts + [S.DoEnd(second)];
    }

    /** The step is pending on disk before it is called. */
    method Begin(j: string, name: string, ghost i: nat) returns (ok: bool, ghost out: S.SaveOut)
      requires up && pc == S.At(j, i) && j in mem.jobs && name !in mem.jobs[j].results
      requires i < |S.Steps(mem.jobs[j])| && S.Steps(mem.jobs[j])[i] == name
      modifies this
      ensures Value() == S.Do(old(Value()), S.DoBegin(out))
      ensures ok ==> up && pc == S.Begun(j, i) && j in mem.jobs && mem.jobs[j].plan == old(mem.jobs[j].plan)
      ensures !ok ==> pc == S.Idle
    {
      hide StepNames;
      var job := mem.jobs[j];
      if job.pending != "" {
        pc := S.Idle;
        return false, S.Saved;
      }
      SetJob(j, job.(pending := name));
      ok, out := SaveAnd(S.Begun(j, i));
    }

    /** The answer is kept and the step no longer pending. */
    method End(j: string, name: string, ghost i: nat, result: string) returns (ok: bool, ghost out: S.SaveOut)
      requires up && pc == S.Answered(j, i, result) && j in mem.jobs
      requires i < |S.Steps(mem.jobs[j])| && S.Steps(mem.jobs[j])[i] == name
      modifies this
      ensures Value() == S.Do(old(Value()), S.DoEnd(out))
      ensures ok ==> up && pc == S.At(j, i + 1) && j in mem.jobs && mem.jobs[j].plan == old(mem.jobs[j].plan)
                     && name in mem.jobs[j].results && mem.jobs[j].results[name] == result
      ensures !ok ==> pc == S.Idle
    {
      hide StepNames;
      var job := mem.jobs[j];
      SetJob(j, job.(results := job.results[name := result], pending := ""));
      ok, out := SaveAnd(S.At(j, i + 1));
    }

    /** The Wire call of a step that is pending on disk. */
    method Call(j: string, name: string, ghost i: nat, call: S.CallOut) returns (result: string)
      requires up && pc == S.Begun(j, i) && j in mem.jobs
      requires i < |S.Steps(mem.jobs[j])| && S.Steps(mem.jobs[j])[i] == name
      modifies this`issued, this`pc, this`up
      ensures Value() == S.Do(old(Value()), S.DoCall(call)) && mem == old(mem)
      ensures call.Result? ==> result == call.value && up && pc == S.Answered(j, i, result)
      ensures !call.Result? ==> pc == S.Idle
    {
      hide StepNames;
      result := "";
      if call.CallCrash? && !call.made {
        up, pc := false, S.Idle;
        return;
      }
      issued := issued[j := (if j in issued then issued[j] else []) + [name]];
      match call
      case Result(v) =>
        result := v;
        pc := S.Answered(j, i, v);
      case CallError => pc := S.Idle;
      case CallCrash(_) => up, pc := false, S.Idle;
    }

    /** The job is found or made, and saved. */
    method Register(j: string, plan: Plan) returns (ok: bool, done: bool, ghost acts: seq<S.Act>)
      requires up && pc == S.Idle && ValidPlan(plan)
      modifies this
      ensures Value() == S.DoAll(old(Value()), acts) && S.LegalRun(old(Value()), acts)
      ensures ok && !done ==> up && pc == S.At(j, 0) && j in mem.jobs && mem.jobs[j].plan == plan
      ensures ok && done ==> Value() == old(Value()) && j in mem.jobs && mem.jobs[j].plan == plan && mem.jobs[j].done
      ensures !ok ==> pc == S.Idle
    {
      hide ValidPlan;
      ghost var s0 := Value();
      acts := [];
      if j in mem.jobs && mem.jobs[j].plan != plan {
        return false, false, acts;
      }
      var job := S.Job(plan, "", map[], false);
      if j in mem.jobs {
        job := mem.jobs[j];
      }
      done := job.done;
      if done {
        return true, done, acts;
      }
      SetJob(j, job);
      ghost var out;
      ok, out := SaveAnd(S.At(j, 0));
      acts := [S.DoRegister(j, plan, out)];
      OneAct(s0, S.DoRegister(j, plan, out));
    }

    /** The canvas before a native arrangement is applied is kept once. */
    method KeepBefore(j: string, canvas: string, ghost i: nat) returns (ok: bool, ghost acts: seq<S.Act>)
      requires up && pc == S.At(j, i) && j in mem.jobs
      modifies this
      ensures Value() == S.DoAll(old(Value()), acts) && S.LegalRun(old(Value()), acts)
      ensures ok ==> up && pc == S.At(j, i) && j in mem.jobs && mem.jobs[j].plan == old(mem.jobs[j].plan)
      ensures !ok ==> pc == S.Idle
    {
      ghost var s0 := Value();
      acts := [];
      if NATIVE_BEFORE in mem.jobs[j].results {
        return true, acts;
      }
      var job := mem.jobs[j];
      SetJob(j, job.(results := job.results[NATIVE_BEFORE := canvas]));
      ghost var out;
      ok, out := SaveAnd(S.At(j, i));
      acts := [S.DoKeepBefore(canvas, out)];
      OneAct(s0, S.DoKeepBefore(canvas, out));
    }

    method Finish(j: string, ghost i: nat) returns (ok: bool, ghost acts: seq<S.Act>)
      requires up && pc == S.At(j, i) && j in mem.jobs && i == |S.Steps(mem.jobs[j])|
      modifies this
      ensures Value() == S.DoAll(old(Value()), acts) && S.LegalRun(old(Value()), acts)
      ensures ok ==> j in disk.jobs && disk.jobs[j].done && disk.jobs[j].plan == old(mem.jobs[j].plan)
      ensures pc == S.Idle
    {
      hide StepNames;
      ghost var s0 := Value();
      SetJob(j, mem.jobs[j].(done := true));
      ghost var out;
      ok, out := SaveAnd(S.Idle);
      acts := [S.DoFinish(out)];
      OneAct(s0, S.DoFinish(out));
    }

    /** A failed check, read or wait between two steps ends the deployment. */
    method Halt() returns (ghost acts: seq<S.Act>)
      requires up
      modifies this`pc
      ensures Value() == S.DoAll(old(Value()), acts) && S.LegalRun(old(Value()), acts)
      ensures pc == S.Idle
    {
      OneAct(Value(), S.DoHalt);
      pc := S.Idle;
      acts := [S.DoHalt];
    }

    /** A step, unless something before it fails; the run so far is acts. */
    method Next(j: string, step: DeployPlan.Step, ghost plan: Plan, ghost i: nat, ghost s0: S.Sys,
                ghost acts: seq<S.Act>)
      returns (ok: bool, result: string, ghost run: seq<S.Act>)
      requires Walking(j, plan, i) && Value() == S.DoAll(s0, acts) && S.LegalRun(s0, acts)
      requires i < |Canonical(plan)| && Canonical(plan)[i] == step
      modifies this
      ensures Value() == S.DoAll(s0, run) && S.LegalRun(s0, run)
      ensures ok ==> Walking(j, plan, i + 1)
      ensures !ok ==> pc == S.Idle
    {
      hide Canonical, Name;
      var stop: bool := *;
      ghost var more;
      if stop {
        more := Halt();
        ok, result := false, "";
      } else {
        NamesAt(Canonical(plan));
        NeverNativeBefore(step);
        ok, result, more := Step(j, Name(step), i);
      }
      MoreActs(s0, acts, more);
      run := acts + more;
    }

    /** The deployment of plan stands before step i. */
    ghost predicate Walking(j: string, plan: Plan, i: nat)
      reads this
    {
      up && pc == S.At(j, i) && j in mem.jobs && mem.jobs[j].plan == plan
    }

    /** The workspace and the floor, when the plan makes them. */
    method Place(j: string, plan: Plan, ghost s0: S.Sys, ghost before: seq<S.Act>)
      returns (ok: bool, ghost i: nat, ghost acts: seq<S.Act>)
      requires Walking(j, plan, 0) && Value() == S.DoAll(s0, before) && S.LegalRun(s0, before)
      modifies this
      ensures Value() == S.DoAll(s0, acts) && S.LegalRun(s0, acts)
      ensures ok ==> Walking(j, plan, i) && i == |PlaceSteps(plan)|
      ensures !ok ==> pc == S.Idle
    {
      hide Canonical, S.DoAll, S.LegalRun;
      acts := before;
      i := 0;
      CanonicalIs(plan);
      var result;
      if plan.workspaceId == "" {
        ok, result, acts := Next(j, DeployPlan.Step.Workspace, plan, i, s0, acts);
        if !ok {
          return;
        }
        i := i + 1;
      }
      if plan.floorName != "" {
        ok, result, acts := Next(j, DeployPlan.Step.Floor, plan, i, s0, acts);
        if !ok {
          return;
        }
        i := i + 1;
      }
      ok := true;
    }

    /** The native arrangement, with the canvas before it kept, if it can be read. */
    method Import(j: string, plan: Plan, ghost at: nat, ghost s0: S.Sys, ghost before: seq<S.Act>)
      returns (ok: bool, ghost i: nat, ghost acts: seq<S.Act>)
      requires Walking(j, plan, at) && Value() == S.DoAll(s0, before) && S.LegalRun(s0, before)
      requires at == |PlaceSteps(plan)| && HasPortal(plan.nodes)
      modifies this
      ensures Value() == S.DoAll(s0, acts) && S.LegalRun(s0, acts)
      ensures ok ==> Walking(j, plan, i) && i == at + 1
      ensures !ok ==> pc == S.Idle
    {
      hide Canonical, S.DoAll, S.LegalRun, HasPortal, PlaceSteps;
      i := at;
      CanonicalIs(plan);
      var canvas: string := *;
      var unread: bool := *;
      ghost var more;
      if unread && NATIVE_BEFORE !in mem.jobs[j].results {
        more := Halt();
        ok := false;
      } else {
        ok, more := KeepBefore(j, canvas, i);
      }
      MoreActs(s0, before, more);
      acts := before + more;
      if !ok {
        return;
      }
      var result;
      ok, result, acts := Next(j, DeployPlan.Step.Partitura, plan, i, s0, acts);
      i := i + 1;
    }

    /** Walks the plan: place, then the native arrangement or nodes and connections. */
    method Deploy(j: string, plan: Plan) returns (ok: bool, ghost acts: seq<S.Act>)
      requires up && pc == S.Idle && ValidPlan(plan)
      modifies this
      ensures Value() == S.DoAll(old(Value()), acts) && S.LegalRun(old(Value()), acts)
      ensures ok ==> (j in disk.jobs && disk.jobs[j].done && disk.jobs[j].plan == plan)
                     || (j in old(mem).jobs && old(mem).jobs[j].done && Value() == old(Value()))
      ensures pc == S.Idle
    {
      hide Canonical, ValidPlan, S.DoAll, S.LegalRun, HasPortal, PlaceSteps, AllNodeSteps;
      ghost var s0 := Value();
      var done;
      ok, done, acts := Register(j, plan);
      if !ok || done {
        return;
      }
      ghost var i;
      ok, i, acts := Place(j, plan, s0, acts);
      if !ok {
        return;
      }
      if HasPortal(plan.nodes) {
        ok, i, acts := Import(j, plan, i, s0, acts);
      } else {
        ok, i, acts := PlaceNodes(j, plan, i, s0, acts);
        if !ok {
          return;
        }
        ok, i, acts := Connect(j, plan, i, s0, acts);
      }
      if !ok {
        return;
      }
      CanonicalIs(plan);
      NamesAt(Canonical(plan));
      ghost var last;
      ok, last := Finish(j, i);
      MoreActs(s0, acts, last);
      acts := acts + last;
    }

    /** Role, node and frame of each node in turn. */
    method PlaceNodes(j: string, plan: Plan, ghost at: nat, ghost s0: S.Sys, ghost before: seq<S.Act>)
      returns (ok: bool, ghost i: nat, ghost acts: seq<S.Act>)
      requires Walking(j, plan, at) && Value() == S.DoAll(s0, before) && S.LegalRun(s0, before)
      requires at == |PlaceSteps(plan)| && !HasPortal(plan.nodes)
      modifies this
      ensures Value() == S.DoAll(s0, acts) && S.LegalRun(s0, acts)
      ensures ok ==> Walking(j, plan, i) && i == at + |AllNodeSteps(plan.nodes)|
      ensures !ok ==> pc == S.Idle
    {
      hide Canonical, AllNodeSteps, S.DoAll, S.LegalRun, HasPortal;
      acts := before;
      i := at;
      NoNodeSteps(plan.nodes);
      var n := 0;
      var result;
      while n < |plan.nodes|
        invariant 0 <= n <= |plan.nodes|
        invariant Walking(j, plan, i) && i == at + |AllNodeSteps(plan.nodes[..n])|
        invariant Value() == S.DoAll(s0, acts) && S.LegalRun(s0, acts)
      {
        var node := plan.nodes[n];
        NodeStepsAt(plan, n);
        if node.kind.Terminal? {
          ok, result, acts := Next(j, DeployPlan.Step.Role(node.id), plan, i, s0, acts);
          if !ok {
            return;
          }
          i := i + 1;
        }
        ok, result, acts := Next(j, DeployPlan.Step.Node(node.id), plan, i, s0, acts);
        if !ok {
          return;
        }
        i := i + 1;
        ok, result, acts := Next(j, DeployPlan.Step.Frame(node.id), plan, i, s0, acts);
        if !ok {
          return;
        }
        i := i + 1;
        n := n + 1;
      }
      assert plan.nodes[..n] == plan.nodes;
      ok := true;
    }

    method Connect(j: string, plan: Plan, ghost at: nat, ghost s0: S.Sys, ghost before: seq<S.Act>)
      returns (ok: bool, ghost i: nat, ghost acts: seq<S.Act>)
      requires Walking(j, plan, at) && Value() == S.DoAll(s0, before) && S.LegalRun(s0, before)
      requires at == |PlaceSteps(plan)| + |AllNodeSteps(plan.nodes)| && !HasPortal(plan.nodes)
      modifies this
      ensures Value() == S.DoAll(s0, acts) && S.LegalRun(s0, acts)
      ensures ok ==> Walking(j, plan, i) && i == at + plan.connections
      ensures !ok ==> pc == S.Idle
    {
      hide Canonical, AllNodeSteps, S.DoAll, S.LegalRun, HasPortal;
      acts := before;
      i := at;
      var n := 0;
      var result;
      while n < plan.connections
        invariant 0 <= n <= plan.connections
        invariant Walking(j, plan, i) && i == at + n
        invariant Value() == S.DoAll(s0, acts) && S.LegalRun(s0, acts)
      {
        EdgeStepAt(plan, n);
        ok, result, acts := Next(j, DeployPlan.Step.Edge(n), plan, i, s0, acts);
        if !ok {
          return;
        }
        i := i + 1;
        n := n + 1;
      }
      ok := true;
    }
  }

  lemma SkipIs(s: S.Sys, j: string, name: string, i: nat)
    requires s.up && s.pc == S.At(j, i) && j in s.mem.jobs && name in s.mem.jobs[j].results
    requires i < |S.Steps(s.mem.jobs[j])| && S.Steps(s.mem.jobs[j])[i] == name
    ensures S.Do(s, S.DoAdvance) == s.(pc := S.At(j, i + 1))
  {
    hide StepNames;
  }

  lemma OneAct(s: S.Sys, act: S.Act)
    requires S.Legal(s, act)
    ensures S.DoAll(s, [act]) == S.Do(s, act) && S.LegalRun(s, [act])
  {
    hide S.Do;
    assert [act][1..] == [];
  }

  lemma {:induction false} MoreActs(s: S.Sys, acts: seq<S.Act>, more: seq<S.Act>)
    requires S.LegalRun(s, acts) && S.LegalRun(S.DoAll(s, acts), more)
    ensures S.DoAll(s, acts + more) == S.DoAll(S.DoAll(s, acts), more) && S.LegalRun(s, acts + more)
    decreases acts
  {
    hide S.Do, S.Legal;
    if acts == [] {
      assert acts + more == more;
    } else {
      MoreActs(S.Do(s, acts[0]), acts[1..], more);
      assert (acts + more)[1..] == acts[1..] + more;
    }
  }

  // ---- Where each step stands in the sequence ----

  lemma CanonicalIs(p: Plan)
    ensures |Canonical(p)| == |PlaceSteps(p)| +
      (if HasPortal(p.nodes) then 1 else |AllNodeSteps(p.nodes)| + p.connections)
    ensures p.workspaceId == "" ==> Canonical(p)[0] == DeployPlan.Step.Workspace
    ensures p.floorName != "" ==> Canonical(p)[if p.workspaceId == "" then 1 else 0] == DeployPlan.Step.Floor
    ensures HasPortal(p.nodes) ==> Canonical(p)[|PlaceSteps(p)|] == DeployPlan.Step.Partitura
  {
    EdgeStepsAt(p.connections);
  }

  lemma {:induction false} EdgeStepsAt(n: nat)
    ensures |EdgeSteps(n)| == n && forall i :: 0 <= i < n ==> EdgeSteps(n)[i] == DeployPlan.Step.Edge(i)
  {
    if n > 0 {
      EdgeStepsAt(n - 1);
    }
  }

  lemma NoNodeSteps(nodes: seq<PlanNode>)
    ensures AllNodeSteps(nodes[..0]) == []
  {
  }

  lemma {:induction false} NodeStepsGrow(nodes: seq<PlanNode>, n: nat)
    requires n <= |nodes|
    ensures AllNodeSteps(nodes[..n]) <= AllNodeSteps(nodes)
  {
    if n == |nodes| {
      assert nodes[..n] == nodes;
    } else {
      var init := nodes[..|nodes| - 1];
      NodeStepsGrow(init, n);
      assert init[..n] == nodes[..n];
    }
  }

  /** The steps of node n follow those of the nodes before it. */
  lemma NodeStepsAt(p: Plan, n: nat)
    requires n < |p.nodes| && !HasPortal(p.nodes)
    ensures var from := |PlaceSteps(p)| + |AllNodeSteps(p.nodes[..n])|;
      var own := NodeSteps(p.nodes[n]);
      && |AllNodeSteps(p.nodes[..n + 1])| == |AllNodeSteps(p.nodes[..n])| + |own|
      && from + |own| <= |Canonical(p)|
      && Canonical(p)[from] == own[0] && Canonical(p)[from + 1] == own[1]
      && (|own| == 3 ==> Canonical(p)[from + 2] == own[2])
  {
    hide HasPortal, PlaceSteps;
    var init := p.nodes[..n + 1];
    assert init[..n] == p.nodes[..n];
    assert AllNodeSteps(init) == AllNodeSteps(p.nodes[..n]) + NodeSteps(p.nodes[n]);
    hide AllNodeSteps;
    NodeStepsGrow(p.nodes, n + 1);
    var all, own, before := AllNodeSteps(p.nodes), NodeSteps(p.nodes[n]), |AllNodeSteps(p.nodes[..n])|;
    assert forall k :: 0 <= k < |own| ==> all[before + k] == own[k] by {
      assert forall k :: 0 <= k < |own| ==> AllNodeSteps(p.nodes[..n + 1])[before + k] == own[k];
    }
  }

  lemma EdgeStepAt(p: Plan, n: nat)
    requires n < p.connections && !HasPortal(p.nodes)
    ensures var at := |PlaceSteps(p)| + |AllNodeSteps(p.nodes)| + n;
      at < |Canonical(p)| && Canonical(p)[at] == DeployPlan.Step.Edge(n)
  {
    EdgeStepsAt(p.connections);
  }
}
