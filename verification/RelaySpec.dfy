/**
 The relay's durable state: what is in memory, what is on disk, and every step between two points
 where the process may die. A deployment writes ahead: the step is saved as pending, then called,
 then its result is saved.
 */
module RelaySpec {
  import opened Text
  import opened DeployPlan

  datatype Topic = Topic(workspace: string, floor: string, name: string, thread: int, pending: bool)

  datatype Job = Job(plan: Plan, pending: string, results: map<string, string>, done: bool)

  datatype Data = Data(topics: map<string, Topic>, seen: map<string, int>, jobs: map<string, Job>)

  /** How far a running deployment is; only one runs at a time. */
  datatype Pc =
    | Idle
    | At(job: string, i: nat)
    | Begun(job: string, i: nat)
    | Answered(job: string, i: nat, result: string)

  /**
   failed is the sticky save failure. The rest records what happened: the Wire steps called per
   job, the topics whose creation was attempted, the events admitted with their time, and the
   latest time read.
   */
  datatype Sys = Sys(
    mem: Data,
    disk: Data,
    failed: bool,
    up: bool,
    pc: Pc,
    issued: map<string, seq<string>>,
    created: seq<string>,
    admitted: seq<(string, int)>,
    clock: int)

  /** How a write of the state file ends; a failed one leaves the old file or the new one. */
  datatype SaveOut = Saved | SaveError(durable: bool) | SaveCrash(durable: bool)

  /** How a call to another process ends; a crash may come before or after it was made. */
  datatype CallOut = Result(value: string) | CallError | CallCrash(made: bool)

  const WINDOW: int := 48 * 3600

  const EMPTY: Data := Data(map[], map[], map[])

  // ---- Saving and dying ----

  function Crash(s: Sys): Sys
  {
    s.(up := false, pc := Idle)
  }

  /** A new process reads the file. */
  function Restart(s: Sys): Sys
  {
    if s.up then s else s.(mem := s.disk, failed := false, up := true, pc := Idle)
  }

  datatype SaveResult = SaveResult(sys: Sys, ok: bool)

  function Save(s: Sys, out: SaveOut): SaveResult
  {
    if s.failed then SaveResult(s, false)
    else
      match out
      case Saved => SaveResult(s.(disk := s.mem), true)
      case SaveError(durable) => SaveResult(s.(failed := true, disk := if durable then s.mem else s.disk), false)
      case SaveCrash(durable) => SaveResult(Crash(s.(disk := if durable then s.mem else s.disk)), false)
  }

  function OtherSave(s: Sys, out: SaveOut): Sys
  {
    if s.up then Save(s, out).sys else s
  }

  // ---- Events admitted once ----

  function Recent(seen: map<string, int>, now: int): map<string, int>
  {
    map k | k in seen && now - seen[k] <= WINDOW :: seen[k]
  }

  /** The state after once(key), and whether the event was admitted without error. */
  function Once(s: Sys, key: string, now: int, out: SaveOut): SaveResult
  {
    if key in s.mem.seen then SaveResult(s, false)
    else
      var s1 := s.(mem := s.mem.(seen := Recent(s.mem.seen, now)[key := now]), clock := now);
      var r := Save(s1, out);
      if r.ok then r.(sys := r.sys.(admitted := r.sys.admitted + [(key, now)])) else r
  }

  // ---- Topics per workspace and floor ----

  function Scope(ws: string, floor: string): string
  {
    ws + "/" + (if floor == "ground" then "" else floor)
  }

  function SetTopic(s: Sys, key: string, t: Topic): Sys
  {
    s.(mem := s.mem.(topics := s.mem.topics[key := t]))
  }

  /** ensureTopic: the attempt is saved before Telegram is asked; thread ids come as numbers. */
  function EnsureTopic(s: Sys, ws: string, floor: string, name: string,
                       first: SaveOut, call: CallOut, thread: int, second: SaveOut): SaveResult
  {
    var key := Scope(ws, floor);
    if key in s.mem.topics then
      var t := s.mem.topics[key];
      if t.pending then SaveResult(s, false)
      else if t.name == name then SaveResult(s, true)
      else
        match call
        case CallError => SaveResult(s, false)
        case CallCrash(_) => SaveResult(Crash(s), false)
        case Result(_) => Save(SetTopic(s, key, t.(name := name)), first)
    else
      var s1 := Save(SetTopic(s, key, Topic(ws, floor, name, 0, true)), first);
      if !s1.ok then s1
      else
        var s2 := s1.sys.(created := s1.sys.created + [key]);
        match call
        case CallError => SaveResult(s2, false)
        case CallCrash(_) => SaveResult(Crash(s2), false)
        case Result(_) => Save(SetTopic(s2, key, Topic(ws, floor, name, thread, false)), second)
  }

  /** /bind links an existing topic by hand. */
  function Bind(s: Sys, ws: string, floor: string, t: Topic, out: SaveOut): Sys
  {
    Save(SetTopic(s, Scope(ws, floor), t), out).sys
  }

  // ---- Deployments ----

  function Steps(job: Job): seq<string>
  {
    StepNames(job.plan)
  }

  function SetJob(s: Sys, j: string, job: Job): Sys
  {
    s.(mem := s.mem.(jobs := s.mem.jobs[j := job]))
  }

  function Halt(s: Sys): Sys
  {
    s.(pc := Idle)
  }

  /** A saved change moves the deployment on; otherwise it ends with the error. */
  function SaveAnd(s: Sys, out: SaveOut, next: Pc): Sys
  {
    var r := Save(s, out);
    if r.ok then r.sys.(pc := next) else Halt(r.sys)
  }

  /** The job is found or made, and saved, before the first step. */
  function Register(s: Sys, j: string, plan: Plan, out: SaveOut): Sys
  {
    if s.pc != Idle then s
    else if j in s.mem.jobs && s.mem.jobs[j].plan != plan then s
    else
      var job := if j in s.mem.jobs then s.mem.jobs[j] else Job(plan, "", map[], false);
      if job.done then s else SaveAnd(SetJob(s, j, job), out, At(j, 0))
  }

  /** A step that has a result is not repeated. */
  function Advance(s: Sys): Sys
  {
    if s.pc.At? && s.pc.job in s.mem.jobs then
      var job := s.mem.jobs[s.pc.job];
      if s.pc.i < |Steps(job)| && Steps(job)[s.pc.i] in job.results then s.(pc := At(s.pc.job, s.pc.i + 1)) else s
    else s
  }

  /** Write ahead: the step is pending on disk before it is called. */
  function Begin(s: Sys, out: SaveOut): Sys
  {
    if s.pc.At? && s.pc.job in s.mem.jobs then
      var job := s.mem.jobs[s.pc.job];
      if s.pc.i < |Steps(job)| && Steps(job)[s.pc.i] !in job.results then
        if job.pending != "" then Halt(s)
        else SaveAnd(SetJob(s, s.pc.job, job.(pending := Steps(job)[s.pc.i])), out, Begun(s.pc.job, s.pc.i))
      else s
    else s
  }

  function IssuedSteps(s: Sys, j: string): seq<string>
  {
    if j in s.issued then s.issued[j] else []
  }

  function Issue(s: Sys, j: string, step: string): Sys
  {
    s.(issued := s.issued[j := IssuedSteps(s, j) + [step]])
  }

  /** The Wire call; a failed one may have taken effect, so it counts as issued. */
  function CallWire(s: Sys, out: CallOut): Sys
  {
    if s.pc.Begun? && s.pc.job in s.mem.jobs && s.pc.i < |Steps(s.mem.jobs[s.pc.job])| then
      var step := Steps(s.mem.jobs[s.pc.job])[s.pc.i];
      match out
      case Result(v) => Issue(s, s.pc.job, step).(pc := Answered(s.pc.job, s.pc.i, v))
      case CallError => Halt(Issue(s, s.pc.job, step))
      case CallCrash(made) => Crash(if made then Issue(s, s.pc.job, step) else s)
    else s
  }

  function End(s: Sys, out: SaveOut): Sys
  {
    if s.pc.Answered? && s.pc.job in s.mem.jobs && s.pc.i < |Steps(s.mem.jobs[s.pc.job])| then
      var job := s.mem.jobs[s.pc.job];
      var step := Steps(job)[s.pc.i];
      SaveAnd(SetJob(s, s.pc.job, job.(results := job.results[step := s.pc.result], pending := "")),
              out, At(s.pc.job, s.pc.i + 1))
    else s
  }

  /** The canvas before a native arrangement is applied, kept once. */
  function KeepBefore(s: Sys, canvas: string, out: SaveOut): Sys
  {
    if s.pc.At? && s.pc.job in s.mem.jobs && NATIVE_BEFORE !in s.mem.jobs[s.pc.job].results then
      var job := s.mem.jobs[s.pc.job];
      SaveAnd(SetJob(s, s.pc.job, job.(results := job.results[NATIVE_BEFORE := canvas])), out, s.pc)
    else s
  }

  function Finish(s: Sys, out: SaveOut): Sys
  {
    if s.pc.At? && s.pc.job in s.mem.jobs && s.pc.i == |Steps(s.mem.jobs[s.pc.job])| then
      SaveAnd(SetJob(s, s.pc.job, s.mem.jobs[s.pc.job].(done := true)), out, Idle)
    else s
  }

  // ---- Runs ----

  datatype Act =
    | DoOnce(key: string, now: int, out: SaveOut)
    | DoEnsure(ws: string, floor: string, name: string, first: SaveOut, call: CallOut, thread: int, second: SaveOut)
    | DoBind(ws: string, floor: string, topic: Topic, out: SaveOut)
    | DoSave(out: SaveOut)
    | DoRegister(job: string, plan: Plan, out: SaveOut)
    | DoAdvance
    | DoBegin(out: SaveOut)
    | DoCall(call: CallOut)
    | DoEnd(out: SaveOut)
    | DoKeepBefore(canvas: string, out: SaveOut)
    | DoFinish(out: SaveOut)
    | DoHalt
    | DoCrash
    | DoRestart

  /** A dead process does nothing but start again. */
  function Do(s: Sys, act: Act): Sys
  {
    if !s.up then (if act.DoRestart? then Restart(s) else s)
    else
      match act
      case DoOnce(key, now, out) => Once(s, key, now, out).sys
      case DoEnsure(ws, floor, name, first, call, thread, second) =>
        EnsureTopic(s, ws, floor, name, first, call, thread, second).sys
      case DoBind(ws, floor, t, out) => Bind(s, ws, floor, t, out)
      case DoSave(out) => OtherSave(s, out)
      case DoRegister(j, plan, out) => Register(s, j, plan, out)
      case DoAdvance => Advance(s)
      case DoBegin(out) => Begin(s, out)
      case DoCall(call) => CallWire(s, call)
      case DoEnd(out) => End(s, out)
      case DoKeepBefore(canvas, out) => KeepBefore(s, canvas, out)
      case DoFinish(out) => Finish(s, out)
      case DoHalt => Halt(s)
      case DoCrash => Crash(s)
      case DoRestart => s
  }

  /** Plans are validated before they are registered; the clock does not run back. */
  ghost predicate Legal(s: Sys, act: Act)
  {
    && (act.DoRegister? ==> ValidPlan(act.plan))
    && (act.DoOnce? ==> act.now >= s.clock)
  }

  ghost predicate LegalRun(s: Sys, acts: seq<Act>)
    decreases acts
  {
    acts == [] || (Legal(s, acts[0]) && LegalRun(Do(s, acts[0]), acts[1..]))
  }

  function DoAll(s: Sys, acts: seq<Act>): Sys
    decreases acts
  {
    if acts == [] then s else DoAll(Do(s, acts[0]), acts[1..])
  }
}
