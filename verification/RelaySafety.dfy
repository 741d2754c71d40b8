/**
 What any run keeps, whatever crashes, failed saves and failed calls it meets.
 */
module RelaySafety {
  import opened Text
  import opened DeployPlan
  import opened RelaySpec

  // ---- The invariant ----

  /** The first m steps of the job have a result, and no other step. */
  ghost predicate Recorded(job: Job, m: nat)
  {
    m <= |Steps(job)| && forall i :: 0 <= i < |Steps(job)| ==> (Steps(job)[i] in job.results <==> i < m)
  }

  /**
   The record accounts for the n calls made so far: they are the first n steps, all recorded, but
   for one that is pending, called or not.
   */
  ghost predicate Accounts(job: Job, issued: seq<string>, m: nat)
  {
    && ValidPlan(job.plan)
    && Recorded(job, m)
    && |issued| <= |Steps(job)| && issued == Steps(job)[..|issued|]
    && (if job.pending == "" then |issued| == m
        else m < |Steps(job)| && job.pending == Steps(job)[m] && m <= |issued| <= m + 1)
    && (job.done ==> m == |Steps(job)|)
  }

  ghost predicate JobOnDisk(s: Sys, j: string)
  {
    if j in s.disk.jobs then exists m :: Accounts(s.disk.jobs[j], IssuedSteps(s, j), m)
    else IssuedSteps(s, j) == []
  }

  ghost predicate SubResults(a: map<string, string>, b: map<string, string>)
  {
    forall k :: k in a ==> k in b && b[k] == a[k]
  }

  /** Later data keeps the topics, the jobs, their plans and their results. */
  ghost predicate Extends(later: Data, data: Data)
  {
    && data.topics.Keys <= later.topics.Keys
    && (forall j :: j in data.jobs ==>
          j in later.jobs && later.jobs[j].plan == data.jobs[j].plan
          && SubResults(data.jobs[j].results, later.jobs[j].results))
  }

  /** The running deployment's step is pending on disk, called or not. */
  ghost predicate InFlight(s: Sys, j: string, i: nat, calls: nat)
  {
    && j in s.disk.jobs && j in s.mem.jobs && s.mem.jobs[j] == s.disk.jobs[j]
    && i < |Steps(s.mem.jobs[j])| && s.mem.jobs[j].pending == Steps(s.mem.jobs[j])[i]
    && Recorded(s.mem.jobs[j], i) && |IssuedSteps(s, j)| == calls
  }

  ghost predicate Running(s: Sys)
  {
    match s.pc
    case Idle => true
    case At(j, i) =>
      && j in s.mem.jobs && j in s.disk.jobs && i <= |Steps(s.mem.jobs[j])|
      && forall k :: 0 <= k < i ==> Steps(s.mem.jobs[j])[k] in s.mem.jobs[j].results
    case Begun(j, i) => InFlight(s, j, i, i)
    case Answered(j, i, _) => InFlight(s, j, i, i + 1)
  }

  ghost predicate TopicsCreatedOnce(s: Sys)
  {
    && (forall i :: 0 <= i < |s.created| ==> s.created[i] in s.disk.topics)
    && NoRepeat(s.created)
  }

  /** Each admitted event is still remembered on disk, or its window is over. */
  ghost predicate EventsRemembered(s: Sys)
  {
    && (forall i :: 0 <= i < |s.admitted| ==>
          var (k, t) := s.admitted[i];
          t <= s.clock && (s.clock - t > WINDOW || (k in s.disk.seen && s.disk.seen[k] >= t)))
    && (forall i, j :: 0 <= i < j < |s.admitted| && s.admitted[i].0 == s.admitted[j].0 ==>
          s.admitted[j].1 - s.admitted[i].1 > WINDOW)
  }

  ghost predicate InSync(s: Sys)
  {
    && (s.up && !s.failed ==> s.mem == s.disk)
    && (s.up ==> Extends(s.mem, s.disk))
    && (!s.up ==> s.pc == Idle)
  }

  ghost predicate Inv(s: Sys)
  {
    InSync(s) && (forall j :: JobOnDisk(s, j)) && Running(s) && TopicsCreatedOnce(s) && EventsRemembered(s)
  }

  // ---- A change in memory, then a save ----

  /** What a change in memory must keep for the save after it to be safe. */
  ghost predicate GoodChange(s: Sys, s1: Sys)
  {
    && Inv(s) && s.up && s1.up && s1.failed == s.failed && s1.disk == s.disk && s1.issued == s.issued
    && s1.created == s.created && s1.admitted == s.admitted && s1.clock >= s.clock
    && Extends(s1.mem, s.mem)
    && (!s.failed ==> forall j :: j in s1.mem.jobs ==> exists m :: Accounts(s1.mem.jobs[j], IssuedSteps(s, j), m))
    && (!s.failed ==> forall k :: k in s.mem.seen ==>
          s1.clock - s.mem.seen[k] > WINDOW || (k in s1.mem.seen && s1.mem.seen[k] >= s.mem.seen[k]))
  }

  lemma ExtendsTrans(a: Data, b: Data, c: Data)
    requires Extends(b, a) && Extends(c, b)
    ensures Extends(c, a)
  {
  }

  lemma ExtendsSelf(a: Data)
    ensures Extends(a, a)
  {
  }

  /** Everything but the deployment's position holds after the save, however it ends. */
  ghost predicate Settled(s: Sys)
  {
    InSync(s) && (forall j :: JobOnDisk(s, j)) && TopicsCreatedOnce(s) && EventsRemembered(s)
  }

  lemma RememberedLater(s: Sys, s2: Sys)
    requires EventsRemembered(s) && s2.admitted == s.admitted && s2.clock >= s.clock
    requires forall k :: k in s.disk.seen ==>
      s2.clock - s.disk.seen[k] > WINDOW || (k in s2.disk.seen && s2.disk.seen[k] >= s.disk.seen[k])
    ensures EventsRemembered(s2)
  {
  }

  lemma SaveKeepsJobs(s: Sys, s1: Sys, out: SaveOut)
    requires GoodChange(s, s1)
    ensures forall j :: JobOnDisk(Save(s1, out).sys, j)
  {
    hide Accounts, Extends, Running, TopicsCreatedOnce, EventsRemembered, Recorded;
    var r := Save(s1, out).sys;
    assert r.disk == s.disk || (r.disk == s1.mem && !s.failed);
    forall j
      ensures JobOnDisk(r, j)
    {
      assert JobOnDisk(s, j);
      assert IssuedSteps(r, j) == IssuedSteps(s, j);
      if r.disk != s.disk && j !in s1.mem.jobs {
        assert j !in s.disk.jobs by { KeptJob(s.disk, s1.mem, s, s1, j); }
      }
    }
  }

  lemma KeptJob(disk: Data, mem: Data, s: Sys, s1: Sys, j: string)
    requires GoodChange(s, s1) && disk == s.disk && mem == s1.mem
    ensures j in disk.jobs ==> j in mem.jobs
  {
    hide Accounts, JobOnDisk, Running, TopicsCreatedOnce, EventsRemembered;
  }

  lemma SaveKeepsSync(s: Sys, s1: Sys, out: SaveOut)
    requires GoodChange(s, s1)
    ensures var r := Save(s1, out);
      && InSync(r.sys.(pc := Idle))
      && (r.ok ==> !s.failed && r.sys == s1.(disk := s1.mem))
      && (!r.ok && r.sys.up ==> r.sys.failed)
      && r.sys.issued == s.issued && r.sys.created == s.created && r.sys.admitted == s.admitted
      && Extends(r.sys.disk, s.disk)
  {
    hide Accounts, JobOnDisk, Running, TopicsCreatedOnce, EventsRemembered, Extends;
    assert Extends(s.mem, s.disk) && Extends(s1.mem, s.mem);
    ExtendsTrans(s.disk, s.mem, s1.mem);
    ExtendsSelf(s.disk);
    ExtendsSelf(s1.mem);
  }

  lemma SaveKeepsTopics(s: Sys, s1: Sys, out: SaveOut)
    requires GoodChange(s, s1)
    ensures TopicsCreatedOnce(Save(s1, out).sys)
  {
    SaveKeepsSync(s, s1, out);
    hide Accounts, JobOnDisk, Running, EventsRemembered, InSync, Save;
  }

  lemma SaveKeepsEvents(s: Sys, s1: Sys, out: SaveOut)
    requires GoodChange(s, s1)
    ensures EventsRemembered(Save(s1, out).sys)
  {
    hide Accounts, JobOnDisk, Running, TopicsCreatedOnce, EventsRemembered, Extends;
    RememberedLater(s, Save(s1, out).sys);
  }

  lemma SaveSettles(s: Sys, s1: Sys, out: SaveOut)
    requires GoodChange(s, s1)
    ensures var r := Save(s1, out);
      && Settled(r.sys.(pc := Idle))
      && (r.ok ==> !s.failed && r.sys == s1.(disk := s1.mem))
      && (!r.ok && r.sys.up ==> r.sys.failed)
      && r.sys.issued == s.issued && r.sys.created == s.created && r.sys.admitted == s.admitted
      && Extends(r.sys.disk, s.disk)
  {
    SaveKeepsSync(s, s1, out);
    SaveKeepsJobs(s, s1, out);
    SaveKeepsTopics(s, s1, out);
    SaveKeepsEvents(s, s1, out);
    hide GoodChange, InSync, Save, Accounts, Extends, EventsRemembered, TopicsCreatedOnce;
    var r := Save(s1, out).sys;
    PcIrrelevant(r, Idle);
  }

  lemma PcIrrelevant(s: Sys, pc: Pc)
    ensures (forall j :: JobOnDisk(s, j)) ==> forall j :: JobOnDisk(s.(pc := pc), j)
    ensures TopicsCreatedOnce(s) ==> TopicsCreatedOnce(s.(pc := pc))
    ensures EventsRemembered(s) ==> EventsRemembered(s.(pc := pc))
  {
    hide Accounts;
    if forall j :: JobOnDisk(s, j) {
      forall j
        ensures JobOnDisk(s.(pc := pc), j)
      {
        assert JobOnDisk(s, j);
        assert IssuedSteps(s.(pc := pc), j) == IssuedSteps(s, j);
      }
    }
  }

  /** The disk only gains, and the calls made only get longer. */
  ghost predicate Later(s: Sys, s': Sys)
  {
    Extends(s'.disk, s.disk) && forall j :: IssuedSteps(s, j) <= IssuedSteps(s', j)
  }

  lemma SameLater(s: Sys, s': Sys)
    requires s'.issued == s.issued && Extends(s'.disk, s.disk)
    ensures Later(s, s')
  {
    assert forall j :: IssuedSteps(s, j) == IssuedSteps(s', j);
  }

  lemma UnchangedLater(s: Sys, s': Sys)
    requires s'.issued == s.issued && s'.disk == s.disk
    ensures Later(s, s')
  {
    ExtendsSelf(s.disk);
    SameLater(s, s');
  }

  lemma LaterTrans(a: Sys, b: Sys, c: Sys)
    requires Later(a, b) && Later(b, c)
    ensures Later(a, c)
  {
    ExtendsTrans(a.disk, b.disk, c.disk);
    forall j
      ensures IssuedSteps(a, j) <= IssuedSteps(c, j)
    {
      assert IssuedSteps(a, j) <= IssuedSteps(b, j) <= IssuedSteps(c, j);
    }
  }

  // ---- Steps of other goroutines ----

  lemma InvFromSettled(s: Sys)
    requires Settled(s.(pc := Idle)) && s.pc == Idle
    ensures Inv(s)
  {
    assert s.(pc := Idle) == s;
  }

  /** In sync, the jobs in memory account for the calls as those on disk do. */
  lemma MemAccounts(s: Sys)
    requires Inv(s) && s.up && !s.failed
    ensures forall j :: j in s.mem.jobs ==> exists m :: Accounts(s.mem.jobs[j], IssuedSteps(s, j), m)
  {
    hide Accounts, Running, TopicsCreatedOnce, EventsRemembered, Extends;
    forall j | j in s.mem.jobs
      ensures exists m :: Accounts(s.mem.jobs[j], IssuedSteps(s, j), m)
    {
      assert JobOnDisk(s, j);
    }
  }

  /** A save that does not touch the jobs leaves a running deployment where it is. */
  lemma SideSave(s: Sys, s1: Sys, out: SaveOut)
    requires GoodChange(s, s1) && s1.mem.jobs == s.mem.jobs && s1.pc == s.pc
    ensures Inv(Save(s1, out).sys) && Later(s, Save(s1, out).sys)
  {
    SaveSettles(s, s1, out);
    SameLater(s, Save(s1, out).sys);
    hide Accounts, JobOnDisk, TopicsCreatedOnce, EventsRemembered, Extends, Later;
    var r := Save(s1, out).sys;
    if r.pc == Idle {
      InvFromSettled(r);
    } else {
      PcIrrelevant(r.(pc := Idle), r.pc);
      assert r.(pc := Idle).(pc := r.pc) == r;
      assert r.disk.jobs == s.disk.jobs && r.mem.jobs == s.mem.jobs && r.pc == s.pc;
      RunningSame(s, r);
    }
  }

  lemma RunningSame(s: Sys, r: Sys)
    requires Running(s) && r.pc == s.pc && r.mem.jobs == s.mem.jobs && r.disk.jobs == s.disk.jobs
    requires r.issued == s.issued
    ensures Running(r)
  {
    assert forall j :: IssuedSteps(r, j) == IssuedSteps(s, j);
  }

  lemma NoChange(s: Sys)
    requires Inv(s) && s.up
    ensures GoodChange(s, s)
  {
    ExtendsSelf(s.mem);
    if !s.failed {
      MemAccounts(s);
    }
  }

  /** Other fields of memory change, the jobs do not. */
  lemma SideChange(s: Sys, s1: Sys)
    requires Inv(s) && s.up && s1 == s.(mem := s1.mem, clock := s1.clock)
    requires s1.mem.jobs == s.mem.jobs && s.mem.topics.Keys <= s1.mem.topics.Keys && s1.clock >= s.clock
    requires forall k :: k in s.mem.seen ==>
      s1.clock - s.mem.seen[k] > WINDOW || (k in s1.mem.seen && s1.mem.seen[k] >= s.mem.seen[k])
    ensures GoodChange(s, s1)
  {
    if !s.failed {
      MemAccounts(s);
    }
  }

  lemma OnceKeeps(s: Sys, key: string, now: int, out: SaveOut)
    requires Inv(s) && s.up && now >= s.clock
    ensures Inv(Once(s, key, now, out).sys) && Later(s, Once(s, key, now, out).sys)
  {
    UnchangedLater(s, s);
    if key !in s.mem.seen {
      var s1 := s.(mem := s.mem.(seen := Recent(s.mem.seen, now)[key := now]), clock := now);
      SideChange(s, s1);
      SideSave(s, s1, out);
      SaveSettles(s, s1, out);
      var r := Save(s1, out);
      if r.ok {
        assert s.mem == s.disk;
        AdmitKeeps(s, r.sys, key, now);
        UnchangedLater(r.sys, Once(s, key, now, out).sys);
        LaterTrans(s, r.sys, Once(s, key, now, out).sys);
      }
    }
  }

  lemma AdmitKeeps(s: Sys, r: Sys, key: string, now: int)
    requires EventsRemembered(s) && key !in s.disk.seen && Inv(r) && r.admitted == s.admitted
    requires now >= s.clock && r.clock == now && key in r.disk.seen && r.disk.seen[key] == now
    ensures Inv(r.(admitted := r.admitted + [(key, now)]))
  {
    hide Accounts, Extends;
    var r' := r.(admitted := r.admitted + [(key, now)]);
    assert forall j :: JobOnDisk(r, j) ==> JobOnDisk(r', j) by {
      assert forall j :: IssuedSteps(r', j) == IssuedSteps(r, j);
    }
    RunningSame(r, r');
  }

  lemma TopicChange(s: Sys, key: string, t: Topic)
    requires Inv(s) && s.up
    ensures GoodChange(s, SetTopic(s, key, t))
  {
    SideChange(s, SetTopic(s, key, t));
  }

  lemma AttemptKeeps(r: Sys, key: string)
    requires Inv(r) && key in r.disk.topics && key !in r.created
    ensures Inv(r.(created := r.created + [key]))
  {
    hide Accounts, Extends;
    var r' := r.(created := r.created + [key]);
    assert forall j :: JobOnDisk(r, j) ==> JobOnDisk(r', j) by {
      assert forall j :: IssuedSteps(r', j) == IssuedSteps(r, j);
    }
    RunningSame(r, r');
  }

  lemma CrashKeeps(s: Sys)
    requires Inv(s)
    ensures Inv(Crash(s)) && Inv(Halt(s)) && Later(s, Crash(s)) && Later(s, Halt(s))
  {
    UnchangedLater(s, Crash(s));
    UnchangedLater(s, Halt(s));
    hide Accounts, Extends, TopicsCreatedOnce, EventsRemembered, Later;
    CrashedJobs(s);
    PcIrrelevant(s, Idle);
    var c := Crash(s);
    assert TopicsCreatedOnce(c) && EventsRemembered(c) by {
      CrashedRest(s);
    }
  }

  lemma CrashedJobs(s: Sys)
    requires Inv(s)
    ensures forall j :: JobOnDisk(Crash(s), j)
  {
    hide Accounts, Running;
    forall j
      ensures JobOnDisk(Crash(s), j)
    {
      assert JobOnDisk(s, j);
      assert IssuedSteps(Crash(s), j) == IssuedSteps(s, j);
    }
  }

  lemma CrashedRest(s: Sys)
    requires Inv(s)
    ensures TopicsCreatedOnce(Crash(s)) && EventsRemembered(Crash(s))
  {
    hide JobOnDisk, Running, Extends;
  }

  lemma EnsureTopicKeeps(s: Sys, ws: string, floor: string, name: string,
                         first: SaveOut, call: CallOut, thread: int, second: SaveOut)
    requires Inv(s) && s.up
    ensures Inv(EnsureTopic(s, ws, floor, name, first, call, thread, second).sys)
    ensures Later(s, EnsureTopic(s, ws, floor, name, first, call, thread, second).sys)
  {
    UnchangedLater(s, s);
    hide Inv, Save, Scope, SetTopic, Crash, Later;
    var key := Scope(ws, floor);
    CrashKeeps(s);
    if key in s.mem.topics {
      TopicSideSave(s, key, s.mem.topics[key].(name := name), first);
    } else {
      FirstTopicKeeps(s, key, Topic(ws, floor, name, 0, true), first, call,
                      Topic(ws, floor, name, thread, false), second);
    }
  }

  /** The attempt is saved, made, and its answer saved. */
  lemma FirstTopicKeeps(s: Sys, key: string, t: Topic, first: SaveOut, call: CallOut, named: Topic, second: SaveOut)
    requires Inv(s) && s.up && key !in s.mem.topics
    ensures var s1 := Save(SetTopic(s, key, t), first);
      && Inv(s1.sys) && Later(s, s1.sys)
      && (s1.ok ==>
            var s2 := s1.sys.(created := s1.sys.created + [key]);
            && Inv(s2) && Later(s, s2)
            && Inv(Crash(s2)) && Later(s, Crash(s2))
            && var s3 := Save(SetTopic(s2, key, named), second).sys; Inv(s3) && Later(s, s3))
  {
    hide Inv, Save, SetTopic, Crash, Later;
    TopicSideSave(s, key, t, first);
    var s1 := Save(SetTopic(s, key, t), first);
    if s1.ok {
      SavedTopic(s, key, t, first);
      AttemptKeeps(s1.sys, key);
      var s2 := s1.sys.(created := s1.sys.created + [key]);
      UnchangedLater(s1.sys, s2);
      LaterTrans(s, s1.sys, s2);
      CrashKeeps(s2);
      LaterTrans(s, s2, Crash(s2));
      TopicSideSave(s2, key, named, second);
      LaterTrans(s, s2, Save(SetTopic(s2, key, named), second).sys);
    }
  }

  lemma TopicSideSave(s: Sys, key: string, t: Topic, out: SaveOut)
    requires Inv(s) && s.up
    ensures Inv(Save(SetTopic(s, key, t), out).sys) && Later(s, Save(SetTopic(s, key, t), out).sys)
  {
    TopicChange(s, key, t);
    hide Inv, Save, GoodChange, Later;
    SideSave(s, SetTopic(s, key, t), out);
  }

  /** A topic just saved as pending was never attempted before. */
  lemma SavedTopic(s: Sys, key: string, t: Topic, out: SaveOut)
    requires Inv(s) && s.up && key !in s.mem.topics && Save(SetTopic(s, key, t), out).ok
    ensures var r := Save(SetTopic(s, key, t), out).sys;
      && key in r.disk.topics && key !in r.created && r.up
  {
    hide JobOnDisk, Running, EventsRemembered, Extends;
    assert s.mem == s.disk;
  }

  // ---- Steps of the deployment ----

  /** A change in memory whose save moves the deployment on. */
  lemma SaveAndKeeps(s: Sys, s1: Sys, out: SaveOut, next: Pc)
    requires GoodChange(s, s1)
    requires !s.failed ==> Running(s1.(disk := s1.mem, pc := next))
    ensures Inv(SaveAnd(s1, out, next)) && Later(s, SaveAnd(s1, out, next))
  {
    SaveSettles(s, s1, out);
    SameLater(s, SaveAnd(s1, out, next));
    hide Accounts, JobOnDisk, TopicsCreatedOnce, EventsRemembered, Extends, Running, GoodChange, Later;
    var r := Save(s1, out);
    var base := r.sys.(pc := Idle);
    if r.ok {
      PcIrrelevant(base, next);
      assert base.(pc := next) == SaveAnd(s1, out, next);
      assert SaveAnd(s1, out, next) == s1.(disk := s1.mem, pc := next);
    } else {
      assert SaveAnd(s1, out, next) == base;
      InvFromSettled(base);
    }
  }

  /** One job changes; its record accounts for the calls, and keeps plan and results. */
  lemma JobChange(s: Sys, j: string, job: Job, m: nat)
    requires Inv(s) && s.up
    requires j in s.mem.jobs ==> job.plan == s.mem.jobs[j].plan && SubResults(s.mem.jobs[j].results, job.results)
    requires !s.failed ==> Accounts(job, IssuedSteps(s, j), m)
    ensures GoodChange(s, SetJob(s, j, job))
  {
    hide JobOnDisk, Running, TopicsCreatedOnce, EventsRemembered, Recorded, Steps, ValidPlan;
    if !s.failed {
      MemAccounts(s);
    }
    hide Accounts;
    var s1 := SetJob(s, j, job);
    if !s.failed {
      forall k | k in s1.mem.jobs
        ensures exists n :: Accounts(s1.mem.jobs[k], IssuedSteps(s, k), n)
      {
        if k == j {
          assert Accounts(s1.mem.jobs[k], IssuedSteps(s, k), m);
        }
      }
    }
  }

  lemma RecordedUnique(job: Job, m: nat, n: nat)
    requires Recorded(job, m) && Recorded(job, n)
    ensures m == n
  {
    var steps, results := Steps(job), job.results;
    assert m < |steps| ==> steps[m] !in results;
    assert n < |steps| ==> steps[n] !in results;
  }

  /** What the record in memory says about the calls, when it is in sync. */
  lemma InSyncRecord(s: Sys, j: string) returns (m: nat)
    requires Inv(s) && s.up && !s.failed && j in s.mem.jobs
    ensures Accounts(s.mem.jobs[j], IssuedSteps(s, j), m)
  {
    MemAccounts(s);
    m :| Accounts(s.mem.jobs[j], IssuedSteps(s, j), m);
  }

  lemma RegisterKeeps(s: Sys, j: string, plan: Plan, out: SaveOut)
    requires Inv(s) && s.up && ValidPlan(plan)
    ensures Inv(Register(s, j, plan, out)) && Later(s, Register(s, j, plan, out))
  {
    UnchangedLater(s, s);
    if Register(s, j, plan, out) != s {
      var job := if j in s.mem.jobs then s.mem.jobs[j] else Job(plan, "", map[], false);
      var m := 0;
      if !s.failed && j in s.mem.jobs {
        m := InSyncRecord(s, j);
      } else if !s.failed {
        assert JobOnDisk(s, j);
        assert IssuedSteps(s, j) == [];
        assert Accounts(job, [], 0);
      }
      hide Inv, Running, Accounts, Later;
      JobChange(s, j, job, m);
      RegisteredRuns(s, j, job);
      SaveAndKeeps(s, SetJob(s, j, job), out, At(j, 0));
    }
  }

  lemma RegisteredRuns(s: Sys, j: string, job: Job)
    ensures var s1 := SetJob(s, j, job); Running(s1.(disk := s1.mem, pc := At(j, 0)))
  {
  }

  lemma BeginKeeps(s: Sys, out: SaveOut)
    requires Inv(s) && s.up
    ensures Inv(Begin(s, out)) && Later(s, Begin(s, out))
  {
    hide Inv, Running, Accounts, Later, StepNames;
    UnchangedLater(s, s);
    if Begin(s, out) == s {
    } else if Begin(s, out) == Halt(s) && s.mem.jobs[s.pc.job].pending != "" {
      CrashKeeps(s);
    } else {
      var j, i := s.pc.job, s.pc.i;
      var begun := s.mem.jobs[j].(pending := Steps(s.mem.jobs[j])[i]);
      BegunAccounts(s, j, i);
      JobChange(s, j, begun, i);
      SaveAndKeeps(s, SetJob(s, j, begun), out, Begun(j, i));
    }
  }

  /** With memory in sync, the step about to be called is the first that was not. */
  lemma BegunAccounts(s: Sys, j: string, i: nat)
    requires Inv(s) && s.up && s.pc == At(j, i) && j in s.mem.jobs && i < |Steps(s.mem.jobs[j])|
    requires Steps(s.mem.jobs[j])[i] !in s.mem.jobs[j].results && s.mem.jobs[j].pending == ""
    ensures var begun := s.mem.jobs[j].(pending := Steps(s.mem.jobs[j])[i]);
      !s.failed ==>
        && Accounts(begun, IssuedSteps(s, j), i)
        && var s1 := SetJob(s, j, begun); Running(s1.(disk := s1.mem, pc := Begun(j, i)))
  {
    hide JobOnDisk, TopicsCreatedOnce, EventsRemembered, NoRepeat;
    if !s.failed {
      var job := s.mem.jobs[j];
      var begun := job.(pending := Steps(job)[i]);
      assert Steps(begun) == Steps(job);
      var m := InSyncRecord(s, j);
      FirstMissingIs(job, i, m);
      StepNamesDistinct(job.plan);
      BegunRuns(s, j, begun, i);
    }
  }

  lemma FirstMissingIs(job: Job, i: nat, m: nat)
    requires Recorded(job, m) && i < |Steps(job)| && Steps(job)[i] !in job.results
    requires forall k :: 0 <= k < i ==> Steps(job)[k] in job.results
    ensures m == i
  {
    assert Steps(job)[m] !in job.results || m == |Steps(job)|;
  }

  lemma BegunRuns(s: Sys, j: string, begun: Job, i: nat)
    requires Accounts(begun, IssuedSteps(s, j), i) && i < |Steps(begun)| && begun.pending == Steps(begun)[i] != ""
    requires |IssuedSteps(s, j)| == i
    ensures var s1 := SetJob(s, j, begun); Running(s1.(disk := s1.mem, pc := Begun(j, i)))
  {
    var s1 := SetJob(s, j, begun);
    assert IssuedSteps(s1.(disk := s1.mem, pc := Begun(j, i)), j) == IssuedSteps(s, j);
  }

  lemma IssuedLater(s: Sys, j: string, step: string, s': Sys)
    ensures s'.disk == s.disk && s'.issued == Issue(s, j, step).issued ==> Later(s, s')
  {
    ExtendsSelf(s.disk);
    forall k
      ensures s'.issued == Issue(s, j, step).issued ==> IssuedSteps(s, k) <= IssuedSteps(s', k)
    {
    }
  }

  lemma CallKeeps(s: Sys, out: CallOut)
    requires Inv(s) && s.up
    ensures Inv(CallWire(s, out)) && Later(s, CallWire(s, out))
  {
    hide Inv, Later, InFlight, StepNames;
    UnchangedLater(s, s);
    if s.pc.Begun? && s.pc.job in s.mem.jobs && s.pc.i < |Steps(s.mem.jobs[s.pc.job])| {
      var j, i := s.pc.job, s.pc.i;
      var step := Steps(s.mem.jobs[j])[i];
      IssueKeeps(s);
      IssuedLater(s, j, step, CallWire(s, out));
      UnchangedLater(s, CallWire(s, out).(issued := s.issued));
      var called := Issue(s, j, step).(pc := Answered(j, i, ""));
      match out
      case Result(v) =>
      case CallError =>
        CrashKeeps(called);
      case CallCrash(made) =>
        CrashKeeps(s);
        CrashKeeps(called);
    }
  }

  lemma IssueKeeps(s: Sys)
    requires Inv(s) && s.up && s.pc.Begun?
    ensures InFlight(s, s.pc.job, s.pc.i, s.pc.i)
    ensures var step := Steps(s.mem.jobs[s.pc.job])[s.pc.i];
      forall v :: Inv(Issue(s, s.pc.job, step).(pc := Answered(s.pc.job, s.pc.i, v)))
  {
    var j, i := s.pc.job, s.pc.i;
    var step := Steps(s.mem.jobs[j])[i];
    forall v
      ensures Inv(Issue(s, j, step).(pc := Answered(j, i, v)))
    {
      var s' := Issue(s, j, step).(pc := Answered(j, i, v));
      forall k
        ensures JobOnDisk(s', k)
      {
        assert JobOnDisk(s, k);
        if k == j {
          var m :| Accounts(s.disk.jobs[j], IssuedSteps(s, j), m);
          RecordedUnique(s.disk.jobs[j], m, i);
          StepNamesDistinct(s.disk.jobs[j].plan);
          assert Steps(s.disk.jobs[j])[..i + 1] == Steps(s.disk.jobs[j])[..i] + [step];
          assert Accounts(s'.disk.jobs[j], IssuedSteps(s', j), i);
        } else {
          assert IssuedSteps(s', k) == IssuedSteps(s, k);
        }
      }
    }
  }

  lemma EndKeeps(s: Sys, out: SaveOut)
    requires Inv(s) && s.up
    ensures Inv(End(s, out)) && Later(s, End(s, out))
  {
    hide Inv, Running, Accounts, Later, StepNames, SubResults;
    UnchangedLater(s, s);
    if End(s, out) != s {
      var j, i := s.pc.job, s.pc.i;
      var job := s.mem.jobs[j];
      var step := Steps(job)[i];
      var ended := job.(results := job.results[step := s.pc.result], pending := "");
      EndedAccounts(s, ended);
      JobChange(s, j, ended, i + 1);
      SaveAndKeeps(s, SetJob(s, j, ended), out, At(j, i + 1));
    }
  }

  lemma EndedAccounts(s: Sys, ended: Job)
    requires Inv(s) && s.up && s.pc.Answered?
    requires s.pc.job in s.mem.jobs && s.pc.i < |Steps(s.mem.jobs[s.pc.job])|
    requires var job := s.mem.jobs[s.pc.job];
      ended == job.(results := job.results[Steps(job)[s.pc.i] := s.pc.result], pending := "")
    ensures SubResults(s.mem.jobs[s.pc.job].results, ended.results)
    ensures Accounts(ended, IssuedSteps(s, s.pc.job), s.pc.i + 1)
    ensures var s1 := SetJob(s, s.pc.job, ended); Running(s1.(disk := s1.mem, pc := At(s.pc.job, s.pc.i + 1)))
  {
    var j, i := s.pc.job, s.pc.i;
    assert JobOnDisk(s, j);
    var m :| Accounts(s.disk.jobs[j], IssuedSteps(s, j), m);
    RecordedUnique(s.disk.jobs[j], m, i);
    StepNamesDistinct(s.disk.jobs[j].plan);
    assert Steps(ended) == Steps(s.mem.jobs[j]);
  }

  lemma KeepBeforeKeeps(s: Sys, canvas: string, out: SaveOut)
    requires Inv(s) && s.up
    ensures Inv(KeepBefore(s, canvas, out)) && Later(s, KeepBefore(s, canvas, out))
  {
    UnchangedLater(s, s);
    if KeepBefore(s, canvas, out) != s {
      var j := s.pc.job;
      var job := s.mem.jobs[j];
      var kept := job.(results := job.results[NATIVE_BEFORE := canvas]);
      assert Steps(kept) == Steps(job);
      var m := 0;
      if !s.failed {
        m := InSyncRecord(s, j);
        StepNamesDistinct(job.plan);
        assert Accounts(kept, IssuedSteps(s, j), m);
      }
      var s1 := SetJob(s, j, kept);
      assert Running(s1.(disk := s1.mem, pc := s.pc));
      hide Inv, Running, Accounts, Later;
      JobChange(s, j, kept, m);
      SaveAndKeeps(s, s1, out, s.pc);
    }
  }

  lemma AllRecorded(job: Job, m: nat)
    requires Recorded(job, m) && forall k :: 0 <= k < |Steps(job)| ==> Steps(job)[k] in job.results
    ensures m == |Steps(job)|
  {
    if m < |Steps(job)| {
      RecordedAt(job, m, m);
    }
  }

  lemma RecordedAt(job: Job, m: nat, k: nat)
    requires Recorded(job, m) && k < |Steps(job)|
    ensures Steps(job)[k] in job.results <==> k < m
  {
  }

  lemma FinishKeeps(s: Sys, out: SaveOut)
    requires Inv(s) && s.up
    ensures Inv(Finish(s, out)) && Later(s, Finish(s, out))
  {
    UnchangedLater(s, s);
    if Finish(s, out) != s {
      var j, i := s.pc.job, s.pc.i;
      var job := s.mem.jobs[j];
      var finished := job.(done := true);
      assert Steps(finished) == Steps(job);
      var m := 0;
      if !s.failed {
        m := InSyncRecord(s, j);
        AllRecorded(job, m);
        assert Accounts(finished, IssuedSteps(s, j), m);
      }
      var s1 := SetJob(s, j, finished);
      assert Running(s1.(disk := s1.mem, pc := Idle));
      hide Inv, Running, Accounts, Later;
      JobChange(s, j, finished, m);
      SaveAndKeeps(s, s1, out, Idle);
    }
  }

  lemma RestartKeeps(s: Sys)
    requires Inv(s)
    ensures Inv(Restart(s)) && Later(s, Restart(s))
  {
    UnchangedLater(s, Restart(s));
    if !s.up {
      hide Accounts, Running, Later;
      ExtendsSelf(s.disk);
      forall j
        ensures JobOnDisk(Restart(s), j)
      {
        assert JobOnDisk(s, j);
        assert IssuedSteps(Restart(s), j) == IssuedSteps(s, j);
      }
      assert Running(Restart(s)) by { IdleRuns(Restart(s)); }
    }
  }

  lemma IdleRuns(s: Sys)
    requires s.pc == Idle
    ensures Running(s)
  {
  }

  lemma AdvanceKeeps(s: Sys)
    requires Inv(s) && s.up
    ensures Inv(Advance(s)) && Later(s, Advance(s))
  {
    hide Accounts, Extends, Later, JobOnDisk, TopicsCreatedOnce, EventsRemembered, StepNames;
    UnchangedLater(s, Advance(s));
    if Advance(s) != s {
      PcIrrelevant(s, Advance(s).pc);
    }
  }

  // ---- Whole runs ----

  lemma ActKeeps(s: Sys, act: Act)
    requires Inv(s) && Legal(s, act)
    ensures Inv(Do(s, act)) && Later(s, Do(s, act))
  {
    UnchangedLater(s, s);
    if !s.up {
      RestartKeeps(s);
    } else {
      hide Later, Inv, Once, EnsureTopic, Register, Begin, CallWire, End, KeepBefore, Finish, Save, Advance;
      match act
      case DoOnce(key, now, out) => OnceKeeps(s, key, now, out);
      case DoEnsure(ws, floor, name, first, call, thread, second) =>
        EnsureTopicKeeps(s, ws, floor, name, first, call, thread, second);
      case DoBind(ws, floor, t, out) => TopicSideSave(s, Scope(ws, floor), t, out);
      case DoSave(out) =>
        NoChange(s);
        SideSave(s, s, out);
      case DoRegister(j, plan, out) => RegisterKeeps(s, j, plan, out);
      case DoAdvance => AdvanceKeeps(s);
      case DoBegin(out) => BeginKeeps(s, out);
      case DoCall(call) => CallKeeps(s, call);
      case DoEnd(out) => EndKeeps(s, out);
      case DoKeepBefore(canvas, out) => KeepBeforeKeeps(s, canvas, out);
      case DoFinish(out) => FinishKeeps(s, out);
      case DoHalt => CrashKeeps(s);
      case DoCrash => CrashKeeps(s);
      case DoRestart =>
    }
  }

  lemma {:induction false} RunKeeps(s: Sys, acts: seq<Act>)
    requires Inv(s) && LegalRun(s, acts)
    ensures Inv(DoAll(s, acts)) && Later(s, DoAll(s, acts))
    decreases acts
  {
    UnchangedLater(s, s);
    hide Inv, Do, Legal, Later;
    if acts != [] {
      ActKeeps(s, acts[0]);
      RunKeeps(Do(s, acts[0]), acts[1..]);
      LaterTrans(s, Do(s, acts[0]), DoAll(s, acts));
    }
  }

  // ---- What any run guarantees ----

  const FRESH: Sys := Sys(EMPTY, EMPTY, false, true, Idle, map[], [], [], 0)

  lemma FreshInv()
    ensures Inv(FRESH)
  {
  }

  /**
   After any run the calls issued for a job are, in order and without repeat, a prefix of the one
   step sequence of the plan the disk keeps for it, and all of them once the job is done.
   */
  lemma IssuedIsCanonicalPrefix(acts: seq<Act>, j: string)
    requires LegalRun(FRESH, acts)
    ensures var s := DoAll(FRESH, acts);
      var issued := IssuedSteps(s, j);
      if j !in s.disk.jobs then issued == []
      else
        var job := s.disk.jobs[j];
        && issued <= StepNames(job.plan) && NoRepeat(issued)
        && (job.done ==> issued == StepNames(job.plan))
        && (job.pending == "" ==> forall i :: 0 <= i < |issued| ==> issued[i] in job.results)
  {
    FreshInv();
    RunKeeps(FRESH, acts);
    var s := DoAll(FRESH, acts);
    hide DoAll, Running, TopicsCreatedOnce, EventsRemembered, InSync;
    assert JobOnDisk(s, j);
    if j in s.disk.jobs {
      var m :| Accounts(s.disk.jobs[j], IssuedSteps(s, j), m);
      StepNamesDistinct(s.disk.jobs[j].plan);
    }
  }

  lemma PrefixInOrder(p: Plan, issued: seq<string>, k: nat, s: Step, t: Step)
    requires ValidPlan(p) && issued <= StepNames(p) && k < |issued| && issued[k] == Name(t)
    requires AskedFor(p, s) && Needs(p, t, s)
    ensures AskedFor(p, t) && Name(s) in issued[..k]
  {
    CanonicalOrder(p);
    hide AskedFor, Needs, Name, ValidPlan, Canonical, Names;
    var q := Canonical(p);
    NamesAt(q);
    NameInjective(q[k], t);
    var i :| 0 <= i < |q| && q[i] == s;
    assert issued[..k][i] == Name(s);
  }

  /** What is issued for a job is a prefix of the steps of a valid plan. */
  lemma IssuedForValidPlan(acts: seq<Act>, j: string)
    requires LegalRun(FRESH, acts) && j in DoAll(FRESH, acts).disk.jobs
    ensures var p := DoAll(FRESH, acts).disk.jobs[j].plan;
      ValidPlan(p) && IssuedSteps(DoAll(FRESH, acts), j) <= StepNames(p)
  {
    FreshInv();
    RunKeeps(FRESH, acts);
    IssuedIsCanonicalPrefix(acts, j);
    var sys := DoAll(FRESH, acts);
    hide DoAll, Running, TopicsCreatedOnce, EventsRemembered, InSync, StepNames, IssuedSteps, ValidPlan;
    assert JobOnDisk(sys, j);
    var m :| Accounts(sys.disk.jobs[j], IssuedSteps(sys, j), m);
  }

  /** Whatever a run met, no step was issued before one it needs. */
  lemma IssuedInOrder(acts: seq<Act>, j: string, k: nat, s: Step, t: Step)
    requires LegalRun(FRESH, acts) && j in DoAll(FRESH, acts).disk.jobs
    requires var p := DoAll(FRESH, acts).disk.jobs[j].plan; AskedFor(p, s) && Needs(p, t, s)
    requires var issued := IssuedSteps(DoAll(FRESH, acts), j); k < |issued| && issued[k] == Name(t)
    ensures Name(s) in IssuedSteps(DoAll(FRESH, acts), j)[..k]
  {
    hide DoAll, LegalRun, AskedFor, Needs, Name, StepNames, IssuedSteps, ValidPlan;
    IssuedForValidPlan(acts, j);
    var sys := DoAll(FRESH, acts);
    PrefixInOrder(sys.disk.jobs[j].plan, IssuedSteps(sys, j), k, s, t);
  }

  lemma PrefixStep(p: Plan, issued: seq<string>, k: nat, t: Step)
    requires issued <= StepNames(p) && k < |issued| && issued[k] == Name(t)
    ensures AskedFor(p, t)
  {
    CanonicalAre(p);
    hide AskedFor, Name, Canonical, Names;
    NamesAt(Canonical(p));
    NameInjective(Canonical(p)[k], t);
  }

  lemma PrefixFrames(p: Plan, issued: seq<string>, k: nat, id: string)
    requires ValidPlan(p) && issued <= StepNames(p) && k < |issued|
    ensures issued[k] == "frame-" + id ==> "node-" + id in issued[..k]
    ensures issued[k] == "node-" + id && HasTerminal(p.nodes, id) ==> "role-" + id in issued[..k]
  {
    hide ValidPlan, StepNames, HasTerminal, Has;
    if issued[k] == "frame-" + id {
      PrefixStep(p, issued, k, Frame(id));
      PrefixInOrder(p, issued, k, Node(id), Frame(id));
    }
    if issued[k] == "node-" + id && HasTerminal(p.nodes, id) {
      PrefixStep(p, issued, k, Node(id));
      PrefixInOrder(p, issued, k, Role(id), Node(id));
    }
  }

  /** A frame is placed only after its node was created, which happens only after its role was. */
  lemma FrameAfterNode(acts: seq<Act>, j: string, k: nat, id: string)
    requires LegalRun(FRESH, acts) && j in DoAll(FRESH, acts).disk.jobs
    requires k < |IssuedSteps(DoAll(FRESH, acts), j)|
    ensures var issued := IssuedSteps(DoAll(FRESH, acts), j);
      var plan := DoAll(FRESH, acts).disk.jobs[j].plan;
      && (issued[k] == "frame-" + id ==> "node-" + id in issued[..k])
      && (issued[k] == "node-" + id && HasTerminal(plan.nodes, id) ==> "role-" + id in issued[..k])
  {
    hide DoAll, LegalRun, StepNames, IssuedSteps, ValidPlan, HasTerminal;
    IssuedForValidPlan(acts, j);
    var sys := DoAll(FRESH, acts);
    PrefixFrames(sys.disk.jobs[j].plan, IssuedSteps(sys, j), k, id);
  }

  /**
   However a run goes on, the plan and every result on disk stay as they are, the steps already
   issued stay issued, and none of them is issued again.
   */
  lemma ResultsNeverReplaced(acts: seq<Act>, more: seq<Act>, j: string)
    requires LegalRun(FRESH, acts) && LegalRun(DoAll(FRESH, acts), more)
    ensures var s := DoAll(FRESH, acts);
      var s' := DoAll(s, more);
      && IssuedSteps(s, j) <= IssuedSteps(s', j)
      && NoRepeat(IssuedSteps(s', j))
      && (j in s.disk.jobs ==>
            j in s'.disk.jobs && s'.disk.jobs[j].plan == s.disk.jobs[j].plan
            && forall step :: step in s.disk.jobs[j].results ==>
                 step in s'.disk.jobs[j].results && s'.disk.jobs[j].results[step] == s.disk.jobs[j].results[step])
  {
    FreshInv();
    RunKeeps(FRESH, acts);
    var s := DoAll(FRESH, acts);
    RunKeeps(s, more);
    var s' := DoAll(s, more);
    hide DoAll, Running, TopicsCreatedOnce, EventsRemembered, InSync;
    assert JobOnDisk(s', j);
    if j in s'.disk.jobs {
      var m :| Accounts(s'.disk.jobs[j], IssuedSteps(s', j), m);
      StepNamesDistinct(s'.disk.jobs[j].plan);
    }
  }

  /** The creation of a topic is attempted at most once per workspace and floor, ever. */
  lemma TopicAttemptedOnce(acts: seq<Act>)
    requires LegalRun(FRESH, acts)
    ensures NoRepeat(DoAll(FRESH, acts).created)
  {
    FreshInv();
    RunKeeps(FRESH, acts);
  }

  /** An event key is admitted at most once in any window of 48 hours. */
  lemma EventAdmittedOnce(acts: seq<Act>)
    requires LegalRun(FRESH, acts)
    ensures var log := DoAll(FRESH, acts).admitted;
      forall i, j :: 0 <= i < j < |log| && log[i].0 == log[j].0 ==> log[j].1 - log[i].1 > WINDOW
  {
    FreshInv();
    RunKeeps(FRESH, acts);
  }

  // ---- What single acts achieve ----

  /** A key not remembered is admitted when the save goes through; of the others those of 48 hours stay. */
  lemma OnceAdmits(s: Sys, key: string, now: int, out: SaveOut)
    ensures var r := Once(s, key, now, out);
      && (r.ok <==> key !in s.mem.seen && !s.failed && out.Saved?)
      && (r.ok ==> r.sys.disk.seen == r.sys.mem.seen)
      && (key in s.mem.seen ==> r.sys == s)
      && (key !in s.mem.seen ==>
            && key in r.sys.mem.seen && r.sys.mem.seen[key] == now
            && forall k :: k != key ==> (k in r.sys.mem.seen <==> k in s.mem.seen && now - s.mem.seen[k] <= 48 * 3600))
  {
  }

  /** A topic that is ensured has its thread, the old one if there was one, and the name asked for. */
  lemma EnsuredTopic(s: Sys, ws: string, floor: string, name: string,
                     first: SaveOut, call: CallOut, thread: int, second: SaveOut)
    ensures var r, key := EnsureTopic(s, ws, floor, name, first, call, thread, second), Scope(ws, floor);
      && (key in s.mem.topics && s.mem.topics[key].pending ==> !r.ok && r.sys == s)
      && (r.ok ==>
            && key in r.sys.mem.topics && !r.sys.mem.topics[key].pending && r.sys.mem.topics[key].name == name
            && r.sys.mem.topics[key].thread == (if key in s.mem.topics then s.mem.topics[key].thread else thread)
            && (r.sys.disk == r.sys.mem || r.sys == s)
            && forall k :: k != key ==>
                 (k in r.sys.mem.topics <==> k in s.mem.topics)
                 && (k in s.mem.topics ==> r.sys.mem.topics[k] == s.mem.topics[k]))
  {
  }

  function FloorName(floor: string): string
  {
    if floor == "ground" then "" else floor
  }

  /** Workspaces without a slash and their floors have scopes of their own; the ground floor may be unnamed. */
  lemma ScopeTellsApart(w: string, f: string, x: string, g: string)
    requires '/' !in w && '/' !in x
    ensures Scope(w, f) == Scope(x, g) <==> w == x && FloorName(f) == FloorName(g)
  {
    if Scope(w, f) == Scope(x, g) {
      var k := Scope(w, f);
      assert k[|w|] == '/' && k[|x|] == '/';
      assert forall i :: 0 <= i < |w| ==> k[i] == w[i] && w[i] in w;
      assert forall i :: 0 <= i < |x| ==> k[i] == x[i] && x[i] in x;
      assert |w| == |x|;
      assert k[..|w|] == w && k[..|x|] == x && k[|w| + 1..] == FloorName(f) && k[|x| + 1..] == FloorName(g);
    }
  }
}
