/** Sweeping devices by name, as rollback and the unprepare of a partially prepared claim do: what a sweep can do, and
    exactly what it leaves behind. */
module NodeSweep {
  import opened Base
  import opened Claims
  import opened Hypotheses
  import opened MigNames
  import opened Node
  import opened NodeBasics
  import opened NodeMaking
  import opened NodeRuns
  import opened Nvlib

  predicate AllByName(todo: seq<Job>) {
    forall j :: j in todo ==> j.ByName?
  }

  /** In the middle of deletions by name. */
  predicate SweepingNames(s: Node) {
    s.up && Deleting(s.op) && AllByName(Todo(s.op))
  }

  /** The job is about the placement of the GPU instance k. */
  predicate Denotes(h: Hw, j: Job, k: GiKey) {
    j.ByName? && k in h.gis && ParseCanonicalName(j.device) == Some(SpecOf(k, h.gis[k]))
  }

  /** The job will delete k, if its slot can be read. */
  predicate Hits(h: Hw, j: Job, spare: set<string>, k: GiKey) {
    Denotes(h, j, k) && j.device !in spare && Complete(h, k)
  }

  ghost predicate HitByAny(h: Hw, todo: seq<Job>, spare: set<string>, k: GiKey) {
    exists j :: j in todo && Hits(h, j, spare, k)
  }

  /** A job that cannot be done: there is no handle for its GPU, neither for the search by name nor for the deletion. */
  predicate Blocked(env: Env, j: Job, spare: set<string>) {
    match j
    case ByTuple(t) => t.gpu !in env.gpus
    case ByName(d) => d !in spare && ParseCanonicalName(d).Some? && ParseCanonicalName(d).value.minor !in env.gpus
  }

  predicate NoneBlocked(env: Env, todo: seq<Job>, spare: set<string>) {
    forall j :: j in todo ==> !Blocked(env, j, spare)
  }

  /** The jobs in front of the first one that cannot be done. */
  function Doable(env: Env, todo: seq<Job>, spare: set<string>): (jobs: seq<Job>)
    ensures jobs <= todo && (|jobs| < |todo| ==> Blocked(env, todo[|jobs|], spare))
    ensures NoneBlocked(env, jobs, spare)
  {
    if todo == [] || Blocked(env, todo[0], spare) then [] else [todo[0]] + Doable(env, todo[1..], spare)
  }

  lemma {:induction false} AllDoable(env: Env, todo: seq<Job>, spare: set<string>)
    requires NoneBlocked(env, todo, spare)
    ensures Doable(env, todo, spare) == todo
  {
    if todo != [] {
      assert forall j :: j in todo[1..] ==> j in todo;
      AllDoable(env, todo[1..], spare);
    }
  }

  /** Everything but what the jobs are about. */
  ghost function Remaining(h: Hw, todo: seq<Job>, spare: set<string>): map<GiKey, Gi> {
    map k | k in h.gis && !HitByAny(h, todo, spare, k) :: h.gis[k]
  }

  // ------------------------------------------------------ a sweep can be done

  /** The job that comes next can be done without a failure, unless there is no handle for its GPU. */
  lemma NextJobPossible(env: Env, s: Node) returns (j: JobEvent)
    requires SweepingNames(s) && Todo(s.op) != [] && HwOk(s.hw) && !Blocked(env, Todo(s.op)[0], Spare(s.op))
    ensures Plain(Delete(j)) && JobEnabled(env, s, j)
    ensures var t := JobApply(env, s, j);
            && t == s.(op := NextJob(s.op), hw := t.hw, owner := t.owner) && HwOk(t.hw)
            && t.hw.gis == Remaining(s.hw, [Todo(s.op)[0]], Spare(s.op))
  {
    var head := Todo(s.op)[0];
    assert head in Todo(s.op);
    var spec := ParseCanonicalName(head.device);
    if spec == None || head.device in Spare(s.op) {
      j := SkipJob;
      SpareRemains(s.hw, head, Spare(s.op));
    } else if k :| IsMatch(s.hw, k, spec.value) {
      j := DeletionOf(env, s, head.device, k);
    } else {
      j := FindNothing(false);
      MissingRemains(s.hw, head, Spare(s.op));
    }
  }

  lemma SpareRemains(h: Hw, j: Job, spare: set<string>)
    requires j.ByName? && (ParseCanonicalName(j.device) == None || j.device in spare)
    ensures Remaining(h, [j], spare) == h.gis
  {
  }

  lemma MissingRemains(h: Hw, j: Job, spare: set<string>)
    requires j.ByName? && ParseCanonicalName(j.device).Some? && forall k :: !IsMatch(h, k, ParseCanonicalName(j.device).value)
    ensures Remaining(h, [j], spare) == h.gis
  {
    forall k | k in h.gis ensures !Hits(h, j, spare, k) {
      assert !IsMatch(h, k, ParseCanonicalName(j.device).value);
    }
  }

  lemma MatchRemains(h: Hw, j: Job, spare: set<string>, k: GiKey)
    requires HwOk(h) && j.ByName? && j.device !in spare && ParseCanonicalName(j.device).Some? && IsMatch(h, k, ParseCanonicalName(j.device).value)
    ensures Remaining(h, [j], spare) == h.gis - {k}
  {
    assert Hits(h, j, spare, k);
    forall l | l in h.gis && Hits(h, j, spare, l) ensures l == k {
      MatchUnique(h, k, l);
    }
  }

  lemma DeletionOf(env: Env, s: Node, name: string, k: GiKey) returns (j: JobEvent)
    requires SweepingNames(s) && HwOk(s.hw) && Todo(s.op) != [] && Todo(s.op)[0] == ByName(name) && name !in Spare(s.op)
    requires ParseCanonicalName(name).Some? && IsMatch(s.hw, k, ParseCanonicalName(name).value) && k.gpu in env.gpus
    ensures j.DeleteMig? && JobEnabled(env, s, j)
    ensures var t := JobApply(env, s, j);
            && t == s.(op := NextJob(s.op), hw := t.hw, owner := t.owner) && HwOk(t.hw)
            && t.hw.gis == Remaining(s.hw, [Todo(s.op)[0]], Spare(s.op))
  {
    var l := LiveTuple(k.gpu, k.id, s.hw.gis[k].ci.value);
    assert l.Key() == k;
    assert MayDelete(env, s, l);
    var hw := Hw(s.hw.gis - {k}, s.hw.on);
    j := DeleteMig(l, hw, true);
    DeletesKeepsHwOk(s.hw, l, hw, true);
    MatchRemains(s.hw, ByName(name), Spare(s.op), k);
  }

  /** Working off the jobs one after the other works off all of them. */
  lemma RemainingOfRest(h: Hw, todo: seq<Job>, spare: set<string>, h': Hw)
    requires todo != [] && h'.gis == Remaining(h, [todo[0]], spare)
    ensures Remaining(h', todo[1..], spare) == Remaining(h, todo, spare)
  {
    assert todo == [todo[0]] + todo[1..];
    forall k | k in h.gis ensures HitByAny(h, todo, spare, k) <==> HitByAny(h, [todo[0]], spare, k) || HitByAny(h, todo[1..], spare, k) {
      HitSplit(h, todo, spare, k);
    }
    forall k | k in h'.gis ensures HitByAny(h', todo[1..], spare, k) <==> HitByAny(h, todo[1..], spare, k) {
      SameHits(h, h', todo[1..], spare, k);
    }
  }

  lemma HitSplit(h: Hw, todo: seq<Job>, spare: set<string>, k: GiKey)
    requires todo != []
    ensures HitByAny(h, todo, spare, k) <==> HitByAny(h, [todo[0]], spare, k) || HitByAny(h, todo[1..], spare, k)
  {
    if HitByAny(h, todo, spare, k) {
      var j :| j in todo && Hits(h, j, spare, k);
      assert j == todo[0] || j in todo[1..];
      assert j == todo[0] ==> j in [todo[0]];
    }
    assert todo[0] in todo;
    assert forall j :: j in todo[1..] ==> j in todo;
  }

  lemma SameHits(h: Hw, h': Hw, todo: seq<Job>, spare: set<string>, k: GiKey)
    requires k in h.gis && k in h'.gis && h'.gis[k] == h.gis[k]
    ensures HitByAny(h', todo, spare, k) <==> HitByAny(h, todo, spare, k)
  {
    assert forall j :: Hits(h', j, spare, k) == Hits(h, j, spare, k);
  }

  /** From any state in the middle of a sweep by name, some run of deletions without a failure works off the jobs in front of
      the first one whose GPU is not on the node; what is left is everything but what these jobs are about. */
  lemma {:induction false} SweepCompletes(env: Env, s: Node) returns (es: seq<Event>, t: Node)
    requires SweepingNames(s) && HwOk(s.hw)
    ensures Run(env, s, es) == Some(t) && forall e :: e in es ==> e.Delete? && Plain(e)
    ensures var done := Doable(env, Todo(s.op), Spare(s.op));
            && t == s.(op := WithTodo(s.op, Todo(s.op)[|done|..]), hw := t.hw, owner := t.owner) && HwOk(t.hw)
            && t.hw.gis == Remaining(s.hw, done, Spare(s.op))
    decreases |Todo(s.op)|
  {
    var todo, spare := Todo(s.op), Spare(s.op);
    WithTodoFacts(s.op, todo);
    if todo == [] || Blocked(env, todo[0], spare) {
      es, t := [], s;
      assert t.hw.gis == Remaining(s.hw, [], spare);
    } else {
      var j := NextJobPossible(env, s);
      var s1 := JobApply(env, s, j);
      WithTodoFacts(s.op, todo[1..]);
      var rest: seq<Event>;
      rest, t := SweepCompletes(env, s1);
      es := [Delete(j)] + rest;
      RunOne(env, s, Delete(j));
      RunAppend(env, s, [Delete(j)], rest);
      RestOfJobs(env, s.hw, s1.hw, s.op, todo, spare);
    }
  }

  /** The first job and what follows it. */
  lemma RestOfJobs(env: Env, h: Hw, h': Hw, op: Op, todo: seq<Job>, spare: set<string>)
    requires Deleting(op) && todo != [] && !Blocked(env, todo[0], spare) && h'.gis == Remaining(h, [todo[0]], spare)
    ensures var done, rest := Doable(env, todo, spare), Doable(env, todo[1..], spare);
            && |done| == |rest| + 1 && Remaining(h', rest, spare) == Remaining(h, done, spare)
            && WithTodo(WithTodo(op, todo[1..]), todo[1..][|rest|..]) == WithTodo(op, todo[|done|..])
  {
    var done, rest := Doable(env, todo, spare), Doable(env, todo[1..], spare);
    assert done == [todo[0]] + rest && done[1..] == rest;
    RemainingOfRest(h, done, spare, h');
    assert todo[1..][|rest|..] == todo[|done|..];
    WithTodoTwice(op, todo[1..], todo[|done|..]);
  }

  lemma WithTodoTwice(op: Op, todo: seq<Job>, rest: seq<Job>)
    requires Deleting(op)
    ensures WithTodo(WithTodo(op, todo), rest) == WithTodo(op, rest)
  {
    WithTodoFacts(op, todo);
  }

  lemma {:induction false} PlainAssumes(env: Env, s: Node, es: seq<Event>, hs: set<Hypothesis>)
    requires forall e :: e in es ==> Plain(e)
    ensures Assuming(env, s, es, hs)
    decreases es
  {
    if es != [] && Enabled(env, s, es[0]) {
      PlainHolds(env, s, es[0], hs);
      PlainAssumes(env, Apply(env, s, es[0]), es[1..], hs);
    }
  }

  /** If none of them is blocked, all jobs are worked off. */
  lemma SweepAll(env: Env, s: Node) returns (es: seq<Event>, t: Node)
    requires SweepingNames(s) && HwOk(s.hw) && NoneBlocked(env, Todo(s.op), Spare(s.op))
    ensures Run(env, s, es) == Some(t) && forall e :: e in es ==> e.Delete? && Plain(e)
    ensures t == s.(op := WithTodo(s.op, []), hw := t.hw, owner := t.owner) && HwOk(t.hw)
    ensures t.hw.gis == Remaining(s.hw, Todo(s.op), Spare(s.op))
  {
    var todo := Todo(s.op);
    AllDoable(env, todo, Spare(s.op));
    assert todo[|todo|..] == [];
    es, t := SweepCompletes(env, s);
  }

  lemma ReachSwept(env: Env, hs: set<Hypothesis>, s: Node, s1: Node) returns (t: Node)
    requires Reachable(env, hs, s, s1) && SweepingNames(s1) && HwOk(s1.hw) && NoneBlocked(env, Todo(s1.op), Spare(s1.op))
    ensures Reachable(env, hs, s, t) && t == s1.(op := WithTodo(s1.op, []), hw := t.hw, owner := t.owner) && HwOk(t.hw)
    ensures t.hw.gis == Remaining(s1.hw, Todo(s1.op), Spare(s1.op))
  {
    var es;
    es, t := SweepAll(env, s1);
    PlainAssumes(env, s1, es, hs);
    assert Leads(env, hs, s1, es, t);
    ReachOn(env, hs, s, s1, t);
  }

  // ------------------------------------------- what any sweep leaves behind

  /** What may happen while the sweep holds the lock. */
  predicate InLock(e: Event) {
    e.Delete? || (e.Outside? && !e.o.Reboot?) || (e.Cleanup? && !e.c.SelfUnprepare?)
  }

  lemma NoJobsWhenIdle(env: Env, s: Node, j: JobEvent)
    requires JobEnabled(env, s, j)
    ensures s.op != Idle
  {
    match j
    case DeleteMig(l, hw, done) => assert MayDelete(env, s, l);
    case FindNothing(_) =>
    case SkipJob =>
  }

  /** A job that is done has a handle for its GPU. */
  lemma JobNotBlocked(env: Env, s: Node, j: JobEvent)
    requires Deleting(s.op) && JobEnabled(env, s, j)
    ensures Todo(s.op) != [] && !Blocked(env, Todo(s.op)[0], Spare(s.op)) && JobApply(env, s, j).op in {Idle, NextJob(s.op)}
  {
    match j
    case DeleteMig(l, hw, done) => assert MayDelete(env, s, l);
    case FindNothing(_) =>
    case SkipJob =>
  }

  lemma IdleStep(env: Env, s: Node, e: Event)
    requires InLock(e) && Enabled(env, s, e) && s.op == Idle
    ensures Apply(env, s, e).op == Idle
  {
    match e
    case Delete(j) => NoJobsWhenIdle(env, s, j);
    case Outside(o) => OutsideHardware(s, o);
    case Cleanup(c) => CleanupOp(s, c);
  }

  lemma CleanupOp(s: Node, c: CleanupEvent)
    requires CleanupEnabled(s, c) && !c.SelfUnprepare?
    ensures CleanupApply(s, c).op == s.op && CleanupApply(s, c).up == s.up
  {
  }

  lemma {:induction false} IdleRun(env: Env, s: Node, es: seq<Event>)
    requires Run(env, s, es).Some? && s.op == Idle && forall e :: e in es ==> InLock(e)
    ensures Run(env, s, es).value.op == Idle
    decreases es
  {
    if es != [] {
      IdleStep(env, s, es[0]);
      IdleRun(env, Apply(env, s, es[0]), es[1..]);
    }
  }

  lemma QuietLockStep(env: Env, s: Node, e: Event)
    requires InLock(e) && !e.Delete? && Enabled(env, s, e)
    ensures var t := Apply(env, s, e); t.op == s.op && SameHardware(s, t) && t.up == s.up
  {
    match e
    case Outside(o) => OutsideHardware(s, o);
    case Cleanup(c) =>
      CleanupHardware(s, c);
      CleanupOp(s, c);
  }

  /** What one step of deletion by name does to the GPU instance k. */
  lemma JobStep(env: Env, s: Node, j: JobEvent, k: GiKey)
    requires SweepingNames(s) && HwOk(s.hw) && JobEnabled(env, s, j) && k in s.hw.gis
    ensures var t := JobApply(env, s, j);
            && Todo(s.op) != [] && HwOk(t.hw) && t.up == s.up
            && (t.op != Idle ==> t.op == NextJob(s.op) && (k !in t.hw.gis <==> Denotes(s.hw, Todo(s.op)[0], k) && !PassedOver(s, j, k)))
            && (k in t.hw.gis && !HitByAny(s.hw, [Todo(s.op)[0]], Spare(s.op), k) ==> t.hw.gis[k] == s.hw.gis[k])
            && (!HitByAny(s.hw, [Todo(s.op)[0]], Spare(s.op), k) ==> k in t.hw.gis)
            && (k in t.hw.gis && t.op != Idle ==> t.hw.gis[k] == s.hw.gis[k])
  {
    match j
    case DeleteMig(l, hw, done) => DeleteStep(env, s, l, hw, done, k);
    case FindNothing(lost) => FindStep(env, s, lost, k);
    case SkipJob =>
  }

  /** The step at a job about k does not take k away: the name is spared, k is incomplete, or its slot could not be read. */
  predicate PassedOver(s: Node, j: JobEvent, k: GiKey)
    requires Todo(s.op) != []
  {
    Todo(s.op)[0].ByName? && (Todo(s.op)[0].device in Spare(s.op) || !Complete(s.hw, k) || (j.FindNothing? && j.lost))
  }

  lemma FindStep(env: Env, s: Node, lost: bool, k: GiKey)
    requires SweepingNames(s) && JobEnabled(env, s, FindNothing(lost)) && k in s.hw.gis
    ensures Todo(s.op) != [] && JobApply(env, s, FindNothing(lost)) == s.(op := NextJob(s.op))
    ensures Denotes(s.hw, Todo(s.op)[0], k) ==> PassedOver(s, FindNothing(lost), k)
  {
    var name := Todo(s.op)[0].device;
    assert !lost ==> !IsMatch(s.hw, k, ParseCanonicalName(name).value);
  }

  lemma DeleteStep(env: Env, s: Node, l: LiveTuple, hw: Hw, done: bool, k: GiKey)
    requires SweepingNames(s) && HwOk(s.hw) && JobEnabled(env, s, DeleteMig(l, hw, done)) && k in s.hw.gis
    ensures Todo(s.op) != [] && HwOk(hw)
    ensures JobApply(env, s, DeleteMig(l, hw, done)).hw == hw && JobApply(env, s, DeleteMig(l, hw, done)).up == s.up
    ensures JobApply(env, s, DeleteMig(l, hw, done)).op == if done then NextJob(s.op) else Idle
    ensures Denotes(s.hw, Todo(s.op)[0], k) <==> k == l.Key()
    ensures k == l.Key() ==> HitByAny(s.hw, [Todo(s.op)[0]], Spare(s.op), k) && !PassedOver(s, DeleteMig(l, hw, done), k)
    ensures k != l.Key() ==> k in hw.gis && hw.gis[k] == s.hw.gis[k]
    ensures done && k == l.Key() ==> k !in hw.gis
  {
    assert MayDelete(env, s, l) && Deletes(s.hw, l, hw, done);
    DeletesKeepsHwOk(s.hw, l, hw, done);
    var head := Todo(s.op)[0];
    assert head in Todo(s.op);
    assert IsMatch(s.hw, l.Key(), ParseCanonicalName(head.device).value);
    if Denotes(s.hw, head, k) {
      MatchUnique(s.hw, k, l.Key());
    }
    assert k == l.Key() ==> Hits(s.hw, head, Spare(s.op), k);
  }

  /** At every step of the run that is about k, k is passed over. */
  ghost predicate AlwaysPassedOver(env: Env, s: Node, es: seq<Event>, k: GiKey)
    decreases es
  {
    es == [] ||
    (Enabled(env, s, es[0]) ==>
      && (es[0].Delete? && Todo(s.op) != [] && Denotes(s.hw, Todo(s.op)[0], k) ==> PassedOver(s, es[0].j, k))
      && AlwaysPassedOver(env, Apply(env, s, es[0]), es[1..], k))
  }

  lemma SweepStep(env: Env, s: Node, e: Event, k: GiKey)
    requires SweepingNames(s) && HwOk(s.hw) && InLock(e) && Enabled(env, s, e) && k in s.hw.gis
    ensures var t := Apply(env, s, e);
            && HwOk(t.hw) && (t.op == Idle || SweepingNames(t))
            && (t.op != Idle ==>
                  && (t.op == s.op || (Todo(s.op) != [] && t.op == NextJob(s.op)))
                  && (k in t.hw.gis ==> t.hw.gis[k] == s.hw.gis[k])
                  && (k !in t.hw.gis <==> e.Delete? && Todo(s.op) != [] && Denotes(s.hw, Todo(s.op)[0], k) && !PassedOver(s, e.j, k)))
            && (!HitByAny(s.hw, Doable(env, Todo(s.op), Spare(s.op)), Spare(s.op), k) ==> k in t.hw.gis && t.hw.gis[k] == s.hw.gis[k])
  {
    if e.Delete? {
      JobStep(env, s, e.j, k);
      JobNotBlocked(env, s, e.j);
      HitSplit(s.hw, Doable(env, Todo(s.op), Spare(s.op)), Spare(s.op), k);
      NextStillSweeps(s.op);
    } else {
      QuietLockStep(env, s, e);
    }
  }

  lemma NextStillSweeps(op: Op)
    requires Deleting(op) && AllByName(Todo(op)) && Todo(op) != []
    ensures Deleting(NextJob(op)) && AllByName(Todo(NextJob(op))) && Todo(NextJob(op)) == Todo(op)[1..] && Spare(NextJob(op)) == Spare(op)
    ensures WithTodo(NextJob(op), []) == WithTodo(op, [])
  {
    WithTodoFacts(op, Todo(op));
    WithTodoTwice(op, Todo(op)[1..], []);
  }

  lemma NotIdleAfterAll(op: Op)
    requires Deleting(op)
    ensures WithTodo(op, []) != Idle
  {
  }

  lemma {:induction false} GoneStays(env: Env, s: Node, es: seq<Event>, k: GiKey)
    requires Run(env, s, es).Some? && (forall e :: e in es ==> InLock(e)) && k !in s.hw.gis
    ensures k !in Run(env, s, es).value.hw.gis
    decreases es
  {
    if es != [] {
      LockNeverCreates(env, s, es[0], k);
      GoneStays(env, Apply(env, s, es[0]), es[1..], k);
    }
  }

  lemma LockNeverCreates(env: Env, s: Node, e: Event, k: GiKey)
    requires InLock(e) && Enabled(env, s, e) && k !in s.hw.gis
    ensures k !in Apply(env, s, e).hw.gis
  {
    match e
    case Delete(j) => JobEffect(env, s, j); DeletionNeverCreates(env, s, j, k);
    case _ => QuietLockStep(env, s, e);
  }

  lemma DeletionNeverCreates(env: Env, s: Node, j: JobEvent, k: GiKey)
    requires JobEnabled(env, s, j) && k !in s.hw.gis
    ensures j.DeleteMig? ==> k !in j.hw.gis
  {
    if j.DeleteMig? {
      assert Deletes(s.hw, j.tuple, j.hw, j.done);
    }
  }

  /** Exactly what a sweep that reaches its end leaves behind: a GPU instance survives it precisely if at every step about
      its placement the name was spared, the instance was incomplete, or its slot could not be read. */
  lemma {:induction false} SweepLeavesIff(env: Env, s: Node, es: seq<Event>, k: GiKey)
    requires SweepingNames(s) && HwOk(s.hw) && Run(env, s, es).Some? && forall e :: e in es ==> InLock(e)
    requires Run(env, s, es).value.op == WithTodo(s.op, []) && k in s.hw.gis
    ensures k in Run(env, s, es).value.hw.gis <==> AlwaysPassedOver(env, s, es, k)
    decreases es
  {
    if es != [] {
      var t := Apply(env, s, es[0]);
      SweepStep(env, s, es[0], k);
      NotIdleAfterAll(s.op);
      if t.op == Idle {
        IdleRun(env, t, es[1..]);
      } else {
        if t.op != s.op {
          NextStillSweeps(s.op);
        }
        if k in t.hw.gis {
          SweepLeavesIff(env, t, es[1..], k);
        } else {
          GoneStays(env, t, es[1..], k);
        }
      }
    }
  }

  /** What no job in front of the first one that cannot be done is about is not touched, wherever the sweep stops. */
  lemma {:induction false} UnhitStays(env: Env, s: Node, es: seq<Event>, k: GiKey)
    requires SweepingNames(s) && HwOk(s.hw) && Run(env, s, es).Some? && forall e :: e in es ==> InLock(e)
    requires k in s.hw.gis && !HitByAny(s.hw, Doable(env, Todo(s.op), Spare(s.op)), Spare(s.op), k)
    ensures var t := Run(env, s, es).value; k in t.hw.gis && t.hw.gis[k] == s.hw.gis[k]
    decreases es
  {
    if es != [] {
      var t := Apply(env, s, es[0]);
      SweepStep(env, s, es[0], k);
      if t.op == Idle {
        IdleKeepsHardware(env, t, es[1..]);
      } else {
        if t.op != s.op {
          StillUnhit(env, s, es[0], k);
        }
        SameHits(s.hw, t.hw, Doable(env, Todo(t.op), Spare(t.op)), Spare(t.op), k);
        UnhitStays(env, t, es[1..], k);
      }
    }
  }

  lemma StillUnhit(env: Env, s: Node, e: Event, k: GiKey)
    requires SweepingNames(s) && InLock(e) && Enabled(env, s, e) && Apply(env, s, e).op != s.op && Apply(env, s, e).op != Idle
    requires !HitByAny(s.hw, Doable(env, Todo(s.op), Spare(s.op)), Spare(s.op), k)
    ensures var t := Apply(env, s, e); !HitByAny(s.hw, Doable(env, Todo(t.op), Spare(t.op)), Spare(t.op), k)
  {
    if e.Delete? {
      JobNotBlocked(env, s, e.j);
      NextStillSweeps(s.op);
      var done := Doable(env, Todo(s.op), Spare(s.op));
      assert done[1..] == Doable(env, Todo(s.op)[1..], Spare(s.op));
      HitSplit(s.hw, done, Spare(s.op), k);
    } else {
      QuietLockStep(env, s, e);
    }
  }

  lemma {:induction false} IdleKeepsHardware(env: Env, s: Node, es: seq<Event>)
    requires Run(env, s, es).Some? && s.op == Idle && forall e :: e in es ==> InLock(e)
    ensures Run(env, s, es).value.hw == s.hw
    decreases es
  {
    if es != [] {
      IdleStep(env, s, es[0]);
      if es[0].Delete? {
        NoJobsWhenIdle(env, s, es[0].j);
      } else {
        QuietLockStep(env, s, es[0]);
      }
      IdleKeepsHardware(env, Apply(env, s, es[0]), es[1..]);
    }
  }

  // ------------------------------------------- why a complete device is left

  /** A step of the sweep that is about k. */
  predicate Visits(s: Node, e: Event, k: GiKey) {
    e.Delete? && Todo(s.op) != [] && Denotes(s.hw, Todo(s.op)[0], k)
  }

  /** The names in the list that denote k are spared or not. */
  predicate Named(s: Node, k: GiKey, spared: bool) {
    forall j :: j in Todo(s.op) && Denotes(s.hw, j, k) ==> (j.device in Spare(s.op) <==> spared)
  }

  lemma NamedGoesOn(env: Env, s: Node, e: Event, k: GiKey, spared: bool)
    requires SweepingNames(s) && HwOk(s.hw) && InLock(e) && Enabled(env, s, e) && k in s.hw.gis && Named(s, k, spared)
    ensures var t := Apply(env, s, e); t.op != Idle && k in t.hw.gis ==> t.hw.gis[k] == s.hw.gis[k] && Named(t, k, spared)
  {
    SweepStep(env, s, e, k);
    var t := Apply(env, s, e);
    if t.op != Idle && t.op != s.op {
      NextStillSweeps(s.op);
      assert forall j :: j in Todo(s.op)[1..] ==> j in Todo(s.op);
    }
  }

  lemma {:induction false} UnsparedIsRemoved(env: Env, s: Node, es: seq<Event>, k: GiKey)
    requires SweepingNames(s) && HwOk(s.hw) && Run(env, s, es).Some? && (forall e :: e in es ==> InLock(e)) && Assuming(env, s, es, {ReliableScan})
    requires Run(env, s, es).value.op == WithTodo(s.op, []) && Complete(s.hw, k) && Named(s, k, false)
    requires exists j :: j in Todo(s.op) && Denotes(s.hw, j, k)
    ensures k !in Run(env, s, es).value.hw.gis
    decreases es
  {
    var j :| j in Todo(s.op) && Denotes(s.hw, j, k);
    WithTodoFacts(s.op, Todo(s.op));
    WithTodoFacts(s.op, []);
    NotIdleAfterAll(s.op);
    if es != [] {
      var t := Apply(env, s, es[0]);
      SweepStep(env, s, es[0], k);
      NamedGoesOn(env, s, es[0], k, false);
      assert ReliableScan in {ReliableScan};
      if t.op == Idle {
        IdleRun(env, t, es[1..]);
      } else if k !in t.hw.gis {
        GoneStays(env, t, es[1..], k);
      } else {
        NotDoneYet(env, s, es[0], k, j);
        StillDenoted(s, t, k, j);
        UnsparedIsRemoved(env, t, es[1..], k);
      }
    }
  }

  /** A job about k that was not done is still to be done. */
  lemma StillDenoted(s: Node, t: Node, k: GiKey, j: Job)
    requires SweepingNames(s) && j in Todo(s.op) && Denotes(s.hw, j, k) && k in t.hw.gis && t.hw.gis[k] == s.hw.gis[k]
    requires t.op == s.op || (t.op == NextJob(s.op) && j != Todo(s.op)[0])
    ensures j in Todo(t.op) && Denotes(t.hw, j, k) && WithTodo(t.op, []) == WithTodo(s.op, [])
  {
    if t.op != s.op {
      NextStillSweeps(s.op);
      assert Todo(s.op) == [Todo(s.op)[0]] + Todo(s.op)[1..];
    }
  }

  /** If k is still there, the job just done was not about k. */
  lemma NotDoneYet(env: Env, s: Node, e: Event, k: GiKey, j: Job)
    requires SweepingNames(s) && HwOk(s.hw) && InLock(e) && Enabled(env, s, e) && Holds(env, s, e, ReliableScan)
    requires Complete(s.hw, k) && Named(s, k, false) && j in Todo(s.op) && Denotes(s.hw, j, k)
    ensures var t := Apply(env, s, e); t.op != Idle && t.op != s.op && k in t.hw.gis ==> j != Todo(s.op)[0]
  {
    SweepStep(env, s, e, k);
    if Denotes(s.hw, Todo(s.op)[0], k) {
      VisitDeletes(env, s, e, k);
    }
    if !e.Delete? {
      QuietLockStep(env, s, e);
    }
  }

  lemma VisitDeletes(env: Env, s: Node, e: Event, k: GiKey)
    requires SweepingNames(s) && HwOk(s.hw) && InLock(e) && Enabled(env, s, e) && Holds(env, s, e, ReliableScan)
    requires Complete(s.hw, k) && Named(s, k, false) && Todo(s.op) != [] && Denotes(s.hw, Todo(s.op)[0], k)
    ensures e.Delete? ==> !PassedOver(s, e.j, k)
  {
    assert Todo(s.op)[0] in Todo(s.op);
  }

  /** Reading every slot, a sweep that comes to its end leaves a complete device that it is about exactly if the name is
      spared as a completed claim's. */
  lemma SparedLeavesIff(env: Env, s: Node, es: seq<Event>, k: GiKey, spared: bool)
    requires SweepingNames(s) && HwOk(s.hw) && Run(env, s, es).Some? && (forall e :: e in es ==> InLock(e)) && Assuming(env, s, es, {ReliableScan})
    requires Run(env, s, es).value.op == WithTodo(s.op, []) && Complete(s.hw, k) && Named(s, k, spared)
    requires exists j :: j in Todo(s.op) && Denotes(s.hw, j, k)
    ensures k in Run(env, s, es).value.hw.gis <==> spared
  {
    if spared {
      UnhitStays(env, s, es, k);
    } else {
      UnsparedIsRemoved(env, s, es, k);
    }
  }

  /** At every step of the run that is about k, its slot could not be read. */
  ghost predicate LostWhenReached(env: Env, s: Node, es: seq<Event>, k: GiKey)
    decreases es
  {
    es == [] ||
    (Enabled(env, s, es[0]) ==>
      (Visits(s, es[0], k) ==> es[0].j.FindNothing? && es[0].j.lost) && LostWhenReached(env, Apply(env, s, es[0]), es[1..], k))
  }

  lemma {:induction false} IdlePassesAll(env: Env, s: Node, es: seq<Event>, k: GiKey)
    requires Run(env, s, es).Some? && s.op == Idle && forall e :: e in es ==> InLock(e)
    ensures AlwaysPassedOver(env, s, es, k) && LostWhenReached(env, s, es, k)
    decreases es
  {
    if es != [] {
      IdleStep(env, s, es[0]);
      IdlePassesAll(env, Apply(env, s, es[0]), es[1..], k);
    }
  }

  lemma {:induction false} PassedOverIsLost(env: Env, s: Node, es: seq<Event>, k: GiKey)
    requires SweepingNames(s) && HwOk(s.hw) && Run(env, s, es).Some? && forall e :: e in es ==> InLock(e)
    requires Complete(s.hw, k) && Named(s, k, false)
    ensures AlwaysPassedOver(env, s, es, k) <==> LostWhenReached(env, s, es, k)
    decreases es
  {
    if es != [] {
      var t := Apply(env, s, es[0]);
      SweepStep(env, s, es[0], k);
      NamedGoesOn(env, s, es[0], k, false);
      assert Visits(s, es[0], k) ==> Todo(s.op)[0] in Todo(s.op);
      if t.op == Idle {
        IdlePassesAll(env, t, es[1..], k);
      } else if k in t.hw.gis {
        PassedOverIsLost(env, t, es[1..], k);
      }
    }
  }

  /** Whatever slots can be read, a sweep that comes to its end leaves a complete device whose name is not spared exactly if
      its slot could not be read whenever the sweep came to its name. */
  lemma UnreadableLeavesIff(env: Env, s: Node, es: seq<Event>, k: GiKey)
    requires SweepingNames(s) && HwOk(s.hw) && Run(env, s, es).Some? && forall e :: e in es ==> InLock(e)
    requires Run(env, s, es).value.op == WithTodo(s.op, []) && Complete(s.hw, k) && Named(s, k, false)
    ensures k in Run(env, s, es).value.hw.gis <==> LostWhenReached(env, s, es, k)
  {
    SweepLeavesIff(env, s, es, k);
    PassedOverIsLost(env, s, es, k);
  }

  // ------------------------------------------------- when a sweep can end

  /** In the middle of deletions, one of which cannot be done. */
  predicate Stuck(env: Env, op: Op) {
    Deleting(op) && !NoneBlocked(env, Todo(op), Spare(op))
  }

  lemma StuckAfterJob(env: Env, s: Node, j: JobEvent)
    requires Stuck(env, s.op) && JobEnabled(env, s, j)
    ensures JobApply(env, s, j).op == Idle || Stuck(env, JobApply(env, s, j).op)
  {
    JobNotBlocked(env, s, j);
    if JobApply(env, s, j).op != Idle {
      WithTodoFacts(s.op, Todo(s.op));
      WithTodoFacts(s.op, Todo(s.op)[1..]);
      var x :| x in Todo(s.op) && Blocked(env, x, Spare(s.op));
      assert x in Todo(s.op)[1..];
    }
  }

  /** An operation with such a deletion to make fails. */
  lemma {:induction false} StuckFails(env: Env, s: Node, es: seq<Event>)
    requires Stuck(env, s.op) && Run(env, s, es).Some? && forall e :: e in es ==> InLock(e)
    ensures var t := Run(env, s, es).value; t.op == Idle || Stuck(env, t.op)
    decreases es
  {
    if es != [] {
      var t := Apply(env, s, es[0]);
      if es[0].Delete? {
        StuckAfterJob(env, s, es[0].j);
      } else {
        QuietLockStep(env, s, es[0]);
      }
      if t.op == Idle {
        IdleRun(env, t, es[1..]);
      } else {
        StuckFails(env, t, es[1..]);
      }
    }
  }

  /** Some run of the sweep that s is in comes to its end. */
  ghost predicate MayEnd(env: Env, s: Node) {
    exists es :: Run(env, s, es).Some? && (forall e :: e in es ==> InLock(e)) && Run(env, s, es).value.op == WithTodo(s.op, [])
  }

  /** A sweep by name can come to its end exactly if the GPU of every name that parses and is not spared is on the node. */
  lemma SweepEndsIff(env: Env, s: Node)
    requires SweepingNames(s) && HwOk(s.hw)
    ensures MayEnd(env, s) <==> NoneBlocked(env, Todo(s.op), Spare(s.op))
  {
    if NoneBlocked(env, Todo(s.op), Spare(s.op)) {
      var es, t := SweepAll(env, s);
    } else if MayEnd(env, s) {
      var es :| Run(env, s, es).Some? && (forall e :: e in es ==> InLock(e)) && Run(env, s, es).value.op == WithTodo(s.op, []);
      StuckFails(env, s, es);
      WithTodoFacts(s.op, []);
      NotIdleAfterAll(s.op);
      assert false;
    }
  }

  // ---------------------------------------------- sweeping a started claim

  /** Some run of the sweep that s is in takes k away. */
  ghost predicate MayRemove(env: Env, s: Node, k: GiKey) {
    exists es :: Run(env, s, es).Some? && (forall e :: e in es ==> InLock(e)) && k !in Run(env, s, es).value.hw.gis
  }

  lemma AdmittedSweepsNames(env: Env, s: Node, u: Uid)
    requires s.up && Started(s, u) && env.mode != HamiMode
    ensures var t := Admitted(env, s, u);
            SweepingNames(t) && t.hw == s.hw && Todo(t.op) == NameJobs(ClaimsOf(s)[u].results) && Spare(t.op) == CompletedNames(ClaimsOf(s))
            && t.op == Unpreparing(u, false, Sweep(Todo(t.op), Spare(t.op))) && t.file == s.file && ClaimsOf(t) == ClaimsOf(s) && t.touched == s.touched
  {
    var called := s.(op := Unpreparing(u, false, Arrive));
    assert ClaimsOf(called) == ClaimsOf(s);
    assert AdmittedUnprepare(env, called) == Sweep(NameJobs(ClaimsOf(s)[u].results), CompletedNames(ClaimsOf(s)));
  }

  /** Unpreparing a partially prepared claim can take a GPU instance away exactly if it is complete and a name among the
      claim's results denotes it, is no completed claim's, and stands before the first name that cannot be done. This holds
      also with dynamic MIG off, where the code logs that there is nothing to do: then the devices are static ones that
      nobody made for the claim. */
  lemma SweepRemovesIff(env: Env, s: Node, u: Uid, k: GiKey)
    requires s.up && HwOk(s.hw) && Started(s, u) && env.mode != HamiMode && k in s.hw.gis
    ensures var names, spare := NameJobs(ClaimsOf(s)[u].results), CompletedNames(ClaimsOf(s));
            MayRemove(env, Admitted(env, s, u), k) <==> HitByAny(s.hw, Doable(env, names, spare), spare, k)
  {
    AdmittedSweepsNames(env, s, u);
    RemovalIsHit(env, Admitted(env, s, u), k);
  }

  lemma RemovalIsHit(env: Env, t: Node, k: GiKey)
    requires SweepingNames(t) && HwOk(t.hw) && k in t.hw.gis
    ensures MayRemove(env, t, k) <==> HitByAny(t.hw, Doable(env, Todo(t.op), Spare(t.op)), Spare(t.op), k)
  {
    if HitByAny(t.hw, Doable(env, Todo(t.op), Spare(t.op)), Spare(t.op), k) {
      HitMeansRemoval(env, t, k);
    } else if MayRemove(env, t, k) {
      var es :| Run(env, t, es).Some? && (forall e :: e in es ==> InLock(e)) && k !in Run(env, t, es).value.hw.gis;
      UnhitStays(env, t, es, k);
    }
  }

  lemma HitMeansRemoval(env: Env, t: Node, k: GiKey)
    requires SweepingNames(t) && HwOk(t.hw) && HitByAny(t.hw, Doable(env, Todo(t.op), Spare(t.op)), Spare(t.op), k)
    ensures MayRemove(env, t, k)
  {
    var es, t' := SweepCompletes(env, t);
    assert k !in t'.hw.gis;
  }
}
