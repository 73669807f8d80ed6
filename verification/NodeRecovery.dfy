/** Dynamic MIG: exactly what a forgotten claim leaves behind, and exactly when a claim can be freed. */
module NodeRecovery {
  import opened Base
  import opened Claims
  import opened Hypotheses
  import opened MigNames
  import opened Node
  import opened NodeAccount
  import opened NodeBasics
  import opened NodeLife
  import opened NodeMaking
  import opened NodeMig
  import opened NodeRuns
  import opened NodeSweep
  import opened Nvlib

  // --------------------------------------------------------- what is forgotten

  /** Whenever the sweep comes to a job about k, k has no compute instance. */
  ghost predicate IncompleteWhenReached(env: Env, s: Node, es: seq<Event>, k: GiKey)
    decreases es
  {
    es == [] ||
    (Enabled(env, s, es[0]) ==>
      && (Visits(s, es[0], k) ==> !Complete(s.hw, k))
      && IncompleteWhenReached(env, Apply(env, s, es[0]), es[1..], k))
  }

  /** The unprepare of the partially prepared claim u, in its sweep. */
  predicate Sweeping(s: Node, u: Uid) {
    s.up && s.op.Unpreparing? && s.op.uid == u && s.op.ustage.Sweep? && Started(s, u)
  }

  lemma SweepingIsByName(env: Env, s: Node, u: Uid)
    requires Basic(env, s) && Sweeping(s, u)
    ensures SweepingNames(s) && Spare(s.op) == CompletedNames(ClaimsOf(s)) && NamesOf(Todo(s.op), ClaimsOf(s)[u].results)
  {
  }

  /** A complete device of u is not spared. */
  lemma OwnedNotSpared(env: Env, s: Node, u: Uid, k: GiKey)
    requires AccountInv(env, s) && Sweeping(s, u) && Owns(s, u, k) && Todo(s.op) != [] && Denotes(s.hw, Todo(s.op)[0], k)
    ensures Todo(s.op)[0].device !in Spare(s.op)
  {
    SweepingIsByName(env, s, u);
    assert Todo(s.op)[0] in Todo(s.op);
    assert AdvertisedResults(env, ClaimsOf(s)[u].results);
    assert Todo(s.op)[0].device == NameOf(env.profiles, s.hw, k);
    assert Accounted(ClaimsOf(s), u, k, NameOf(env.profiles, s.hw, k));
  }

  /** Owners are those there were, less what is gone. */
  predicate OwnersLeft(s: Node, t: Node) {
    && (forall k :: k in t.owner ==> k in s.owner && t.owner[k] == s.owner[k])
    && (forall k :: k in s.owner && k in t.hw.gis ==> k in t.owner)
  }

  lemma JobKeepsSweeping(env: Env, s: Node, j: JobEvent, u: Uid)
    requires Sweeping(s, u) && JobEnabled(env, s, j) && SweepingNames(s)
    ensures var t := JobApply(env, s, j); ClaimsOf(t) == ClaimsOf(s) && (t.op == Idle || Sweeping(t, u)) && OwnersLeft(s, t)
  {
    JobEffect(env, s, j);
    JobSameFile(env, s, j);
    SweepJobOp(env, s, j);
    assert ClaimsOf(JobApply(env, s, j)) == ClaimsOf(s);
  }

  lemma LockKeepsSweeping(env: Env, s: Node, e: Event, u: Uid)
    requires Sweeping(s, u) && InLock(e) && Enabled(env, s, e) && SweepingNames(s)
    ensures var t := Apply(env, s, e); ClaimsOf(t) == ClaimsOf(s) && (t.op == Idle || Sweeping(t, u)) && OwnersLeft(s, t)
  {
    match e
    case Delete(j) => JobKeepsSweeping(env, s, j, u);
    case Outside(o) => QuietLockStep(env, s, e); OutsideSameFile(s, o);
    case Cleanup(c) => QuietLockStep(env, s, e); CleanupSameFile(s, c);
  }

  lemma SweepJobOp(env: Env, s: Node, j: JobEvent)
    requires SweepingNames(s) && JobEnabled(env, s, j)
    ensures Todo(s.op) != [] && JobApply(env, s, j).op in {Idle, NextJob(s.op)} && JobApply(env, s, j).up == s.up
  {
    match j
    case DeleteMig(l, hw, done) => assert MayDelete(env, s, l);
    case FindNothing(_) =>
    case SkipJob =>
  }

  /** At a visit, k is passed over exactly if it is incomplete. */
  lemma VisitDecides(env: Env, s: Node, e: Event, u: Uid, k: GiKey)
    requires AccountInv(env, s) && Sweeping(s, u) && k in s.owner && s.owner[k] == u && Enabled(env, s, e) && Holds(env, s, e, ReliableScan)
    requires Visits(s, e, k)
    ensures PassedOver(s, e.j, k) <==> !Complete(s.hw, k)
  {
    SweepingIsByName(env, s, u);
    assert Todo(s.op)[0] in Todo(s.op);
    if Complete(s.hw, k) {
      OwnedNotSpared(env, s, u, k);
    }
  }

  /** Unless k is taken away, the next step finds it where this one did. */
  lemma VisitGoesOn(env: Env, s: Node, e: Event, u: Uid, k: GiKey)
    requires AccountInv(env, s) && Sweeping(s, u) && k in s.owner && s.owner[k] == u && InLock(e) && Enabled(env, s, e)
    requires Visits(s, e, k) ==> PassedOver(s, e.j, k)
    ensures var t := Apply(env, s, e); t.op == Idle || (Sweeping(t, u) && k in t.owner && t.owner[k] == u)
  {
    SweepingIsByName(env, s, u);
    LockKeepsSweeping(env, s, e, u);
    SweepStep(env, s, e, k);
  }

  lemma {:induction false} PassedOverIsIncomplete(env: Env, s: Node, es: seq<Event>, u: Uid, k: GiKey)
    requires EnvOk(env) && env.mode == DynamicMig && AccountInv(env, s) && Sweeping(s, u) && k in s.owner && s.owner[k] == u
    requires Run(env, s, es).Some? && (forall e :: e in es ==> InLock(e)) && Assuming(env, s, es, Sound)
    ensures AlwaysPassedOver(env, s, es, k) <==> IncompleteWhenReached(env, s, es, k)
    decreases es
  {
    if es != [] {
      assert ReliableScan in Sound;
      if Visits(s, es[0], k) {
        VisitDecides(env, s, es[0], u, k);
      }
      if Visits(s, es[0], k) ==> PassedOver(s, es[0].j, k) {
        VisitGoesOn(env, s, es[0], u, k);
        AccountKept(env, s, es[0]);
        if Apply(env, s, es[0]).op == Idle {
          IdleVisitsNothing(env, Apply(env, s, es[0]), es[1..], k);
        } else {
          PassedOverIsIncomplete(env, Apply(env, s, es[0]), es[1..], u, k);
        }
      }
    }
  }

  lemma {:induction false} IdleVisitsNothing(env: Env, s: Node, es: seq<Event>, k: GiKey)
    requires Run(env, s, es).Some? && s.op == Idle && forall e :: e in es ==> InLock(e)
    ensures AlwaysPassedOver(env, s, es, k) && IncompleteWhenReached(env, s, es, k)
    decreases es
  {
    if es != [] {
      IdleStep(env, s, es[0]);
      IdleVisitsNothing(env, Apply(env, s, es[0]), es[1..], k);
    }
  }

  /** When a partially prepared claim is forgotten after a sweep of any course, a GPU instance made for it stays behind
      exactly if it had no compute instance whenever the sweep came to its name. */
  lemma ForgottenLeavesIff(env: Env, s: Node, es: seq<Event>, u: Uid, k: GiKey)
    requires EnvOk(env) && env.mode == DynamicMig && AccountInv(env, s) && Sweeping(s, u) && k in s.owner && s.owner[k] == u
    requires Run(env, s, es).Some? && (forall e :: e in es ==> InLock(e)) && Assuming(env, s, es, Sound)
    requires Run(env, s, es).value.op == WithTodo(s.op, [])
    ensures var t := Run(env, s, es).value;
            && t.file.Some? && Reachable(env, Sound, s, Forgotten(t, u)) && u !in ClaimsOf(Forgotten(t, u))
            && (k in Forgotten(t, u).hw.gis <==> IncompleteWhenReached(env, s, es, k))
  {
    SweepingIsByName(env, s, u);
    SweepLeavesIff(env, s, es, k);
    PassedOverIsIncomplete(env, s, es, u, k);
    SweptIsForgotten(env, s, es, u);
  }

  lemma SweptIsForgotten(env: Env, s: Node, es: seq<Event>, u: Uid)
    requires Basic(env, s) && Sweeping(s, u) && Deleting(s.op) && Run(env, s, es).Some? && (forall e :: e in es ==> InLock(e)) && Assuming(env, s, es, Sound)
    requires Run(env, s, es).value.op == WithTodo(s.op, [])
    ensures var t := Run(env, s, es).value; t.file.Some? && Reachable(env, Sound, s, Forgotten(t, u))
  {
    var t := Run(env, s, es).value;
    assert Leads(env, Sound, s, es, t);
    WithTodoFacts(s.op, []);
    LockStaysUp(env, s, es);
    BasicRun(env, s, es);
    ReachForgotten(env, Sound, s, t, u);
  }

  lemma LockStep(env: Env, s: Node, e: Event)
    requires InLock(e) && Enabled(env, s, e)
    ensures Apply(env, s, e).up == s.up
  {
    match e
    case Delete(j) => JobEffect(env, s, j);
    case _ => QuietLockStep(env, s, e);
  }

  lemma {:induction false} LockStaysUp(env: Env, s: Node, es: seq<Event>)
    requires Run(env, s, es).Some? && forall e :: e in es ==> InLock(e)
    ensures Run(env, s, es).value.up == s.up
    decreases es
  {
    if es != [] {
      LockStep(env, s, es[0]);
      LockStaysUp(env, Apply(env, s, es[0]), es[1..]);
    }
  }

  // ------------------------------------------------------ claims can be freed

  lemma ForgottenOwnsNothing(env: Env, s: Node, u: Uid)
    requires AllAccounted(env, s) && u !in ClaimsOf(s)
    ensures OwnsNothing(s, u)
  {
    forall k | k in s.owner && Complete(s.hw, k) ensures s.owner[k] != u {
      assert Accounted(ClaimsOf(s), s.owner[k], k, NameOf(env.profiles, s.hw, k));
    }
  }

  /** Reachable under the hypotheses of accounting, the books still balance. */
  lemma ReachableAccounts(env: Env, s: Node, t: Node, hs: set<Hypothesis>)
    requires EnvOk(env) && env.mode == DynamicMig && AccountInv(env, s) && Reachable(env, hs, s, t) && Sound <= hs
    ensures AccountInv(env, t)
  {
    var es :| Leads(env, hs, s, es, t);
    FewerHypotheses(env, s, es, hs, Sound);
    AccountRun(env, s, es);
  }

  lemma {:induction false} FewerHypotheses(env: Env, s: Node, es: seq<Event>, hs: set<Hypothesis>, fewer: set<Hypothesis>)
    requires Assuming(env, s, es, hs) && fewer <= hs
    ensures Assuming(env, s, es, fewer)
    decreases es
  {
    if es != [] && Enabled(env, s, es[0]) {
      FewerHypotheses(env, Apply(env, s, es[0]), es[1..], hs, fewer);
    }
  }

  /** What may happen in the course of an Unprepare. */
  predicate InUnprepare(e: Event) {
    e.Unprepare? || InLock(e)
  }

  /** A course of an Unprepare under the hypotheses. */
  ghost predicate Goes(env: Env, hs: set<Hypothesis>, s: Node, es: seq<Event>, t: Node) {
    Leads(env, hs, s, es, t) && forall e :: e in es ==> InUnprepare(e)
  }

  lemma GoesFurther(env: Env, hs: set<Hypothesis>, s: Node, es: seq<Event>, t: Node, fs: seq<Event>, t': Node)
    requires Goes(env, hs, s, es, t) && Goes(env, hs, t, fs, t')
    ensures Goes(env, hs, s, es + fs, t')
  {
    RunAppend(env, s, es, fs);
    AssumingAppend(env, s, es, fs, hs);
  }

  lemma GoesUnprepare(env: Env, hs: set<Hypothesis>, s: Node, v: UnprepareEvent)
    requires UnprepareEnabled(s, v)
    ensures Goes(env, hs, s, [Unprepare(v)], UnprepareApply(env, s, v))
  {
    RunOne(env, s, Unprepare(v));
    PlainHolds(env, s, Unprepare(v), hs);
    AssumingOne(env, s, Unprepare(v), hs);
  }

  lemma GoesPlain(env: Env, hs: set<Hypothesis>, s: Node, es: seq<Event>, t: Node)
    requires Run(env, s, es) == Some(t) && forall e :: e in es ==> e.Delete? && Plain(e)
    ensures Goes(env, hs, s, es, t)
  {
    PlainAssumes(env, s, es, hs);
  }

  /** The Unprepare of u as it arrives. */
  function Called(s: Node, u: Uid): Node {
    s.(op := Unpreparing(u, false, Arrive))
  }

  /** Some course of an Unprepare of u that starts now frees it. */
  ghost predicate CanBeFreed(env: Env, hs: set<Hypothesis>, s: Node, u: Uid) {
    exists es, t :: Goes(env, hs, Called(s, u), es, t) && u !in ClaimsOf(t)
  }

  /** The GPUs of all that the Unprepare of u has to look for or to delete are on the node. An entry in no known state
      cannot be unprepared at all. */
  predicate GpusThere(env: Env, claims: map<Uid, Entry>, u: Uid)
    requires u in claims
  {
    match claims[u].state
    case PrepareStarted => NoneBlocked(env, NameJobs(claims[u].results), CompletedNames(claims))
    case PrepareCompleted => NoneBlocked(env, TupleJobs(claims[u].devices), {})
    case Unset => false
  }

  lemma FreeSwept(env: Env, hs: set<Hypothesis>, s: Node, es: seq<Event>, t: Node, u: Uid) returns (fs: seq<Event>, t': Node)
    requires Goes(env, hs, s, es, t) && t.up && t.file.Some? && t.op.Unpreparing? && t.op.uid == u && t.op.ustage.Sweep? && t.op.ustage.todo == []
    ensures Goes(env, hs, s, fs, t') && t' == Forgotten(t, u)
  {
    var forget := t.(op := Unpreparing(u, t.op.selfInitiated, Forget));
    GoesUnprepare(env, hs, t, EndSweep);
    assert UnprepareApply(env, t, EndSweep) == forget;
    GoesFurther(env, hs, s, es, t, [Unprepare(EndSweep)], forget);
    GoesUnprepare(env, hs, forget, WriteForget);
    t' := Forgotten(t, u);
    assert UnprepareApply(env, forget, WriteForget) == t';
    fs := es + [Unprepare(EndSweep)] + [Unprepare(WriteForget)];
    GoesFurther(env, hs, s, es + [Unprepare(EndSweep)], forget, [Unprepare(WriteForget)], t');
  }

  lemma GoesAdmitted(env: Env, hs: set<Hypothesis>, s: Node, u: Uid)
    requires s.up && (Started(s, u) || Completed(s, u))
    ensures Goes(env, hs, Called(s, u), [Unprepare(AdmitUnprepare)], Admitted(env, s, u))
  {
    assert ClaimsOf(Called(s, u)) == ClaimsOf(s);
    GoesUnprepare(env, hs, Called(s, u), AdmitUnprepare);
    assert UnprepareApply(env, Called(s, u), AdmitUnprepare) == Admitted(env, s, u);
  }

  lemma FreeStarted(env: Env, hs: set<Hypothesis>, s: Node, u: Uid)
    requires BootInv(s) && HwOk(s.hw) && s.up && Started(s, u) && env.mode != HamiMode && GpusThere(env, ClaimsOf(s), u)
    ensures CanBeFreed(env, hs, s, u)
  {
    GoesAdmitted(env, hs, s, u);
    AdmittedSweepsNames(env, s, u);
    var admitted := Admitted(env, s, u);
    var sweep, swept := SweepAll(env, admitted);
    GoesPlain(env, hs, admitted, sweep, swept);
    GoesFurther(env, hs, Called(s, u), [Unprepare(AdmitUnprepare)], admitted, sweep, swept);
    WithTodoFacts(admitted.op, []);
    var es, t := FreeSwept(env, hs, Called(s, u), [Unprepare(AdmitUnprepare)] + sweep, swept, u);
  }

  /** Nothing frees u in this course any more. */
  predicate Hopeless(env: Env, s: Node, u: Uid) {
    && u in ClaimsOf(s)
    && (s.op == Idle || Stuck(env, s.op)
        || (s.op.Unpreparing? && s.op.uid == u && s.op.ustage == Arrive && !GpusThere(env, ClaimsOf(s), u)))
  }

  lemma AdmissionIsStuck(env: Env, s: Node, u: Uid)
    requires UnprepareEnabled(s, AdmitUnprepare) && s.op.uid == u && env.mode == DynamicMig && !GpusThere(env, ClaimsOf(s), u)
    ensures Stuck(env, UnprepareApply(env, s, AdmitUnprepare).op)
  {
    assert u in ClaimsOf(s);
  }

  lemma HopelessUnprepare(env: Env, s: Node, v: UnprepareEvent, u: Uid)
    requires Hopeless(env, s, u) && env.mode == DynamicMig && UnprepareEnabled(s, v)
    ensures Hopeless(env, UnprepareApply(env, s, v), u)
  {
    WritesUnprepare(env, s, v);
    if v == AdmitUnprepare {
      AdmissionIsStuck(env, s, u);
    }
  }

  lemma HopelessJob(env: Env, s: Node, j: JobEvent, u: Uid)
    requires Hopeless(env, s, u) && JobEnabled(env, s, j)
    ensures Hopeless(env, JobApply(env, s, j), u)
  {
    JobSameFile(env, s, j);
    NoJobsWhenIdle(env, s, j);
    if Stuck(env, s.op) {
      StuckAfterJob(env, s, j);
    } else {
      NoJobsOnArrival(env, s, j);
    }
  }

  lemma NoJobsOnArrival(env: Env, s: Node, j: JobEvent)
    requires JobEnabled(env, s, j)
    ensures Todo(s.op) != [] || s.op.TearingDown?
  {
    match j
    case DeleteMig(l, hw, done) => assert MayDelete(env, s, l);
    case _ =>
  }

  lemma HopelessStep(env: Env, s: Node, e: Event, u: Uid)
    requires Hopeless(env, s, u) && env.mode == DynamicMig && InUnprepare(e) && Enabled(env, s, e)
    ensures Hopeless(env, Apply(env, s, e), u)
  {
    match e
    case Unprepare(v) => HopelessUnprepare(env, s, v, u);
    case Delete(j) => HopelessJob(env, s, j, u);
    case Outside(o) => QuietLockStep(env, s, e); OutsideSameFile(s, o);
    case Cleanup(c) => QuietLockStep(env, s, e); CleanupSameFile(s, c);
  }

  lemma {:induction false} HopelessStays(env: Env, s: Node, es: seq<Event>, u: Uid)
    requires Hopeless(env, s, u) && env.mode == DynamicMig && Run(env, s, es).Some? && forall e :: e in es ==> InUnprepare(e)
    ensures u in ClaimsOf(Run(env, s, es).value)
    decreases es
  {
    if es != [] {
      HopelessStep(env, s, es[0], u);
      HopelessStays(env, Apply(env, s, es[0]), es[1..], u);
    }
  }

  lemma NotThereNeverFreed(env: Env, hs: set<Hypothesis>, s: Node, u: Uid)
    requires u in ClaimsOf(s) && env.mode == DynamicMig && !GpusThere(env, ClaimsOf(s), u)
    ensures !CanBeFreed(env, hs, s, u)
  {
    forall es, t | Goes(env, hs, Called(s, u), es, t) ensures u in ClaimsOf(t) {
      assert ClaimsOf(Called(s, u)) == ClaimsOf(s);
      HopelessStays(env, Called(s, u), es, u);
    }
  }

  /** Whatever course has freed u, it owns nothing. */
  lemma FreedOwnsNothing(env: Env, s: Node, es: seq<Event>, t: Node, u: Uid)
    requires EnvOk(env) && env.mode == DynamicMig && AccountInv(env, s) && s.up && s.op == Idle
    requires Goes(env, Sound, Called(s, u), es, t) && u !in ClaimsOf(t)
    ensures OwnsNothing(t, u)
  {
    ReachSelf(env, Sound, s);
    PlainHolds(env, s, Process(CallUnprepare(u)), Sound);
    ReachProcess(env, Sound, s, s, CallUnprepare(u));
    ReachableAccounts(env, s, Called(s, u), Sound);
    AccountRun(env, Called(s, u), es);
    CourseStaysUp(env, Called(s, u), es);
    ForgottenOwnsNothing(env, t, u);
  }

  lemma {:induction false} CourseStaysUp(env: Env, s: Node, es: seq<Event>)
    requires Run(env, s, es).Some? && forall e :: e in es ==> InUnprepare(e)
    ensures Run(env, s, es).value.up == s.up
    decreases es
  {
    if es != [] {
      if es[0].Unprepare? {
        UnprepareStaysUp(env, s, es[0].u);
      } else {
        assert InUnprepare(es[0]);
        LockStep(env, s, es[0]);
      }
      CourseStaysUp(env, Apply(env, s, es[0]), es[1..]);
    }
  }

  lemma FreedAlwaysOwnsNothing(env: Env, s: Node, u: Uid)
    requires EnvOk(env) && env.mode == DynamicMig && AccountInv(env, s) && s.up && s.op == Idle
    ensures forall es, t :: Goes(env, Sound, Called(s, u), es, t) && u !in ClaimsOf(t) ==> OwnsNothing(t, u)
  {
    forall es, t | Goes(env, Sound, Called(s, u), es, t) && u !in ClaimsOf(t) ensures OwnsNothing(t, u) {
      FreedOwnsNothing(env, s, es, t, u);
    }
  }

  /** From every reachable idle state, a partially prepared claim can be unprepared exactly if the GPU of each of its names
      that parses and is not spared is on the node; and when it is unprepared, no complete MIG device that was made for
      it exists, whatever failures and crashes came before. */
  lemma StartedClaimsCanBeFreed(env: Env, s: Node, es: seq<Event>, u: Uid)
    requires EnvOk(env) && env.mode == DynamicMig && Initial(s) && CleanHardware(s) && Run(env, s, es).Some? && Assuming(env, s, es, Sound)
    requires var t := Run(env, s, es).value; t.up && t.op == Idle && Started(t, u)
    ensures var t := Run(env, s, es).value;
            && (CanBeFreed(env, Sound, t, u) <==> NoneBlocked(env, NameJobs(ClaimsOf(t)[u].results), CompletedNames(ClaimsOf(t))))
            && forall fs, t' :: Goes(env, Sound, Called(t, u), fs, t') && u !in ClaimsOf(t') ==> OwnsNothing(t', u)
  {
    InitialAccounts(env, s);
    AccountRun(env, s, es);
    var t := Run(env, s, es).value;
    if GpusThere(env, ClaimsOf(t), u) {
      FreeStarted(env, Sound, t, u);
    } else {
      NotThereNeverFreed(env, Sound, t, u);
    }
    FreedAlwaysOwnsNothing(env, t, u);
  }

  // --------------------------------------------------------- completed claims

  /** The deletion of t can succeed. */
  predicate CanDelete(hw: Hw, t: LiveTuple) {
    t.Key() in hw.gis ==> hw.gis[t.Key()].ci in {None, Some(t.ci)}
  }

  predicate SweepingTuples(s: Node) {
    s.up && Deleting(s.op) && forall j :: j in Todo(s.op) ==> j.ByTuple? && CanDelete(s.hw, j.tuple)
  }

  lemma NextTuplePossible(env: Env, s: Node) returns (j: JobEvent)
    requires SweepingTuples(s) && Todo(s.op) != [] && !Blocked(env, Todo(s.op)[0], Spare(s.op))
    ensures Plain(Delete(j)) && JobEnabled(env, s, j)
    ensures var t := JobApply(env, s, j); t == s.(op := NextJob(s.op), hw := t.hw, owner := t.owner) && SweepingTuples(t)
  {
    assert Todo(s.op)[0] in Todo(s.op);
    var l := Todo(s.op)[0].tuple;
    var hw := Hw(s.hw.gis - {l.Key()}, s.hw.on);
    j := DeleteMig(l, hw, true);
    WithTodoFacts(s.op, Todo(s.op));
    WithTodoFacts(s.op, Todo(s.op)[1..]);
    assert forall x :: x in Todo(s.op)[1..] ==> x in Todo(s.op);
    assert hw.gis == s.hw.gis || l.Key() in s.hw.gis;
  }

  lemma {:induction false} TupleSweepCompletes(env: Env, s: Node) returns (es: seq<Event>, t: Node)
    requires SweepingTuples(s) && NoneBlocked(env, Todo(s.op), Spare(s.op))
    ensures Run(env, s, es) == Some(t) && forall e :: e in es ==> e.Delete? && Plain(e)
    ensures t == s.(op := WithTodo(s.op, []), hw := t.hw, owner := t.owner)
    decreases |Todo(s.op)|
  {
    WithTodoFacts(s.op, Todo(s.op));
    if Todo(s.op) == [] {
      es, t := [], s;
    } else {
      var j := NextTuplePossible(env, s);
      var s1 := JobApply(env, s, j);
      WithTodoFacts(s.op, Todo(s.op)[1..]);
      var rest: seq<Event>;
      rest, t := TupleSweepCompletes(env, s1);
      es := [Delete(j)] + rest;
      RunOne(env, s, Delete(j));
      RunAppend(env, s, [Delete(j)], rest);
      WithTodoTwice(s.op, Todo(s.op)[1..], []);
    }
  }

  lemma AdmittedSweepsTuples(env: Env, s: Node, u: Uid)
    requires s.up && Completed(s, u) && env.mode == DynamicMig && RecordsOk(env, ClaimsOf(s), s.hw, s.owner)
    ensures var t := Admitted(env, s, u);
            SweepingTuples(t) && t.file == s.file && t.op == Unpreparing(u, false, Sweep(TupleJobs(ClaimsOf(s)[u].devices), {}))
  {
    var called := s.(op := Unpreparing(u, false, Arrive));
    assert ClaimsOf(called) == ClaimsOf(s);
    assert AdmittedUnprepare(env, called) == Sweep(TupleJobs(ClaimsOf(s)[u].devices), {});
    forall j | j in TupleJobs(ClaimsOf(s)[u].devices) ensures CanDelete(s.hw, j.tuple) {
      var d :| d in ClaimsOf(s)[u].devices && d.live == Some(j.tuple);
      assert RecordOk(env, s.hw, s.owner, u, ClaimsOf(s)[u].results, d);
    }
  }

  lemma FreeCompleted(env: Env, hs: set<Hypothesis>, s: Node, u: Uid)
    requires BootInv(s) && s.up && Completed(s, u) && env.mode == DynamicMig && RecordsOk(env, ClaimsOf(s), s.hw, s.owner)
    requires GpusThere(env, ClaimsOf(s), u)
    ensures CanBeFreed(env, hs, s, u)
  {
    GoesAdmitted(env, hs, s, u);
    AdmittedSweepsTuples(env, s, u);
    var admitted := Admitted(env, s, u);
    var sweep, swept := TupleSweepCompletes(env, admitted);
    GoesPlain(env, hs, admitted, sweep, swept);
    GoesFurther(env, hs, Called(s, u), [Unprepare(AdmitUnprepare)], admitted, sweep, swept);
    WithTodoFacts(admitted.op, []);
    var es, t := FreeSwept(env, hs, Called(s, u), [Unprepare(AdmitUnprepare)] + sweep, swept, u);
  }

  /** The same for completed claims, also after a failed Unprepare: exactly if the GPU of each recorded device is on the
      node. Here ids must not be reused. */
  lemma CompletedClaimsCanBeFreed(env: Env, s: Node, es: seq<Event>, u: Uid)
    requires EnvOk(env) && env.mode == DynamicMig && Initial(s) && CleanHardware(s) && Run(env, s, es).Some? && Assuming(env, s, es, Sound + Safe)
    requires var t := Run(env, s, es).value; t.up && t.op == Idle && Completed(t, u)
    ensures var t := Run(env, s, es).value;
            && (CanBeFreed(env, Sound, t, u) <==> forall d :: d in ClaimsOf(t)[u].devices && d.live.Some? ==> d.live.value.gpu in env.gpus)
            && forall fs, t' :: Goes(env, Sound, Called(t, u), fs, t') && u !in ClaimsOf(t') ==> OwnsNothing(t', u)
  {
    InitialAccounts(env, s);
    FewerHypotheses(env, s, es, Sound + Safe, Sound);
    AccountRun(env, s, es);
    MigRun(env, s, es, Sound + Safe);
    var t := Run(env, s, es).value;
    TuplesThere(env, ClaimsOf(t)[u].devices);
    if GpusThere(env, ClaimsOf(t), u) {
      FreeCompleted(env, Sound, t, u);
    } else {
      NotThereNeverFreed(env, Sound, t, u);
    }
    FreedAlwaysOwnsNothing(env, t, u);
  }

  lemma TuplesThere(env: Env, devices: seq<PreparedDevice>)
    ensures NoneBlocked(env, TupleJobs(devices), {}) <==> forall d :: d in devices && d.live.Some? ==> d.live.value.gpu in env.gpus
  {
    if NoneBlocked(env, TupleJobs(devices), {}) {
      forall d | d in devices && d.live.Some? ensures d.live.value.gpu in env.gpus {
        assert !Blocked(env, ByTuple(d.live.value), {});
      }
    }
  }
}
