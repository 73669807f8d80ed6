/** Building runs: which states a run can reach, step by step. */
module NodeRuns {
  import opened Base
  import opened Claims
  import opened Hypotheses
  import opened Node
  import opened NodeBasics
  import opened Nvlib
  import Store = CheckpointStore

  lemma {:induction false} RunAppend(env: Env, s: Node, es: seq<Event>, fs: seq<Event>)
    requires Run(env, s, es).Some?
    ensures Run(env, s, es + fs) == Run(env, Run(env, s, es).value, fs)
    decreases es
  {
    if es == [] {
      assert es + fs == fs;
    } else {
      assert (es + fs)[0] == es[0] && (es + fs)[1..] == es[1..] + fs;
      RunAppend(env, Apply(env, s, es[0]), es[1..], fs);
    }
  }

  lemma RunOne(env: Env, s: Node, e: Event)
    requires Enabled(env, s, e)
    ensures Run(env, s, [e]) == Some(Apply(env, s, e))
  {
    assert [e][1..] == [];
    assert Run(env, Apply(env, s, e), []) == Some(Apply(env, s, e));
  }

  lemma {:induction false} AssumingAppend(env: Env, s: Node, es: seq<Event>, fs: seq<Event>, hs: set<Hypothesis>)
    requires Run(env, s, es).Some? && Assuming(env, s, es, hs) && Assuming(env, Run(env, s, es).value, fs, hs)
    ensures Assuming(env, s, es + fs, hs)
    decreases es
  {
    if es == [] {
      assert es + fs == fs;
    } else {
      assert (es + fs)[0] == es[0] && (es + fs)[1..] == es[1..] + fs;
      AssumingAppend(env, Apply(env, s, es[0]), es[1..], fs, hs);
    }
  }

  lemma AssumingOne(env: Env, s: Node, e: Event, hs: set<Hypothesis>)
    requires Enabled(env, s, e) && AllHold(env, s, e, hs)
    ensures Assuming(env, s, [e], hs)
  {
    assert [e][1..] == [];
    assert Assuming(env, Apply(env, s, e), [], hs);
  }

  ghost predicate Leads(env: Env, hs: set<Hypothesis>, s: Node, es: seq<Event>, t: Node) {
    Run(env, s, es) == Some(t) && Assuming(env, s, es, hs)
  }

  /** Some run under the hypotheses leads from s to t. */
  ghost predicate Reachable(env: Env, hs: set<Hypothesis>, s: Node, t: Node) {
    exists es :: Leads(env, hs, s, es, t)
  }

  lemma ReachSelf(env: Env, hs: set<Hypothesis>, s: Node)
    ensures Reachable(env, hs, s, s)
  {
    assert Leads(env, hs, s, [], s);
  }

  lemma ReachStep(env: Env, hs: set<Hypothesis>, s: Node, t: Node, e: Event)
    requires Reachable(env, hs, s, t) && Enabled(env, t, e) && AllHold(env, t, e, hs)
    ensures Reachable(env, hs, s, Apply(env, t, e))
  {
    var es :| Leads(env, hs, s, es, t);
    RunOne(env, t, e);
    AssumingOne(env, t, e, hs);
    RunAppend(env, s, es, [e]);
    AssumingAppend(env, s, es, [e], hs);
    assert Leads(env, hs, s, es + [e], Apply(env, t, e));
  }

  lemma ReachOn(env: Env, hs: set<Hypothesis>, s: Node, t: Node, t': Node)
    requires Reachable(env, hs, s, t) && Reachable(env, hs, t, t')
    ensures Reachable(env, hs, s, t')
  {
    var es :| Leads(env, hs, s, es, t);
    var fs :| Leads(env, hs, t, fs, t');
    RunAppend(env, s, es, fs);
    AssumingAppend(env, s, es, fs, hs);
    assert Leads(env, hs, s, es + fs, t');
  }

  /** An event about which no hypothesis says anything. */
  predicate Plain(e: Event) {
    match e
    case Outside(o) => !o.Reboot?
    case Process(p) => !p.CallPrepare? && !p.Startup?
    case Prepare(q) => !q.CreateMig? && !q.PlaceHook?
    case Delete(j) => j.FindNothing? ==> !j.lost
    case _ => true
  }

  lemma PlainHolds(env: Env, s: Node, e: Event, hs: set<Hypothesis>)
    requires Plain(e)
    ensures AllHold(env, s, e, hs)
  {
    forall h | h in hs ensures Holds(env, s, e, h) {
    }
  }

  // ------------------------------------------------------------- single steps

  lemma ReachProcess(env: Env, hs: set<Hypothesis>, s: Node, t: Node, p: ProcessEvent)
    requires Reachable(env, hs, s, t) && ProcessEnabled(env, t, p) && AllHold(env, t, Process(p), hs)
    ensures Reachable(env, hs, s, ProcessApply(env, t, p))
  {
    ReachStep(env, hs, s, t, Process(p));
  }

  lemma ReachPrepare(env: Env, hs: set<Hypothesis>, s: Node, t: Node, q: PrepareEvent)
    requires Reachable(env, hs, s, t) && PrepareEnabled(env, t, q) && AllHold(env, t, Prepare(q), hs)
    ensures Reachable(env, hs, s, PrepareApply(env, t, q))
  {
    ReachStep(env, hs, s, t, Prepare(q));
  }

  lemma ReachUnprepare(env: Env, hs: set<Hypothesis>, s: Node, t: Node, u: UnprepareEvent)
    requires Reachable(env, hs, s, t) && UnprepareEnabled(t, u)
    ensures Reachable(env, hs, s, UnprepareApply(env, t, u))
  {
    PlainHolds(env, t, Unprepare(u), hs);
    ReachStep(env, hs, s, t, Unprepare(u));
  }

  lemma ReachOutside(env: Env, hs: set<Hypothesis>, s: Node, t: Node, o: OutsideEvent)
    requires Reachable(env, hs, s, t) && OutsideEnabled(t, o) && !o.Reboot?
    ensures Reachable(env, hs, s, OutsideApply(t, o))
  {
    PlainHolds(env, t, Outside(o), hs);
    ReachStep(env, hs, s, t, Outside(o));
  }

  lemma ReachCleanup(env: Env, hs: set<Hypothesis>, s: Node, t: Node, c: CleanupEvent)
    requires Reachable(env, hs, s, t) && CleanupEnabled(t, c)
    ensures Reachable(env, hs, s, CleanupApply(t, c))
  {
    PlainHolds(env, t, Cleanup(c), hs);
    ReachStep(env, hs, s, t, Cleanup(c));
  }

  lemma ReachJob(env: Env, hs: set<Hypothesis>, s: Node, t: Node, j: JobEvent)
    requires Reachable(env, hs, s, t) && JobEnabled(env, t, j) && AllHold(env, t, Delete(j), hs)
    ensures Reachable(env, hs, s, JobApply(env, t, j))
  {
    ReachStep(env, hs, s, t, Delete(j));
  }

  // ---------------------------------------------------------- parts of a run

  /** The hypotheses about what a claim says when it is handed to Prepare. */
  predicate GoodClaim(env: Env, hs: set<Hypothesis>, s: Node, c: Claim) {
    && (Identity in hs ==> KnownClaim(s, c)) && (Advertised in hs ==> AdvertisedClaim(env, s, c))
    && (NoMigSharing in hs ==> UnsharedResults(c.results)) && (OwnContainers in hs ==> '.' !in c.uid)
  }

  lemma CallHolds(env: Env, hs: set<Hypothesis>, s: Node, c: Claim)
    requires GoodClaim(env, hs, s, c)
    ensures AllHold(env, s, Process(CallPrepare(c)), hs)
  {
    forall h | h in hs ensures Holds(env, s, Process(CallPrepare(c)), h) {
    }
  }

  lemma ReachStop(env: Env, hs: set<Hypothesis>, s: Node, t: Node)
    requires Reachable(env, hs, s, t) && t.op != Idle
    ensures Reachable(env, hs, s, t.(op := Idle))
  {
    PlainHolds(env, t, Process(Stop), hs);
    ReachProcess(env, hs, s, t, Stop);
  }

  /** A first startup without a file, or with one of another boot. */
  lemma ReachStartup(env: Env, hs: set<Hypothesis>, s: Node)
    requires s.op == Idle && !Kept(s)
    ensures Reachable(env, hs, s, Settle(s))
  {
    ReachSelf(env, hs, s);
    forall h | h in hs ensures Holds(env, s, Process(Startup), h) {
    }
    ReachProcess(env, hs, s, s, Startup);
  }

  function AfterStarted(s: Node, c: Claim): Node
    requires s.file.Some?
  {
    WithClaims(s, ClaimsOf(s)[c.uid := StartedEntry(c)]).(op := Preparing(c, Hook(false)))
  }

  function Creating(s: Node, c: Claim, order: seq<AllocResult>, done: seq<PreparedDevice>): Node
    requires s.file.Some?
  {
    WithClaims(s, ClaimsOf(s)[c.uid := StartedEntry(c)]).(op := Preparing(c, Create(order, done)))
  }

  /** Prepare of a new claim up to its admission. */
  lemma ReachBegun(env: Env, hs: set<Hypothesis>, s: Node, t: Node, c: Claim)
    requires Reachable(env, hs, s, t) && t.up && t.op == Idle
    requires c.uid !in ClaimsOf(t) && NoOverlap(ClaimsOf(t), c) && GoodClaim(env, hs, t, c)
    ensures Reachable(env, hs, s, t.(op := Preparing(c, Begin)))
  {
    CallHolds(env, hs, t, c);
    ReachProcess(env, hs, s, t, CallPrepare(c));
    var entered := t.(op := Preparing(c, Enter));
    assert ProcessApply(env, t, CallPrepare(c)) == entered && ClaimsOf(entered) == ClaimsOf(t);
    PlainHolds(env, entered, Prepare(AdmitPrepare), hs);
    ReachPrepare(env, hs, s, entered, AdmitPrepare);
    assert PrepareApply(env, entered, AdmitPrepare) == t.(op := Preparing(c, Begin));
  }

  /** And then up to its write-ahead entry. */
  lemma ReachStarted(env: Env, hs: set<Hypothesis>, s: Node, t: Node, c: Claim)
    requires Reachable(env, hs, s, t) && t.up && t.op == Idle && t.file.Some?
    requires c.uid !in ClaimsOf(t) && NoOverlap(ClaimsOf(t), c) && GoodClaim(env, hs, t, c)
    ensures Reachable(env, hs, s, AfterStarted(t, c))
  {
    ReachBegun(env, hs, s, t, c);
    var begun := t.(op := Preparing(c, Begin));
    PlainHolds(env, begun, Prepare(WriteStarted), hs);
    ReachPrepare(env, hs, s, begun, WriteStarted);
    assert PrepareApply(env, begun, WriteStarted) == AfterStarted(t, c);
  }

  /** And then up to the creation of its devices. */
  lemma ReachCreating(env: Env, hs: set<Hypothesis>, s: Node, t: Node, c: Claim, order: seq<AllocResult>)
    requires Reachable(env, hs, s, t) && t.up && t.op == Idle && t.file.Some? && env.mode != HamiMode
    requires c.uid !in ClaimsOf(t) && NoOverlap(ClaimsOf(t), c) && GoodClaim(env, hs, t, c)
    requires multiset(order) == multiset(Own(c.results)) && AllAllocatable(env, c.results)
    ensures Reachable(env, hs, s, Creating(t, c, order, []))
  {
    ReachStarted(env, hs, s, t, c);
    var started := AfterStarted(t, c);
    PlainHolds(env, started, Prepare(EndHook(order)), hs);
    ReachPrepare(env, hs, s, started, EndHook(order));
    assert PrepareApply(env, started, EndHook(order)) == Creating(t, c, order, []);
  }

  lemma ReachCreate(env: Env, hs: set<Hypothesis>, s: Node, t: Node, k: GiKey, ci: nat, hw: Hw, made: bool)
    requires Reachable(env, hs, s, t) && t.up && MayCreate(env, t, k, ci, hw, made) && (FreshIds in hs ==> IdFree(ClaimsOf(t), k))
    ensures Reachable(env, hs, s, AfterCreate(env, t, k, ci, hw, made))
  {
    forall h | h in hs ensures Holds(env, t, Prepare(CreateMig(k, ci, hw, made)), h) {
    }
    ReachPrepare(env, hs, s, t, CreateMig(k, ci, hw, made));
  }

  function Done(s: Node, c: Claim, devices: seq<PreparedDevice>): Node
    requires s.file.Some?
  {
    WithClaims(s, ClaimsOf(s)[c.uid := CompletedEntry(c, devices)]).(op := Idle, touched := s.touched - {c.uid})
  }

  lemma ReachCompleted(env: Env, hs: set<Hypothesis>, s: Node, t: Node, c: Claim, devices: seq<PreparedDevice>)
    requires Reachable(env, hs, s, t) && t.up && t.file.Some? && t.op == Preparing(c, Create([], devices))
    ensures Reachable(env, hs, s, Done(t, c, devices))
  {
    PlainHolds(env, t, Prepare(WriteCompleted), hs);
    ReachPrepare(env, hs, s, t, WriteCompleted);
  }

  /** An Unprepare of u after its admission. */
  function Admitted(env: Env, s: Node, u: Uid): Node
    requires u in ClaimsOf(s)
  {
    s.(op := Unpreparing(u, false, AdmittedUnprepare(env, s.(op := Unpreparing(u, false, Arrive)))),
       touched := if Completed(s, u) then s.touched + {u} else s.touched)
  }

  lemma ReachAdmitted(env: Env, hs: set<Hypothesis>, s: Node, t: Node, u: Uid)
    requires Reachable(env, hs, s, t) && t.up && t.op == Idle && (Started(t, u) || Completed(t, u))
    ensures Reachable(env, hs, s, Admitted(env, t, u))
  {
    PlainHolds(env, t, Process(CallUnprepare(u)), hs);
    ReachProcess(env, hs, s, t, CallUnprepare(u));
    var called := t.(op := Unpreparing(u, false, Arrive));
    assert ProcessApply(env, t, CallUnprepare(u)) == called && ClaimsOf(called) == ClaimsOf(t);
    ReachUnprepare(env, hs, s, called, AdmitUnprepare);
    assert UnprepareApply(env, called, AdmitUnprepare) == Admitted(env, t, u);
  }

  function Forgotten(s: Node, u: Uid): Node
    requires s.file.Some?
  {
    WithClaims(s, ClaimsOf(s) - {u}).(op := Idle, touched := s.touched - {u}, homes := s.homes - {u}, home := s.home - {u})
  }

  /** The end of an Unprepare whose deletions are done. */
  lemma ReachForgotten(env: Env, hs: set<Hypothesis>, s: Node, t: Node, u: Uid)
    requires Reachable(env, hs, s, t) && t.up && t.file.Some? && t.op.Unpreparing? && t.op.uid == u && t.op.ustage.Sweep? && t.op.ustage.todo == []
    ensures Reachable(env, hs, s, Forgotten(t, u))
  {
    ReachUnprepare(env, hs, s, t, EndSweep);
    var forget := t.(op := Unpreparing(u, t.op.selfInitiated, Forget));
    assert UnprepareApply(env, t, EndSweep) == forget;
    ReachUnprepare(env, hs, s, forget, WriteForget);
    assert UnprepareApply(env, forget, WriteForget) == Forgotten(t, u);
  }
}
