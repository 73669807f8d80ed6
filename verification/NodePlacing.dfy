/** Dynamic MIG: when a Prepare, first or retried, can complete. */
module NodePlacing {
  import opened Base
  import opened Claims
  import opened Hypotheses
  import opened MigNames
  import opened Node
  import opened NodeBasics
  import opened NodeMaking
  import opened NodeRuns
  import opened NodeSweep
  import opened Nvlib

  predicate IsMig(env: Env, r: AllocResult) {
    r.device in env.allocatable && env.allocatable[r.device].deviceType == MigDynamicDevice
  }

  function MinorOf(env: Env, r: AllocResult): nat
    requires IsMig(env, r)
  {
    env.allocatable[r.device].spec.minor
  }

  /** The partition a result asks for. */
  function PartitionOf(env: Env, r: AllocResult): Gi
    requires IsMig(env, r)
  {
    var a := env.allocatable[r.device];
    Gi(a.spec.profileId, a.spec.start, a.size, None)
  }

  predicate Clash(env: Env, r: AllocResult, r': AllocResult) {
    IsMig(env, r) && IsMig(env, r') && MinorOf(env, r) == MinorOf(env, r') && Overlap(PartitionOf(env, r), PartitionOf(env, r'))
  }

  ghost predicate FreeIn(env: Env, gis: map<GiKey, Gi>, r: AllocResult) {
    IsMig(env, r) ==> forall l :: l in gis && l.gpu == MinorOf(env, r) ==> !Overlap(gis[l], PartitionOf(env, r))
  }

  /** Every result names an allocatable device, and every partition asked for is free and asked for once. */
  ghost predicate Placeable(env: Env, gis: map<GiKey, Gi>, results: multiset<AllocResult>) {
    forall r :: r in results ==>
      && r.device in env.allocatable && FreeIn(env, gis, r) && (IsMig(env, r) ==> results[r] == 1)
      && forall r' :: r' in results && r' != r ==> !Clash(env, r, r')
  }

  lemma FewerGisPlaceable(env: Env, gis: map<GiKey, Gi>, gis': map<GiKey, Gi>, results: multiset<AllocResult>)
    requires Placeable(env, gis', results) && forall k :: k in gis ==> k in gis' && gis'[k] == gis[k]
    ensures Placeable(env, gis, results)
  {
    forall r | r in results ensures FreeIn(env, gis, r) {
      assert FreeIn(env, gis', r);
    }
  }

  lemma HeadTail(left: seq<AllocResult>)
    requires left != []
    ensures multiset(left) == multiset{left[0]} + multiset(left[1..])
    ensures forall r :: r in multiset(left) <==> r == left[0] || r in multiset(left[1..])
  {
    assert left == [left[0]] + left[1..];
  }

  /** Taking a device that is not a partition asks for no room. */
  lemma TakePlaceable(env: Env, gis: map<GiKey, Gi>, left: seq<AllocResult>)
    requires left != [] && left[0].device in env.allocatable && !IsMig(env, left[0])
    ensures Placeable(env, gis, multiset(left)) <==> Placeable(env, gis, multiset(left[1..]))
  {
    HeadTail(left);
    if Placeable(env, gis, multiset(left)) {
      forall r | r in multiset(left[1..]) ensures IsMig(env, r) ==> multiset(left[1..])[r] == 1 {
        assert r in multiset(left);
      }
    }
    if Placeable(env, gis, multiset(left[1..])) {
      forall r | r in multiset(left) ensures IsMig(env, r) ==> multiset(left)[r] == 1 {
        assert IsMig(env, r) ==> r != left[0];
      }
    }
  }

  /** A partition in place takes the room of the first result. */
  lemma MadePlaceable(env: Env, gis: map<GiKey, Gi>, left: seq<AllocResult>, k: GiKey, g: Gi)
    requires left != [] && IsMig(env, left[0]) && k !in gis && k.gpu == MinorOf(env, left[0]) && g == PartitionOf(env, left[0]).(ci := g.ci) && g.size > 0
    ensures Placeable(env, gis, multiset(left)) <==> FreeIn(env, gis, left[0]) && Placeable(env, gis[k := g], multiset(left[1..]))
  {
    HeadTail(left);
    var rest := multiset(left[1..]);
    if Placeable(env, gis, multiset(left)) {
      assert multiset(left)[left[0]] == rest[left[0]] + 1 && rest[left[0]] == 0;
      forall r | r in rest
        ensures r.device in env.allocatable && FreeIn(env, gis[k := g], r) && (IsMig(env, r) ==> rest[r] == 1)
        ensures forall r' :: r' in rest && r' != r ==> !Clash(env, r, r')
      {
        assert r in multiset(left) && FreeIn(env, gis, r);
        assert r != left[0];
        assert !Clash(env, r, left[0]);
      }
    }
    if FreeIn(env, gis, left[0]) && Placeable(env, gis[k := g], rest) {
      MadeClashes(env, gis, left, k, g);
    }
  }

  lemma MadeClashes(env: Env, gis: map<GiKey, Gi>, left: seq<AllocResult>, k: GiKey, g: Gi)
    requires left != [] && IsMig(env, left[0]) && k !in gis && k.gpu == MinorOf(env, left[0]) && g == PartitionOf(env, left[0]).(ci := g.ci) && g.size > 0
    requires FreeIn(env, gis, left[0]) && Placeable(env, gis[k := g], multiset(left[1..]))
    ensures Placeable(env, gis, multiset(left))
  {
    HeadTail(left);
    var rest := multiset(left[1..]);
    forall r | r in rest ensures FreeIn(env, gis, r) && !Clash(env, r, left[0]) && !Clash(env, left[0], r) && r != left[0] {
      assert FreeIn(env, gis[k := g], r);
      assert k in gis[k := g] && gis[k := g][k] == g;
      assert IsMig(env, r) && MinorOf(env, r) == k.gpu ==> !Overlap(g, PartitionOf(env, r));
      assert IsMig(env, r) ==> forall l :: l in gis ==> l in gis[k := g] && gis[k := g][l] == gis[l];
    }
    forall r | r in multiset(left)
      ensures r.device in env.allocatable && FreeIn(env, gis, r) && (IsMig(env, r) ==> multiset(left)[r] == 1)
      ensures forall r' :: r' in multiset(left) && r' != r ==> !Clash(env, r, r')
    {
      assert r != left[0] ==> r in rest;
    }
  }

  // ------------------------------------------------------------ it is needed

  /** The steps of a Prepare that holds the lock. */
  predicate Working(e: Event) {
    e.Prepare? || e.Delete?
  }

  /** What is on the GPUs once the claim's earlier attempt is rolled back. */
  ghost function RolledBack(s: Node, c: Claim): map<GiKey, Gi> {
    if Started(s, c.uid) then Remaining(s.hw, NameJobs(ClaimsOf(s)[c.uid].results), CompletedNames(ClaimsOf(s))) else s.hw.gis
  }

  /** An earlier attempt of the claim, if there was one, can be rolled back: the GPU of each of its names that parses and is
      not spared is on the node. */
  predicate CanRollBack(env: Env, s: Node, c: Claim) {
    Started(s, c.uid) ==> NoneBlocked(env, NameJobs(ClaimsOf(s)[c.uid].results), CompletedNames(ClaimsOf(s)))
  }

  /** What completing from here takes. */
  ghost predicate Room(env: Env, s: Node) {
    s.op.Preparing? &&
    var own := multiset(Own(s.op.claim.results));
    match s.op.stage
    case Enter => CanRollBack(env, s, s.op.claim) && Placeable(env, RolledBack(s, s.op.claim), own)
    case Rollback(todo, spare) => NoneBlocked(env, todo, spare) && Placeable(env, Remaining(s.hw, todo, spare), own)
    case Begin => Placeable(env, s.hw.gis, own)
    case Hook(_) => Placeable(env, s.hw.gis, own)
    case Create(left, _) => Placeable(env, s.hw.gis, multiset(left))
  }

  predicate NamesOnly(op: Op) {
    op.Preparing? && op.stage.Rollback? ==> AllByName(op.stage.todo)
  }

  ghost predicate PrepareInv(env: Env, s: Node, c: Claim) {
    s.up && HwOk(s.hw) && s.op.Preparing? && s.op.claim == c && NamesOnly(s.op) && !Completed(s, c.uid)
  }

  /** A step that goes on needs the room that what follows needs. */
  lemma JobNeedsRoom(env: Env, s: Node, j: JobEvent, c: Claim)
    requires PrepareInv(env, s, c) && JobEnabled(env, s, j)
    ensures var t := JobApply(env, s, j);
            t.op == Idle || (PrepareInv(env, t, c) && (Room(env, t) ==> Room(env, s)))
  {
    RollbackJob(env, s, j);
    var t := JobApply(env, s, j);
    JobEffect(env, s, j);
    assert ClaimsOf(t) == ClaimsOf(s);
    if t.op != Idle {
      var todo, spare := s.op.stage.todo, s.op.stage.spare;
      forall k | k in Remaining(s.hw, todo, spare)
        ensures k in Remaining(t.hw, todo[1..], spare) && t.hw.gis[k] == s.hw.gis[k]
      {
        JobStep(env, s, j, k);
        HitSplit(s.hw, todo, spare, k);
        SameHits(s.hw, t.hw, todo[1..], spare, k);
      }
      JobNotBlocked(env, s, j);
      NoneBlockedMore(env, todo, spare);
      if Room(env, t) {
        FewerGisPlaceable(env, Remaining(s.hw, todo, spare), Remaining(t.hw, todo[1..], spare), multiset(Own(c.results)));
      }
    }
  }

  lemma NoneBlockedMore(env: Env, todo: seq<Job>, spare: set<string>)
    requires todo != [] && !Blocked(env, todo[0], spare)
    ensures NoneBlocked(env, todo[1..], spare) ==> NoneBlocked(env, todo, spare)
  {
    assert todo == [todo[0]] + todo[1..];
  }

  lemma RollbackJob(env: Env, s: Node, j: JobEvent)
    requires s.up && HwOk(s.hw) && s.op.Preparing? && NamesOnly(s.op) && JobEnabled(env, s, j)
    ensures s.op.stage.Rollback? && SweepingNames(s) && Todo(s.op) == s.op.stage.todo != []
    ensures var t := JobApply(env, s, j);
            && HwOk(t.hw) && t.up
            && (t.op == Idle || t.op == Preparing(s.op.claim, Rollback(s.op.stage.todo[1..], s.op.stage.spare)))
  {
    match j
    case DeleteMig(l, hw, done) =>
      assert MayDelete(env, s, l);
      DeletesKeepsHwOk(s.hw, l, hw, done);
    case FindNothing(_) =>
    case SkipJob =>
  }

  lemma AdmitNeedsRoom(env: Env, s: Node, c: Claim)
    requires PrepareInv(env, s, c) && env.mode == DynamicMig && PrepareEnabled(env, s, AdmitPrepare)
    ensures var t := PrepareApply(env, s, AdmitPrepare); PrepareInv(env, t, c) && (Room(env, t) ==> Room(env, s))
  {
    var t := PrepareApply(env, s, AdmitPrepare);
    assert ClaimsOf(t) == ClaimsOf(s) && t.op == AdmittedPrepare(env, s) && t.hw == s.hw;
  }

  lemma EndRollbackNeedsRoom(env: Env, s: Node, c: Claim)
    requires PrepareInv(env, s, c) && PrepareEnabled(env, s, EndRollback)
    ensures var t := PrepareApply(env, s, EndRollback); PrepareInv(env, t, c) && (Room(env, t) ==> Room(env, s))
  {
    var t := PrepareApply(env, s, EndRollback);
    assert ClaimsOf(t) == ClaimsOf(s) && t.op == Preparing(c, Begin) && t.hw == s.hw;
    assert Remaining(s.hw, [], s.op.stage.spare) == s.hw.gis;
  }

  lemma StartNeedsRoom(env: Env, s: Node, c: Claim)
    requires PrepareInv(env, s, c) && PrepareEnabled(env, s, WriteStarted)
    ensures var t := PrepareApply(env, s, WriteStarted); PrepareInv(env, t, c) && (Room(env, t) ==> Room(env, s))
  {
    assert PrepareApply(env, s, WriteStarted) == AfterStarted(s, c);
  }

  lemma ConfigsNeedRoom(env: Env, s: Node, order: seq<AllocResult>, c: Claim)
    requires PrepareInv(env, s, c) && PrepareEnabled(env, s, EndHook(order))
    ensures var t := PrepareApply(env, s, EndHook(order)); PrepareInv(env, t, c) && (Room(env, t) ==> Room(env, s))
  {
    var t := PrepareApply(env, s, EndHook(order));
    assert t == s.(op := Preparing(c, Create(order, []))) && ClaimsOf(t) == ClaimsOf(s);
  }

  lemma CreateNeedsRoom(env: Env, s: Node, k: GiKey, ci: nat, hw: Hw, made: bool, c: Claim)
    requires PrepareInv(env, s, c) && MayCreate(env, s, k, ci, hw, made)
    ensures var t := AfterCreate(env, s, k, ci, hw, made);
            t.op == Idle || (PrepareInv(env, t, c) && (Room(env, t) ==> Room(env, s)))
  {
    var t := AfterCreate(env, s, k, ci, hw, made);
    var left := s.op.stage.left;
    var a := env.allocatable[left[0].device];
    CreatesKeepsHwOk(s.hw, a.spec, a.size, k, ci, hw, made);
    assert ClaimsOf(t) == ClaimsOf(s);
    if made {
      MadePlaceable(env, s.hw.gis, left, k, PartitionOf(env, left[0]).(ci := Some(ci)));
    }
  }

  lemma TakeNeedsRoom(env: Env, s: Node, c: Claim)
    requires PrepareInv(env, s, c) && PrepareEnabled(env, s, Take)
    ensures var t := PrepareApply(env, s, Take); PrepareInv(env, t, c) && (Room(env, t) ==> Room(env, s))
  {
    var t, left := PrepareApply(env, s, Take), s.op.stage.left;
    assert t.op == Preparing(c, Create(left[1..], t.op.stage.done)) && t.hw == s.hw && ClaimsOf(t) == ClaimsOf(s) && t.up;
    TakePlaceable(env, s.hw.gis, left);
  }

  lemma CompletingNeedsNoRoom(env: Env, s: Node, c: Claim)
    requires PrepareInv(env, s, c) && PrepareEnabled(env, s, WriteCompleted)
    ensures PrepareApply(env, s, WriteCompleted).op == Idle && Room(env, s)
  {
  }

  /** The step goes on and needs no less room, completes with no room to find, or ends without completing. */
  ghost predicate GoesOn(env: Env, s: Node, t: Node, c: Claim) {
    if t.op == Idle then Room(env, s) || !Completed(t, c.uid) else PrepareInv(env, t, c) && (Room(env, t) ==> Room(env, s))
  }

  lemma CreateGoesOn(env: Env, s: Node, k: GiKey, ci: nat, hw: Hw, made: bool, c: Claim)
    requires PrepareInv(env, s, c) && PrepareEnabled(env, s, CreateMig(k, ci, hw, made))
    ensures GoesOn(env, s, PrepareApply(env, s, CreateMig(k, ci, hw, made)), c)
  {
    assert MayCreate(env, s, k, ci, hw, made);
    CreateNeedsRoom(env, s, k, ci, hw, made, c);
    assert ClaimsOf(AfterCreate(env, s, k, ci, hw, made)) == ClaimsOf(s);
  }

  lemma NoAnswerNoHook(env: Env, s: Node, q: PrepareEvent, c: Claim)
    requires PrepareInv(env, s, c) && env.mode == DynamicMig && PrepareEnabled(env, s, q)
    ensures !q.ReturnPrepared? && !q.PlaceHook?
  {
  }

  lemma StepNeedsRoom(env: Env, s: Node, q: PrepareEvent, c: Claim)
    requires PrepareInv(env, s, c) && env.mode == DynamicMig && PrepareEnabled(env, s, q)
    ensures GoesOn(env, s, PrepareApply(env, s, q), c)
  {
    NoAnswerNoHook(env, s, q, c);
    match q
    case AdmitPrepare => AdmitNeedsRoom(env, s, c);
    case EndRollback => EndRollbackNeedsRoom(env, s, c);
    case WriteStarted => StartNeedsRoom(env, s, c);
    case EndHook(order) => ConfigsNeedRoom(env, s, order, c);
    case CreateMig(k, ci, hw, made) => CreateGoesOn(env, s, k, ci, hw, made, c);
    case Take => TakeNeedsRoom(env, s, c);
    case WriteCompleted => CompletingNeedsNoRoom(env, s, c);
  }

  lemma JobGoesOn(env: Env, s: Node, j: JobEvent, c: Claim)
    requires PrepareInv(env, s, c) && JobEnabled(env, s, j)
    ensures GoesOn(env, s, JobApply(env, s, j), c)
  {
    JobNeedsRoom(env, s, j, c);
    JobSameFile(env, s, j);
  }

  lemma WorkNeedsOp(env: Env, s: Node, e: Event)
    requires Enabled(env, s, e) && Working(e)
    ensures s.op != Idle
  {
    match e
    case Delete(j) => NoJobsWhenIdle(env, s, j);
    case Prepare(q) =>
  }

  lemma {:induction false} NothingFromIdle(env: Env, s: Node, es: seq<Event>)
    requires Run(env, s, es).Some? && s.op == Idle && forall e :: e in es ==> Working(e)
    ensures Run(env, s, es).value == s
  {
    if es != [] {
      WorkNeedsOp(env, s, es[0]);
    }
  }

  lemma WorkGoesOn(env: Env, s: Node, e: Event, c: Claim)
    requires PrepareInv(env, s, c) && env.mode == DynamicMig && Working(e) && Enabled(env, s, e)
    ensures GoesOn(env, s, Apply(env, s, e), c)
  {
    match e
    case Delete(j) => JobGoesOn(env, s, j, c);
    case Prepare(q) => StepNeedsRoom(env, s, q, c);
  }

  lemma {:induction false} CompletingTakesRoom(env: Env, s: Node, es: seq<Event>, c: Claim)
    requires PrepareInv(env, s, c) && env.mode == DynamicMig
    requires Run(env, s, es).Some? && (forall e :: e in es ==> Working(e)) && Completed(Run(env, s, es).value, c.uid)
    ensures Room(env, s)
    decreases es
  {
    if es != [] {
      WorkGoesOn(env, s, es[0], c);
      if Apply(env, s, es[0]).op == Idle {
        NothingFromIdle(env, Apply(env, s, es[0]), es[1..]);
      } else {
        CompletingTakesRoom(env, Apply(env, s, es[0]), es[1..], c);
      }
    }
  }

  // ---------------------------------------------------------- it is enough

  /** Runs of the lock holder's own steps. */
  ghost predicate Works(env: Env, s: Node, es: seq<Event>, t: Node) {
    Run(env, s, es) == Some(t) && forall e :: e in es ==> Working(e)
  }

  lemma WorksOn(env: Env, s: Node, es: seq<Event>, t: Node, fs: seq<Event>, t': Node)
    requires Works(env, s, es, t) && Works(env, t, fs, t')
    ensures Works(env, s, es + fs, t')
  {
    RunAppend(env, s, es, fs);
  }

  lemma WorkOne(env: Env, s: Node, e: Event)
    requires Enabled(env, s, e) && Working(e)
    ensures Works(env, s, [e], Apply(env, s, e))
  {
    RunOne(env, s, e);
  }

  /** There is always an id that is not in a given finite set. */
  lemma {:induction false} FreshKey(keys: set<GiKey>, gpu: nat) returns (id: nat)
    ensures forall k :: k in keys ==> k.id < id
    decreases |keys|
  {
    if keys == {} {
      id := 0;
    } else {
      var k :| k in keys;
      var rest := FreshKey(keys - {k}, gpu);
      id := if rest > k.id then rest else k.id + 1;
    }
  }

  /** One partition more in place. */
  function WithPartition(env: Env, h: Hw, r: AllocResult, k: GiKey, ci: nat): Hw
    requires IsMig(env, r)
  {
    Hw(h.gis[k := PartitionOf(env, r).(ci := Some(ci))], h.on + {k.gpu})
  }

  lemma MayCreateHere(env: Env, s: Node, c: Claim, left: seq<AllocResult>, done: seq<PreparedDevice>, k: GiKey, ci: nat)
    requires EnvOk(env) && s.up && s.op == Preparing(c, Create(left, done)) && left != [] && IsMig(env, left[0])
    requires FreeIn(env, s.hw.gis, left[0]) && k.gpu == MinorOf(env, left[0]) && k !in s.hw.gis
    ensures MayCreate(env, s, k, ci, WithPartition(env, s.hw, left[0], k, ci), true)
  {
  }

  lemma CreatePartition(env: Env, s: Node, c: Claim, left: seq<AllocResult>, done: seq<PreparedDevice>) returns (e: Event, t: Node)
    requires EnvOk(env) && s.up && HwOk(s.hw) && s.op == Preparing(c, Create(left, done)) && left != [] && IsMig(env, left[0])
    requires Placeable(env, s.hw.gis, multiset(left))
    ensures Works(env, s, [e], t) && t.up && t.file == s.file && HwOk(t.hw) && Placeable(env, t.hw.gis, multiset(left[1..]))
    ensures t.op.Preparing? && t.op.stage.Create? && t.op == Preparing(c, Create(left[1..], t.op.stage.done))
  {
    HeadTail(left);
    var a := env.allocatable[left[0].device];
    var id := FreshKey(s.hw.gis.Keys, 0);
    var k := GiKey(a.spec.minor, id);
    var hw := WithPartition(env, s.hw, left[0], k, 0);
    MadePlaceable(env, s.hw.gis, left, k, PartitionOf(env, left[0]).(ci := Some(0)));
    MayCreateHere(env, s, c, left, done, k, 0);
    CreatesKeepsHwOk(s.hw, a.spec, a.size, k, 0, hw, true);
    e, t := Prepare(CreateMig(k, 0, hw, true)), AfterCreate(env, s, k, 0, hw, true);
    WorkOne(env, s, e);
  }

  lemma TakeDevice(env: Env, s: Node, c: Claim, left: seq<AllocResult>, done: seq<PreparedDevice>) returns (t: Node)
    requires s.up && s.op == Preparing(c, Create(left, done)) && left != [] && left[0].device in env.allocatable && !IsMig(env, left[0])
    ensures Works(env, s, [Prepare(Take)], t)
    ensures t == s.(op := Preparing(c, Create(left[1..], done + [PreparedFor(env, c.uid, left[0], None)])))
  {
    t := s.(op := Preparing(c, Create(left[1..], done + [PreparedFor(env, c.uid, left[0], None)])));
    WorkOne(env, s, Prepare(Take));
  }

  lemma CreateNext(env: Env, s: Node, c: Claim, left: seq<AllocResult>, done: seq<PreparedDevice>) returns (e: Event, t: Node)
    requires EnvOk(env) && s.up && HwOk(s.hw) && s.op == Preparing(c, Create(left, done)) && left != [] && Placeable(env, s.hw.gis, multiset(left))
    ensures Works(env, s, [e], t) && t.up && t.file == s.file && HwOk(t.hw) && Placeable(env, t.hw.gis, multiset(left[1..]))
    ensures t.op.Preparing? && t.op.stage.Create? && t.op == Preparing(c, Create(left[1..], t.op.stage.done))
  {
    assert left[0] in multiset(left);
    if IsMig(env, left[0]) {
      e, t := CreatePartition(env, s, c, left, done);
    } else {
      e := Prepare(Take);
      t := TakeDevice(env, s, c, left, done);
      TakePlaceable(env, s.hw.gis, left);
    }
  }

  lemma {:induction false} CreateAll(env: Env, s: Node, c: Claim, left: seq<AllocResult>, done: seq<PreparedDevice>) returns (es: seq<Event>, t: Node)
    requires EnvOk(env) && s.up && HwOk(s.hw) && s.op == Preparing(c, Create(left, done)) && Placeable(env, s.hw.gis, multiset(left))
    ensures Works(env, s, es, t) && t.up && t.file == s.file
    ensures t.op.Preparing? && t.op.stage.Create? && t.op == Preparing(c, Create([], t.op.stage.done))
    decreases |left|
  {
    if left == [] {
      es, t := [], s;
    } else {
      var e, s1 := CreateNext(env, s, c, left, done);
      var rest;
      rest, t := CreateAll(env, s1, c, left[1..], s1.op.stage.done);
      WorksOn(env, s, [e], s1, rest, t);
      es := [e] + rest;
    }
  }

  lemma FinishCreating(env: Env, s: Node, c: Claim, left: seq<AllocResult>) returns (es: seq<Event>, t: Node)
    requires EnvOk(env) && s.up && s.file.Some? && HwOk(s.hw) && s.op == Preparing(c, Create(left, [])) && Placeable(env, s.hw.gis, multiset(left))
    ensures Works(env, s, es, t) && t.op == Idle && Completed(t, c.uid)
  {
    var made, s1 := CreateAll(env, s, c, left, []);
    WorkOne(env, s1, Prepare(WriteCompleted));
    t := Done(s1, c, s1.op.stage.done);
    assert PrepareApply(env, s1, WriteCompleted) == t;
    WorksOn(env, s, made, s1, [Prepare(WriteCompleted)], t);
    es := made + [Prepare(WriteCompleted)];
  }

  lemma FinishBegun(env: Env, s: Node, c: Claim) returns (es: seq<Event>, t: Node)
    requires EnvOk(env) && env.mode == DynamicMig && s.up && s.file.Some? && HwOk(s.hw) && s.op == Preparing(c, Begin)
    requires Placeable(env, s.hw.gis, multiset(Own(c.results)))
    ensures Works(env, s, es, t) && t.op == Idle && Completed(t, c.uid)
  {
    var order := Own(c.results);
    var started := AfterStarted(s, c);
    assert PrepareApply(env, s, WriteStarted) == started;
    WorkOne(env, s, Prepare(WriteStarted));
    var creating := Creating(s, c, order, []);
    assert PrepareApply(env, started, EndHook(order)) == creating;
    WorkOne(env, started, Prepare(EndHook(order)));
    WorksOn(env, s, [Prepare(WriteStarted)], started, [Prepare(EndHook(order))], creating);
    var rest;
    rest, t := FinishCreating(env, creating, c, order);
    es := [Prepare(WriteStarted)] + [Prepare(EndHook(order))] + rest;
    WorksOn(env, s, [Prepare(WriteStarted)] + [Prepare(EndHook(order))], creating, rest, t);
  }

  lemma FinishRollback(env: Env, s: Node, c: Claim) returns (es: seq<Event>, t: Node)
    requires EnvOk(env) && env.mode == DynamicMig && s.file.Some? && HwOk(s.hw) && SweepingNames(s)
    requires s.op.Preparing? && s.op.claim == c && Room(env, s)
    ensures Works(env, s, es, t) && t.op == Idle && Completed(t, c.uid)
  {
    var sweep, swept := SweepAll(env, s);
    WithTodoFacts(s.op, []);
    var begun := swept.(op := Preparing(c, Begin));
    assert PrepareApply(env, swept, EndRollback) == begun;
    WorkOne(env, swept, Prepare(EndRollback));
    WorksOn(env, s, sweep, swept, [Prepare(EndRollback)], begun);
    var rest;
    rest, t := FinishBegun(env, begun, c);
    es := sweep + [Prepare(EndRollback)] + rest;
    WorksOn(env, s, sweep + [Prepare(EndRollback)], begun, rest, t);
  }

  lemma FinishEntered(env: Env, s: Node, c: Claim) returns (es: seq<Event>, t: Node)
    requires EnvOk(env) && env.mode == DynamicMig && s.up && s.file.Some? && HwOk(s.hw) && s.op == Preparing(c, Enter)
    requires !Completed(s, c.uid) && NoOverlap(ClaimsOf(s), c) && Room(env, s)
    ensures Works(env, s, es, t) && t.op == Idle && Completed(t, c.uid)
  {
    var admitted := s.(op := AdmittedPrepare(env, s));
    assert ClaimsOf(admitted) == ClaimsOf(s);
    assert PrepareApply(env, s, AdmitPrepare) == admitted;
    WorkOne(env, s, Prepare(AdmitPrepare));
    var rest;
    if Started(s, c.uid) {
      rest, t := FinishRollback(env, admitted, c);
    } else {
      rest, t := FinishBegun(env, admitted, c);
    }
    es := [Prepare(AdmitPrepare)] + rest;
    WorksOn(env, s, [Prepare(AdmitPrepare)], admitted, rest, t);
  }

  // ------------------------------------------------------------ main result

  /** Some course of a Prepare of c that starts now completes it. */
  ghost predicate PrepareCanComplete(env: Env, s: Node, c: Claim) {
    exists es, t :: Works(env, s.(op := Preparing(c, Enter)), es, t) && Completed(t, c.uid)
  }

  /** A Prepare, first or retried, of a claim for any number of devices can complete exactly if an earlier attempt of the
      claim can be rolled back, every device is allocatable, and every partition is free, once what the earlier attempt left
      complete has been rolled back, and is asked for once. */
  lemma PrepareCanCompleteIff(env: Env, s: Node, c: Claim)
    requires EnvOk(env) && env.mode == DynamicMig && BootInv(s) && HwOk(s.hw) && s.up && s.op == Idle
    requires !Completed(s, c.uid) && NoOverlap(ClaimsOf(s), c)
    ensures PrepareCanComplete(env, s, c) <==> CanRollBack(env, s, c) && Placeable(env, RolledBack(s, c), multiset(Own(c.results)))
  {
    var entered := s.(op := Preparing(c, Enter));
    assert ClaimsOf(entered) == ClaimsOf(s) && RolledBack(entered, c) == RolledBack(s, c);
    if CanRollBack(env, s, c) && Placeable(env, RolledBack(s, c), multiset(Own(c.results))) {
      var es, t := FinishEntered(env, entered, c);
    }
    if PrepareCanComplete(env, s, c) {
      var es, t :| Works(env, entered, es, t) && Completed(t, c.uid);
      CompletingTakesRoom(env, entered, es, c);
    }
  }
}
