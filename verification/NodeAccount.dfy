/** Dynamic MIG, accounting: every complete MIG device this driver made belongs to a claim that is still in the
    checkpoint, after every step and every crash, so that a retry, an unprepare or cleanup can still find it. */
module NodeAccount {
  import opened Base
  import opened Claims
  import opened Hypotheses
  import opened MigNames
  import opened Node
  import opened NodeBasics
  import opened NodeLife
  import opened NodeMaking
  import opened Nvlib

  /** k is complete and was made for u. */
  predicate Owns(s: Node, u: Uid, k: GiKey) {
    k in s.owner && s.owner[k] == u && Complete(s.hw, k)
  }

  predicate InTuples(todo: seq<Job>, k: GiKey) {
    exists j :: j in todo && j.ByTuple? && j.tuple.Key() == k
  }

  /** Every device of u that is still there is still ahead of the deletions to be made. */
  ghost predicate Ahead(env: Env, s: Node, u: Uid, todo: seq<Job>, byTuple: bool) {
    forall k :: Owns(s, u, k) ==> if byTuple then InTuples(todo, k) else ByName(NameOf(env.profiles, s.hw, k)) in todo
  }

  ghost predicate OwnsNothing(s: Node, u: Uid) {
    forall k :: !Owns(s, u, k)
  }

  ghost predicate DoneAccounts(s: Node, u: Uid, done: seq<PreparedDevice>) {
    && (forall k :: Owns(s, u, k) ==> InDevices(done, k))
    && (forall d :: d in done && d.live.None? ==> ParseCanonicalName(d.device) == None)
  }

  /** How far the lock holder has got. */
  ghost predicate Progress(env: Env, s: Node) {
    match s.op
    case Preparing(c, Rollback(todo, _)) => Ahead(env, s, c.uid, todo, false)
    case Preparing(c, Begin) => OwnsNothing(s, c.uid)
    case Preparing(c, Hook(_)) => OwnsNothing(s, c.uid)
    case Preparing(c, Create(_, done)) => DoneAccounts(s, c.uid, done)
    case Unpreparing(u, _, Sweep(todo, _)) => Ahead(env, s, u, todo, Completed(s, u))
    case Unpreparing(u, _, Forget) => OwnsNothing(s, u)
    case _ => true
  }

  ghost predicate AccInv(env: Env, s: Node) {
    if s.up then OwnersNamed(env, s) && AllAccounted(env, s) && Progress(env, s) else CleanHardware(s)
  }

  /** Nobody shares a MIG device. */
  predicate UnsharedInv(s: Node) {
    s.up ==> AllUnshared(ClaimsOf(s)) && (s.op.Preparing? ==> UnsharedResults(s.op.claim.results))
  }

  // ----------------------------------------------------------------- frames

  lemma AccFrame(env: Env, s: Node, t: Node)
    requires AccInv(env, s) && s.up && t.up && SameHardware(s, t) && ClaimsOf(t) == ClaimsOf(s) && Progress(env, t)
    ensures AccInv(env, t)
  {
  }

  lemma SameProgress(env: Env, s: Node, t: Node)
    requires Progress(env, s) && SameHardware(s, t) && ClaimsOf(t) == ClaimsOf(s) && t.op == s.op
    ensures Progress(env, t)
  {
    assert forall u, k :: Owns(t, u, k) == Owns(s, u, k);
  }

  lemma OutsideKeepsAcc(env: Env, s: Node, o: OutsideEvent)
    requires Basic(env, s) && AccInv(env, s) && OutsideEnabled(s, o)
    ensures AccInv(env, OutsideApply(s, o))
  {
    OutsideHardware(s, o);
    OutsideSameFile(s, o);
    var t := OutsideApply(s, o);
    if s.up && !o.Reboot? {
      SameProgress(env, s, t);
      AccFrame(env, s, t);
    }
  }

  lemma ProcessKeepsAcc(env: Env, s: Node, p: ProcessEvent)
    requires Basic(env, s) && AccInv(env, s) && ProcessEnabled(env, s, p) && Holds(env, s, Process(p), Adopted(Accounts))
    ensures AccInv(env, ProcessApply(env, s, p))
  {
    ProcessHardware(env, s, p);
    StartupSettles(env, s, p);
    WritesProcess(env, s, p);
    var t := ProcessApply(env, s, p);
    if s.up {
      assert Progress(env, t);
      AccFrame(env, s, t);
    } else if t.up {
      assert t.op == Idle && (Adopts(s, Process(p)) || s.owner == map[]);
    }
  }

  lemma CleanupKeepsAcc(env: Env, s: Node, c: CleanupEvent)
    requires Basic(env, s) && AccInv(env, s) && CleanupEnabled(s, c)
    ensures AccInv(env, CleanupApply(s, c))
  {
    CleanupHardware(s, c);
    CleanupSameFile(s, c);
    var t := CleanupApply(s, c);
    assert s.up;
    if t.op == s.op {
      SameProgress(env, s, t);
    }
    AccFrame(env, s, t);
  }

  // -------------------------------------------------------------- deletions

  /** A deletion only takes away. */
  lemma DeletionShrinks(env: Env, s: Node, t: Node, l: LiveTuple, done: bool, u: Uid, k: GiKey)
    requires Deletes(s.hw, l, t.hw, done) && t.owner == OwnersIn(s.owner, t.hw) && Owns(t, u, k)
    ensures Owns(s, u, k) && NameOf(env.profiles, t.hw, k) == NameOf(env.profiles, s.hw, k)
    ensures done && HwOk(s.hw) ==> k != l.Key()
  {
  }

  /** An owned GPU instance that is left is what it was. */
  lemma DeletionLeaves(env: Env, s: Node, t: Node, l: LiveTuple, done: bool, k: GiKey)
    requires Deletes(s.hw, l, t.hw, done) && t.owner == OwnersIn(s.owner, t.hw) && k in t.owner
    ensures k in s.owner && t.owner[k] == s.owner[k] && k in t.hw.gis && k in s.hw.gis
    ensures SpecOf(k, t.hw.gis[k]) == SpecOf(k, s.hw.gis[k]) && NameOf(env.profiles, t.hw, k) == NameOf(env.profiles, s.hw, k)
    ensures Complete(t.hw, k) ==> Complete(s.hw, k)
  {
  }

  lemma DeletionKeepsNames(env: Env, s: Node, t: Node, l: LiveTuple, done: bool)
    requires OwnersNamed(env, s) && Deletes(s.hw, l, t.hw, done) && t.owner == OwnersIn(s.owner, t.hw)
    ensures OwnersNamed(env, t)
  {
    forall k | k in t.owner ensures k in t.hw.gis && ParseCanonicalName(NameOf(env.profiles, t.hw, k)) == Some(SpecOf(k, t.hw.gis[k])) {
      DeletionLeaves(env, s, t, l, done, k);
    }
  }

  lemma DeletionKeepsAccounts(env: Env, s: Node, t: Node, l: LiveTuple, done: bool)
    requires AllAccounted(env, s) && ClaimsOf(t) == ClaimsOf(s) && Deletes(s.hw, l, t.hw, done) && t.owner == OwnersIn(s.owner, t.hw)
    ensures AllAccounted(env, t)
  {
    forall k | k in t.owner && Complete(t.hw, k)
      ensures Accounted(ClaimsOf(t), t.owner[k], k, NameOf(env.profiles, t.hw, k))
    {
      DeletionLeaves(env, s, t, l, done, k);
      assert Accounted(ClaimsOf(s), s.owner[k], k, NameOf(env.profiles, s.hw, k));
    }
  }

  /** Doing the first job of the list puts what it denotes behind: what is still there is in the rest. */
  lemma JobAdvances(env: Env, s: Node, j: JobEvent, t: Node, u: Uid, byTuple: bool)
    requires JobEnabled(env, s, j) && HwOk(s.hw) && OwnersNamed(env, s) && Todo(s.op) != []
    requires if j.DeleteMig? then t.hw == j.hw && t.owner == OwnersIn(s.owner, j.hw) && j.done else SameHardware(s, t)
    requires j.FindNothing? ==> !j.lost
    requires Ahead(env, s, u, Todo(s.op), byTuple) && !s.op.TearingDown?
    requires !byTuple ==> forall k :: Owns(s, u, k) ==> NameOf(env.profiles, s.hw, k) !in Spare(s.op)
    requires byTuple ==> forall x :: x in Todo(s.op) ==> x.ByTuple?
    ensures Ahead(env, t, u, Todo(s.op)[1..], byTuple)
  {
    var todo := Todo(s.op);
    forall k | Owns(t, u, k)
      ensures if byTuple then InTuples(todo[1..], k) else ByName(NameOf(env.profiles, t.hw, k)) in todo[1..]
    {
      if j.DeleteMig? {
        DeletionShrinks(env, s, t, j.tuple, j.done, u, k);
      }
      NotTheHead(env, s, j, u, k, byTuple);
      if byTuple {
        var x :| x in todo && x.ByTuple? && x.tuple.Key() == k;
        assert x in todo[1..] && x.tuple.Key() == k;
      }
    }
  }

  lemma NotTheHead(env: Env, s: Node, j: JobEvent, u: Uid, k: GiKey, byTuple: bool)
    requires JobEnabled(env, s, j) && HwOk(s.hw) && OwnersNamed(env, s) && Todo(s.op) != [] && !s.op.TearingDown?
    requires j.FindNothing? ==> !j.lost
    requires Owns(s, u, k) && (j.DeleteMig? ==> k != j.tuple.Key())
    requires byTuple ==> Todo(s.op)[0].ByTuple?
    requires !byTuple ==> NameOf(env.profiles, s.hw, k) !in Spare(s.op)
    ensures if byTuple then Todo(s.op)[0].tuple.Key() != k else Todo(s.op)[0] != ByName(NameOf(env.profiles, s.hw, k))
  {
    if !byTuple && Todo(s.op)[0] == ByName(NameOf(env.profiles, s.hw, k)) {
      assert IsMatch(s.hw, k, SpecOf(k, s.hw.gis[k]));
      match j
      case DeleteMig(l, _, _) => MatchUnique(s.hw, k, l.Key());
      case _ =>
    }
  }

  lemma StartedNotSpared(env: Env, s: Node, u: Uid)
    requires AllAccounted(env, s) && Started(s, u)
    ensures forall k :: Owns(s, u, k) ==> NameOf(env.profiles, s.hw, k) !in CompletedNames(ClaimsOf(s))
  {
    forall k | Owns(s, u, k) ensures NameOf(env.profiles, s.hw, k) !in CompletedNames(ClaimsOf(s)) {
      assert Accounted(ClaimsOf(s), u, k, NameOf(env.profiles, s.hw, k));
    }
  }

  /** Whose devices the current deletions are for, and what the lists look like. */
  lemma SweepFacts(env: Env, s: Node)
    requires Basic(env, s) && s.up && Todo(s.op) != []
    ensures s.op.Preparing? ==> Started(s, s.op.claim.uid) && Spare(s.op) == CompletedNames(ClaimsOf(s))
    ensures s.op.Unpreparing? && !Completed(s, s.op.uid) ==> Started(s, s.op.uid) && Spare(s.op) == CompletedNames(ClaimsOf(s))
    ensures s.op.Unpreparing? && Completed(s, s.op.uid) ==> forall x :: x in Todo(s.op) ==> x.ByTuple?
    ensures s.op.Preparing? || s.op.Unpreparing?
  {
  }

  /** Which claim a sweep or a rollback is for, and whether it goes by recorded tuples. */
  function SweptClaim(op: Op): Uid
    requires op.Preparing? || op.Unpreparing?
  {
    if op.Preparing? then op.claim.uid else op.uid
  }

  predicate SweptByTuple(s: Node) {
    s.op.Unpreparing? && Completed(s, s.op.uid)
  }

  lemma ProgressOfSweep(env: Env, s: Node)
    requires Basic(env, s) && s.up && Deleting(s.op)
    ensures s.op.Preparing? || s.op.Unpreparing?
    ensures Progress(env, s) <==> Ahead(env, s, SweptClaim(s.op), Todo(s.op), SweptByTuple(s))
  {
    match s.op
    case Preparing(_, _) =>
    case Unpreparing(_, _, _) =>
  }

  lemma SweepAdvances(env: Env, s: Node, j: JobEvent, t: Node)
    requires Basic(env, s) && HwOk(s.hw) && AccInv(env, s) && JobEnabled(env, s, j) && (j.FindNothing? ==> !j.lost)
    requires if j.DeleteMig? then t.hw == j.hw && t.owner == OwnersIn(s.owner, j.hw) && j.done else SameHardware(s, t)
    requires Deleting(s.op) && Todo(s.op) != []
    ensures s.op.Preparing? || s.op.Unpreparing?
    ensures Ahead(env, t, SweptClaim(s.op), Todo(s.op)[1..], SweptByTuple(s))
  {
    SweepFacts(env, s);
    ProgressOfSweep(env, s);
    if !SweptByTuple(s) {
      StartedNotSpared(env, s, SweptClaim(s.op));
    }
    JobAdvances(env, s, j, t, SweptClaim(s.op), SweptByTuple(s));
  }

  lemma JobKeepsProgress(env: Env, s: Node, j: JobEvent)
    requires Basic(env, s) && HwOk(s.hw) && AccInv(env, s) && JobEnabled(env, s, j) && (j.FindNothing? ==> !j.lost)
    ensures Progress(env, JobApply(env, s, j))
  {
    JobEffect(env, s, j);
    var t := JobApply(env, s, j);
    assert ClaimsOf(t) == ClaimsOf(s);
    if !s.op.TearingDown? && t.op != Idle {
      AdvancingJob(env, s, j);
      NextJobSweptClaim(s.op);
      SweepAdvances(env, s, j, t);
      JobKeepsBasic(env, s, j);
      WithTodoFacts(s.op, Todo(s.op));
      WithTodoFacts(s.op, Todo(s.op)[1..]);
      ProgressOfSweep(env, t);
    }
  }

  lemma NextJobSweptClaim(op: Op)
    requires Todo(op) != []
    ensures Deleting(op) && Deleting(NextJob(op)) && NextJob(op).Preparing? == op.Preparing? && SweptClaim(NextJob(op)) == SweptClaim(op)
  {
  }

  lemma AdvancingDelete(env: Env, s: Node, l: LiveTuple, hw: Hw, done: bool)
    requires JobEnabled(env, s, DeleteMig(l, hw, done)) && !s.op.TearingDown? && JobApply(env, s, DeleteMig(l, hw, done)).op != Idle
    ensures Todo(s.op) != [] && done && JobApply(env, s, DeleteMig(l, hw, done)).op == NextJob(s.op)
  {
    assert MayDelete(env, s, l);
  }

  lemma AdvancingFind(env: Env, s: Node, lost: bool)
    requires JobEnabled(env, s, FindNothing(lost))
    ensures Todo(s.op) != [] && JobApply(env, s, FindNothing(lost)).op == NextJob(s.op)
  {
  }

  lemma AdvancingJob(env: Env, s: Node, j: JobEvent)
    requires JobEnabled(env, s, j) && !s.op.TearingDown? && JobApply(env, s, j).op != Idle
    ensures Todo(s.op) != [] && JobApply(env, s, j).op == NextJob(s.op) && (j.DeleteMig? ==> j.done)
  {
    match j
    case DeleteMig(l, hw, done) => AdvancingDelete(env, s, l, hw, done);
    case FindNothing(lost) => AdvancingFind(env, s, lost);
    case SkipJob =>
  }

  lemma JobKeepsAcc(env: Env, s: Node, j: JobEvent)
    requires Basic(env, s) && HwOk(s.hw) && AccInv(env, s) && JobEnabled(env, s, j) && (j.FindNothing? ==> !j.lost)
    ensures AccInv(env, JobApply(env, s, j))
  {
    JobKeepsProgress(env, s, j);
    JobEffect(env, s, j);
    var t := JobApply(env, s, j);
    assert ClaimsOf(t) == ClaimsOf(s);
    if j.DeleteMig? {
      DeletionKeepsNames(env, s, t, j.tuple, j.done);
      DeletionKeepsAccounts(env, s, t, j.tuple, j.done);
    } else {
      AccFrame(env, s, t);
    }
  }

  // -------------------------------------------------------------- unprepare

  lemma AdmissionLooksAhead(env: Env, s: Node)
    requires Basic(env, s) && AccInv(env, s) && s.up && env.mode == DynamicMig && s.op.Unpreparing? && (Started(s, s.op.uid) || Completed(s, s.op.uid))
    ensures AdmittedUnprepare(env, s).Sweep? && Ahead(env, s, s.op.uid, AdmittedUnprepare(env, s).todo, Completed(s, s.op.uid))
  {
    var u, claims := s.op.uid, ClaimsOf(s);
    var todo := AdmittedUnprepare(env, s).todo;
    forall k | Owns(s, u, k)
      ensures if Completed(s, u) then InTuples(todo, k) else ByName(NameOf(env.profiles, s.hw, k)) in todo
    {
      assert Accounted(claims, u, k, NameOf(env.profiles, s.hw, k));
      if Completed(s, u) {
        var d :| d in claims[u].devices && d.live.Some? && d.live.value.Key() == k;
        assert ByTuple(d.live.value) in todo;
      }
    }
  }

  lemma ForgettingKeepsAccounts(env: Env, s: Node, t: Node, u: Uid)
    requires AllAccounted(env, s) && OwnsNothing(s, u) && SameHardware(s, t) && ClaimsOf(t) == ClaimsOf(s) - {u}
    ensures AllAccounted(env, t)
  {
    forall k | k in t.owner && Complete(t.hw, k)
      ensures Accounted(ClaimsOf(t), t.owner[k], k, NameOf(env.profiles, t.hw, k))
    {
      assert !Owns(s, u, k);
      assert Accounted(ClaimsOf(s), s.owner[k], k, NameOf(env.profiles, s.hw, k));
      assert CompletedNames(ClaimsOf(t)) <= CompletedNames(ClaimsOf(s));
    }
  }

  lemma UnprepareKeepsProgress(env: Env, s: Node, u: UnprepareEvent)
    requires Basic(env, s) && AccInv(env, s) && UnprepareEnabled(s, u) && env.mode == DynamicMig
    ensures Progress(env, UnprepareApply(env, s, u))
  {
    match u
    case AdmitUnprepare => AdmissionKeepsProgress(env, s);
    case EndSweep => SweepEnds(env, s);
    case ReleaseHook(tree, done) => NoHooks(env, s);
    case ReturnUnknown =>
    case WriteForget =>
  }

  lemma AdmissionKeepsProgress(env: Env, s: Node)
    requires Basic(env, s) && AccInv(env, s) && UnprepareEnabled(s, AdmitUnprepare) && env.mode == DynamicMig
    ensures Progress(env, UnprepareApply(env, s, AdmitUnprepare))
  {
    AdmissionLooksAhead(env, s);
    var t := UnprepareApply(env, s, AdmitUnprepare);
    AdmitEffect(env, s);
    AheadStays(env, s, t, s.op.uid, AdmittedUnprepare(env, s).todo, Completed(s, s.op.uid));
  }

  lemma AdmitEffect(env: Env, s: Node)
    requires UnprepareEnabled(s, AdmitUnprepare)
    ensures var t := UnprepareApply(env, s, AdmitUnprepare);
            && s.op.uid in ClaimsOf(s) && SameHardware(s, t) && ClaimsOf(t) == ClaimsOf(s)
            && t.op == Unpreparing(s.op.uid, s.op.selfInitiated, AdmittedUnprepare(env, s))
  {
  }

  lemma AheadStays(env: Env, s: Node, t: Node, u: Uid, todo: seq<Job>, byTuple: bool)
    requires SameHardware(s, t) && Ahead(env, s, u, todo, byTuple)
    ensures Ahead(env, t, u, todo, byTuple)
  {
    forall k | Owns(t, u, k) ensures if byTuple then InTuples(todo, k) else ByName(NameOf(env.profiles, t.hw, k)) in todo {
      assert Owns(s, u, k);
    }
  }

  lemma NoHooks(env: Env, s: Node)
    requires Basic(env, s) && env.mode == DynamicMig
    ensures s.op.Unpreparing? ==> !s.op.ustage.Unhook?
  {
  }

  lemma SweepEnds(env: Env, s: Node)
    requires AccInv(env, s) && UnprepareEnabled(s, EndSweep)
    ensures OwnsNothing(UnprepareApply(env, s, EndSweep), s.op.uid)
  {
    assert Ahead(env, s, s.op.uid, [], Completed(s, s.op.uid));
    forall k ensures !Owns(UnprepareApply(env, s, EndSweep), s.op.uid, k) {
      assert !Owns(s, s.op.uid, k);
    }
  }

  lemma ForgetEffect(env: Env, s: Node)
    requires UnprepareEnabled(s, WriteForget)
    ensures var t := UnprepareApply(env, s, WriteForget);
            s.up && s.op.Unpreparing? && t.up && t.op == Idle && SameHardware(s, t) && ClaimsOf(t) == ClaimsOf(s) - {s.op.uid}
    ensures s.op.ustage == Forget
  {
  }

  lemma NamesFrame(env: Env, s: Node, t: Node)
    requires OwnersNamed(env, s) && SameHardware(s, t)
    ensures OwnersNamed(env, t)
  {
  }

  lemma ForgetOwnsNothing(env: Env, s: Node)
    requires Progress(env, s) && s.op.Unpreparing? && s.op.ustage == Forget
    ensures OwnsNothing(s, s.op.uid)
  {
  }

  lemma IdleAcc(env: Env, t: Node)
    requires t.up && t.op == Idle && OwnersNamed(env, t) && AllAccounted(env, t)
    ensures AccInv(env, t)
  {
  }

  lemma ForgetKeepsAcc(env: Env, s: Node)
    requires s.up && Progress(env, s) && OwnersNamed(env, s) && AllAccounted(env, s) && UnprepareEnabled(s, WriteForget)
    ensures AccInv(env, UnprepareApply(env, s, WriteForget))
  {
    ForgetEffect(env, s);
    ForgetOwnsNothing(env, s);
    var t := UnprepareApply(env, s, WriteForget);
    NamesFrame(env, s, t);
    ForgettingKeepsAccounts(env, s, t, s.op.uid);
    IdleAcc(env, t);
  }

  lemma UnprepareStaysUp(env: Env, s: Node, u: UnprepareEvent)
    requires UnprepareEnabled(s, u)
    ensures s.up && UnprepareApply(env, s, u).up
  {
  }

  lemma UnprepareKeepsAcc(env: Env, s: Node, u: UnprepareEvent)
    requires Basic(env, s) && AccInv(env, s) && UnprepareEnabled(s, u) && env.mode == DynamicMig
    ensures AccInv(env, UnprepareApply(env, s, u))
  {
    if u == WriteForget {
      ForgetKeepsAcc(env, s);
    } else {
      UnprepareKeepsProgress(env, s, u);
      UnprepareHardware(env, s, u);
      WritesUnprepare(env, s, u);
      UnprepareStaysUp(env, s, u);
      AccFrame(env, s, UnprepareApply(env, s, u));
    }
  }

  // ---------------------------------------------------------------- prepare

  lemma AdmittedLooksAhead(env: Env, s: Node)
    requires Basic(env, s) && AccInv(env, s) && PrepareEnabled(env, s, AdmitPrepare) && env.mode == DynamicMig
    ensures var t := s.(op := AdmittedPrepare(env, s)); Progress(env, t)
  {
    var t, u, claims := s.(op := AdmittedPrepare(env, s)), s.op.claim.uid, ClaimsOf(s);
    assert ClaimsOf(t) == claims;
    forall k | Owns(t, u, k)
      ensures Started(s, u) && ByName(NameOf(env.profiles, t.hw, k)) in NameJobs(claims[u].results)
    {
      assert Accounted(claims, u, k, NameOf(env.profiles, s.hw, k));
    }
    if !Started(s, u) {
      assert t.op == Preparing(s.op.claim, Begin) && OwnsNothing(t, u);
    }
  }

  lemma NamesAfterStart(claims: map<Uid, Entry>, c: Claim)
    requires c.uid in claims ==> claims[c.uid].state != PrepareCompleted
    ensures CompletedNames(claims[c.uid := StartedEntry(c)]) == CompletedNames(claims)
  {
    var claims' := claims[c.uid := StartedEntry(c)];
    forall u, r | u in claims && claims[u].state == PrepareCompleted && r in claims[u].results ensures r.device in CompletedNames(claims') {
      assert u in claims' && claims'[u] == claims[u];
    }
  }

  lemma StartingKeepsAccounts(env: Env, s: Node, t: Node, c: Claim)
    requires AllAccounted(env, s) && OwnsNothing(s, c.uid) && !Completed(s, c.uid)
    requires SameHardware(s, t) && ClaimsOf(t) == ClaimsOf(s)[c.uid := StartedEntry(c)]
    ensures AllAccounted(env, t)
  {
    NamesAfterStart(ClaimsOf(s), c);
    forall k | k in t.owner && Complete(t.hw, k)
      ensures Accounted(ClaimsOf(t), t.owner[k], k, NameOf(env.profiles, t.hw, k))
    {
      assert !Owns(s, c.uid, k);
      assert Accounted(ClaimsOf(s), s.owner[k], k, NameOf(env.profiles, s.hw, k));
    }
  }

  lemma SameNameSameDevice(env: Env, s: Node, k: GiKey, l: GiKey)
    requires HwOk(s.hw) && OwnersNamed(env, s) && k in s.owner && l in s.owner
    requires NameOf(env.profiles, s.hw, k) == NameOf(env.profiles, s.hw, l)
    ensures k == l
  {
    MatchUnique(s.hw, k, l);
  }

  /** What a preparation has made or taken under a name that parses as MIG is a live device of its claim. */
  lemma DoneIsOwn(env: Env, s: Node, d: PreparedDevice)
    requires DoneOk(env, s) && Progress(env, s) && s.op.Preparing? && s.op.stage.Create? && d in s.op.stage.done
    requires ParseCanonicalName(d.device).Some?
    ensures d.live.Some?
    ensures var l := d.live.value.Key(); l in s.hw.gis && l in s.owner && s.owner[l] == s.op.claim.uid && NameOf(env.profiles, s.hw, l) == d.device
  {
    assert RecordOk(env, s.hw, s.owner, s.op.claim.uid, s.op.claim.results, d);
  }

  /** Everything asked for is done. */
  predicate AllDone(s: Node) {
    s.op.Preparing? && s.op.stage.Create? && forall r :: r in Own(s.op.claim.results) ==> exists d :: d in s.op.stage.done && d.device == r.device
  }

  /** A claim being completed never has the name of another claim's device: the name would denote the same placement. */
  lemma NameNotTaken(env: Env, s: Node, k: GiKey)
    requires HwOk(s.hw) && OwnersNamed(env, s) && DoneOk(env, s) && Progress(env, s) && AllDone(s) && UnsharedResults(s.op.claim.results)
    requires k in s.owner && s.owner[k] != s.op.claim.uid
    ensures NameOf(env.profiles, s.hw, k) !in DeviceNames(s.op.claim.results)
  {
    var c, name := s.op.claim, NameOf(env.profiles, s.hw, k);
    forall r | r in Own(c.results) ensures r.device != name {
      var d :| d in s.op.stage.done && d.device == r.device;
      if r.device == name {
        DoneIsOwn(env, s, d);
        SameNameSameDevice(env, s, k, d.live.value.Key());
      }
    }
  }

  lemma NamesAfterCompletion(claims: map<Uid, Entry>, c: Claim, devices: seq<PreparedDevice>)
    ensures CompletedNames(claims[c.uid := CompletedEntry(c, devices)]) <= CompletedNames(claims) + DeviceNames(c.results)
  {
  }

  /** The completed claim has recorded its devices. */
  lemma OwnIsRecorded(claims: map<Uid, Entry>, s: Node, c: Claim, done: seq<PreparedDevice>, k: GiKey, name: string)
    requires DoneAccounts(s, c.uid, done) && Owns(s, c.uid, k)
    ensures Accounted(claims[c.uid := CompletedEntry(c, done)], c.uid, k, name)
  {
  }

  /** Another claim's device stays accounted for, unless its name is one of the completed claim's. */
  lemma OthersStayAccounted(claims: map<Uid, Entry>, c: Claim, done: seq<PreparedDevice>, u: Uid, k: GiKey, name: string)
    requires Accounted(claims, u, k, name) && u != c.uid && name !in DeviceNames(c.results)
    ensures Accounted(claims[c.uid := CompletedEntry(c, done)], u, k, name)
  {
    NamesAfterCompletion(claims, c, done);
  }

  lemma DoneCounts(env: Env, s: Node)
    requires Progress(env, s) && s.op.Preparing? && s.op.stage.Create?
    ensures DoneAccounts(s, s.op.claim.uid, s.op.stage.done)
  {
  }

  lemma CompletingKeepsAccounts(env: Env, s: Node, t: Node)
    requires HwOk(s.hw) && OwnersNamed(env, s) && AllAccounted(env, s) && DoneOk(env, s) && Progress(env, s) && AllDone(s)
    requires UnsharedResults(s.op.claim.results)
    requires SameHardware(s, t) && ClaimsOf(t) == ClaimsOf(s)[s.op.claim.uid := CompletedEntry(s.op.claim, s.op.stage.done)]
    ensures AllAccounted(env, t)
  {
    var c, done := s.op.claim, s.op.stage.done;
    DoneCounts(env, s);
    forall k | k in t.owner && Complete(t.hw, k)
      ensures Accounted(ClaimsOf(t), t.owner[k], k, NameOf(env.profiles, t.hw, k))
    {
      var u, name := s.owner[k], NameOf(env.profiles, s.hw, k);
      if u == c.uid {
        OwnIsRecorded(ClaimsOf(s), s, c, done, k, name);
      } else {
        NameNotTaken(env, s, k);
        OthersStayAccounted(ClaimsOf(s), c, done, u, k, name);
      }
    }
  }

  /** What a preparation in progress knows about the checkpoint. */
  lemma CreateFacts(env: Env, s: Node)
    requires Basic(env, s) && s.up && s.op.Preparing? && s.op.stage.Create?
    ensures var c := s.op.claim;
            && Started(s, c.uid) && ClaimsOf(s)[c.uid] == StartedEntry(c)
            && (env.mode != HamiMode ==> NoOverlap(ClaimsOf(s), c))
            && (s.op.stage.left == [] ==> AllDone(s))
            && (forall r :: r in s.op.stage.left ==> r in Own(c.results))
  {
  }

  /** The name a device is created under is not a completed claim's: the overlap check has seen to that. */
  lemma CreatedNameIsFree(claims: map<Uid, Entry>, c: Claim, r: AllocResult)
    requires AllUnshared(claims) && UnsharedResults(c.results) && NoOverlap(claims, c)
    requires r in c.results && ParseCanonicalName(r.device).Some?
    requires c.uid in claims ==> claims[c.uid].state != PrepareCompleted
    ensures r.device !in CompletedNames(claims)
  {
    assert r.device in NonAdminSet(c.results);
    forall v, x | v in claims && claims[v].state == PrepareCompleted && x in claims[v].results ensures x.device != r.device {
      if ParseCanonicalName(x.device).Some? {
        assert UnsharedResults(claims[v].results);
        assert x.device in NonAdminSet(claims[v].results);
        assert x.device !in NonAdminSet(claims[v].results) * NonAdminSet(c.results);
      }
    }
  }

  /** The GPU instance just made carries the name it was asked for under. */
  lemma NewIsNamed(env: Env, s: Node, k: GiKey, ci: nat, hw': Hw, made: bool)
    requires EnvOk(env) && MayCreate(env, s, k, ci, hw', made) && k in hw'.gis && k !in s.hw.gis
    ensures var name := s.op.stage.left[0].device;
            NameOf(env.profiles, hw', k) == name && ParseCanonicalName(name) == Some(SpecOf(k, hw'.gis[k]))
  {
    var a := env.allocatable[s.op.stage.left[0].device];
    assert SpecOf(k, hw'.gis[k]) == a.spec;
  }

  lemma OldStays(hw: Hw, spec: MigSpecTuple, size: nat, k: GiKey, ci: nat, hw': Hw, made: bool, l: GiKey)
    requires Creates(hw, spec, size, k, ci, hw', made) && l in hw.gis
    ensures l in hw'.gis && hw'.gis[l] == hw.gis[l]
  {
  }

  /** Of all owned GPU instances, only k can be new. */
  lemma OnlyOneIsNew(env: Env, s: Node, k: GiKey, ci: nat, hw': Hw, made: bool, l: GiKey)
    requires EnvOk(env) && MayCreate(env, s, k, ci, hw', made) && l in OwnerAfter(s, k, hw') && (l in s.owner ==> l in s.hw.gis)
    ensures l in hw'.gis
    ensures l !in s.owner ==>
              && l == k && OwnerAfter(s, k, hw')[l] == s.op.claim.uid && NameOf(env.profiles, hw', l) == s.op.stage.left[0].device
              && ParseCanonicalName(s.op.stage.left[0].device) == Some(SpecOf(l, hw'.gis[l]))
    ensures l in s.owner ==> hw'.gis[l] == s.hw.gis[l] && OwnerAfter(s, k, hw')[l] == s.owner[l]
  {
    if l in s.owner {
      var a := env.allocatable[s.op.stage.left[0].device];
      OldStays(s.hw, a.spec, a.size, k, ci, hw', made, l);
    } else {
      NewIsNamed(env, s, k, ci, hw', made);
    }
  }

  lemma CreationKeepsAccounts(env: Env, s: Node, k: GiKey, ci: nat, hw': Hw, made: bool)
    requires EnvOk(env) && OwnersNamed(env, s) && AllAccounted(env, s) && MayCreate(env, s, k, ci, hw', made)
    requires var c, name := s.op.claim, s.op.stage.left[0].device;
             Started(s, c.uid) && name in DeviceNames(ClaimsOf(s)[c.uid].results) && name !in CompletedNames(ClaimsOf(s))
    ensures var t := AfterCreate(env, s, k, ci, hw', made); OwnersNamed(env, t) && AllAccounted(env, t)
  {
    var t := AfterCreate(env, s, k, ci, hw', made);
    assert ClaimsOf(t) == ClaimsOf(s);
    forall l | l in t.owner
      ensures l in t.hw.gis && ParseCanonicalName(NameOf(env.profiles, t.hw, l)) == Some(SpecOf(l, t.hw.gis[l]))
      ensures Complete(t.hw, l) ==> Accounted(ClaimsOf(t), t.owner[l], l, NameOf(env.profiles, t.hw, l))
    {
      OnlyOneIsNew(env, s, k, ci, hw', made, l);
      assert l in s.owner && Complete(s.hw, l) ==> Accounted(ClaimsOf(s), s.owner[l], l, NameOf(env.profiles, s.hw, l));
    }
  }

  lemma CreateKeepsAcc(env: Env, s: Node, k: GiKey, ci: nat, hw': Hw, made: bool)
    requires EnvOk(env) && Basic(env, s) && UnsharedInv(s) && AccInv(env, s) && s.up && MayCreate(env, s, k, ci, hw', made)
    ensures AccInv(env, AfterCreate(env, s, k, ci, hw', made))
  {
    var c, r := s.op.claim, s.op.stage.left[0];
    CreateFacts(env, s);
    assert env.mode == DynamicMig && ParseCanonicalName(r.device).Some?;
    assert r in s.op.stage.left;
    CreatedNameIsFree(ClaimsOf(s), c, r);
    CreationKeepsAccounts(env, s, k, ci, hw', made);
    CreationKeepsProgress(env, s, k, ci, hw', made);
  }

  lemma MakingAccounts(env: Env, s: Node, k: GiKey, ci: nat, hw': Hw, done: seq<PreparedDevice>, d: PreparedDevice)
    requires MayCreate(env, s, k, ci, hw', true) && DoneAccounts(s, s.op.claim.uid, done)
    requires d.live.Some? && d.live.value.Key() == k
    ensures DoneAccounts(AfterCreate(env, s, k, ci, hw', true), s.op.claim.uid, done + [d])
  {
    var t, u := AfterCreate(env, s, k, ci, hw', true), s.op.claim.uid;
    forall l | Owns(t, u, l) ensures InDevices(done + [d], l) {
      if l == k {
        assert d in done + [d];
      } else {
        assert Owns(s, u, l);
        AlsoInMore(done, d, l);
      }
    }
    forall x | x in done + [d] && x.live.None? ensures ParseCanonicalName(x.device) == None {
      assert x in done;
    }
  }

  lemma CreationKeepsProgress(env: Env, s: Node, k: GiKey, ci: nat, hw': Hw, made: bool)
    requires EnvOk(env) && Progress(env, s) && MayCreate(env, s, k, ci, hw', made)
    ensures Progress(env, AfterCreate(env, s, k, ci, hw', made))
  {
    if made {
      CreatedIsOk(env, s, k, ci, hw');
      var c, left, done, d := s.op.claim, s.op.stage.left, s.op.stage.done, MadeDevice(env, s.op, k, ci);
      CreateProgress(env, s, c, left, done);
      MakingAccounts(env, s, k, ci, hw', done, d);
      ProgressOfCreate(env, AfterCreate(env, s, k, ci, hw', made), c, left[1..], done + [d]);
    }
  }

  /** What is taken as it is carries no MIG name. */
  lemma TakenIsNoMig(env: Env, s: Node)
    requires EnvOk(env) && env.mode == DynamicMig && PrepareEnabled(env, s, Take)
    ensures s.op.stage.left != [] && s.op.stage.left[0].device in env.allocatable
    ensures ParseCanonicalName(s.op.stage.left[0].device) == None
  {
    assert !HeadIsMig(env, s.op);
  }

  lemma AlsoInMore(done: seq<PreparedDevice>, d: PreparedDevice, k: GiKey)
    requires InDevices(done, k)
    ensures InDevices(done + [d], k)
  {
    var x :| x in done && x.live.Some? && x.live.value.Key() == k;
    assert x in done + [d];
  }

  lemma TakingAccounts(s: Node, t: Node, u: Uid, done: seq<PreparedDevice>, d: PreparedDevice)
    requires SameHardware(s, t) && DoneAccounts(s, u, done) && ParseCanonicalName(d.device) == None
    ensures DoneAccounts(t, u, done + [d])
  {
    forall k | Owns(t, u, k) ensures InDevices(done + [d], k) {
      assert Owns(s, u, k);
      AlsoInMore(done, d, k);
    }
    forall x | x in done + [d] && x.live.None? ensures ParseCanonicalName(x.device) == None {
      assert x in done || x == d;
    }
  }

  lemma TakeEffect(env: Env, s: Node)
    requires PrepareEnabled(env, s, Take)
    ensures var c, st := s.op.claim, s.op.stage;
            PrepareApply(env, s, Take).op == Preparing(c, Create(st.left[1..], st.done + [PreparedFor(env, c.uid, st.left[0], None)]))
  {
  }

  lemma ProgressOfCreate(env: Env, t: Node, c: Claim, left: seq<AllocResult>, done: seq<PreparedDevice>)
    requires t.op == Preparing(c, Create(left, done)) && DoneAccounts(t, c.uid, done)
    ensures Progress(env, t)
  {
  }

  lemma CreateProgress(env: Env, s: Node, c: Claim, left: seq<AllocResult>, done: seq<PreparedDevice>)
    requires s.op == Preparing(c, Create(left, done)) && Progress(env, s)
    ensures DoneAccounts(s, c.uid, done)
  {
  }

  lemma TakingKeepsProgress(env: Env, s: Node)
    requires EnvOk(env) && s.up && Progress(env, s) && PrepareEnabled(env, s, Take) && env.mode == DynamicMig
    ensures Progress(env, PrepareApply(env, s, Take))
  {
    TakenIsNoMig(env, s);
    PrepareHardware(env, s, Take);
    TakeEffect(env, s);
    var t := PrepareApply(env, s, Take);
    var c, left, done := s.op.claim, s.op.stage.left, s.op.stage.done;
    var d := PreparedFor(env, c.uid, left[0], None);
    CreateProgress(env, s, c, left, done);
    TakingAccounts(s, t, c.uid, done, d);
    ProgressOfCreate(env, t, c, left[1..], done + [d]);
  }

  lemma WriteStartedKeepsAcc(env: Env, s: Node)
    requires Basic(env, s) && AccInv(env, s) && PrepareEnabled(env, s, WriteStarted)
    ensures AccInv(env, PrepareApply(env, s, WriteStarted))
  {
    WritesPrepare(env, s, WriteStarted);
    PrepareHardware(env, s, WriteStarted);
    var t := PrepareApply(env, s, WriteStarted);
    StartingKeepsAccounts(env, s, t, s.op.claim);
    assert forall k :: Owns(t, s.op.claim.uid, k) == Owns(s, s.op.claim.uid, k);
  }

  lemma WriteCompletedKeepsAcc(env: Env, s: Node)
    requires Basic(env, s) && MakingInv(env, s) && UnsharedInv(s) && AccInv(env, s) && PrepareEnabled(env, s, WriteCompleted)
    ensures AccInv(env, PrepareApply(env, s, WriteCompleted))
  {
    WritesPrepare(env, s, WriteCompleted);
    PrepareHardware(env, s, WriteCompleted);
    CreateFacts(env, s);
    CompletingKeepsAccounts(env, s, PrepareApply(env, s, WriteCompleted));
  }

  lemma RollbackEnds(env: Env, s: Node)
    requires AccInv(env, s) && PrepareEnabled(env, s, EndRollback)
    ensures OwnsNothing(PrepareApply(env, s, EndRollback), s.op.claim.uid)
  {
    assert Ahead(env, s, s.op.claim.uid, [], false);
    forall k ensures !Owns(PrepareApply(env, s, EndRollback), s.op.claim.uid, k) {
      assert !Owns(s, s.op.claim.uid, k);
    }
  }

  lemma ConfigsEnd(env: Env, s: Node, order: seq<AllocResult>)
    requires AccInv(env, s) && PrepareEnabled(env, s, EndHook(order))
    ensures Progress(env, PrepareApply(env, s, EndHook(order)))
  {
    var t := PrepareApply(env, s, EndHook(order));
    PrepareHardware(env, s, EndHook(order));
    forall k ensures !Owns(t, s.op.claim.uid, k) {
      assert !Owns(s, s.op.claim.uid, k);
    }
    assert DoneAccounts(t, s.op.claim.uid, []);
  }

  /** The remaining steps of Prepare write neither hardware nor checkpoint. */
  lemma QuietKeepsProgress(env: Env, s: Node, q: PrepareEvent)
    requires EnvOk(env) && Basic(env, s) && AccInv(env, s) && env.mode == DynamicMig && PrepareEnabled(env, s, q)
    requires !q.CreateMig? && !q.WriteStarted? && !q.WriteCompleted?
    ensures Progress(env, PrepareApply(env, s, q))
  {
    match q
    case ReturnPrepared =>
    case AdmitPrepare => AdmittedLooksAhead(env, s);
    case EndRollback => RollbackEnds(env, s);
    case EndHook(order) => ConfigsEnd(env, s, order);
    case Take => TakingKeepsProgress(env, s);
  }

  lemma QuietKeepsAcc(env: Env, s: Node, q: PrepareEvent)
    requires EnvOk(env) && Basic(env, s) && AccInv(env, s) && env.mode == DynamicMig && PrepareEnabled(env, s, q)
    requires !q.CreateMig? && !q.WriteStarted? && !q.WriteCompleted?
    ensures AccInv(env, PrepareApply(env, s, q))
  {
    QuietKeepsProgress(env, s, q);
    PrepareHardware(env, s, q);
    WritesPrepare(env, s, q);
    PrepareStaysUp(env, s, q);
    AccFrame(env, s, PrepareApply(env, s, q));
  }

  lemma PrepareKeepsAcc(env: Env, s: Node, q: PrepareEvent)
    requires EnvOk(env) && Basic(env, s) && MakingInv(env, s) && UnsharedInv(s) && AccInv(env, s) && env.mode == DynamicMig && PrepareEnabled(env, s, q)
    ensures AccInv(env, PrepareApply(env, s, q))
  {
    match q
    case CreateMig(k, ci, hw, made) =>
      CreateIsForAResult(env, s, k, ci, hw, made);
      CreateKeepsAcc(env, s, k, ci, hw, made);
    case WriteStarted => WriteStartedKeepsAcc(env, s);
    case WriteCompleted => WriteCompletedKeepsAcc(env, s);
    case _ => QuietKeepsAcc(env, s, q);
  }

  lemma AccKept(env: Env, s: Node, e: Event)
    requires EnvOk(env) && Basic(env, s) && MakingInv(env, s) && UnsharedInv(s) && AccInv(env, s) && env.mode == DynamicMig && Enabled(env, s, e)
    requires Holds(env, s, e, ReliableScan) && Holds(env, s, e, Adopted(Accounts))
    ensures AccInv(env, Apply(env, s, e))
  {
    match e
    case Outside(o) => OutsideKeepsAcc(env, s, o);
    case Process(p) => ProcessKeepsAcc(env, s, p);
    case Cleanup(c) => CleanupKeepsAcc(env, s, c);
    case Prepare(q) => PrepareKeepsAcc(env, s, q);
    case Unprepare(u) => UnprepareKeepsAcc(env, s, u);
    case Delete(j) => JobKeepsAcc(env, s, j);
  }

  // ------------------------------------------------------------- no sharing

  lemma WritesKeepUnshared(s: Node, e: Event)
    requires AllUnshared(ClaimsOf(s)) && (s.op.Preparing? ==> UnsharedResults(s.op.claim.results))
    ensures AllUnshared(EntriesAfter(s, e))
  {
  }

  /** The claim being prepared stays the same until the operation ends. */
  lemma SameClaim(env: Env, s: Node, e: Event)
    requires Enabled(env, s, e)
    ensures Apply(env, s, e).op.Preparing? ==> (s.op.Preparing? && Apply(env, s, e).op.claim == s.op.claim) || e == Process(CallPrepare(Apply(env, s, e).op.claim))
  {
    match e
    case Outside(o) => OutsideHardware(s, o);
    case Process(p) => ProcessClaim(env, s, p);
    case Cleanup(c) => CleanupHardware(s, c);
    case Prepare(q) => PrepareClaim(env, s, q);
    case Unprepare(u) => UnprepareClaim(env, s, u);
    case Delete(j) => JobEffect(env, s, j);
  }

  lemma ProcessClaim(env: Env, s: Node, p: ProcessEvent)
    requires ProcessEnabled(env, s, p)
    ensures var t := ProcessApply(env, s, p); t.op.Preparing? ==> t.op == s.op || p == CallPrepare(t.op.claim)
  {
    match p
    case Startup =>
    case _ =>
  }

  lemma PrepareClaim(env: Env, s: Node, q: PrepareEvent)
    requires PrepareEnabled(env, s, q)
    ensures var t := PrepareApply(env, s, q); t.op.Preparing? ==> s.op.Preparing? && t.op.claim == s.op.claim
  {
    match q
    case CreateMig(_, _, _, _) =>
    case PlaceHook(_, _, _) =>
    case _ =>
  }

  lemma UnprepareClaim(env: Env, s: Node, u: UnprepareEvent)
    requires UnprepareEnabled(s, u)
    ensures !UnprepareApply(env, s, u).op.Preparing?
  {
    match u
    case ReleaseHook(_, _) =>
    case _ =>
  }

  lemma UnsharedKept(env: Env, s: Node, e: Event)
    requires Basic(env, s) && UnsharedInv(s) && Enabled(env, s, e) && Holds(env, s, e, NoMigSharing) && Holds(env, s, e, Adopted(Unshared))
    ensures UnsharedInv(Apply(env, s, e))
  {
    EntriesChange(env, s, e);
    UpOrSettling(env, s, e);
    NextClaimUnshared(env, s, e);
    UnsharedAfter(s, Apply(env, s, e), e);
  }

  lemma NextClaimUnshared(env: Env, s: Node, e: Event)
    requires Enabled(env, s, e) && Holds(env, s, e, NoMigSharing)
    ensures var t := Apply(env, s, e); t.op.Preparing? ==> (s.op.Preparing? && t.op.claim == s.op.claim) || UnsharedResults(t.op.claim.results)
  {
    SameClaim(env, s, e);
  }

  lemma UnsharedAfter(s: Node, t: Node, e: Event)
    requires BootInv(s) && UnsharedInv(s) && ClaimsOf(t) == EntriesAfter(s, e)
    requires t.up ==> s.up || Wipes(s, e) || ClaimsOf(s) == map[] || AllUnshared(ClaimsOf(s))
    requires t.op.Preparing? ==> (s.op.Preparing? && t.op.claim == s.op.claim) || UnsharedResults(t.op.claim.results)
    ensures UnsharedInv(t)
  {
    if s.up {
      WritesKeepUnshared(s, e);
    } else if t.up && !Wipes(s, e) {
      WritesKeepUnshared(s, e);
    }
  }

  // ------------------------------------------------------------ main result

  /** What the accounting rests on: no id is assumed to be fresh. */
  const Sound: set<Hypothesis> := {Advertised, NoMigSharing, ReliableScan, Adopted(MigResults), Adopted(Unshared), Adopted(Accounts)}

  ghost predicate AccountInv(env: Env, s: Node) {
    Basic(env, s) && MakingInv(env, s) && UnsharedInv(s) && AccInv(env, s)
  }

  lemma AccountKept(env: Env, s: Node, e: Event)
    requires EnvOk(env) && env.mode == DynamicMig && AccountInv(env, s) && Enabled(env, s, e) && AllHold(env, s, e, Sound)
    ensures AccountInv(env, Apply(env, s, e))
  {
    assert Advertised in Sound && NoMigSharing in Sound && ReliableScan in Sound;
    assert Adopted(MigResults) in Sound && Adopted(Unshared) in Sound && Adopted(Accounts) in Sound;
    BasicKept(env, s, e);
    MakingKept(env, s, e);
    UnsharedKept(env, s, e);
    AccKept(env, s, e);
  }

  lemma {:induction false} AccountRun(env: Env, s: Node, es: seq<Event>)
    requires EnvOk(env) && env.mode == DynamicMig && AccountInv(env, s) && Run(env, s, es).Some? && Assuming(env, s, es, Sound)
    ensures AccountInv(env, Run(env, s, es).value)
    decreases es
  {
    if es != [] {
      AccountKept(env, s, es[0]);
      AccountRun(env, Apply(env, s, es[0]), es[1..]);
    }
  }

  lemma InitialAccounts(env: Env, s: Node)
    requires Initial(s) && CleanHardware(s)
    ensures AccountInv(env, s)
  {
    InitialBasic(env, s);
  }

  /** Write-ahead accounting: in every reachable state, each complete MIG device this driver made since boot belongs to a
      claim in the checkpoint. A completed one has recorded it; a started one lists its name, and no completed claim
      does, so that rollback, unprepare and startup teardown can find it and may delete it. */
  lemma NoDeviceIsLost(env: Env, s: Node, es: seq<Event>, k: GiKey)
    requires EnvOk(env) && env.mode == DynamicMig && Initial(s) && CleanHardware(s) && Run(env, s, es).Some? && Assuming(env, s, es, Sound)
    requires var t := Run(env, s, es).value; t.up && k in t.owner && Complete(t.hw, k)
    ensures var t := Run(env, s, es).value;
            var u, name := t.owner[k], NameOf(env.profiles, t.hw, k);
            && u in ClaimsOf(t)
            && (Completed(t, u) ==> InDevices(ClaimsOf(t)[u].devices, k))
            && (!Completed(t, u) ==> Started(t, u) && name in DeviceNames(ClaimsOf(t)[u].results) && name !in CompletedNames(ClaimsOf(t))
                                     && ParseCanonicalName(name) == Some(SpecOf(k, t.hw.gis[k])))
  {
    InitialAccounts(env, s);
    AccountRun(env, s, es);
    var t := Run(env, s, es).value;
    assert Accounted(ClaimsOf(t), t.owner[k], k, NameOf(env.profiles, t.hw, k));
  }
}
