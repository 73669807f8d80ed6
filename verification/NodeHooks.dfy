/** HAMi mode: a completed claim keeps its cache directory and marker until its own Unprepare, and every marker in the
    tree belongs to a claim that is still in the checkpoint. */
module NodeHooks {
  import opened Base
  import opened Claims
  import opened HamiCore
  import opened Hypotheses
  import opened Node
  import opened NodeBasics
  import opened NodeLife

  /** A preparation past its hook has its directory. */
  predicate OpHoused(s: Node) {
    s.op.Preparing? ==>
      && '.' !in s.op.claim.uid
      && (Own(s.op.claim.results) != [] && (s.op.stage == Hook(true) || s.op.stage.Create?) ==> Housed(s, s.op.claim.uid))
  }

  ghost predicate HookInv(s: Node) {
    s.up ==> HomesOk(s) && CompletedHoused(s) && OpHoused(s)
  }

  // ------------------------------------------------------------------ frames

  predicate SameHooks(s: Node, t: Node) {
    t.tree == s.tree && t.homes == s.homes && t.home == s.home
  }

  lemma HookFrame(s: Node, t: Node)
    requires HookInv(s) && s.up && t.up && SameHooks(s, t) && ClaimsOf(t) == ClaimsOf(s) && s.touched <= t.touched && OpHoused(t)
    ensures HookInv(t)
  {
  }

  lemma StillHoused(s: Node, t: Node)
    requires SameHooks(s, t)
    ensures forall u :: Housed(t, u) == Housed(s, u)
  {
  }

  lemma HomeDirsDiffer(h: Home, g: Home)
    requires h != g && '_' !in h.container && '_' !in g.container
    ensures HomeDir(h) != HomeDir(g)
  {
    if HomeDir(h) == HomeDir(g) {
      DirNameInjective(h.pod, h.container, g.pod, g.container);
    }
  }

  /** Two claims in the checkpoint have different directories. */
  lemma HomesApart(s: Node, u: Uid, v: Uid)
    requires HomesOk(s) && u in s.home && v in s.home && u != v
    ensures HomeDir(s.home[u]) != HomeDir(s.home[v])
  {
    assert s.home[u] in s.homes[u] && s.home[v] in s.homes[v] && s.homes[u] !! s.homes[v];
    HomeDirsDiffer(s.home[u], s.home[v]);
  }

  lemma CacheKeepsHouses(s: Node, uid: Uid)
    requires HookInv(s) && s.up && OutsideEnabled(s, CudaCache(uid))
    ensures HookInv(OutsideApply(s, CudaCache(uid)))
  {
    var t := OutsideApply(s, CudaCache(uid));
    assert ClaimsOf(t) == ClaimsOf(s);
    forall u | Housed(s, u) ensures Housed(t, u) {
      if u != uid {
        HomesApart(s, u, uid);
      }
    }
  }

  lemma OutsideKeepsHooks(s: Node, o: OutsideEvent)
    requires BootInv(s) && HookInv(s) && OutsideEnabled(s, o)
    ensures HookInv(OutsideApply(s, o))
  {
    var t := OutsideApply(s, o);
    assert ClaimsOf(t) == ClaimsOf(s);
    match o
    case CudaCache(uid) => if s.up { CacheKeepsHouses(s, uid); }
    case Reboot(_) =>
    case _ =>
      if s.up {
        StillHoused(s, t);
        HookFrame(s, t);
      }
  }

  lemma StartupKeepsHooks(env: Env, s: Node)
    requires BootInv(s) && HookInv(s) && s.op == Idle && (!s.up && Kept(s) ==> HomesOk(s) && CompletedHoused(s))
    ensures HookInv(Settle(s))
  {
    var t := Settle(s);
    if s.up || Kept(s) {
      StillHoused(s, t);
    }
    assert s.up || Kept(s) ==> SameHooks(s, t) && ClaimsOf(t) == ClaimsOf(s) && t.touched == s.touched;
    assert !s.up && !Kept(s) ==> ClaimsOf(t) == map[] && t.homes == map[] && t.home == map[];
  }

  lemma ProcessKeepsHooks(env: Env, s: Node, p: ProcessEvent)
    requires BootInv(s) && HookInv(s) && ProcessEnabled(env, s, p)
    requires Holds(env, s, Process(p), OwnContainers) && Holds(env, s, Process(p), Adopted(Homes))
    ensures HookInv(ProcessApply(env, s, p))
  {
    match p
    case Startup => StartupKeepsHooks(env, s);
    case _ =>
      var t := ProcessApply(env, s, p);
      assert ClaimsOf(t) == ClaimsOf(s);
      if s.up {
        StillHoused(s, t);
        HookFrame(s, t);
      }
  }

  lemma CleanupKeepsHooks(s: Node, c: CleanupEvent)
    requires BootInv(s) && HookInv(s) && CleanupEnabled(s, c)
    ensures HookInv(CleanupApply(s, c))
  {
    CleanupHardware(s, c);
    CleanupSameFile(s, c);
    var t := CleanupApply(s, c);
    assert SameHooks(s, t);
    StillHoused(s, t);
    HookFrame(s, t);
  }

  lemma JobKeepsHooks(env: Env, s: Node, j: JobEvent)
    requires HookInv(s) && JobEnabled(env, s, j)
    ensures HookInv(JobApply(env, s, j))
  {
    JobHooks(env, s, j);
    var t := JobApply(env, s, j);
    StillHoused(s, t);
    HookFrame(s, t);
  }

  lemma JobHooks(env: Env, s: Node, j: JobEvent)
    requires JobEnabled(env, s, j)
    ensures var t := JobApply(env, s, j);
            && s.up && t.up && SameHooks(s, t) && ClaimsOf(t) == ClaimsOf(s) && t.touched == s.touched
            && (t.op.Preparing? ==> s.op.Preparing? && t.op.claim == s.op.claim && t.op.stage.Rollback?)
  {
    match j
    case DeleteMig(_, _, _) =>
    case FindNothing(_) =>
    case SkipJob =>
  }

  // ---------------------------------------------------------------- placing

  /** Placing a directory for one claim leaves every other claim's alone. */
  lemma PlacingSpares(s: Node, u: Uid, home: Home, tree: Tree, done: bool, v: Uid)
    requires HomesOk(s) && u in ClaimsOf(s) && OwnHome(s, u, home) && Places(s.tree, HomeDir(home), u, tree, done)
    requires v in ClaimsOf(s) && v != u && Housed(s, v)
    ensures Housed(s.(tree := tree), v)
  {
    var d, e := HomeDir(s.home[v]), HomeDir(home);
    assert s.home[v] in HomesOf(s, v) && home !in HomesOf(s, v);
    HomeDirsDiffer(s.home[v], home);
    assert d in s.tree - {e} && (s.tree - {e})[d] == s.tree[d];
    assert d in tree - {e} && (tree - {e})[d] == tree[d];
  }

  lemma PlacingHouses(s: Node, u: Uid, home: Home, tree: Tree)
    requires Places(s.tree, HomeDir(home), u, tree, true)
    ensures Housed(s.(tree := tree, home := s.home[u := home]), u)
  {
    assert tree[HomeDir(home)] == Dir(map[Marker(u) := Regular]);
  }

  function Placed(s: Node, home: Home, tree: Tree, placedAll: bool): Node
    requires s.op.Preparing?
  {
    var c := s.op.claim;
    s.(tree := tree, homes := s.homes[c.uid := HomesOf(s, c.uid) + {home}], home := s.home[c.uid := home],
       op := if placedAll then Preparing(c, Hook(true)) else Idle)
  }

  lemma PlaceKeepsHomes(s: Node, home: Home, tree: Tree, placedAll: bool)
    requires HomesOk(s) && s.op.Preparing? && s.op.claim.uid in ClaimsOf(s) && OwnHome(s, s.op.claim.uid, home)
    ensures HomesOk(Placed(s, home, tree, placedAll))
  {
    var t, u := Placed(s, home, tree, placedAll), s.op.claim.uid;
    assert ClaimsOf(t) == ClaimsOf(s);
    assert t.homes.Keys == s.homes.Keys + {u} && t.home.Keys == s.home.Keys + {u};
    forall v, w | v in t.homes && w in t.homes && v != w ensures t.homes[v] !! t.homes[w] {
      assert v != u ==> HomesOf(s, v) == s.homes[v] && home !in s.homes[v];
      assert w != u ==> HomesOf(s, w) == s.homes[w] && home !in s.homes[w];
    }
  }

  lemma PlaceKeepsHooks(s: Node, home: Home, tree: Tree, placedAll: bool)
    requires HookInv(s) && s.up && s.op.Preparing? && Started(s, s.op.claim.uid) && OwnHome(s, s.op.claim.uid, home)
    requires Places(s.tree, HomeDir(home), s.op.claim.uid, tree, placedAll)
    ensures HookInv(Placed(s, home, tree, placedAll))
  {
    var t, u := Placed(s, home, tree, placedAll), s.op.claim.uid;
    assert ClaimsOf(t) == ClaimsOf(s);
    PlaceKeepsHomes(s, home, tree, placedAll);
    if placedAll {
      PlacingHouses(s, u, home, tree);
    }
    forall v | Completed(t, v) && v !in t.touched && Own(ClaimsOf(t)[v].results) != [] ensures Housed(t, v) {
      PlacingSpares(s, u, home, tree, placedAll, v);
    }
  }

  // ---------------------------------------------------------------- the rest

  lemma HookFacts(env: Env, s: Node, q: PrepareEvent)
    requires Basic(env, s) && PrepareEnabled(env, s, q)
    ensures q.PlaceHook? ==> Started(s, s.op.claim.uid) && PrepareApply(env, s, q) == Placed(s, q.home, q.tree, q.placedAll)
    ensures q.EndHook? && env.mode == HamiMode && Own(s.op.claim.results) != [] ==> s.op.stage == Hook(true)
    ensures q.WriteCompleted? || q.Take? || q.CreateMig? ==> s.op.stage.Create?
    ensures s.up && s.op.Preparing?
  {
    match q
    case PlaceHook(_, _, _) =>
    case EndHook(_) =>
    case _ =>
  }

  lemma PrepareHooks(env: Env, s: Node, q: PrepareEvent)
    requires PrepareEnabled(env, s, q) && !q.PlaceHook?
    ensures var t := PrepareApply(env, s, q);
            && t.up && SameHooks(s, t)
            && (t.op == Idle || (t.op.Preparing? && t.op.claim == s.op.claim))
            && t.touched == (if q.WriteCompleted? then s.touched - {s.op.claim.uid} else s.touched)
  {
    match q
    case ReturnPrepared =>
    case CreateMig(_, _, _, _) =>
    case _ =>
  }

  lemma LaterStages(env: Env, s: Node, q: PrepareEvent)
    requires PrepareEnabled(env, s, q) && (q.ReturnPrepared? || q.AdmitPrepare? || q.EndRollback? || q.WriteStarted?)
    ensures var t := PrepareApply(env, s, q);
            t.op.Preparing? ==> t.op.stage != Hook(true) && !t.op.stage.Create?
  {
    match q
    case ReturnPrepared =>
    case AdmitPrepare =>
    case EndRollback =>
    case WriteStarted =>
  }

  lemma PrepareKeepsOpHoused(env: Env, s: Node, q: PrepareEvent)
    requires Basic(env, s) && HookInv(s) && PrepareEnabled(env, s, q) && !q.PlaceHook? && env.mode == HamiMode
    ensures OpHoused(PrepareApply(env, s, q))
  {
    PrepareHooks(env, s, q);
    HookFacts(env, s, q);
    StillHoused(s, PrepareApply(env, s, q));
    if q.ReturnPrepared? || q.AdmitPrepare? || q.EndRollback? || q.WriteStarted? {
      LaterStages(env, s, q);
    }
  }

  lemma PrepareKeepsHooks(env: Env, s: Node, q: PrepareEvent)
    requires Basic(env, s) && HookInv(s) && PrepareEnabled(env, s, q) && env.mode == HamiMode && Holds(env, s, Prepare(q), OwnContainers)
    ensures HookInv(PrepareApply(env, s, q))
  {
    HookFacts(env, s, q);
    if q.PlaceHook? {
      PlaceKeepsHooks(s, q.home, q.tree, q.placedAll);
    } else {
      PrepareKeepsOpHoused(env, s, q);
      PrepareHooks(env, s, q);
      WritesPrepare(env, s, q);
      EntriesKeepHooks(s, PrepareApply(env, s, q), q);
    }
  }

  lemma EntriesKeepHooks(s: Node, t: Node, q: PrepareEvent)
    requires HookInv(s) && s.up && t.up && SameHooks(s, t) && OpHoused(t) && ClaimsOf(t) == EntriesAfter(s, Prepare(q)) && s.op.Preparing?
    requires q.WriteCompleted? ==> s.op.stage.Create?
    requires t.touched == if q.WriteCompleted? then s.touched - {s.op.claim.uid} else s.touched
    ensures HookInv(t)
  {
    StillHoused(s, t);
    forall u | Completed(t, u) && u !in t.touched && Own(ClaimsOf(t)[u].results) != [] ensures Housed(t, u) {
    }
  }

  /** A release for one claim spares directories that hold only another claim's files. */
  lemma ReleaseSpares(s: Node, uid: Uid, tree: Tree, done: bool, u: Uid)
    requires Releases(s.tree, uid, tree, done) && Housed(s, u) && u != uid && '.' !in u && '.' !in uid
    ensures Housed(s.(tree := tree), u)
  {
    OwnershipNamesInjective(u, uid);
    OwnershipNamesInjective(uid, u);
    assert !Owned(s.tree[HomeDir(s.home[u])], uid);
  }

  lemma ReleaseKeepsHooks(env: Env, s: Node, tree: Tree, done: bool)
    requires Basic(env, s) && HookInv(s) && UnprepareEnabled(s, ReleaseHook(tree, done))
    ensures HookInv(UnprepareApply(env, s, ReleaseHook(tree, done)))
  {
    var t := UnprepareApply(env, s, ReleaseHook(tree, done));
    assert ClaimsOf(t) == ClaimsOf(s) && t.touched == s.touched && !t.op.Preparing?;
    assert s.op.uid in ClaimsOf(s) && (Completed(s, s.op.uid) ==> s.op.uid in s.touched);
    forall u | Completed(t, u) && u !in t.touched && Own(ClaimsOf(t)[u].results) != [] ensures Housed(t, u) {
      ReleaseSpares(s, s.op.uid, tree, done, u);
    }
  }

  lemma UnprepareKeepsHooks(env: Env, s: Node, u: UnprepareEvent)
    requires Basic(env, s) && HookInv(s) && UnprepareEnabled(s, u)
    ensures HookInv(UnprepareApply(env, s, u))
  {
    match u
    case ReleaseHook(tree, done) => ReleaseKeepsHooks(env, s, tree, done);
    case WriteForget => ForgetKeepsHooks(env, s);
    case AdmitUnprepare => HookFrame(s, UnprepareApply(env, s, u));
    case EndSweep => HookFrame(s, UnprepareApply(env, s, u));
    case ReturnUnknown => HookFrame(s, UnprepareApply(env, s, u));
  }

  lemma ForgetKeepsHooks(env: Env, s: Node)
    requires HookInv(s) && UnprepareEnabled(s, WriteForget)
    ensures HookInv(UnprepareApply(env, s, WriteForget))
  {
    var t, u := UnprepareApply(env, s, WriteForget), s.op.uid;
    assert ClaimsOf(t) == ClaimsOf(s) - {u};
    forall v | Completed(t, v) && v !in t.touched && Own(ClaimsOf(t)[v].results) != [] ensures Housed(t, v) {
      assert Housed(s, v);
    }
  }

  lemma HooksKept(env: Env, s: Node, e: Event)
    requires Basic(env, s) && HookInv(s) && env.mode == HamiMode && Enabled(env, s, e)
    requires Holds(env, s, e, OwnContainers) && Holds(env, s, e, Adopted(Homes))
    ensures HookInv(Apply(env, s, e))
  {
    match e
    case Outside(o) => OutsideKeepsHooks(s, o);
    case Process(p) => ProcessKeepsHooks(env, s, p);
    case Cleanup(c) => CleanupKeepsHooks(s, c);
    case Prepare(q) => PrepareKeepsHooks(env, s, q);
    case Unprepare(u) => UnprepareKeepsHooks(env, s, u);
    case Delete(j) => JobKeepsHooks(env, s, j);
  }

  /** What keeping a directory rests on. */
  const Contained: set<Hypothesis> := {OwnContainers, Adopted(Homes)}

  lemma {:induction false} HooksRun(env: Env, s: Node, es: seq<Event>)
    requires Basic(env, s) && HookInv(s) && env.mode == HamiMode && Run(env, s, es).Some? && Assuming(env, s, es, Contained)
    ensures HookInv(Run(env, s, es).value)
    decreases es
  {
    if es != [] {
      BasicKept(env, s, es[0]);
      assert OwnContainers in Contained && Adopted(Homes) in Contained;
      HooksKept(env, s, es[0]);
      HooksRun(env, Apply(env, s, es[0]), es[1..]);
    }
  }

  /** A completed claim with at least one result keeps its cache directory, with its own marker and nobody else's files,
      until its own Unprepare begins, whatever other claims are prepared, retried, cleaned up or released. */
  lemma CompletedKeepsItsDirectory(env: Env, s: Node, es: seq<Event>, u: Uid)
    requires Initial(s) && env.mode == HamiMode && Run(env, s, es).Some? && Assuming(env, s, es, Contained)
    requires var t := Run(env, s, es).value; t.up && Completed(t, u) && u !in t.touched && Own(ClaimsOf(t)[u].results) != []
    ensures Housed(Run(env, s, es).value, u)
  {
    InitialBasic(env, s);
    HooksRun(env, s, es);
  }

  /** A claim counts as touched only once its own Unprepare has found it in the checkpoint. */
  lemma TouchedByOwnUnprepareOnly(env: Env, s: Node, e: Event, u: Uid)
    requires Enabled(env, s, e) && u !in s.touched && u in Apply(env, s, e).touched
    ensures e == Unprepare(AdmitUnprepare) && s.op.uid == u && Completed(s, u)
  {
    match e
    case Outside(o) => OutsideHardware(s, o);
    case Process(p) => ProcessTouches(env, s, p);
    case Cleanup(c) => CleanupHardware(s, c);
    case Prepare(q) => PrepareTouches(env, s, q);
    case Unprepare(v) => UnprepareTouches(env, s, v);
    case Delete(j) => JobHooks(env, s, j);
  }

  lemma ProcessTouches(env: Env, s: Node, p: ProcessEvent)
    requires ProcessEnabled(env, s, p)
    ensures ProcessApply(env, s, p).touched <= s.touched
  {
    match p
    case Startup =>
    case _ =>
  }

  lemma PrepareTouches(env: Env, s: Node, q: PrepareEvent)
    requires PrepareEnabled(env, s, q)
    ensures PrepareApply(env, s, q).touched <= s.touched
  {
    match q
    case PlaceHook(_, _, _) =>
    case _ => PrepareHooks(env, s, q);
  }

  lemma UnprepareTouches(env: Env, s: Node, v: UnprepareEvent)
    requires UnprepareEnabled(s, v)
    ensures UnprepareApply(env, s, v).touched <= s.touched + (if v == AdmitUnprepare && Completed(s, s.op.uid) then {s.op.uid} else {})
  {
    match v
    case AdmitUnprepare =>
    case WriteForget =>
    case _ =>
  }

  // ------------------------------------------------------ markers are accounted for

  ghost predicate NoMarker(tree: Tree, u: Uid) {
    forall d :: !Marked(tree, d, u)
  }

  /** The checkpoint records one device a result; results do not change under a preparation. */
  predicate ResultsOk(s: Node) {
    && LengthsOk(ClaimsOf(s))
    && (s.op.Preparing? && s.op.claim.uid in ClaimsOf(s) ==> ClaimsOf(s)[s.op.claim.uid].results == s.op.claim.results)
  }

  ghost predicate MarkInv(s: Node) {
    if s.up then MarkersKnown(s) && ResultsOk(s) && (s.op.Unpreparing? && s.op.ustage.Forget? ==> NoMarker(s.tree, s.op.uid))
    else CleanTree(s)
  }

  lemma MarkFrame(s: Node, t: Node)
    requires MarkInv(s) && s.up && t.up && t.tree == s.tree && ClaimsOf(t) == ClaimsOf(s) && ResultsOk(t)
    requires t.op.Unpreparing? && t.op.ustage.Forget? ==> NoMarker(t.tree, t.op.uid)
    ensures MarkInv(t)
  {
  }

  /** Adding a cache file of a claim without dots in its UID adds no marker. */
  lemma CacheAddsNoMarker(s: Node, uid: Uid)
    requires OutsideEnabled(s, CudaCache(uid)) && '.' !in uid
    ensures forall d, u :: Marked(OutsideApply(s, CudaCache(uid)).tree, d, u) ==> Marked(s.tree, d, u)
  {
    forall u ensures Marker(u) != CacheFile(uid) {
      MarkerIsNoCacheFile(u, uid);
    }
  }

  lemma CacheKeepsMarks(s: Node, uid: Uid)
    requires HookInv(s) && MarkInv(s) && OutsideEnabled(s, CudaCache(uid))
    ensures MarkInv(OutsideApply(s, CudaCache(uid)))
  {
    var t := OutsideApply(s, CudaCache(uid));
    assert ClaimsOf(t) == ClaimsOf(s);
    if s.up {
      CacheAddsNoMarker(s, uid);
    }
  }

  lemma OutsideKeepsMarks(s: Node, o: OutsideEvent)
    requires HookInv(s) && MarkInv(s) && OutsideEnabled(s, o) && !o.Reboot?
    ensures MarkInv(OutsideApply(s, o))
  {
    OutsideHardware(s, o);
    OutsideSameFile(s, o);
    assert ClaimsOf(OutsideApply(s, o)) == ClaimsOf(s);
    match o
    case CudaCache(uid) => CacheKeepsMarks(s, uid);
    case _ =>
  }

  lemma ProcessKeepsMarks(env: Env, s: Node, p: ProcessEvent)
    requires Basic(env, s) && MarkInv(s) && ProcessEnabled(env, s, p)
    requires Holds(env, s, Process(p), Advertised) && Holds(env, s, Process(p), Adopted(Markers))
    ensures MarkInv(ProcessApply(env, s, p))
  {
    StartupSettles(env, s, p);
    WritesProcess(env, s, p);
    var t := ProcessApply(env, s, p);
    match p
    case Startup => assert t.tree == s.tree && t.op == s.op;
    case _ => if s.up { MarkFrame(s, t); }
  }

  lemma CleanupKeepsMarks(env: Env, s: Node, c: CleanupEvent)
    requires Basic(env, s) && MarkInv(s) && CleanupEnabled(s, c)
    ensures MarkInv(CleanupApply(s, c))
  {
    CleanupHardware(s, c);
    CleanupSameFile(s, c);
    assert ClaimsOf(CleanupApply(s, c)) == ClaimsOf(s);
    MarkFrame(s, CleanupApply(s, c));
  }

  lemma JobKeepsMarks(env: Env, s: Node, j: JobEvent)
    requires Basic(env, s) && MarkInv(s) && JobEnabled(env, s, j)
    ensures MarkInv(JobApply(env, s, j))
  {
    JobHooks(env, s, j);
    JobNeverForgets(env, s, j);
    MarkFrame(s, JobApply(env, s, j));
  }

  lemma JobNeverForgets(env: Env, s: Node, j: JobEvent)
    requires JobEnabled(env, s, j)
    ensures JobApply(env, s, j).op.Unpreparing? ==> JobApply(env, s, j).op.ustage.Sweep?
  {
    match j
    case DeleteMig(_, _, _) =>
    case FindNothing(_) =>
    case SkipJob =>
  }

  /** Placing adds no marker but the claim's own. */
  lemma PlacingMarks(tree: Tree, dir: string, uid: Uid, tree': Tree, done: bool)
    requires Places(tree, dir, uid, tree', done)
    ensures forall d, u :: Marked(tree', d, u) ==> u == uid || Marked(tree, d, u)
  {
    forall d, u | Marked(tree', d, u) ensures u == uid || Marked(tree, d, u) {
      if d == dir {
        MarkerInjective(u, uid);
      } else {
        assert d in tree' - {dir} && (tree' - {dir})[d] == tree'[d];
        assert d in tree - {dir} && (tree - {dir})[d] == tree[d];
      }
    }
  }

  lemma PlaceKeepsMarks(s: Node, home: Home, tree: Tree, placedAll: bool)
    requires MarkInv(s) && s.up && s.op.Preparing? && s.op.claim.uid in ClaimsOf(s) && Own(s.op.claim.results) != []
    requires Places(s.tree, HomeDir(home), s.op.claim.uid, tree, placedAll)
    ensures MarkInv(Placed(s, home, tree, placedAll))
  {
    assert ClaimsOf(Placed(s, home, tree, placedAll)) == ClaimsOf(s);
    PlacingMarks(s.tree, HomeDir(home), s.op.claim.uid, tree, placedAll);
  }

  lemma WriteKeepsMarks(env: Env, s: Node, t: Node, q: PrepareEvent)
    requires Basic(env, s) && MarkInv(s) && PrepareEnabled(env, s, q) && t.tree == s.tree && t.up
    requires ClaimsOf(t) == EntriesAfter(s, Prepare(q)) && (t.op == Idle || (t.op.Preparing? && t.op.claim == s.op.claim))
    ensures MarkInv(t)
  {
    if q.WriteCompleted? {
      CompletedLengths(env, s);
    }
    forall d, u | Marked(t.tree, d, u) ensures u in ClaimsOf(t) && Own(ClaimsOf(t)[u].results) != [] {
      assert Marked(s.tree, d, u);
    }
  }

  lemma CompletedLengths(env: Env, s: Node)
    requires Basic(env, s) && PrepareEnabled(env, s, WriteCompleted)
    ensures s.op.stage.Create? && |s.op.stage.done| == |Own(s.op.claim.results)|
  {
  }

  lemma PrepareKeepsMarks(env: Env, s: Node, q: PrepareEvent)
    requires Basic(env, s) && MarkInv(s) && PrepareEnabled(env, s, q)
    ensures MarkInv(PrepareApply(env, s, q))
  {
    HookFacts(env, s, q);
    if q.PlaceHook? {
      PlaceKeepsMarks(s, q.home, q.tree, q.placedAll);
    } else {
      PrepareHooks(env, s, q);
      WritesPrepare(env, s, q);
      WriteKeepsMarks(env, s, PrepareApply(env, s, q), q);
    }
  }

  lemma ReleaseUnmarks(tree: Tree, uid: Uid, tree': Tree, done: bool)
    requires Releases(tree, uid, tree', done)
    ensures forall d, u :: Marked(tree', d, u) ==> Marked(tree, d, u)
    ensures done ==> NoMarker(tree', uid)
  {
  }

  lemma ReleaseKeepsMarks(env: Env, s: Node, tree: Tree, done: bool)
    requires MarkInv(s) && UnprepareEnabled(s, ReleaseHook(tree, done))
    ensures MarkInv(UnprepareApply(env, s, ReleaseHook(tree, done)))
  {
    assert ClaimsOf(UnprepareApply(env, s, ReleaseHook(tree, done))) == ClaimsOf(s);
    ReleaseUnmarks(s.tree, s.op.uid, tree, done);
  }

  lemma ForgetKeepsMarks(env: Env, s: Node)
    requires MarkInv(s) && UnprepareEnabled(s, WriteForget)
    ensures MarkInv(UnprepareApply(env, s, WriteForget))
  {
    var t := UnprepareApply(env, s, WriteForget);
    assert ClaimsOf(t) == ClaimsOf(s) - {s.op.uid} && t.tree == s.tree;
    forall d, u | Marked(t.tree, d, u) ensures u in ClaimsOf(t) && Own(ClaimsOf(t)[u].results) != [] {
      assert !Marked(s.tree, d, s.op.uid);
    }
  }

  /** Without a device there is nothing to unhook, and nothing was hooked. */
  lemma AdmissionKeepsMarks(env: Env, s: Node)
    requires MarkInv(s) && env.mode == HamiMode && UnprepareEnabled(s, AdmitUnprepare)
    ensures MarkInv(UnprepareApply(env, s, AdmitUnprepare))
  {
    var t := UnprepareApply(env, s, AdmitUnprepare);
    if t.op.ustage.Forget? {
      assert ClaimsOf(s)[s.op.uid].devices == [] && |Own(ClaimsOf(s)[s.op.uid].results)| == 0;
      forall d ensures !Marked(t.tree, d, s.op.uid) {
      }
    }
    MarkFrame(s, t);
  }

  lemma UnprepareKeepsMarks(env: Env, s: Node, u: UnprepareEvent)
    requires Basic(env, s) && MarkInv(s) && env.mode == HamiMode && UnprepareEnabled(s, u)
    ensures MarkInv(UnprepareApply(env, s, u))
  {
    match u
    case ReleaseHook(tree, done) => ReleaseKeepsMarks(env, s, tree, done);
    case WriteForget => ForgetKeepsMarks(env, s);
    case AdmitUnprepare => AdmissionKeepsMarks(env, s);
    case EndSweep => NoSweeps(env, s);
    case ReturnUnknown => MarkFrame(s, UnprepareApply(env, s, u));
  }

  lemma NoSweeps(env: Env, s: Node)
    requires Basic(env, s) && env.mode == HamiMode
    ensures s.op.Unpreparing? ==> !s.op.ustage.Sweep?
  {
  }

  lemma MarksKept(env: Env, s: Node, e: Event)
    requires Basic(env, s) && HookInv(s) && MarkInv(s) && env.mode == HamiMode && Enabled(env, s, e)
    requires Holds(env, s, e, Advertised) && Holds(env, s, e, SameBoot) && Holds(env, s, e, Adopted(Markers))
    ensures MarkInv(Apply(env, s, e))
  {
    match e
    case Outside(o) => OutsideKeepsMarks(s, o);
    case Process(p) => ProcessKeepsMarks(env, s, p);
    case Cleanup(c) => CleanupKeepsMarks(env, s, c);
    case Prepare(q) => PrepareKeepsMarks(env, s, q);
    case Unprepare(u) => UnprepareKeepsMarks(env, s, u);
    case Delete(j) => JobKeepsMarks(env, s, j);
  }

  /** What accounting for directories rests on. */
  const Traced: set<Hypothesis> := {OwnContainers, Advertised, SameBoot, Adopted(Homes), Adopted(Markers)}

  lemma {:induction false} MarksRun(env: Env, s: Node, es: seq<Event>)
    requires Basic(env, s) && HookInv(s) && MarkInv(s) && env.mode == HamiMode && Run(env, s, es).Some?
    requires Assuming(env, s, es, Traced)
    ensures MarkInv(Run(env, s, es).value)
    decreases es
  {
    if es != [] {
      BasicKept(env, s, es[0]);
      assert OwnContainers in Traced && Advertised in Traced && SameBoot in Traced && Adopted(Homes) in Traced && Adopted(Markers) in Traced;
      HooksKept(env, s, es[0]);
      MarksKept(env, s, es[0]);
      MarksRun(env, Apply(env, s, es[0]), es[1..]);
    }
  }

  /** Write-ahead accounting for hooks: within one boot, from a node without markers, every directory that carries a
      claim's marker belongs to a claim that is still in the checkpoint, after every step and every crash. */
  lemma NoDirectoryIsLost(env: Env, s: Node, es: seq<Event>, d: string, u: Uid)
    requires Initial(s) && CleanTree(s) && env.mode == HamiMode && Run(env, s, es).Some? && Assuming(env, s, es, Traced)
    requires var t := Run(env, s, es).value; t.up && d in t.tree && t.tree[d].Dir? && Marker(u) in t.tree[d].files
    ensures u in ClaimsOf(Run(env, s, es).value)
  {
    InitialBasic(env, s);
    MarksRun(env, s, es);
    assert Marked(Run(env, s, es).value.tree, d, u);
  }
}
