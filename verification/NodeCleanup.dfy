/** Cleanup works from a stale snapshot, without the lock, against an API server that changes meanwhile; still it
    unprepares only claims that are gone (cmd/hami-kubelet-plugin/cleanup.go). */
module NodeCleanup {
  import opened Base
  import opened Claims
  import opened Hypotheses
  import opened Node
  import opened NodeBasics
  import opened NodeLife
  import opened NodeRuns

  /** u existed, no longer exists, and therefore never will again. */
  predicate Dead(s: Node, u: Uid) {
    u in s.born && u !in s.api.Values
  }

  predicate CleanerOk(s: Node, c: Cleaner) {
    && (forall u :: u in c.todo ==> KeyOf(s, u, c.todo[u]))
    && (c.Pending? ==> Dead(s, c.uid))
  }

  predicate OpNamed(s: Node) {
    && (s.op.Preparing? ==> KnownClaim(s, s.op.claim))
    && (s.op.Unpreparing? && s.op.selfInitiated ==> Dead(s, s.op.uid))
  }

  predicate CleanupInv(s: Node) {
    ApiOk(s) && (s.up ==> EntriesNamed(s)) && OpNamed(s) && forall i :: i in s.cleaners ==> CleanerOk(s, s.cleaners[i])
  }

  lemma OutsideKeepsCleanup(s: Node, o: OutsideEvent)
    requires CleanupInv(s) && OutsideEnabled(s, o)
    ensures CleanupInv(OutsideApply(s, o))
  {
    var t := OutsideApply(s, o);
    assert ClaimsOf(t) == ClaimsOf(s);
    match o
    case ApiCreate(key, uid) => ApiCreateKeepsCleaners(s, t, key, uid);
    case ApiDelete(key) => assert t.api.Values <= s.api.Values;
    case _ =>
  }

  lemma ApiCreateKeepsCleaners(s: Node, t: Node, key: ObjectKey, uid: Uid)
    requires CleanupInv(s) && uid !in s.born && t == s.(api := s.api[key := uid], born := s.born[uid := key])
    ensures forall i :: i in t.cleaners ==> CleanerOk(t, t.cleaners[i])
    ensures forall u :: Dead(s, u) ==> Dead(t, u)
  {
    forall u | Dead(s, u) ensures Dead(t, u) {
      assert t.api.Values <= s.api.Values + {uid};
    }
    forall i | i in t.cleaners ensures CleanerOk(t, t.cleaners[i]) {
      assert CleanerOk(s, s.cleaners[i]);
    }
  }

  lemma ProcessKeepsCleanup(env: Env, s: Node, p: ProcessEvent)
    requires Basic(env, s) && CleanupInv(s) && ProcessEnabled(env, s, p)
    requires Holds(env, s, Process(p), Identity) && Holds(env, s, Process(p), Adopted(Names))
    ensures CleanupInv(ProcessApply(env, s, p))
  {
    StartupSettles(env, s, p);
    WritesProcess(env, s, p);
    var t := ProcessApply(env, s, p);
    assert p.Startup? ==> t.api == s.api && t.born == s.born && t.cleaners == s.cleaners && t.op == s.op;
  }

  /** A looked-up claim found missing, or replaced under its name, is dead. */
  lemma LookupFindsTheDead(s: Node, i: nat, uid: Uid, lookupFailed: bool)
    requires CleanupInv(s) && i in s.cleaners && s.cleaners[i].Scanning? && uid in s.cleaners[i].todo
    ensures Looked(s, i, uid, lookupFailed).Pending? ==> Dead(s, uid)
  {
    assert CleanerOk(s, s.cleaners[i]);
    var key := s.cleaners[i].todo[uid];
    assert forall k :: k in s.api && s.api[k] == uid ==> k == s.born[uid];
    assert key.name != "" ==> s.born[uid] == key;
  }

  /** For a claim that exists, the lookup goes wrong exactly when the recorded name is not the claim's. */
  lemma LivingFoundStaleIff(s: Node, i: nat, uid: Uid, key: ObjectKey)
    requires ApiOk(s) && key in s.api && s.api[key] == uid
    requires i in s.cleaners && s.cleaners[i].Scanning? && uid in s.cleaners[i].todo
    ensures Looked(s, i, uid, false).Pending? <==> s.cleaners[i].todo[uid].name != "" && s.cleaners[i].todo[uid] != key
  {
    var recorded := s.cleaners[i].todo[uid];
    if recorded in s.api && s.api[recorded] == uid {
      assert s.born[uid] == recorded && s.born[uid] == key;
    }
  }

  lemma CleanupKeepsCleanup(s: Node, c: CleanupEvent)
    requires s.up ==> EntriesNamed(s)
    requires CleanupInv(s) && CleanupEnabled(s, c)
    ensures CleanupInv(CleanupApply(s, c))
  {
    var t := CleanupApply(s, c);
    assert ClaimsOf(t) == ClaimsOf(s);
    forall i | i in t.cleaners ensures CleanerOk(t, t.cleaners[i]) {
      assert i in s.cleaners ==> CleanerOk(s, s.cleaners[i]);
      match c
      case Look(j, uid, failed) => LookupFindsTheDead(s, j, uid, failed);
      case _ =>
    }
  }

  lemma PrepareKeepsCleanup(env: Env, s: Node, q: PrepareEvent)
    requires CleanupInv(s) && PrepareEnabled(env, s, q)
    ensures CleanupInv(PrepareApply(env, s, q))
  {
    WritesPrepare(env, s, q);
    PrepareKeepsApi(env, s, q);
    assert KnownClaim(s, s.op.claim);
  }

  lemma PrepareKeepsApi(env: Env, s: Node, q: PrepareEvent)
    requires PrepareEnabled(env, s, q)
    ensures var t := PrepareApply(env, s, q);
            t.api == s.api && t.born == s.born && t.cleaners == s.cleaners && t.up == s.up &&
            (t.op == Idle || (t.op.Preparing? && t.op.claim == s.op.claim))
  {
    match q
    case ReturnPrepared =>
    case _ =>
  }

  lemma UnprepareKeepsCleanup(env: Env, s: Node, u: UnprepareEvent)
    requires CleanupInv(s) && UnprepareEnabled(s, u)
    ensures CleanupInv(UnprepareApply(env, s, u))
  {
    WritesUnprepare(env, s, u);
  }

  lemma CleanupFrame(s: Node, t: Node)
    requires CleanupInv(s) && OpNamed(t)
    requires t.file == s.file && t.api == s.api && t.born == s.born && t.cleaners == s.cleaners && t.up == s.up
    ensures CleanupInv(t)
  {
    assert ClaimsOf(t) == ClaimsOf(s);
    forall i | i in t.cleaners ensures CleanerOk(t, t.cleaners[i]) {
      assert CleanerOk(s, s.cleaners[i]);
    }
  }

  lemma JobKeepsCleanup(env: Env, s: Node, j: JobEvent)
    requires CleanupInv(s) && JobEnabled(env, s, j)
    ensures CleanupInv(JobApply(env, s, j))
  {
    JobSameFile(env, s, j);
    JobKeepsApi(env, s, j);
    CleanupFrame(s, JobApply(env, s, j));
  }

  lemma JobKeepsApi(env: Env, s: Node, j: JobEvent)
    requires JobEnabled(env, s, j)
    ensures var t := JobApply(env, s, j);
            t.api == s.api && t.born == s.born && t.cleaners == s.cleaners && t.up == s.up &&
            (t.op == Idle || t.op == s.op || (t.op.Preparing? && s.op.Preparing? && t.op.claim == s.op.claim)
             || (t.op.Unpreparing? && s.op.Unpreparing? && t.op.uid == s.op.uid && t.op.selfInitiated == s.op.selfInitiated))
  {
    match j
    case DeleteMig(_, _, _) =>
    case _ =>
  }

  lemma CleanupKept(env: Env, s: Node, e: Event)
    requires Basic(env, s) && CleanupInv(s) && Enabled(env, s, e) && Holds(env, s, e, Identity) && Holds(env, s, e, Adopted(Names))
    ensures CleanupInv(Apply(env, s, e))
  {
    match e
    case Outside(o) => OutsideKeepsCleanup(s, o);
    case Process(p) => ProcessKeepsCleanup(env, s, p);
    case Cleanup(c) => CleanupKeepsCleanup(s, c);
    case Prepare(q) => PrepareKeepsCleanup(env, s, q);
    case Unprepare(u) => UnprepareKeepsCleanup(env, s, u);
    case Delete(j) => JobKeepsCleanup(env, s, j);
  }

  lemma {:induction false} CleanupRun(env: Env, s: Node, es: seq<Event>)
    requires Basic(env, s) && CleanupInv(s) && Run(env, s, es).Some? && Assuming(env, s, es, {Identity, Adopted(Names)})
    ensures CleanupInv(Run(env, s, es).value)
    decreases es
  {
    if es != [] {
      BasicKept(env, s, es[0]);
      var hs := {Identity, Adopted(Names)};
      assert Identity in hs && Adopted(Names) in hs;
      CleanupKept(env, s, es[0]);
      CleanupRun(env, Apply(env, s, es[0]), es[1..]);
    }
  }

  /** For any interleaving with Prepare, Unprepare, restarts, reboots and API-server creations and deletions: at every
      step of a self-initiated unprepare, the claim it works on no longer exists at the API server. */
  lemma CleanupSparesTheLiving(env: Env, s: Node, es: seq<Event>)
    requires Initial(s) && Run(env, s, es).Some? && Assuming(env, s, es, {Identity, Adopted(Names)})
    ensures var t := Run(env, s, es).value;
            t.op.Unpreparing? && t.op.selfInitiated ==> t.op.uid !in t.api.Values
  {
    InitialBasic(env, s);
    CleanupRun(env, s, es);
  }

  /** One pass of a first cleanup thread over a claim that it takes for stale. */
  lemma ReachSelfUnprepare(env: Env, hs: set<Hypothesis>, s: Node, t: Node, u: Uid, key: ObjectKey) returns (t': Node)
    requires Reachable(env, hs, s, t) && t.up && t.op == Idle && t.cleaners == map[]
    requires Started(t, u) && ObjectKey(ClaimsOf(t)[u].namespace, ClaimsOf(t)[u].name) == key && key.name != "" && !(key in t.api && t.api[key] == u)
    ensures Reachable(env, hs, s, t') && t'.op == Unpreparing(u, true, Arrive) && t'.api == t.api
  {
    ReachCleanup(env, hs, s, t, Snapshot(0));
    var s1 := CleanupApply(t, Snapshot(0));
    FoundStale(t, u, key);
    ReachCleanup(env, hs, s, s1, Look(0, u, false));
    var s2 := CleanupApply(s1, Look(0, u, false));
    ReachCleanup(env, hs, s, s2, SelfUnprepare(0));
    t' := CleanupApply(s2, SelfUnprepare(0));
  }

  lemma FoundStale(s: Node, u: Uid, key: ObjectKey)
    requires s.up && s.op == Idle && s.cleaners == map[]
    requires Started(s, u) && ObjectKey(ClaimsOf(s)[u].namespace, ClaimsOf(s)[u].name) == key && key.name != "" && !(key in s.api && s.api[key] == u)
    ensures var s1 := CleanupApply(s, Snapshot(0));
            && CleanupEnabled(s1, Look(0, u, false))
            && var s2 := CleanupApply(s1, Look(0, u, false));
               s2.cleaners.Keys == {0} && s2.cleaners[0].Pending? && s2.cleaners[0].uid == u && s2.api == s.api && s2.op == Idle && s2.up
  {
    var s1 := CleanupApply(s, Snapshot(0));
    assert s1.cleaners[0].todo[u] == key;
  }

  /** A claim comes into being, is prepared under another name, and its Prepare dies. */
  lemma ReachMisnamed(env: Env, hs: set<Hypothesis>, s: Node, key: ObjectKey, c: Claim) returns (t: Node)
    requires Initial(s) && !Kept(s) && Identity !in hs && c.uid !in s.born && key !in s.api
    requires AdvertisedResults(env, c.results) && UnsharedResults(c.results) && '.' !in c.uid
    ensures Reachable(env, hs, s, t) && t.up && t.op == Idle && t.cleaners == map[] && t.api == s.api[key := c.uid]
    ensures c.uid in ClaimsOf(t) && ClaimsOf(t)[c.uid] == StartedEntry(c)
  {
    ReachStartup(env, hs, s);
    var s0 := Settle(s);
    ReachOutside(env, hs, s, s0, ApiCreate(key, c.uid));
    var s1 := OutsideApply(s0, ApiCreate(key, c.uid));
    assert ClaimsOf(s1) == ClaimsOf(s0) == map[];
    ReachStarted(env, hs, s, s1, c);
    var s2 := AfterStarted(s1, c);
    ReachStop(env, hs, s, s2);
    t := s2.(op := Idle);
    assert ClaimsOf(t) == ClaimsOf(s1)[c.uid := StartedEntry(c)];
  }

  /** Without Identity it may, whatever else is assumed: in a run from startup on, an entry written under a name that is not
      the claim's is looked up under that name, found missing or another claim's, and unprepared although the claim lives. */
  lemma WrongNameUnpreparesTheLiving(env: Env, hs: set<Hypothesis>, s: Node, key: ObjectKey, c: Claim) returns (t: Node)
    requires Initial(s) && !Kept(s) && Identity !in hs && c.uid !in s.born && key !in s.api
    requires AdvertisedResults(env, c.results) && UnsharedResults(c.results) && '.' !in c.uid
    requires c.name != "" && ObjectKey(c.namespace, c.name) != key
    ensures Reachable(env, hs, s, t) && t.op == Unpreparing(c.uid, true, Arrive) && key in t.api && t.api[key] == c.uid
  {
    var s1 := ReachMisnamed(env, hs, s, key, c);
    var wrong := ObjectKey(c.namespace, c.name);
    assert wrong in s.api ==> s.api[wrong] in s.born;
    t := ReachSelfUnprepare(env, hs, s, s1, c.uid, wrong);
  }
}
