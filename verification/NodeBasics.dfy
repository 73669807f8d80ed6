/** What every step keeps about the boot id and the lock holder, and what it leaves alone. */
module NodeBasics {
  import opened Base
  import opened Claims
  import opened Node
  import opened Nvlib
  import Store = CheckpointStore

  /** The stored boot id is the current one from startup on; before startup nothing runs. */
  ghost predicate BootInv(s: Node) {
    && s.boot != ""
    && (s.up ==> s.file.Some? && s.file.value.bootId == s.boot)
    && (!s.up ==> s.op == Idle && s.cleaners == map[])
  }

  predicate NamesOf(todo: seq<Job>, results: seq<AllocResult>) {
    forall j :: j in todo ==> j.ByName? && j.device in DeviceNames(results)
  }

  predicate TuplesOf(todo: seq<Job>, devices: seq<PreparedDevice>) {
    forall j :: j in todo ==> j.ByTuple? && exists d :: d in devices && d.live == Some(j.tuple)
  }

  /** What the lock holder may rely on at each stage: nobody else has changed the checkpoint since it looked. */
  ghost predicate HolderInv(env: Env, s: Node) {
    match s.op
    case Idle => true
    case Preparing(c, stage) =>
      stage == Enter ||
      (&& !Completed(s, c.uid)
       && (env.mode != HamiMode ==> NoOverlap(ClaimsOf(s), c))
       && match stage
          case Rollback(todo, spare) =>
            && env.mode != HamiMode && Started(s, c.uid) && spare == CompletedNames(ClaimsOf(s))
            && NamesOf(todo, ClaimsOf(s)[c.uid].results)
          case Hook(_) => Started(s, c.uid) && ClaimsOf(s)[c.uid] == StartedEntry(c)
          case Create(left, done) =>
            && Started(s, c.uid) && ClaimsOf(s)[c.uid] == StartedEntry(c)
            && (forall r :: r in left ==> r in Own(c.results)) && |left| + |done| == |Own(c.results)|
            && (forall r :: r in Own(c.results) && r !in left ==> exists d :: d in done && d.device == r.device)
          case _ => true)
    case Unpreparing(u, _, stage) =>
      stage == Arrive ||
      (&& (Started(s, u) || Completed(s, u))
       && (Completed(s, u) ==> u in s.touched)
       && match stage
          case Sweep(todo, spare) =>
            && env.mode != HamiMode
            && (Completed(s, u) ==> TuplesOf(todo, ClaimsOf(s)[u].devices))
            && (!Completed(s, u) ==> NamesOf(todo, ClaimsOf(s)[u].results) && spare == CompletedNames(ClaimsOf(s)))
          case Unhook => env.mode == HamiMode
          case _ => true)
    case TearingDown(spare) => env.mode == DynamicMig && spare == CompletedNames(ClaimsOf(s))
  }

  ghost predicate Basic(env: Env, s: Node) {
    BootInv(s) && HolderInv(env, s)
  }

  lemma CreateStep(results: seq<AllocResult>, left: seq<AllocResult>, done: seq<PreparedDevice>, d: PreparedDevice)
    requires left != [] && d.device == left[0].device
    requires forall r :: r in results && r !in left ==> exists x :: x in done && x.device == r.device
    ensures forall r :: r in results && r !in left[1..] ==> exists x :: x in done + [d] && x.device == r.device
  {
    forall r | r in results && r !in left[1..] ensures exists x :: x in done + [d] && x.device == r.device {
      if r == left[0] {
        assert d in done + [d];
      } else {
        assert r !in left by {
          assert left == [left[0]] + left[1..];
        }
        var x :| x in done && x.device == r.device;
        assert x in done + [d];
      }
    }
  }

  lemma OrderCovers(order: seq<AllocResult>, results: seq<AllocResult>)
    requires multiset(order) == multiset(results)
    ensures |order| == |results|
    ensures forall r :: r in results <==> r in order
  {
    assert |multiset(order)| == |multiset(results)|;
    forall r ensures r in results <==> r in order {
      assert r in results <==> r in multiset(results);
      assert r in order <==> r in multiset(order);
    }
  }

  // ------------------------------------------------- deletions in progress

  /** Operations in the middle of deletions. */
  predicate Deleting(op: Op) {
    (op.Preparing? && op.stage.Rollback?) || (op.Unpreparing? && op.ustage.Sweep?)
  }

  /** An operation with other deletions to make. */
  function WithTodo(op: Op, todo: seq<Job>): Op {
    match op
    case Preparing(c, Rollback(_, spare)) => Preparing(c, Rollback(todo, spare))
    case Unpreparing(u, self, Sweep(_, spare)) => Unpreparing(u, self, Sweep(todo, spare))
    case _ => op
  }

  lemma WithTodoFacts(op: Op, todo: seq<Job>)
    requires Deleting(op)
    ensures var t := WithTodo(op, todo);
            && Deleting(t) && !t.TearingDown? && Todo(t) == todo && Spare(t) == Spare(op)
            && (todo != [] ==> NextJob(t) == WithTodo(op, todo[1..]))
    ensures Todo(op) == todo ==> WithTodo(op, todo) == op
  {
    match op
    case Preparing(_, _) =>
    case Unpreparing(_, _, _) =>
  }

  // ------------------------------------------- what a step does to the entries

  /** Startup on a file of another boot. */
  predicate Wipes(s: Node, e: Event) {
    e.Process? && e.p.Startup? && s.file.Some? && s.file.value.bootId !in {"", s.boot}
  }

  /** The entries after an event: the three checkpoint writes and startup's replacement are all that changes them. */
  function EntriesAfter(s: Node, e: Event): map<Uid, Entry> {
    var claims := ClaimsOf(s);
    match e
    case Process(p) => if Wipes(s, e) then map[] else claims
    case Prepare(q) =>
      if q == WriteStarted && s.op.Preparing? then claims[s.op.claim.uid := StartedEntry(s.op.claim)]
      else if q == WriteCompleted && s.op.Preparing? && s.op.stage.Create? then claims[s.op.claim.uid := CompletedEntry(s.op.claim, s.op.stage.done)]
      else claims
    case Unprepare(u) => if u.WriteForget? && s.op.Unpreparing? then claims - {s.op.uid} else claims
    case _ => claims
  }

  lemma WritesProcess(env: Env, s: Node, p: ProcessEvent)
    requires ProcessEnabled(env, s, p)
    ensures ClaimsOf(ProcessApply(env, s, p)) == EntriesAfter(s, Process(p))
  {
    assert !p.Startup? ==> ProcessApply(env, s, p).file == s.file;
  }

  lemma WritesPrepare(env: Env, s: Node, q: PrepareEvent)
    requires PrepareEnabled(env, s, q)
    ensures ClaimsOf(PrepareApply(env, s, q)) == EntriesAfter(s, Prepare(q))
  {
  }

  lemma WritesUnprepare(env: Env, s: Node, u: UnprepareEvent)
    requires UnprepareEnabled(s, u)
    ensures ClaimsOf(UnprepareApply(env, s, u)) == EntriesAfter(s, Unprepare(u))
  {
  }

  lemma OutsideSameFile(s: Node, o: OutsideEvent)
    requires OutsideEnabled(s, o)
    ensures OutsideApply(s, o).file == s.file
  {
  }

  lemma CleanupSameFile(s: Node, c: CleanupEvent)
    requires CleanupEnabled(s, c)
    ensures CleanupApply(s, c).file == s.file
  {
  }

  lemma JobSameFile(env: Env, s: Node, j: JobEvent)
    requires JobEnabled(env, s, j)
    ensures JobApply(env, s, j).file == s.file
  {
    match j
    case DeleteMig(_, _, _) =>
    case _ =>
  }

  lemma EntriesChange(env: Env, s: Node, e: Event)
    requires Enabled(env, s, e)
    ensures ClaimsOf(Apply(env, s, e)) == EntriesAfter(s, e)
  {
    match e
    case Process(p) => WritesProcess(env, s, p);
    case Prepare(q) => WritesPrepare(env, s, q);
    case Unprepare(u) => WritesUnprepare(env, s, u);
    case Outside(o) => OutsideSameFile(s, o);
    case Cleanup(c) => CleanupSameFile(s, c);
    case Delete(j) => JobSameFile(env, s, j);
  }

  // ---------------------------------------------- what a step leaves alone

  /** Hardware, its history, and the history of touched claims. */
  predicate SameHardware(s: Node, t: Node) {
    t.hw == s.hw && t.owner == s.owner
  }

  lemma OutsideHardware(s: Node, o: OutsideEvent)
    requires OutsideEnabled(s, o)
    ensures !o.Reboot? ==> SameHardware(s, OutsideApply(s, o)) && OutsideApply(s, o).touched == s.touched && OutsideApply(s, o).op == s.op && OutsideApply(s, o).up == s.up
  {
  }

  lemma ProcessHardware(env: Env, s: Node, p: ProcessEvent)
    requires ProcessEnabled(env, s, p)
    ensures SameHardware(s, ProcessApply(env, s, p))
  {
    match p
    case Startup =>
    case _ =>
  }

  lemma CleanupHardware(s: Node, c: CleanupEvent)
    requires CleanupEnabled(s, c)
    ensures var t := CleanupApply(s, c);
            && SameHardware(s, t) && t.touched == s.touched && t.up == s.up
            && (t.op == s.op || (s.op == Idle && t.op.Unpreparing? && t.op.ustage == Arrive))
  {
  }

  lemma PrepareHardware(env: Env, s: Node, q: PrepareEvent)
    requires PrepareEnabled(env, s, q) && !q.CreateMig?
    ensures SameHardware(s, PrepareApply(env, s, q))
  {
    match q
    case ReturnPrepared =>
    case _ =>
  }

  lemma PrepareStaysUp(env: Env, s: Node, q: PrepareEvent)
    requires PrepareEnabled(env, s, q)
    ensures s.up && PrepareApply(env, s, q).up
  {
    if q.CreateMig? {
      assert MayCreate(env, s, q.k, q.ci, q.hw, q.made);
    }
  }

  lemma UnprepareHardware(env: Env, s: Node, u: UnprepareEvent)
    requires UnprepareEnabled(s, u)
    ensures SameHardware(s, UnprepareApply(env, s, u))
  {
    match u
    case ReturnUnknown =>
    case _ =>
  }

  // ------------------------------------------------------- keeping the invariant

  lemma OutsideKeepsBasic(env: Env, s: Node, o: OutsideEvent)
    requires Basic(env, s) && OutsideEnabled(s, o)
    ensures Basic(env, OutsideApply(s, o))
  {
    assert ClaimsOf(OutsideApply(s, o)) == ClaimsOf(s);
  }

  lemma ProcessKeepsBasic(env: Env, s: Node, p: ProcessEvent)
    requires Basic(env, s) && ProcessEnabled(env, s, p)
    ensures Basic(env, ProcessApply(env, s, p))
  {
    var t := ProcessApply(env, s, p);
    assert ClaimsOf(t) == ClaimsOf(s) || ClaimsOf(t) == map[];
  }

  lemma CleanupKeepsBasic(env: Env, s: Node, c: CleanupEvent)
    requires Basic(env, s) && CleanupEnabled(s, c)
    ensures Basic(env, CleanupApply(s, c))
  {
    assert ClaimsOf(CleanupApply(s, c)) == ClaimsOf(s);
  }

  lemma PrepareKeepsBoot(env: Env, s: Node, q: PrepareEvent)
    requires BootInv(s) && PrepareEnabled(env, s, q)
    ensures BootInv(PrepareApply(env, s, q))
  {
    match q
    case ReturnPrepared =>
    case _ =>
  }

  lemma PrepareKeepsHolder(env: Env, s: Node, q: PrepareEvent)
    requires Basic(env, s) && PrepareEnabled(env, s, q)
    ensures HolderInv(env, PrepareApply(env, s, q))
  {
    var t := PrepareApply(env, s, q);
    WritesPrepare(env, s, q);
    match q
    case WriteStarted => assert NoOverlap(ClaimsOf(s), s.op.claim) ==> NoOverlap(ClaimsOf(t), s.op.claim);
    case EndHook(order) => OrderCovers(order, Own(s.op.claim.results));
    case CreateMig(k, ci, hw, done) =>
      var st := s.op.stage;
      CreateStep(Own(s.op.claim.results), st.left, st.done, MadeDevice(env, s.op, k, ci));
    case Take =>
      var st := s.op.stage;
      CreateStep(Own(s.op.claim.results), st.left, st.done, PreparedFor(env, s.op.claim.uid, st.left[0], None));
    case _ =>
  }

  lemma UnprepareKeepsBasic(env: Env, s: Node, u: UnprepareEvent)
    requires Basic(env, s) && UnprepareEnabled(s, u)
    ensures Basic(env, UnprepareApply(env, s, u))
  {
    WritesUnprepare(env, s, u);
  }

  /** Doing the next job leaves the lock holder with what it knew. */
  lemma NextJobKeepsHolder(env: Env, s: Node, t: Node)
    requires HolderInv(env, s) && Todo(s.op) != [] && t.op == NextJob(s.op) && ClaimsOf(t) == ClaimsOf(s) && t.touched == s.touched
    ensures HolderInv(env, t)
  {
    assert forall j :: j in Todo(s.op)[1..] ==> j in Todo(s.op);
  }

  lemma DeletionKeepsBasic(env: Env, s: Node, l: LiveTuple, hw: Hw, done: bool)
    requires Basic(env, s) && JobEnabled(env, s, DeleteMig(l, hw, done))
    ensures Basic(env, JobApply(env, s, DeleteMig(l, hw, done)))
  {
    var t := JobApply(env, s, DeleteMig(l, hw, done));
    assert ClaimsOf(t) == ClaimsOf(s);
    if !s.op.TearingDown? && done {
      NextJobKeepsHolder(env, s, t);
    }
  }

  lemma JobKeepsBasic(env: Env, s: Node, j: JobEvent)
    requires Basic(env, s) && JobEnabled(env, s, j)
    ensures Basic(env, JobApply(env, s, j))
  {
    JobSameFile(env, s, j);
    match j
    case DeleteMig(l, hw, done) => DeletionKeepsBasic(env, s, l, hw, done);
    case FindNothing(_) => NextJobKeepsHolder(env, s, JobApply(env, s, j));
    case SkipJob => NextJobKeepsHolder(env, s, JobApply(env, s, j));
  }

  lemma BasicKept(env: Env, s: Node, e: Event)
    requires Basic(env, s) && Enabled(env, s, e)
    ensures Basic(env, Apply(env, s, e))
  {
    match e
    case Outside(o) => OutsideKeepsBasic(env, s, o);
    case Process(p) => ProcessKeepsBasic(env, s, p);
    case Cleanup(c) => CleanupKeepsBasic(env, s, c);
    case Prepare(q) => PrepareKeepsBoot(env, s, q); PrepareKeepsHolder(env, s, q);
    case Unprepare(u) => UnprepareKeepsBasic(env, s, u);
    case Delete(j) => JobKeepsBasic(env, s, j);
  }
}
