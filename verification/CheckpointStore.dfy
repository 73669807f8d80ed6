/** The checkpoint file shared by several plugin processes under one file lock
    (cmd/hami-kubelet-plugin/device_state.go: updateCheckpoint, getCheckpoint, createCheckpoint, initCheckpoint). */
module CheckpointStore {
  import opened Base
  import opened Claims

  datatype File = File(bootId: string, claims: map<Uid, Entry>)

  /** The mutations the plugin performs. Replace writes a fresh file without reading the old one. */
  datatype Mutation = Put(uid: Uid, entry: Entry) | Delete(uid: Uid) | SetBoot(bootId: string) | Replace(bootId: string)

  function Apply(m: Mutation, f: Option<File>): Option<File> {
    match m
    case Replace(b) => Some(File(b, map[]))
    case _ =>
      match f
      case None => None
      case Some(File(b, claims)) =>
        match m
        case Put(u, e) => Some(File(b, claims[u := e]))
        case Delete(u) => Some(File(b, claims - {u}))
        case SetBoot(b') => Some(File(b', claims))
        case Replace(b') => Some(File(b', map[]))
  }

  function Replay(log: seq<Mutation>, f: Option<File>): Option<File> {
    if log == [] then f else Apply(log[|log| - 1], Replay(log[..|log| - 1], f))
  }

  /** The startup decision on what was read under an earlier acquisition of the lock. */
  function StartupTask(read: Option<File>, bootId: string): Option<Mutation> {
    match read
    case None => Some(Replace(bootId))
    case Some(f) => if f.bootId == bootId then None else if f.bootId == "" then Some(SetBoot(bootId)) else Some(Replace(bootId))
  }

  type Pid = nat

  /** Where a process is in one locked operation; `task` None is a plain read. Looking and Decided are startup's. */
  datatype Pc =
    | Idle
    | Waiting(task: Option<Mutation>)
    | Locked(task: Option<Mutation>)
    | HasRead(task: Option<Mutation>, snapshot: File)
    | Finished
    | Looking
    | Decided(read: Option<File>)

  datatype State = State(
    boot: string,
    file: Option<File>,
    holder: Option<Pid>,
    pcs: map<Pid, Pc>,
    log: seq<Mutation>,              // history: the mutations written, in lock order
    writers: seq<Pid>,                    // history: who wrote them
    read: map<Pid, Option<File>>)    // history: what the startup of a process has read

  datatype Event =
    | Begin(p: Pid, task: Option<Mutation>)
    | Acquire(p: Pid)
    | Read(p: Pid)
    | Write(p: Pid)
    | Release(p: Pid)
    | Look(p: Pid)
    | Decide(p: Pid)
    | Act(p: Pid)
    | Die(p: Pid)

  function PcOf(s: State, p: Pid): Pc {
    if p in s.pcs then s.pcs[p] else Idle
  }

  predicate Replaces(task: Option<Mutation>) {
    task.Some? && task.value.Replace?
  }

  predicate Enabled(s: State, e: Event) {
    var pc := PcOf(s, e.p);
    match e
    case Begin(_, task) => pc == Idle && !Replaces(task)
    case Acquire(_) => pc.Waiting? && s.holder == None
    case Read(_) => pc.Locked? && s.file.Some? && !Replaces(pc.task)
    case Write(_) => (pc.HasRead? && pc.task.Some?) || (pc.Locked? && Replaces(pc.task))
    // Every failure of an operation is a release without a write.
    case Release(_) => pc.Locked? || pc.HasRead? || pc.Finished?
    // A process starts once: it takes the lock, reads and lets go, and only then acts.
    case Look(_) => pc == Idle && s.holder == None && e.p !in s.read
    case Decide(_) => pc == Looking
    case Act(_) => pc.Decided?
    case Die(_) => true
  }

  function Step(s: State, e: Event): State
    requires Enabled(s, e)
  {
    var p := e.p;
    var pc := PcOf(s, p);
    match e
    case Begin(_, task) => s.(pcs := s.pcs[p := Waiting(task)])
    case Acquire(_) => s.(holder := Some(p), pcs := s.pcs[p := Locked(pc.task)])
    case Read(_) => s.(pcs := s.pcs[p := HasRead(pc.task, s.file.value)])
    case Write(_) =>
      // The process writes what it computed from its own snapshot.
      s.(file := Apply(pc.task.value, if pc.HasRead? then Some(pc.snapshot) else None),
         log := s.log + [pc.task.value], writers := s.writers + [p], pcs := s.pcs[p := Finished])
    case Release(_) => s.(holder := None, pcs := s.pcs[p := Idle])
    case Look(_) => s.(holder := Some(p), pcs := s.pcs[p := Looking])
    case Decide(_) => s.(holder := None, pcs := s.pcs[p := Decided(s.file)], read := s.read[p := s.file])
    case Act(_) =>
      var task := StartupTask(pc.read, s.boot);
      s.(pcs := s.pcs[p := if task.Some? then Waiting(task) else Idle])
    case Die(_) => s.(holder := if s.holder == Some(p) then None else s.holder, pcs := s.pcs[p := Idle])
  }

  /** The state after a run; None if some event was not enabled. */
  function Run(s: State, es: seq<Event>): Option<State>
    decreases es
  {
    if es == [] then Some(s)
    else if Enabled(s, es[0]) then Run(Step(s, es[0]), es[1..])
    else None
  }

  predicate Initial(s: State) {
    s.holder == None && s.pcs == map[] && s.log == [] && s.writers == [] && s.read == map[]
  }

  predicate Holds(pc: Pc) {
    pc.Locked? || pc.HasRead? || pc.Finished? || pc.Looking?
  }

  /** Startup p has decided on this replacement. */
  predicate DecidedOn(s: State, p: Pid, task: Option<Mutation>) {
    p in s.read && StartupTask(s.read[p], s.boot) == task
  }

  ghost predicate Inv(s: State, f0: Option<File>) {
    && s.file == Replay(s.log, f0)
    && (forall p :: p in s.pcs && Holds(s.pcs[p]) ==> s.holder == Some(p))
    && (forall p :: p in s.pcs && s.pcs[p].HasRead? ==> s.file == Some(s.pcs[p].snapshot))
  }

  /** Only startup replaces the file, and only on its decision. */
  ghost predicate Replacements(s: State) {
    && |s.writers| == |s.log|
    && (forall p :: p in s.pcs && s.pcs[p].Decided? ==> p in s.read && s.read[p] == s.pcs[p].read)
    && (forall p :: p in s.pcs && (s.pcs[p].Waiting? || s.pcs[p].Locked? || s.pcs[p].HasRead?) && Replaces(s.pcs[p].task) ==> DecidedOn(s, p, s.pcs[p].task))
    && (forall j :: 0 <= j < |s.log| && s.log[j].Replace? ==> DecidedOn(s, s.writers[j], Some(s.log[j])))
    // While a process reads in its startup, it has not decided.
    && (forall p :: p in s.pcs && s.pcs[p].Looking? ==> p !in s.read)
  }

  lemma StepKeepsInv(s: State, e: Event, f0: Option<File>)
    requires Inv(s, f0) && Enabled(s, e)
    ensures Inv(Step(s, e), f0)
  {
    if e.Write? {
      var m := PcOf(s, e.p).task.value;
      assert (s.log + [m])[..|s.log|] == s.log;
    }
  }

  lemma StepKeepsReplacements(s: State, e: Event)
    requires Replacements(s) && Enabled(s, e)
    ensures Replacements(Step(s, e)) && Step(s, e).boot == s.boot
  {
    var t := Step(s, e);
    forall p, task | DecidedOn(s, p, task) ensures DecidedOn(t, p, task) {
      assert e.Decide? ==> e.p !in s.read;
    }
    forall j | 0 <= j < |t.log| && t.log[j].Replace? ensures DecidedOn(t, t.writers[j], Some(t.log[j])) {
      assert j < |s.log| ==> DecidedOn(s, s.writers[j], Some(s.log[j]));
    }
  }

  lemma {:induction false} RunKeepsInv(s: State, es: seq<Event>, f0: Option<File>)
    requires Inv(s, f0) && Replacements(s) && Run(s, es).Some?
    ensures Inv(Run(s, es).value, f0) && Replacements(Run(s, es).value) && Run(s, es).value.boot == s.boot
    decreases es
  {
    if es != [] {
      StepKeepsInv(s, es[0], f0);
      StepKeepsReplacements(s, es[0]);
      RunKeepsInv(Step(s, es[0]), es[1..], f0);
    }
  }

  /** For any interleaving of any number of processes, with failures and deaths anywhere, the file is the
      result of applying the written mutations one after the other in lock order. */
  lemma UpdatesSerialise(s: State, es: seq<Event>)
    requires Initial(s) && Run(s, es).Some?
    ensures Run(s, es).value.file == Replay(Run(s, es).value.log, s.file)
  {
    RunKeepsInv(s, es, s.file);
  }

  /** A claim in the file is lost only to its own deletion or to a replacement of the file; in particular not
      to a boot id injected meanwhile. */
  lemma {:induction false} ClaimsSurvive(log: seq<Mutation>, f: File, u: Uid)
    requires u in f.claims
    requires forall i :: 0 <= i < |log| ==> log[i] != Delete(u) && !log[i].Replace?
    ensures Replay(log, Some(f)).Some? && u in Replay(log, Some(f)).value.claims
  {
    if log != [] {
      ClaimsSurvive(log[..|log| - 1], f, u);
    }
  }

  /** The stored boot id, once current, stays current while every process writes the current one. */
  lemma {:induction false} BootIdStays(log: seq<Mutation>, f: File)
    requires forall i :: 0 <= i < |log| ==> (log[i].SetBoot? || log[i].Replace? ==> log[i].bootId == f.bootId)
    ensures Replay(log, Some(f)).Some? && Replay(log, Some(f)).value.bootId == f.bootId
  {
    if log != [] {
      BootIdStays(log[..|log| - 1], f);
    }
  }

  /** Without interference between the read and the write, startup leaves the current boot id, and the claims
      survive exactly when the stored boot id is empty or current (or there are none). */
  lemma StartupAlone(f: Option<File>, bootId: string)
    ensures var after := match StartupTask(f, bootId) case None => f case Some(m) => Apply(m, f);
            && after.Some? && after.value.bootId == bootId
            && (f.Some? ==> (after.value.claims == f.value.claims <==> f.value.bootId in {"", bootId} || f.value.claims == map[]))
  {
  }

  predicate PutsOf(m: Mutation, u: Uid) {
    m.Put? && m.uid == u
  }

  /** Position i of the log is the last word on claim u: its last put, not followed by its deletion. */
  predicate LastPut(log: seq<Mutation>, i: nat, u: Uid) {
    i < |log| && PutsOf(log[i], u) && forall j :: i < j < |log| ==> log[j] != Delete(u) && !PutsOf(log[j], u)
  }

  /** The last put of a claim is kept exactly if no replacement follows it. */
  lemma {:induction false} PutKeptIff(log: seq<Mutation>, f: Option<File>, i: nat, u: Uid)
    requires LastPut(log, i, u) && Replay(log[..i], f).Some?
    ensures Replay(log, f).Some?
    ensures u in Replay(log, f).value.claims <==> forall j :: i < j < |log| ==> !log[j].Replace?
  {
    var n := |log| - 1;
    if i == n {
      assert log[..n] == log[..i];
    } else {
      assert log[..n][..i] == log[..i];
      assert forall j :: i < j < n ==> log[..n][j] == log[j];
      PutKeptIff(log[..n], f, i, u);
    }
  }

  /** A put is written on a file that exists. */
  ghost predicate PutsOnFiles(s: State, f0: Option<File>) {
    forall i :: 0 <= i < |s.log| && s.log[i].Put? ==> Replay(s.log[..i], f0).Some?
  }

  lemma StepKeepsPuts(s: State, e: Event, f0: Option<File>)
    requires Inv(s, f0) && PutsOnFiles(s, f0) && Enabled(s, e)
    ensures PutsOnFiles(Step(s, e), f0)
  {
    var t := Step(s, e);
    forall i | 0 <= i < |t.log| && t.log[i].Put? ensures Replay(t.log[..i], f0).Some? {
      if i < |s.log| {
        assert t.log[..i] == s.log[..i] && t.log[i] == s.log[i];
      } else {
        assert t.log[..i] == s.log;
      }
    }
  }

  lemma {:induction false} RunKeepsPuts(s: State, es: seq<Event>, f0: Option<File>)
    requires Inv(s, f0) && Replacements(s) && PutsOnFiles(s, f0) && Run(s, es).Some?
    ensures PutsOnFiles(Run(s, es).value, f0)
    decreases es
  {
    if es != [] {
      StepKeepsInv(s, es[0], f0);
      StepKeepsReplacements(s, es[0]);
      StepKeepsPuts(s, es[0], f0);
      RunKeepsPuts(Step(s, es[0]), es[1..], f0);
    }
  }

  /** Startup p has written its replacement at position j. */
  predicate ReplacedAt(s: State, p: Pid, j: nat) {
    j < |s.log| && j < |s.writers| && s.writers[j] == p && s.log[j].Replace?
  }

  /** For all runs with any number of startups, which read, let go of the lock, and act later: the last put of a claim is
      still there at the end exactly if every startup whose read told it to replace the file has not written its
      replacement since. In particular a put between a startup's read and its replacement is lost. */
  lemma ClaimSurvivesStartupsIff(s: State, es: seq<Event>, i: nat, u: Uid)
    requires Initial(s) && Run(s, es).Some? && LastPut(Run(s, es).value.log, i, u)
    ensures var t := Run(s, es).value;
            && t.file.Some?
            && (u in t.file.value.claims <==>
                forall p, j: nat :: p in t.read && Replaces(StartupTask(t.read[p], s.boot)) && ReplacedAt(t, p, j) ==> j < i)
  {
    RunKeepsInv(s, es, s.file);
    RunKeepsPuts(s, es, s.file);
    var t := Run(s, es).value;
    PutKeptIff(t.log, s.file, i, u);
    ReplacedByStartups(t, i);
  }

  /** The replacements after a position are those of startups that read what told them to. */
  lemma ReplacedByStartups(t: State, i: nat)
    requires Replacements(t) && i < |t.log| && !t.log[i].Replace?
    ensures (forall j :: i < j < |t.log| ==> !t.log[j].Replace?) <==>
            forall p, j: nat :: p in t.read && Replaces(StartupTask(t.read[p], t.boot)) && ReplacedAt(t, p, j) ==> j < i
  {
    forall j | i < j < |t.log| && t.log[j].Replace? ensures DecidedOn(t, t.writers[j], Some(t.log[j])) && ReplacedAt(t, t.writers[j], j) {
    }
    forall p, j: nat | ReplacedAt(t, p, j) ensures j != i {
    }
  }

  /** The steps of one startup that has decided to replace the file. */
  function Startup(p: Pid): seq<Event> {
    [Act(p), Acquire(p), Write(p), Release(p)]
  }

  lemma StartupReads(s: State, p: Pid)
    requires s.holder == None && PcOf(s, p) == Idle && p !in s.read
    ensures Run(s, [Look(p), Decide(p)]) == Some(s.(pcs := s.pcs[p := Decided(s.file)], read := s.read[p := s.file]))
  {
    var s1 := Step(s, Look(p));
    assert Step(s1, Decide(p)) == s.(pcs := s.pcs[p := Decided(s.file)], read := s.read[p := s.file]);
    RunCons(s1, Decide(p), []);
    RunCons(s, Look(p), [Decide(p)]);
    assert [Look(p)] + [Decide(p)] == [Look(p), Decide(p)] && [Decide(p)] + [] == [Decide(p)];
  }

  lemma StartupReplaces(s: State, p: Pid)
    requires s.holder == None && PcOf(s, p).Decided? && Replaces(StartupTask(PcOf(s, p).read, s.boot))
    ensures Run(s, Startup(p)).Some?
    ensures Run(s, Startup(p)).value.file == Some(File(s.boot, map[])) && Run(s, Startup(p)).value.log == s.log + [Replace(s.boot)]
  {
    var s1 := Step(s, Act(p));
    var s2 := Step(s1, Acquire(p));
    var s3 := Step(s2, Write(p));
    var s4 := Step(s3, Release(p));
    RunCons(s3, Release(p), []);
    RunCons(s2, Write(p), [Release(p)]);
    RunCons(s1, Acquire(p), [Write(p), Release(p)]);
    RunCons(s, Act(p), [Acquire(p), Write(p), Release(p)]);
    assert [Release(p)] + [] == [Release(p)] && [Write(p)] + [Release(p)] == [Write(p), Release(p)];
    assert [Acquire(p)] + [Write(p), Release(p)] == [Acquire(p), Write(p), Release(p)];
    assert [Act(p)] + [Acquire(p), Write(p), Release(p)] == Startup(p);
  }

  /** Check-then-act: startup reads the file of another boot; another process puts a claim; startup replaces the file and
      with it the claim, which it never saw and nobody deleted. */
  lemma StartupRaceLosesClaim(before: string, bootId: string, u: Uid, e: Entry)
    requires before != "" && before != bootId
    ensures var s := State(bootId, Some(File(before, map[])), None, map[], [], [], map[]);
            var look, put := [Look(1), Decide(1)], Operation(2, Put(u, e));
            && Initial(s) && Run(s, look + put).Some? && Run(s, look + put).value.file == Some(File(before, map[u := e]))
            && Run(s, look + put + Startup(1)).Some? && Run(s, look + put + Startup(1)).value.file == Some(File(bootId, map[]))
  {
    var s := State(bootId, Some(File(before, map[])), None, map[], [], [], map[]);
    var look, put := [Look(1), Decide(1)], Operation(2, Put(u, e));
    StartupReads(s, 1);
    var s1 := Run(s, look).value;
    OperationEffect(s1, 2, Put(u, e));
    RunAppend(s, look, put);
    var s2 := Run(s1, put).value;
    StartupReplaces(s2, 1);
    RunAppend(s, look + put, Startup(1));
  }

  lemma {:induction false} RunAppend(s: State, es: seq<Event>, fs: seq<Event>)
    requires Run(s, es).Some?
    ensures Run(s, es + fs) == Run(Run(s, es).value, fs)
    decreases es
  {
    if es == [] {
      assert es + fs == fs;
    } else {
      assert (es + fs)[1..] == es[1..] + fs;
      RunAppend(Step(s, es[0]), es[1..], fs);
    }
  }

  lemma RunCons(s: State, e: Event, rest: seq<Event>)
    requires Enabled(s, e)
    ensures Run(s, [e] + rest) == Run(Step(s, e), rest)
  {
    assert ([e] + rest)[1..] == rest;
  }

  /** One undisturbed locked operation of process p. */
  function Operation(p: Pid, m: Mutation): seq<Event> {
    [Begin(p, Some(m)), Acquire(p)] + [Read(p)] + [Write(p), Release(p)]
  }

  lemma OperationEffect(s: State, p: Pid, m: Mutation)
    requires s.holder == None && PcOf(s, p) == Idle && s.file.Some? && !m.Replace?
    ensures Run(s, Operation(p, m)).Some?
    ensures var t := Run(s, Operation(p, m)).value;
            && t.file == Apply(m, s.file) && t.holder == None && t.log == s.log + [m] && t.pcs == s.pcs[p := Idle]
            && t.boot == s.boot && t.read == s.read
  {
    var s2 := Step(Step(s, Begin(p, Some(m))), Acquire(p));
    var s3 := Step(s2, Read(p));
    var s4 := Step(Step(s3, Write(p)), Release(p));
    RunCons(Step(s3, Write(p)), Release(p), []);
    RunCons(s3, Write(p), [Release(p)] + []);
    var tail := [Write(p)] + ([Release(p)] + []);
    RunCons(s2, Read(p), tail);
    RunCons(Step(s, Begin(p, Some(m))), Acquire(p), [Read(p)] + tail);
    RunCons(s, Begin(p, Some(m)), [Acquire(p)] + ([Read(p)] + tail));
    assert Operation(p, m) == [Begin(p, Some(m))] + ([Acquire(p)] + ([Read(p)] + tail));
    assert s4.pcs == s.pcs[p := Idle];
  }
}
