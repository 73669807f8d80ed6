/** The life of a checkpoint entry over all runs: how it may change, what a repeated Prepare answers, and which
    devices two completed claims may share. */
module NodeLife {
  import opened Base
  import opened Claims
  import opened Hypotheses
  import opened Node
  import opened NodeBasics
  import Versions = Checkpoint

  lemma InitialBasic(env: Env, s: Node)
    requires Initial(s)
    ensures Basic(env, s)
  {
  }

  lemma {:induction false} BasicRun(env: Env, s: Node, es: seq<Event>)
    requires Basic(env, s) && Run(env, s, es).Some?
    ensures Basic(env, Run(env, s, es).value)
    decreases es
  {
    if es != [] {
      BasicKept(env, s, es[0]);
      BasicRun(env, Apply(env, s, es[0]), es[1..]);
    }
  }

  /** From startup on the stored boot id is the current one, whatever happens. */
  lemma BootIdCurrent(env: Env, s: Node, es: seq<Event>)
    requires Initial(s) && Run(env, s, es).Some? && Run(env, s, es).value.up
    ensures var t := Run(env, s, es).value; t.file.Some? && t.file.value.bootId == t.boot
  {
    InitialBasic(env, s);
    BasicRun(env, s, es);
  }

  predicate Forgets(s: Node, e: Event, u: Uid) {
    e == Unprepare(WriteForget) && s.op.Unpreparing? && s.op.uid == u
  }

  /** An entry goes from absent to started, from started to started or completed, and is removed only by the
      last write of that claim's own Unprepare or by startup after a reboot. A completed entry never changes. */
  predicate LifeCycle(s: Node, e: Event, claims': map<Uid, Entry>, u: Uid) {
    var claims := ClaimsOf(s);
    && (u in claims && u !in claims' ==> Forgets(s, e, u) || Wipes(s, e))
    && (u !in claims && u in claims' ==> claims'[u].state == PrepareStarted)
    && (u in claims && u in claims' && claims'[u] != claims[u] ==>
          claims[u].state == PrepareStarted && claims'[u].state in {PrepareStarted, PrepareCompleted})
    && (u in claims' && (u in claims ==> claims'[u] != claims[u]) ==> s.op.Preparing? && s.op.claim.uid == u)
    && (Forgets(s, e, u) ==> u !in claims')
  }

  lemma EntriesOkKept(env: Env, s: Node, e: Event)
    requires Basic(env, s) && Enabled(env, s, e) && (s.up ==> EntriesOk(s)) && Holds(env, s, e, Adopted(Entries))
    ensures Apply(env, s, e).up ==> EntriesOk(Apply(env, s, e))
  {
    EntriesChange(env, s, e);
    UpOrSettling(env, s, e);
    var t := Apply(env, s, e);
    forall u | t.up && u in ClaimsOf(t) ensures EntryOk(ClaimsOf(t)[u]) {
      assert u in ClaimsOf(s) && (s.up || Adopts(s, e)) ==> EntryOk(ClaimsOf(s)[u]);
    }
  }

  lemma {:induction false} EntriesRun(env: Env, s: Node, es: seq<Event>)
    requires Basic(env, s) && (s.up ==> EntriesOk(s)) && Run(env, s, es).Some? && Assuming(env, s, es, {Adopted(Entries)})
    ensures Run(env, s, es).value.up ==> EntriesOk(Run(env, s, es).value)
    decreases es
  {
    if es != [] {
      BasicKept(env, s, es[0]);
      assert Adopted(Entries) in {Adopted(Entries)};
      EntriesOkKept(env, s, es[0]);
      EntriesRun(env, Apply(env, s, es[0]), es[1..]);
    }
  }

  /** The life cycle holds of every entry at every step of every run. */
  lemma EntryLifeCycle(env: Env, s: Node, es: seq<Event>, e: Event, u: Uid)
    requires Initial(s) && Run(env, s, es).Some? && Assuming(env, s, es, {Adopted(Entries)}) && Enabled(env, Run(env, s, es).value, e)
    ensures var t := Run(env, s, es).value; t.up ==> LifeCycle(t, e, ClaimsOf(Apply(env, t, e)), u)
  {
    InitialBasic(env, s);
    BasicRun(env, s, es);
    EntriesRun(env, s, es);
    var t := Run(env, s, es).value;
    if t.up {
      EntryStep(env, t, e, u);
    }
  }

  /** What the writes do, given what the lock holder knows. */
  lemma WritesFollowLifeCycle(s: Node, e: Event, u: Uid)
    requires u in ClaimsOf(s) ==> EntryOk(ClaimsOf(s)[u])
    requires e.Prepare? && (e.q.WriteStarted? || e.q.WriteCompleted?) ==> s.op.Preparing? && !Completed(s, s.op.claim.uid)
    requires e.Prepare? && e.q.WriteCompleted? ==> Started(s, s.op.claim.uid)
    ensures LifeCycle(s, e, EntriesAfter(s, e), u)
  {
  }

  lemma EntryStep(env: Env, s: Node, e: Event, u: Uid)
    requires Basic(env, s) && (u in ClaimsOf(s) ==> EntryOk(ClaimsOf(s)[u])) && Enabled(env, s, e)
    ensures LifeCycle(s, e, ClaimsOf(Apply(env, s, e)), u)
  {
    EntriesChange(env, s, e);
    WritersKnow(env, s, e);
    WritesFollowLifeCycle(s, e, u);
  }

  /** Who writes an entry knows its state. */
  lemma WritersKnow(env: Env, s: Node, e: Event)
    requires Basic(env, s) && Enabled(env, s, e)
    ensures e.Prepare? && (e.q.WriteStarted? || e.q.WriteCompleted?) ==> s.op.Preparing? && !Completed(s, s.op.claim.uid)
    ensures e.Prepare? && e.q.WriteCompleted? ==> Started(s, s.op.claim.uid) && s.op.stage.Create?
    ensures e.Prepare? && e.q.WriteCompleted? ==> env.mode != HamiMode ==> NoOverlap(ClaimsOf(s), s.op.claim)
  {
    match e
    case Prepare(q) => HolderFacts(env, s, q);
    case _ =>
  }

  /** A plugin downgrade and upgrade, at any point of any run, keeps exactly the completed claims and changes none. */
  lemma DowngradeKeepsCompleted(env: Env, s: Node, es: seq<Event>)
    requires Initial(s) && Run(env, s, es).Some? && Run(env, s, es).value.up && Assuming(env, s, es, {Adopted(Entries)})
    ensures var claims := ClaimsOf(Run(env, s, es).value);
            Versions.Upgrade(Versions.Downgrade(claims)) == Versions.CompletedOnly(claims)
  {
    InitialBasic(env, s);
    EntriesRun(env, s, es);
    var claims := ClaimsOf(Run(env, s, es).value);
    forall u | u in claims && claims[u].state == PrepareCompleted ensures claims[u].name == "" && claims[u].namespace == "" {
      assert EntryOk(claims[u]);
    }
    Versions.DowngradeThenUpgradeIff(claims);
  }

  /** The preparation of a claim that is completed does nothing but answer. */
  lemma HolderFacts(env: Env, s: Node, q: PrepareEvent)
    requires Basic(env, s) && PrepareEnabled(env, s, q)
    ensures s.op.Preparing?
    ensures q.ReturnPrepared? <==> Completed(s, s.op.claim.uid)
    ensures q.WriteCompleted? ==> s.op.stage.Create? && Started(s, s.op.claim.uid) && (env.mode != HamiMode ==> NoOverlap(ClaimsOf(s), s.op.claim))
    ensures q.WriteStarted? ==> !Completed(s, s.op.claim.uid)
  {
    match q
    case ReturnPrepared =>
    case _ =>
  }

  predicate Removes(s: Node, e: Event, u: Uid) {
    Forgets(s, e, u) || Wipes(s, e)
  }

  /** No event of the run removes u's entry. */
  ghost predicate NeverRemoved(env: Env, s: Node, es: seq<Event>, u: Uid)
    decreases es
  {
    es == [] || (Enabled(env, s, es[0]) ==> !Removes(s, es[0], u) && NeverRemoved(env, Apply(env, s, es[0]), es[1..], u))
  }

  lemma CompletedUnchanged(env: Env, s: Node, e: Event, u: Uid)
    requires Basic(env, s) && Enabled(env, s, e) && Completed(s, u) && !Removes(s, e, u)
    ensures Completed(Apply(env, s, e), u) && ClaimsOf(Apply(env, s, e))[u] == ClaimsOf(s)[u]
  {
    EntriesChange(env, s, e);
    WritersKnow(env, s, e);
    WritesKeepCompleted(s, e, u);
  }

  lemma WritesKeepCompleted(s: Node, e: Event, u: Uid)
    requires Completed(s, u) && !Removes(s, e, u)
    requires e.Prepare? && (e.q.WriteStarted? || e.q.WriteCompleted?) ==> s.op.Preparing? && !Completed(s, s.op.claim.uid)
    ensures u in EntriesAfter(s, e) && EntriesAfter(s, e)[u] == ClaimsOf(s)[u]
  {
  }

  lemma {:induction false} CompletedStays(env: Env, s: Node, es: seq<Event>, u: Uid)
    requires Basic(env, s) && Run(env, s, es).Some? && Completed(s, u) && NeverRemoved(env, s, es, u)
    ensures var t := Run(env, s, es).value; Completed(t, u) && ClaimsOf(t)[u] == ClaimsOf(s)[u]
    decreases es
  {
    if es != [] {
      BasicKept(env, s, es[0]);
      CompletedUnchanged(env, s, es[0], u);
      CompletedStays(env, Apply(env, s, es[0]), es[1..], u);
    }
  }

  /** The devices a successful Prepare hands back for a claim. */
  function Answer(s: Node, e: Event, u: Uid): Option<seq<PreparedDevice>> {
    if !(e.Prepare? && s.op.Preparing? && s.op.claim.uid == u) then None
    else if e.q.ReturnPrepared? && u in ClaimsOf(s) then Some(ClaimsOf(s)[u].devices)
    else if e.q.WriteCompleted? && s.op.stage.Create? then Some(s.op.stage.done)
    else None
  }

  /** A step of preparing u, or of rolling u back, rather than of answering. */
  predicate WorksOn(s: Node, e: Event, u: Uid) {
    s.op.Preparing? && s.op.claim.uid == u && ((e.Prepare? && !e.q.ReturnPrepared?) || e.Delete?)
  }

  lemma AnswerMeansCompleted(env: Env, s: Node, e: Event, u: Uid)
    requires Basic(env, s) && Enabled(env, s, e) && Answer(s, e, u).Some?
    ensures Completed(Apply(env, s, e), u) && ClaimsOf(Apply(env, s, e))[u].devices == Answer(s, e, u).value
  {
    EntriesChange(env, s, e);
    HolderFacts(env, s, e.q);
    AnswersAreRecorded(s, e, u);
  }

  lemma AnswersAreRecorded(s: Node, e: Event, u: Uid)
    requires Answer(s, e, u).Some? && (e.q.ReturnPrepared? ==> Completed(s, u))
    ensures u in EntriesAfter(s, e) && EntriesAfter(s, e)[u].state == PrepareCompleted && EntriesAfter(s, e)[u].devices == Answer(s, e, u).value
  {
  }

  lemma CompletedIsNotWorkedOn(env: Env, s: Node, e: Event, u: Uid)
    requires Basic(env, s) && Enabled(env, s, e) && Completed(s, u)
    ensures !WorksOn(s, e, u)
    ensures Answer(s, e, u) in {None, Some(ClaimsOf(s)[u].devices)}
  {
    match e
    case Prepare(q) => HolderFacts(env, s, q);
    case Delete(j) => if s.op.Preparing? { NothingToRollBack(env, s, j); }
    case _ =>
  }

  lemma NothingToRollBack(env: Env, s: Node, j: JobEvent)
    requires Basic(env, s) && JobEnabled(env, s, j) && s.op.Preparing?
    ensures !Completed(s, s.op.claim.uid)
  {
    match j
    case DeleteMig(_, _, _) =>
    case _ =>
  }

  /** Prepare is idempotent: after any run and any successful Prepare of u, until u's entry is removed, u is never
      prepared or rolled back again, and every further successful Prepare of u answers the same devices. */
  lemma PrepareIdempotent(env: Env, s: Node, es: seq<Event>, first: Event, later: seq<Event>, e: Event, u: Uid)
    requires Initial(s) && Run(env, s, es).Some?
    requires var t := Run(env, s, es).value;
             && Enabled(env, t, first) && Answer(t, first, u).Some?
             && var t1 := Apply(env, t, first);
             Run(env, t1, later).Some? && NeverRemoved(env, t1, later, u) && Enabled(env, Run(env, t1, later).value, e)
    ensures var t := Run(env, s, es).value;
            var t2 := Run(env, Apply(env, t, first), later).value;
            !WorksOn(t2, e, u) && (Answer(t2, e, u).Some? ==> Answer(t2, e, u) == Answer(t, first, u))
  {
    InitialBasic(env, s);
    BasicRun(env, s, es);
    var t := Run(env, s, es).value;
    AnswerMeansCompleted(env, t, first, u);
    BasicKept(env, t, first);
    CompletedStays(env, Apply(env, t, first), later, u);
    BasicRun(env, Apply(env, t, first), later);
    CompletedIsNotWorkedOn(env, Run(env, Apply(env, t, first), later).value, e, u);
  }

  // --------------------------------------------------------- exclusive devices

  /** The node is up after an event only if it was up before, or startup has settled the file. */
  lemma UpOrSettling(env: Env, s: Node, e: Event)
    requires Enabled(env, s, e)
    ensures Apply(env, s, e).up ==> s.up || Wipes(s, e) || Adopts(s, e) || ClaimsOf(s) == map[]
    ensures s.up && BootInv(s) ==> !Wipes(s, e)
  {
    match e
    case Outside(o) => OutsideStays(s, o);
    case Process(p) => StartupSettles(env, s, p);
    case Cleanup(c) => CleanupHardware(s, c);
    case Prepare(q) => assert s.up;
    case Unprepare(u) => assert s.up;
    case Delete(j) => assert s.up;
  }

  lemma OutsideStays(s: Node, o: OutsideEvent)
    requires OutsideEnabled(s, o)
    ensures OutsideApply(s, o).up ==> s.up
  {
  }

  lemma StartupSettles(env: Env, s: Node, p: ProcessEvent)
    requires ProcessEnabled(env, s, p)
    ensures ProcessApply(env, s, p).up ==> s.up || Wipes(s, Process(p)) || Adopts(s, Process(p)) || ClaimsOf(s) == map[]
    ensures s.up && BootInv(s) ==> !Wipes(s, Process(p))
  {
  }

  /** Only the entry being completed can create a new pair; the rest is inherited. */
  lemma ExclusiveKept(env: Env, s: Node, e: Event)
    requires Basic(env, s) && Enabled(env, s, e) && env.mode != HamiMode && (s.up ==> Exclusive(ClaimsOf(s)))
    requires Holds(env, s, e, Adopted(Exclusiveness))
    ensures Apply(env, s, e).up ==> Exclusive(EntriesAfter(s, e))
  {
    UpOrSettling(env, s, e);
    WritersKnow(env, s, e);
    if Exclusive(ClaimsOf(s)) || Wipes(s, e) {
      WritesStayExclusive(s, e);
    }
  }

  lemma WritesStayExclusive(s: Node, e: Event)
    requires Exclusive(ClaimsOf(s)) || Wipes(s, e)
    requires e.Prepare? && e.q.WriteCompleted? ==> s.op.Preparing? && NoOverlap(ClaimsOf(s), s.op.claim)
    ensures Exclusive(EntriesAfter(s, e))
  {
  }

  lemma {:induction false} ExclusiveRun(env: Env, s: Node, es: seq<Event>)
    requires Basic(env, s) && Run(env, s, es).Some? && env.mode != HamiMode && (s.up ==> Exclusive(ClaimsOf(s)))
    requires Assuming(env, s, es, {Adopted(Exclusiveness)})
    ensures Run(env, s, es).value.up ==> Exclusive(ClaimsOf(Run(env, s, es).value))
    decreases es
  {
    if es != [] {
      BasicKept(env, s, es[0]);
      assert Adopted(Exclusiveness) in {Adopted(Exclusiveness)};
      ExclusiveKept(env, s, es[0]);
      EntriesChange(env, s, es[0]);
      ExclusiveRun(env, Apply(env, s, es[0]), es[1..]);
    }
  }

  /** With HAMi-Core support off, no two completed claims ever share a non-admin device of this driver, although the
      overlap check looks at completed claims only and runs several steps before the completed entry is written. */
  lemma DevicesExclusive(env: Env, s: Node, es: seq<Event>, u: Uid, v: Uid)
    requires Initial(s) && Run(env, s, es).Some? && env.mode != HamiMode && Run(env, s, es).value.up
    requires Assuming(env, s, es, {Adopted(Exclusiveness)})
    requires u != v && Completed(Run(env, s, es).value, u) && Completed(Run(env, s, es).value, v)
    ensures var claims := ClaimsOf(Run(env, s, es).value);
            NonAdminSet(claims[u].results) * NonAdminSet(claims[v].results) == {}
  {
    InitialBasic(env, s);
    ExclusiveRun(env, s, es);
  }
}
