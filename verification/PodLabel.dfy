/** Labelling a Pod for the monitor while other clients change it (hami_core.go, ensurePodMonitorLabel). */
module PodLabel {
  import opened Base

  /** The parts of a Pod that matter; `tag` is the value of the monitor label, `rest` all other metadata. */
  datatype Pod = Pod(uid: string, node: string, tag: string, rest: string, resourceVersion: nat)

  datatype PatchResult = Applied | Conflict | OtherError

  datatype Write = Write(before: Pod, after: Pod)

  /** State i of the history is what the write made of the state before. */
  ghost predicate HappensAt(history: seq<Option<Pod>>, w: Write, i: nat) {
    0 < i < |history| && history[i - 1] == Some(w.before) && history[i] == Some(w.after)
  }

  ghost predicate Happened(history: seq<Option<Pod>>, w: Write) {
    exists i: nat :: HappensAt(history, w, i)
  }

  lemma WritesStay(history: seq<Option<Pod>>, pod: Option<Pod>, writes: seq<Write>)
    requires forall w :: 0 <= w < |writes| ==> Happened(history, writes[w])
    ensures forall w :: 0 <= w < |writes| ==> Happened(history + [pod], writes[w])
  {
    forall w | 0 <= w < |writes| ensures Happened(history + [pod], writes[w]) {
      var i: nat :| HappensAt(history, writes[w], i);
      assert HappensAt(history + [pod], writes[w], i);
    }
  }

  /** The API server's view of one Pod name. `history` lists every state it has had, `writes` the
      label patches the server accepted from this plugin. */
  class PodServer {
    var live: Option<Pod>
    var clock: nat
    ghost var history: seq<Option<Pod>>
    ghost var writes: seq<Write>

    ghost predicate Valid()
      reads this
    {
      && |history| > 0 && history[|history| - 1] == live
      && (forall i :: 0 <= i < |history| && history[i].Some? ==> history[i].value.resourceVersion <= clock)
      // A resource version names one state.
      && (forall i, j :: (0 <= i < |history| && 0 <= j < |history| && history[i].Some? && history[j].Some?
            && history[i].value.resourceVersion == history[j].value.resourceVersion) ==> history[i] == history[j])
      && (forall w :: 0 <= w < |writes| ==> Happened(history, writes[w]))
    }

    constructor (pod: Option<Pod>)
      ensures Valid() && writes == [] && live == pod
    {
      live := pod;
      clock := if pod.Some? then pod.value.resourceVersion else 0;
      history, writes := [pod], [];
    }

    /** Replace the live state; every state gets a new resource version. */
    method Store(pod: Option<Pod>)
      requires Valid() && (pod.Some? ==> pod.value.resourceVersion == clock + 1)
      modifies this`live, this`clock, this`history
      ensures Valid() && live == pod && history == old(history) + [pod]
    {
      live, clock := pod, clock + 1;
      WritesStay(history, pod, writes);
      ghost var before := history;
      history := history + [pod];
      assert forall i :: 0 <= i < |history| ==> history[i] == if i < |before| then before[i] else pod;
      assert forall i :: 0 <= i < |before| && before[i].Some? ==> before[i].value.resourceVersion < clock;
    }

    /** Any number of changes by other clients: edits, deletion, re-creation under another UID. */
    method Interfere()
      requires Valid()
      modifies this`live, this`clock, this`history
      ensures Valid() && old(history) <= history
    {
      var n: nat := *;
      while n > 0
        invariant Valid() && old(history) <= history && writes == old(writes)
      {
        var deleted := *;
        if deleted {
          Store(None);
        } else {
          var uid, node, tag, rest := *, *, *, *;
          Store(Some(Pod(uid, node, tag, rest, clock + 1)));
        }
        n := n - 1;
      }
    }

    method Get() returns (r: Result<Pod>)
      requires Valid()
      modifies this`live, this`clock, this`history
      ensures Valid() && old(history) <= history
      ensures r.Ok? ==> Some(r.value) == history[|history| - 1]
    {
      Interfere();
      var fails := *;
      r := if live.None? || fails then Err else Ok(live.value);
    }

    /** A merge patch that names UID and resourceVersion: applied to the live Pod only if both match. */
    method PatchLabel(uid: string, resourceVersion: nat, tag: string) returns (r: PatchResult)
      requires Valid()
      modifies this
      ensures Valid() && old(history) <= history
      ensures writes == old(writes)
              || exists before, after ::
                   && writes == old(writes) + [Write(before, after)] && history[|history| - 1] == Some(after)
                   && before.uid == uid && before.resourceVersion == resourceVersion && Some(before) in history
                   && after == before.(tag := tag, resourceVersion := after.resourceVersion)
      ensures r == Applied ==> |writes| == |old(writes)| + 1
      ensures r == Conflict ==> writes == old(writes)
    {
      Interfere();
      if * {
        return OtherError;  // not delivered
      }
      if live.None? {
        return OtherError;
      }
      var before := live.value;
      if before.uid != uid || before.resourceVersion != resourceVersion {
        return Conflict;
      }
      var after := before.(tag := tag, resourceVersion := clock + 1);
      Store(Some(after));
      writes := writes + [Write(before, after)];
      assert HappensAt(history, Write(before, after), |history| - 1);
      if * {
        return OtherError;  // applied, but the answer was lost
      }
      r := Applied;
    }
  }

  /** retry.DefaultBackoff. */
  const BackoffSteps := 4

  /** The live Pod at state i of the history carries this node's label. */
  ghost predicate Labelled(history: seq<Option<Pod>>, i: nat, uid: string, node: string) {
    i < |history| && history[i].Some? && history[i].value.uid == uid && history[i].value.node == node && history[i].value.tag == node
  }

  /** A write this plugin may make: on the expected Pod on this node, with no label value yet,
      changing nothing but the label. */
  predicate GoodWrite(w: Write, uid: string, node: string) {
    && w.before.uid == uid && w.before.node == node && w.before.tag == ""
    && w.after == w.before.(tag := node, resourceVersion := w.after.resourceVersion)
  }

  /** For every interleaving with other clients: at most one write, and only a good one; a success means
      that at some instant of the call the live Pod carried this node's name. */
  method EnsurePodMonitorLabel(server: PodServer, uid: string, node: string) returns (ok: bool)
    requires server.Valid()
    modifies server
    ensures server.Valid() && old(server.history) <= server.history
    ensures server.writes == old(server.writes)
            || (|server.writes| == |old(server.writes)| + 1 && old(server.writes) <= server.writes && GoodWrite(server.writes[|server.writes| - 1], uid, node))
    ensures ok ==> exists i: nat :: |old(server.history)| - 1 <= i && Labelled(server.history, i, uid, node)
  {
    if node == "" {
      return false;
    }
    var step := 0;
    while step < BackoffSteps
      invariant server.Valid() && old(server.history) <= server.history && server.writes == old(server.writes)
    {
      step := step + 1;
      var got := server.Get();
      if got.Err? {
        return false;
      }
      var pod := got.value;
      ghost var at := |server.history| - 1;
      ghost var seen := server.history;
      if pod.uid != uid || pod.node != node {
        return false;
      }
      if pod.tag != "" {
        ok := pod.tag == node;
        assert ok ==> Labelled(server.history, at, uid, node);
        return;
      }
      var patched := server.PatchLabel(pod.uid, pod.resourceVersion, node);
      // The patch names the resource version just read, so it can only have met that very state.
      assert server.history[at] == seen[at] == Some(pod);
      if patched == Applied {
        assert Labelled(server.history, |server.history| - 1, uid, node);
        return true;
      }
      if patched == OtherError {
        return false;
      }
    }
    ok := false;
  }
}
