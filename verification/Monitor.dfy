/**
 pkg/driver/monitor.go: finds staged volumes whose filesystem was forced read-only
 and deletes the pods using them, so that they are staged again. Stages and
 unstages clear failures while a tick runs.
 */
module Monitor {
  import opened Text
  import opened Kernel
  import opened HostCommands
  import opened FailureTracker
  import opened MountInfo

  /** Five minutes. */
  const REMEDIATION_HOLD: Time := 300_000_000_000

  datatype Pod = Pod(uid: string, namespace: string, name: string, controlled: bool, terminating: bool,
                     start: Option<Time>)

  /** skipReason is empty. */
  predicate Deletable(p: Pod, failedAt: Time) {
    p.controlled && !p.terminating && p.start.Some? && p.start.value < failedAt
  }

  /** One round of deletions for a volume: when, by which snapshot and failure time, and of which pods. */
  datatype Round = Round(volume: string, at: Time, stage: string, rows: seq<Row>, failedAt: Time, pods: seq<Pod>)

  /** The pod has a volume mount of the device. */
  ghost predicate Publishes(rows: seq<Row>, majorMinor: string, uid: string) {
    exists path :: TargetIn(rows, majorMinor, PublishTarget(uid, path))
  }

  /** The pod published the volume in the snapshot of the round. */
  ghost predicate Published(r: Round, p: Pod) {
    var row := LastRow(r.rows, r.stage);
    row.Some? && ForcedReadOnly(row.value) && Publishes(r.rows, row.value.majorMinor, p.uid)
  }

  /** Every pod of the round was a publish target, would be recreated, and started before the failure. */
  ghost predicate Justified(r: Round) {
    forall p :: p in r.pods ==> Published(r, p) && Deletable(p, r.failedAt)
  }

  /** Two rounds for one volume are at least the hold apart. */
  predicate Spaced(rounds: seq<Round>) {
    forall i, j :: 0 <= i < j < |rounds| && rounds[i].volume == rounds[j].volume ==>
      rounds[j].at >= rounds[i].at + REMEDIATION_HOLD
  }

  /** All rounds are spaced and justified, and each volume is held off for long enough after its last one. */
  ghost predicate InOrder(rounds: seq<Round>, held: map<string, Time>) {
    && Spaced(rounds) && (forall i :: 0 <= i < |rounds| ==> Justified(rounds[i]))
    && forall i :: 0 <= i < |rounds| ==> HeldIn(held, rounds[i].volume) >= rounds[i].at + REMEDIATION_HOLD
  }

  /** A round held no earlier than allowed keeps the order. */
  lemma RoundAdded(rounds: seq<Round>, held: map<string, Time>, r: Round)
    requires InOrder(rounds, held) && Justified(r) && r.at >= HeldIn(held, r.volume)
    ensures InOrder(rounds + [r], held[r.volume := r.at + REMEDIATION_HOLD])
  {
    var more, later := rounds + [r], held[r.volume := r.at + REMEDIATION_HOLD];
    forall i | 0 <= i < |more|
      ensures Justified(more[i]) && HeldIn(later, more[i].volume) >= more[i].at + REMEDIATION_HOLD
    {
      if i < |rounds| {
        assert more[i] == rounds[i];
        assert HeldIn(held, rounds[i].volume) >= rounds[i].at + REMEDIATION_HOLD;
      }
    }
  }

  /** The failure time recorded when a volume is marked now: the first one's. */
  function MarkedAt(failed: map<string, Time>, volume: string, now: Time): Time {
    if volume in failed then failed[volume] else now
  }

  /** Exactly one more round was held, for this volume, now. */
  ghost predicate HeldRound(was: seq<Round>, rounds: seq<Round>, volume: string, now: Time) {
    |rounds| == |was| + 1 && was <= rounds && rounds[|was|].volume == volume && rounds[|was|].at == now
  }

  class Monitor {
    const failures: Failures
    const kube: bool
    const autoDelete: bool
    /** Volumes whose first-failure events are delivered. */
    var eventSent: set<string>
    ghost var rounds: seq<Round>

    constructor (failures: Failures, kube: bool, autoDelete: bool)
      ensures this.failures == failures && rounds == [] && Valid()
    {
      this.failures, this.kube, this.autoDelete := failures, kube, autoDelete;
      eventSent, rounds := {}, [];
    }

    ghost predicate Valid()
      reads this, failures
    {
      InOrder(rounds, failures.held)
    }

    /** Stages and unstages clear failures meanwhile. */
    method OthersClear(cleared: set<string>)
      modifies failures`failed
      ensures failures.failed == old(failures.failed) - cleared
    {
      failures.failed := failures.failed - cleared;
    }

    /** The listed pods that use the failed volume, by the snapshot: none is missed, none is made up. */
    method UsersOf(rows: seq<Row>, majorMinor: string, pods: seq<Pod>) returns (users: seq<Pod>)
      ensures forall p :: p in users ==> p in pods && Publishes(rows, majorMinor, p.uid)
      ensures forall p :: p in pods && Publishes(rows, majorMinor, p.uid) ==> exists u :: u in users && u.uid == p.uid
    {
      var byUid: map<string, Pod> := map[];
      for i := 0 to |pods|
        invariant forall u :: u in byUid ==> byUid[u].uid == u && byUid[u] in pods
        invariant forall j :: 0 <= j < i ==> pods[j].uid in byUid
      {
        byUid := byUid[pods[i].uid := pods[i]];
      }
      var targets := PublishTargets(rows, majorMinor);
      users := [];
      for i := 0 to |targets|
        invariant forall p :: p in users ==> p in pods && Publishes(rows, majorMinor, p.uid)
        invariant forall j :: 0 <= j < i && targets[j].pod in byUid ==> byUid[targets[j].pod] in users
      {
        assert targets[i] in targets;
        assert TargetIn(rows, majorMinor, PublishTarget(targets[i].pod, targets[i].path));
        if targets[i].pod in byUid {
          users := users + [byUid[targets[i].pod]];
        }
      }
      forall p | p in pods && Publishes(rows, majorMinor, p.uid) ensures exists u :: u in users && u.uid == p.uid {
        var path :| TargetIn(rows, majorMinor, PublishTarget(p.uid, path));
        assert PublishTarget(p.uid, path) in targets;
        assert byUid[p.uid] in users;
      }
    }

    /** The deletion loop: a pod is tried only if nothing speaks for skipping it. */
    method DeletePods(users: seq<Pod>, failedAt: Time) returns (tried: seq<Pod>)
      ensures forall p :: p in tried <==> p in users && Deletable(p, failedAt)
    {
      tried := [];
      for i := 0 to |users|
        invariant forall p :: p in tried <==> p in users[..i] && Deletable(p, failedAt)
      {
        assert users[..i + 1] == users[..i] + [users[i]];
        if Deletable(users[i], failedAt) {
          tried := tried + [users[i]];
        }
      }
      assert users[..|users|] == users;
    }

    /** Marks the failure and reads its time back: the zero time if it was cleared in between. */
    method NoteFailure(volume: string, now: Time, cleared: set<string>) returns (isNew: bool, failedAt: Time)
      modifies failures`failed
      ensures failures.failed == (old(failures.failed)[volume := MarkedAt(old(failures.failed), volume, now)]) - cleared
      ensures isNew <==> volume !in old(failures.failed)
      ensures failedAt == if volume in cleared then ZERO_TIME else MarkedAt(old(failures.failed), volume, now)
    {
      isNew := failures.Mark(volume, now);
      OthersClear(cleared);
      var recorded := failures.Get(volume);
      failedAt := if recorded.Some? then recorded.value else ZERO_TIME;
    }

    /**
     handleFailed. `listed` is the answer of the Kubernetes API, which may fail;
     `cleared` are the failures others clear right after this one is marked. A
     round is held exactly when deletion is on, the hold is over and a pod of the
     listing that publishes the volume may go.
     */
    method HandleFailed(vol: Entry, row: Row, rows: seq<Row>, now: Time, listed: Option<seq<Pod>>, cleared: set<string>)
      returns (ghost users: seq<Pod>)
      requires Valid() && LastRow(rows, vol.stage) == Some(row) && ForcedReadOnly(row)
      modifies `eventSent, `rounds, failures
      ensures Valid()
      ensures failures.failed ==
              (old(failures.failed)[vol.volume := MarkedAt(old(failures.failed), vol.volume, now)]) - cleared
      ensures if kube && autoDelete && listed.Some? && now >= HeldIn(old(failures.held), vol.volume) &&
              vol.volume !in cleared &&
                 exists p :: p in users && Deletable(p, MarkedAt(old(failures.failed), vol.volume, now))
              then HeldRound(old(rounds), rounds, vol.volume, now)
              else rounds == old(rounds)
      ensures listed.Some? ==>
                && (forall p :: p in users ==> p in listed.value && Publishes(rows, row.majorMinor, p.uid))
                && (forall p :: p in listed.value && Publishes(rows, row.majorMinor, p.uid) ==>
                    exists u :: u in users && u.uid == p.uid)
    {
      var found := [];
      users := [];
      if listed.Some? {
        found := UsersOf(rows, row.majorMinor, listed.value);
        users := found;
      }
      var isNew, failedAt := NoteFailure(vol.volume, now, cleared);
      if isNew {
        eventSent := eventSent - {vol.volume};
      }
      if !kube {
        return;
      }
      var held := failures.HeldUntil(vol.volume);
      if vol.volume in eventSent && !(autoDelete && now >= held) {
        return;
      }
      if listed == None {
        return;
      }
      eventSent := eventSent + {vol.volume};
      if !autoDelete || now < held {
        return;
      }
      Remediate(vol, row, rows, now, failedAt, found);
    }

    /** One round of deletions, after which the volume is held off; none if no pod may go. */
    method Remediate(vol: Entry, row: Row, rows: seq<Row>, now: Time, failedAt: Time, users: seq<Pod>)
      requires Valid() && LastRow(rows, vol.stage) == Some(row) && ForcedReadOnly(row)
      requires now >= HeldIn(failures.held, vol.volume)
      requires forall p :: p in users ==> Publishes(rows, row.majorMinor, p.uid)
      modifies `rounds, failures`held
      ensures Valid()
      ensures if exists p :: p in users && Deletable(p, failedAt) then HeldRound(old(rounds), rounds, vol.volume, now)
              else rounds == old(rounds)
    {
      var tried := DeletePods(users, failedAt);
      if tried != [] {
        assert tried[0] in tried;
        ghost var round := Round(vol.volume, now, vol.stage, rows, failedAt, tried);
        assert Justified(round);
        RoundAdded(rounds, failures.held, round);
        rounds := rounds + [round];
        failures.Hold(vol.volume, now + REMEDIATION_HOLD);
      }
    }

    /**
     Tick: one pass over the staged volumes, in any order, with failures cleared by
     others in between. Rounds stay spaced and justified whatever happens.
     */
    method Tick(snapshot: Option<seq<Row>>, state: map<string, Entry>, clock: nat -> Time,
                listed: nat -> Option<seq<Pod>>,
                cleared: nat -> set<string>)
      requires Valid()
      modifies `eventSent, `rounds, failures
      ensures Valid() && old(rounds) <= rounds
    {
      if snapshot == None {
        return;
      }
      var rows, rest, step := snapshot.value, state.Keys, 0;
      while rest != {}
        invariant rest <= state.Keys && Valid() && old(rounds) <= rounds
        decreases |rest|
      {
        var u :| u in rest;
        rest := rest - {u};
        step := step + 1;
        OthersClear(cleared(2 * step));
        var row := LastAt(rows, state[u].stage);
        if row.Some? && ForcedReadOnly(row.value) {
          ghost var users := HandleFailed(state[u], row.value, rows, clock(step), listed(step), cleared(2 * step + 1));
        } else {
          if row.Some? {
            failures.Clear(state[u].volume);
          }
          eventSent := eventSent - {state[u].volume};
        }
      }
    }
  }
}
