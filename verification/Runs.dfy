/**
 Whole runs of the node: any number of operations on any volumes, unlocked
 publishes, outside unmounts, failed commands and crashes, one kernel command at
 a time. A failed command and a crash change nothing here: a run may stop, and
 an operation may be cut off, after any step.
 */
module Runs {
  import opened Text
  import opened Paths
  import opened Luks
  import opened Kernel
  import opened Views
  import opened Effects

  datatype Step =
    | Attach(dev: Dev, file: string)
    | Detach(dev: Dev)
    | Open(volume: string, dev: Dev)
    | Close(volume: string)
    | MountAt(source: Source, path: string)
    | Bind(path: string, target: string)
    | Unmount(path: string)
    | Shift(source: Source, there: bool, shown: bool)
    | Write(file: string, disk: Disk)
    | Report(dev: Dev, raw: string)

  function Next(k: Kernel, step: Step): Kernel {
    match step
    case Attach(d, f) => Attached(k, d, f)
    case Detach(d) => Detached(k, d)
    case Open(n, d) => Opened(k, FbCrypt(n), d)
    case Close(n) => Closed(k, FbCrypt(n))
    case MountAt(src, path) => MountedAt(k, src, path)
    case Bind(path, target) => BoundAt(k, path, target)
    case Unmount(path) => UnmountedAt(k, path)
    case Shift(src, there, shown) => Shifted(k, src, there, shown)
    case Write(f, disk) => WithDisk(k, f, disk)
    case Report(d, raw) => Relabeled(k, d, raw)
  }

  /** losetup may print this for a loop on the file: its path or a tail of it, or, once deleted, a silly name. */
  predicate Reports(k: Kernel, file: string, raw: string) {
    ReportedAs(file, TrimDeleted(raw)) || (file !in k.disks && SillyRenamed(TrimDeleted(raw)))
  }

  ghost predicate Tells(k: Kernel, file: string, raw: string) {
    forall i {:trigger Spelled(i)} :: Spelled(i) ==> Reports(k, file, raw)
  }

  /**
   What operation on `w` may issue the step, going by what it sees: exactly what
   the commands of module HostCommands require of their callers. Anybody may
   unmount anything, a detach asks nothing, and how a loop is reported changes on
   its own.
   */
  ghost predicate Issues(w: Subject, u: View, k: Kernel, step: Step) {
    Sees(w, k, u) && Grants(w, u, k, step)
  }

  ghost predicate Grants(w: Subject, u: View, k: Kernel, step: Step) {
    match step
    case Attach(d, f) => f == w.image && d !in k.loops && WellNamed(w)
    case Detach(_) => true
    case Open(n, d) => n == w.volume && d in u.loops && u.user == None && u.mapped == None
    case Close(n) => n == w.volume && !OwnMounted(w, u)
    case MountAt(src, path) => path == w.stage && SoleUser(w, u, src)
    case Bind(path, target) => path == w.stage && target != w.stage
    case Unmount(_) => true
    case Shift(src, there, _) => there ==> Mounted(k, src)
    case Write(f, _) => f == w.image && u.disk.Some?
    case Report(d, raw) => d in k.loops ==> Tells(k, k.loops[d].file, raw)
  }

  // --- at most one live user per image, always ------------------------------

  lemma OwnIsUnmounted(w: Subject, u: View, k: Kernel)
    requires Sees(w, k, u) && !OwnMounted(w, u)
    ensures !Mounted(k, Own(w))
  {
    MountedSomewhere(k, w.stage, Own(w));
  }

  /** Whatever an operation may issue keeps the tables sound and every image exclusive. */
  lemma StepSafe(w: Subject, u: View, k: Kernel, step: Step)
    requires Sound(k) && Exclusive(k) && Issues(w, u, k, step)
    ensures Sound(Next(k, step)) && Exclusive(Next(k, step))
  {
    match step
    case Attach(d, f) => AttachedSafe(k, d, f);
    case Detach(d) => DetachedSafe(k, d);
    case Open(n, d) => OpenSeen(w, k, u, d); OpenedSafe(k, FbCrypt(n), d);
    case Close(n) => OwnIsUnmounted(w, u, k); ClosedSafe(k, FbCrypt(n));
    case MountAt(src, path) => MountSeen(w, k, u, src); MountedAtSafe(k, src, path);
    case Bind(path, target) => BoundAtSafe(k, path, target);
    case Unmount(path) => UnmountedAtSafe(k, path);
    case Shift(src, there, shown) => ShiftedSafe(k, src, there, shown);
    case Write(f, disk) => WriteSafe(k, f, disk);
    case Report(d, raw) => RelabeledSafe(k, d, raw);
  }

  lemma WriteSafe(k: Kernel, f: string, disk: Disk)
    requires Sound(k) && Exclusive(k)
    ensures Sound(WithDisk(k, f, disk)) && Exclusive(WithDisk(k, f, disk))
  {
    var k' := WithDisk(k, f, disk);
    assert forall t :: MountedHere(k', t) <==> MountedHere(k, t);
    assert forall t, g :: Holds(k', t, g) <==> Holds(k, t, g);
    assert forall e :: InUse(k', e) <==> InUse(k, e);
  }

  /** A step and the volume it was issued for. */
  datatype Move = Move(actor: Subject, step: Step)

  ghost predicate MayMove(k: Kernel, m: Move) {
    exists u :: Issues(m.actor, u, k, m.step)
  }

  function After(k: Kernel, run: seq<Move>): Kernel {
    if run == [] then k else Next(After(k, run[..|run| - 1]), run[|run| - 1].step)
  }

  /** Every step was one its operation may issue, going by what it saw then. */
  ghost predicate Run(k: Kernel, run: seq<Move>) {
    run == [] || (Run(k, run[..|run| - 1]) && MayMove(After(k, run[..|run| - 1]), run[|run| - 1]))
  }

  /**
   The driver's central promise. In every run from a good start, whatever is
   interleaved, wherever operations are cut off, no image ever has two live users.
   */
  lemma {:induction false} AlwaysExclusive(k: Kernel, run: seq<Move>)
    requires Sound(k) && Exclusive(k) && Run(k, run)
    ensures Sound(After(k, run)) && Exclusive(After(k, run))
  {
    if run != [] {
      var before, last := run[..|run| - 1], run[|run| - 1];
      AlwaysExclusive(k, before);
      var u :| Issues(last.actor, u, After(k, before), last.step);
      StepSafe(last.actor, u, After(k, before), last.step);
    }
  }

  /** In terms of loops: in every run, at most one loop per image is in use. */
  lemma AtMostOneLoopInUse(k: Kernel, run: seq<Move>, c: Dev, d: Dev, image: string)
    requires Sound(k) && Exclusive(k) && Run(k, run)
    requires var k' := After(k, run); On(k', c, image) && On(k', d, image) && InUse(k', c) && InUse(k', d)
    ensures c == d
  {
    AlwaysExclusive(k, run);
    OneLoopInUse(After(k, run), c, d);
  }

  /** For one, the attach and mount of a plain volume nobody uses are a run, and leave its loop in use. */
  lemma PlainStageIsARun(k: Kernel, s: Subject, d: Dev)
    requires Sound(k) && Exclusive(k) && d !in k.loops && Unheld(k, s.image) && WellNamed(s)
    ensures var run := [Move(s, Attach(d, s.image)), Move(s, MountAt(OnLoop(d), s.stage))];
            Run(k, run) && On(After(k, run), d, s.image) && InUse(After(k, run), d)
  {
    var attach, mount := Move(s, Attach(d, s.image)), Move(s, MountAt(OnLoop(d), s.stage));
    var k1 := Attached(k, d, s.image);
    var u := SeesSome(s, k);
    assert Issues(s, u, k, attach.step);
    AttachSeen(s, k, u, d);
    assert Issues(s, AttachTo(u, d), k1, mount.step);
    assert [attach, mount][..1] == [attach] && [attach][..0] == [];
    assert After(k, [attach]) == k1 && Run(k, [attach]);
    MountedOnly(k1, OnLoop(d), s.stage);
  }

  // --- what the others do is what a lock holder reckons with -----------------

  /** The volume's own step, on its view. */
  function Looks(w: Subject, u: View, step: Step): View {
    match step
    case Attach(d, _) => AttachTo(u, d)
    case Detach(d) => DetachFrom(u, d)
    case Open(_, d) => OpenOver(w, u, d)
    case Close(_) => CloseOwn(w, u)
    case MountAt(src, _) => MountOn(u, src)
    case Bind(_, _) => Bound(w, u)
    case Unmount(_) => Popped(u)
    case Shift(_, _, _) => u
    case Write(_, disk) => u.(disk := Some(disk))
    case Report(_, _) => u
  }

  /** A command does to its volume's view what HostCommands says it does. */
  lemma OwnStep(w: Subject, u: View, k: Kernel, step: Step)
    requires Sound(k) && Exclusive(k) && Issues(w, u, k, step)
    requires !step.Shift? && (step.Unmount? ==> step.path == w.stage)
    ensures Sees(w, Next(k, step), Looks(w, u, step))
  {
    match step
    case Attach(d, _) => AttachSeen(w, k, u, d);
    case Detach(d) => DetachSeen(w, k, u, d);
    case Open(_, d) => OpenSeen(w, k, u, d);
    case Close(_) => OwnIsUnmounted(w, u, k); CloseSeen(w, k, u);
    case MountAt(src, _) => MountSeen(w, k, u, src);
    case Bind(_, target) => BindSeen(w, k, u, target);
    case Unmount(_) => UnmountSeen(w, k, u);
    case Write(_, disk) => WriteSeenBy(w, w, k, u, disk);
    case Report(d, raw) => RelabelSeen(w, k, u, d, raw);
  }

  /**
   The move is not made for the volume itself, except to bind or unmount; it binds
   elsewhere than onto its staging path and detaches none of its loops.
   */
  ghost predicate Avoids(s: Subject, k: Kernel, m: Move) {
    && (Distinct(s, m.actor) || m.step.Unmount? || m.step.Shift? || m.step.Bind? || m.step.Report?)
    && (m.step.Bind? ==> m.step.target != s.stage)
    && (m.step.Detach? ==> !On(k, m.step.dev, s.image))
  }

  /**
   Rely and guarantee meet: a step issued for one volume, or an unmount by
   anybody, is to the holder of another volume's lock a step that takes something
   away at most. This is all that the operations assume of their surroundings.
   */
  lemma OthersShrink(s: Subject, v: View, v': View, w: Subject, u: View, k: Kernel, step: Step)
    requires Sound(k) && Exclusive(k) && Sees(s, k, v) && Issues(w, u, k, step)
    requires Avoids(s, k, Move(w, step)) && Sees(s, Next(k, step), v')
    ensures Shrinks(s, v, v') && Coherent(s, v) && Coherent(s, v')
  {
    StepSafe(w, u, k, step);
    SeesCoherent(s, k, v);
    SeesCoherent(s, Next(k, step), v');
    if step.Unmount? || step.Shift? || step.Bind? || step.Close? {
      OthersLetGo(s, w, u, k, step);
      LetsGoShrinks(s, k, Next(k, step), v, v');
    } else {
      OthersUnseen(s, v, w, u, k, step);
      SeesOne(s, Next(k, step), v, v');
    }
  }

  lemma OthersLetGo(s: Subject, w: Subject, u: View, k: Kernel, step: Step)
    requires Sound(k) && Exclusive(k) && Issues(w, u, k, step) && Avoids(s, k, Move(w, step))
    requires step.Unmount? || step.Shift? || step.Bind? || step.Close?
    ensures LetsGo(s, k, Next(k, step))
  {
    match step
    case Unmount(path) => UnmountLetsGo(s, k, path);
    case Shift(src, there, shown) => ShiftLetsGo(s, k, src, there, shown);
    case Bind(path, target) => BindLetsGo(s, k, path, target);
    case Close(n) => OwnIsUnmounted(w, u, k); CloseLetsGo(s, k, FbCrypt(n));
  }

  lemma OthersUnseen(s: Subject, v: View, w: Subject, u: View, k: Kernel, step: Step)
    requires Sound(k) && Exclusive(k) && Sees(s, k, v) && Issues(w, u, k, step) && Avoids(s, k, Move(w, step))
    requires step.Attach? || step.Detach? || step.Open? || step.MountAt? || step.Write? || step.Report?
    ensures Sees(s, Next(k, step), v)
  {
    match step
    case Attach(d, _) => AttachSeenBy(w, s, k, v, d);
    case Detach(d) => assert d !in v.loops; DetachSeen(s, k, v, d);
    case Open(_, d) => OpenSeen(w, k, u, d); OpenUnseen(w, s, k, v, d);
    case MountAt(src, _) => MountUnseen(w, s, k, v, u, src);
    case Write(_, disk) => WriteSeenBy(w, s, k, v, disk);
    case Report(d, raw) => RelabelSeen(s, k, v, d, raw);
  }

  ghost predicate LeftTo(s: Subject, k: Kernel, run: seq<Move>) {
    run == [] || (LeftTo(s, k, run[..|run| - 1]) && Avoids(s, After(k, run[..|run| - 1]), run[|run| - 1]))
  }

  /** However much the others do between two commands of a lock holder, it is one such step. */
  lemma {:induction false} MeanwhileShrinks(s: Subject, v: View, v': View, k: Kernel, run: seq<Move>)
    requires Sound(k) && Exclusive(k) && Run(k, run) && LeftTo(s, k, run)
    requires Sees(s, k, v) && Sees(s, After(k, run), v')
    ensures Shrinks(s, v, v') && Coherent(s, v')
    decreases |run|
  {
    SeesCoherent(s, k, v);
    AlwaysExclusive(k, run);
    SeesCoherent(s, After(k, run), v');
    if run == [] {
      SeesOne(s, k, v, v');
    } else {
      var before, last := run[..|run| - 1], run[|run| - 1];
      var mid := SeesSome(s, After(k, before));
      MeanwhileShrinks(s, v, mid, k, before);
      AlwaysExclusive(k, before);
      MoveShrinks(s, v, mid, v', After(k, before), last);
    }
  }

  lemma MoveShrinks(s: Subject, v: View, mid: View, v': View, k: Kernel, last: Move)
    requires Sound(k) && Exclusive(k) && MayMove(k, last) && Avoids(s, k, last)
    requires Coherent(s, v) && Coherent(s, mid) && Shrinks(s, v, mid) && Sees(s, k, mid)
    requires Sees(s, Next(k, last.step), v')
    ensures Shrinks(s, v, v')
  {
    var u :| Issues(last.actor, u, k, last.step);
    OthersShrink(s, mid, v', last.actor, u, k, last.step);
    ShrinksTransitive(s, v, mid, v');
  }

  // --- why the assumptions are needed ----------------------------------------

  /**
   Why a stage must refuse an image in use: detaching a leftover, attaching a fresh
   loop and mounting it keeps images exclusive exactly when nobody uses the image.
   */
  lemma SecondAttachExactly(k: Kernel, f: string, c: Dev, d: Dev, path: string)
    requires Sound(k) && Exclusive(k) && d !in k.loops
    ensures Exclusive(MountedAt(Attached(Detached(k, c), d, f), OnLoop(d), path)) <==> Unheld(k, f)
  {
    var k1 := Detached(k, c);
    var k2 := Attached(k1, d, f);
    var k' := MountedAt(k2, OnLoop(d), path);
    DetachedSafe(k, c);
    AttachedSafe(k1, d, f);
    MountedOnly(k2, OnLoop(d), path);
    forall t ensures Holds(k2, t, f) <==> Holds(k, t, f) {
      DetachHolds(k, c, t, f);
      SameMounted(k1, k2, t);
    }
    if Unheld(k, f) {
      MountedAtSafe(k2, OnLoop(d), path);
    } else {
      var t :| Holds(k, t, f);
      assert Holds(k', t, f) && Holds(k', OnLoop(d), f) && !Holds(k, OnLoop(d), f);
    }
  }

  /**
   loopBusy goes on when it cannot read pid 1's mount table, and it asks no other. If
   a loop on the image is mounted in a namespace it does not see, what follows puts a
   second live user on the image.
   */
  lemma UnseenMountAdmitsSecondUser(k: Kernel, f: string, c: Dev, d: Dev, path: string)
    requires Sound(k) && Exclusive(k) && On(k, c, f) && OnLoop(c) in k.away && d !in k.loops
    ensures !Exclusive(MountedAt(Attached(Detached(k, c), d, f), OnLoop(d), path))
  {
    assert Holds(k, OnLoop(c), f);
    SecondAttachExactly(k, f, c, d, path);
  }

  /**
   A re-stage detaches the recorded loop number without looking at its file. To the
   volume that number may have been handed to since, this is a step it reckons with
   exactly when the loop is not its own, or marked already.
   */
  lemma RecycledNumberHarmsOther(k: Kernel, w: Subject, v: View, d: Dev)
    requires Sound(k) && Exclusive(k) && Sees(w, k, v)
    ensures Sees(w, Detached(k, d), DetachFrom(v, d))
    ensures Shrinks(w, v, DetachFrom(v, d)) <==> d !in v.loops || (v.busy == Some(d) && v.dying)
  {
    DetachSeen(w, k, v, d);
    SeesCoherent(w, k, v);
  }
}
