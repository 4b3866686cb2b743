/**
 From the whole kernel to one volume's view and back: what a volume sees of a
 kernel, that every command does to the view what module HostCommands says, and
 that to the holder of any other volume's lock it is one of the steps that take
 something away at most.
 */
module Effects {
  import opened Text
  import opened Paths
  import opened Luks
  import opened Kernel
  import opened Views

  /** Mounted anywhere but at `path` in this namespace. */
  predicate MountedOff(k: Kernel, t: Source, path: string) {
    t in k.away || exists i :: 0 <= i < |k.mounts| && k.mounts[i].source == t && k.mounts[i].target != path
  }

  function LoopUnder(k: Kernel, t: Source): Option<Dev> {
    match t
    case OnLoop(d) => Some(d)
    case OnMapper(n) => if n in k.crypt then Some(k.crypt[n]) else None
    case Elsewhere => None
  }

  /** `v` is what the volume sees of the kernel. */
  ghost predicate Sees(s: Subject, k: Kernel, v: View) {
    && (forall d :: d in v.loops <==> On(k, d, s.image))
    && (v.user == None ==> Unheld(k, s.image))
    && (v.user.Some? ==> Holds(k, v.user.value, s.image))
    && v.busy == (if v.user.Some? then LoopUnder(k, v.user.value) else None)
    && v.dying == (v.busy.Some? && v.busy.value in k.loops && k.loops[v.busy.value].autoclear)
    && v.mapped == LoopUnder(k, Own(s))
    && v.stack == StackAt(k.mounts, s.stage)
    && v.spread == (v.user.Some? && MountedOff(k, v.user.value, s.stage))
    && v.hidden == (v.user.Some? && v.user.value.OnLoop? && v.user.value in k.away)
    && v.ownOff == MountedOff(k, Own(s), s.stage)
    && v.disk == (if s.image in k.disks then Some(k.disks[s.image]) else None)
  }

  /** Of a kernel in which images are exclusive a volume sees one thing only. */
  lemma SeesOne(s: Subject, k: Kernel, v: View, w: View)
    requires Exclusive(k) && Sees(s, k, v) && Sees(s, k, w)
    ensures v == w
  {
    assert v.loops == w.loops;
  }

  /** Something is always to be seen. */
  lemma SeesSome(s: Subject, k: Kernel) returns (v: View)
    ensures Sees(s, k, v)
  {
    var loops := set d | d in k.loops && k.loops[d].file == s.image;
    var user := None;
    if t :| Holds(k, t, s.image) {
      user := Some(t);
    }
    var busy := if user.Some? then LoopUnder(k, user.value) else None;
    v := View(
      loops, user, busy,
      busy.Some? && busy.value in k.loops && k.loops[busy.value].autoclear,
      LoopUnder(k, Own(s)),
      StackAt(k.mounts, s.stage),
      user.Some? && MountedOff(k, user.value, s.stage),
      user.Some? && user.value.OnLoop? && user.value in k.away,
      MountedOff(k, Own(s), s.stage),
      if s.image in k.disks then Some(k.disks[s.image]) else None);
  }

  /** Looking at the kernel on the volume's behalf. */
  method Observe(s: Subject, k: Kernel) returns (v: View)
    ensures Sees(s, k, v)
  {
    var loops := set d | d in k.loops && k.loops[d].file == s.image;
    var direct := set d | d in loops && Mounted(k, OnLoop(d));
    var mapped := set n | n in k.crypt && k.crypt[n] in loops;
    var user := None;
    if direct != {} {
      var d :| d in direct;
      user := Some(OnLoop(d));
    } else if mapped != {} {
      var n :| n in mapped;
      user := Some(OnMapper(n));
    }
    forall t ensures Holds(k, t, s.image) <==> (t.OnLoop? && t.dev in direct) || (t.OnMapper? && t.name in mapped) {
    }
    var busy := if user.Some? then LoopUnder(k, user.value) else None;
    v := View(
      loops, user, busy,
      busy.Some? && busy.value in k.loops && k.loops[busy.value].autoclear,
      LoopUnder(k, Own(s)),
      StackAt(k.mounts, s.stage),
      user.Some? && MountedOff(k, user.value, s.stage),
      user.Some? && user.value.OnLoop? && user.value in k.away,
      MountedOff(k, Own(s), s.stage),
      if s.image in k.disks then Some(k.disks[s.image]) else None);
  }

  lemma StackIsMounted(k: Kernel, path: string, t: Source)
    requires t in StackAt(k.mounts, path)
    ensures Mounted(k, t)
  {
    StackMember(k.mounts, path, t);
    var i :| 0 <= i < |k.mounts| && k.mounts[i] == Mount(path, t);
    assert k.mounts[i].source == t;
  }

  /** Mounted means mounted at the path or off it. */
  lemma MountedSomewhere(k: Kernel, path: string, t: Source)
    ensures Mounted(k, t) <==> MountedOff(k, t, path) || t in StackAt(k.mounts, path)
  {
    if MountedHere(k, t) {
      var i :| 0 <= i < |k.mounts| && k.mounts[i].source == t;
      if k.mounts[i].target == path {
        assert Mount(path, t) in k.mounts;
      }
    }
    StackMember(k.mounts, path, t);
    if t in StackAt(k.mounts, path) {
      StackIsMounted(k, path, t);
    }
  }

  /** What a volume sees of a sound kernel in which images are exclusive is coherent. */
  lemma SeesCoherent(s: Subject, k: Kernel, v: View)
    requires Sound(k) && Exclusive(k) && Sees(s, k, v)
    ensures Coherent(s, v)
  {
    MountedSomewhere(k, s.stage, Own(s));
    if v.user.Some? {
      MountedSomewhere(k, s.stage, v.user.value);
    }
    assert v.user == Some(Own(s)) <==> Holds(k, Own(s), s.image);
    forall i | 0 <= i < |v.stack| && v.stack[i].OnLoop? && v.stack[i].dev in v.loops
      ensures v.user == Some(v.stack[i])
    {
      StackIsMounted(k, s.stage, v.stack[i]);
      assert Holds(k, v.stack[i], s.image);
    }
  }

  /** A loop on the image is in use exactly when it is the busy one. */
  lemma BusyIsInUse(s: Subject, k: Kernel, v: View, d: Dev)
    requires Sound(k) && Exclusive(k) && Sees(s, k, v) && d in v.loops
    ensures InUse(k, d) <==> v.busy == Some(d)
  {
    if InUse(k, d) {
      var t := UserOf(k, d, s.image);
    }
  }

  // --- each command does to the view what it is said to do ----------------

  lemma SameMounted(k: Kernel, k': Kernel, t: Source)
    requires k'.mounts == k.mounts && k'.away == k.away
    ensures Mounted(k', t) <==> Mounted(k, t)
  {
    assert MountedHere(k', t) <==> MountedHere(k, t);
  }

  lemma SameInUse(k: Kernel, k': Kernel, d: Dev)
    requires k'.mounts == k.mounts && k'.away == k.away && k'.crypt == k.crypt
    ensures InUse(k', d) <==> InUse(k, d)
  {
    SameMounted(k, k', OnLoop(d));
  }

  /** As long as mounts, mappings and users stay, only the loops and the contents can look different. */
  lemma SeenFrame(s: Subject, k: Kernel, k': Kernel, v: View, v': View)
    requires Sees(s, k, v) && k'.mounts == k.mounts && k'.away == k.away && k'.crypt == k.crypt
    requires forall t :: Holds(k', t, s.image) <==> Holds(k, t, s.image)
    requires v' == v.(loops := v'.loops, dying := v'.dying, disk := v'.disk)
    requires forall d :: d in v'.loops <==> On(k', d, s.image)
    requires v'.dying == (v.busy.Some? && v.busy.value in k'.loops && k'.loops[v.busy.value].autoclear)
    requires v'.disk == if s.image in k'.disks then Some(k'.disks[s.image]) else None
    ensures Sees(s, k', v')
  {
  }

  lemma AttachSeen(s: Subject, k: Kernel, v: View, d: Dev)
    requires Sound(k) && Sees(s, k, v) && d !in k.loops
    ensures Sees(s, Attached(k, d, s.image), AttachTo(v, d))
  {
    AttachSeenBy(s, s, k, v, d);
  }

  /** Attaching a loop to one volume's image, as another volume (or the same) sees it. */
  lemma AttachSeenBy(w: Subject, s: Subject, k: Kernel, v: View, d: Dev)
    requires Sound(k) && Sees(s, k, v) && d !in k.loops
    ensures Sees(s, Attached(k, d, w.image), if w.image == s.image then AttachTo(v, d) else v)
  {
    var k' := Attached(k, d, w.image);
    forall t ensures Holds(k', t, s.image) <==> Holds(k, t, s.image) {
      SameMounted(k, k', t);
    }
    SeenFrame(s, k, k', v, if w.image == s.image then AttachTo(v, d) else v);
  }

  /** Detaching takes no user away: a loop in use stays until it is let go of. */
  lemma DetachHolds(k: Kernel, d: Dev, t: Source, f: string)
    requires Sound(k)
    ensures Holds(Detached(k, d), t, f) <==> Holds(k, t, f)
  {
    SameMounted(k, Detached(k, d), t);
    if Holds(k, t, f) && !InUse(k, d) {
      assert t.OnMapper? ==> k.crypt[t.name] != d;
    }
  }

  lemma DetachUsers(k: Kernel, d: Dev, f: string)
    requires Sound(k)
    ensures forall t :: Holds(Detached(k, d), t, f) <==> Holds(k, t, f)
  {
    forall t ensures Holds(Detached(k, d), t, f) <==> Holds(k, t, f) {
      DetachHolds(k, d, t, f);
    }
  }

  /** The loops on the image after a detach, by what is in use. */
  lemma DetachLoops(k: Kernel, v: View, d: Dev, f: string)
    requires forall e :: e in v.loops <==> On(k, e, f)
    requires d in v.loops ==> (InUse(k, d) <==> v.busy == Some(d))
    requires v.busy.Some? ==> v.busy.value in v.loops
    requires v.dying == (v.busy.Some? && v.busy.value in k.loops && k.loops[v.busy.value].autoclear)
    ensures var k', v' := Detached(k, d), DetachFrom(v, d);
            && (forall e :: e in v'.loops <==> On(k', e, f))
            && v'.dying == (v.busy.Some? && v.busy.value in k'.loops && k'.loops[v.busy.value].autoclear)
  {
  }

  lemma DetachSeen(s: Subject, k: Kernel, v: View, d: Dev)
    requires Sound(k) && Exclusive(k) && Sees(s, k, v)
    ensures Sees(s, Detached(k, d), DetachFrom(v, d))
  {
    var k' := Detached(k, d);
    DetachUsers(k, d, s.image);
    if d in v.loops {
      BusyIsInUse(s, k, v, d);
    }
    BusyIsOn(s, k, v);
    DetachLoops(k, v, d, s.image);
    SeenFrame(s, k, k', v, DetachFrom(v, d));
  }

  lemma BusyIsOn(s: Subject, k: Kernel, v: View)
    requires Sees(s, k, v)
    ensures v.busy.Some? ==> v.busy.value in v.loops
    ensures v.dying == (v.busy.Some? && v.busy.value in k.loops && k.loops[v.busy.value].autoclear)
    ensures forall e :: e in v.loops <==> On(k, e, s.image)
  {
  }

  /** How a loop's file is reported does not show in any view. */
  lemma RelabelSeen(s: Subject, k: Kernel, v: View, d: Dev, raw: string)
    requires Sees(s, k, v)
    ensures Sees(s, Relabeled(k, d, raw), v)
  {
    var k' := Relabeled(k, d, raw);
    forall t ensures Holds(k', t, s.image) <==> Holds(k, t, s.image) {
      SameMounted(k, k', t);
    }
    SeenFrame(s, k, k', v, v);
  }

  lemma WriteSeenBy(w: Subject, s: Subject, k: Kernel, v: View, disk: Disk)
    requires Sees(s, k, v)
    ensures Sees(s, WithDisk(k, w.image, disk), if w.image == s.image then v.(disk := Some(disk)) else v)
  {
    var k' := WithDisk(k, w.image, disk);
    forall t ensures Holds(k', t, s.image) <==> Holds(k, t, s.image) {
      SameMounted(k, k', t);
    }
    SeenFrame(s, k, k', v, if w.image == s.image then v.(disk := Some(disk)) else v);
  }

  /** Opening the volume's mapping: nobody uses the image, so it gets its one user. */
  lemma OpenSeen(s: Subject, k: Kernel, v: View, d: Dev)
    requires Sound(k) && Sees(s, k, v) && d in v.loops && v.user == None && v.mapped == None
    ensures Unheld(k, k.loops[d].file) && FbCrypt(s.volume) !in k.crypt
    ensures Sees(s, Opened(k, FbCrypt(s.volume), d), OpenOver(s, v, d))
  {
    var k' := Opened(k, FbCrypt(s.volume), d);
    SameMounted(k, k', Own(s));
    forall t | t != Own(s) ensures Holds(k', t, s.image) <==> Holds(k, t, s.image) {
      SameMounted(k, k', t);
    }
    if InUse(k, d) {
      var t := UserOf(k, d, s.image);
    }
    MountedSomewhere(k, s.stage, Own(s));
    assert !MountedOff(k', Own(s), s.stage);
  }

  lemma CloseHolds(k: Kernel, n: Mapper, t: Source, f: string)
    requires Sound(k) && !Mounted(k, OnMapper(n))
    ensures Holds(Closed(k, n), t, f) <==> Holds(k, t, f) && t != OnMapper(n)
  {
    var k' := Closed(k, n);
    SameMounted(k, k', t);
    if n in k.crypt {
      var k1, d := k.(crypt := k.crypt - {n}), k.crypt[n];
      SameMounted(k, k1, t);
      SameMounted(k, k1, OnLoop(d));
      assert Holds(k1, t, f) <==> Holds(k, t, f) && t != OnMapper(n);
      if k' != k1 && Holds(k1, t, f) {
        assert !InUse(k1, d);
        assert t.OnMapper? ==> k1.crypt[t.name] != d;
        assert t.OnLoop? ==> t.dev != d;
      }
    }
  }

  /** Closing the mapping leaves its loop unused, if the image is exclusive. */
  lemma ClosedLoopIsFree(k: Kernel, n: Mapper)
    requires Sound(k) && Exclusive(k) && n in k.crypt
    ensures !InUse(k.(crypt := k.crypt - {n}), k.crypt[n])
  {
    var k1, d := k.(crypt := k.crypt - {n}), k.crypt[n];
    var f := k.loops[d].file;
    assert Holds(k, OnMapper(n), f);
    SameMounted(k, k1, OnLoop(d));
    assert !Holds(k, OnLoop(d), f);
    forall m | m in k1.crypt ensures k1.crypt[m] != d {
      assert Holds(k, OnMapper(m), k.loops[k.crypt[m]].file);
    }
  }

  lemma CloseLoops(s: Subject, k: Kernel, v: View)
    requires Sound(k) && Exclusive(k) && Sees(s, k, v) && !Mounted(k, Own(s))
    ensures forall d :: d in CloseOwn(s, v).loops <==> On(Closed(k, FbCrypt(s.volume)), d, s.image)
    ensures forall d :: d in k.loops && v.mapped != Some(d) ==> d in Closed(k, FbCrypt(s.volume)).loops
    ensures forall d :: d in Closed(k, FbCrypt(s.volume)).loops ==>
              d in k.loops && Closed(k, FbCrypt(s.volume)).loops[d] == k.loops[d]
  {
    var n := FbCrypt(s.volume);
    if n in k.crypt {
      ClosedLoopIsFree(k, n);
      assert v.user == Some(Own(s)) <==> On(k, k.crypt[n], s.image) by {
        assert Holds(k, Own(s), s.image) <==> On(k, k.crypt[n], s.image);
      }
    }
  }

  lemma CloseSeen(s: Subject, k: Kernel, v: View)
    requires Sound(k) && Exclusive(k) && Sees(s, k, v) && !Mounted(k, Own(s))
    ensures Sees(s, Closed(k, FbCrypt(s.volume)), CloseOwn(s, v))
  {
    CloseLoops(s, k, v);
    CloseUsers(s, k, v);
    MountedSomewhere(k, s.stage, Own(s));
    var k', v' := Closed(k, FbCrypt(s.volume)), CloseOwn(s, v);
    assert MountedOff(k', Own(s), s.stage) <==> MountedOff(k, Own(s), s.stage);
    if v.user.Some? {
      assert MountedOff(k', v.user.value, s.stage) <==> MountedOff(k, v.user.value, s.stage);
    }
  }

  lemma CloseUsers(s: Subject, k: Kernel, v: View)
    requires Sound(k) && Exclusive(k) && Sees(s, k, v) && !Mounted(k, Own(s))
    ensures var k', v' := Closed(k, FbCrypt(s.volume)), CloseOwn(s, v);
            && (v'.user == None ==> Unheld(k', s.image))
            && (v'.user.Some? ==> Holds(k', v'.user.value, s.image) && v'.user == v.user && v'.busy == v.busy &&
                                  v'.busy == LoopUnder(k', v'.user.value) && v.mapped != v.busy)
            && (v'.user == None ==> v'.busy == None && !v'.dying && !v'.spread && !v'.hidden)
  {
    var k', v' := Closed(k, FbCrypt(s.volume)), CloseOwn(s, v);
    forall t ensures Holds(k', t, s.image) <==> Holds(k, t, s.image) && t != Own(s) {
      CloseHolds(k, FbCrypt(s.volume), t, s.image);
    }
    if v.user.Some? && v.user.value != Own(s) {
      assert !Holds(k, Own(s), s.image);
    }
  }

  lemma MountedOffMore(k: Kernel, m: Mount, path: string, t: Source)
    ensures MountedOff(k.(mounts := k.mounts + [m]), t, path) <==>
            MountedOff(k, t, path) || (m.source == t && m.target != path)
  {
    var k' := k.(mounts := k.mounts + [m]);
    assert k'.mounts[|k.mounts|] == m;
    if t !in k.away && MountedOff(k, t, path) {
      var i :| 0 <= i < |k.mounts| && k.mounts[i].source == t && k.mounts[i].target != path;
      assert k'.mounts[i] == k.mounts[i];
    }
  }

  /** Mounting the device that alone uses the image on the staging path: always a safe mount. */
  lemma MountSeen(s: Subject, k: Kernel, v: View, src: Source)
    requires Sound(k) && Exclusive(k) && Sees(s, k, v) && SoleUser(s, v, src)
    ensures Mountable(k, src)
    ensures Sees(s, MountedAt(k, src, s.stage), MountOn(v, src))
  {
    var k' := MountedAt(k, src, s.stage);
    var m := Mount(s.stage, src);
    MountedOnly(k, src, s.stage);
    StackAfterMount(k.mounts, m, s.stage);
    MountedOffMore(k, m, s.stage, src);
    MountedOffMore(k, m, s.stage, Own(s));
    forall t ensures Holds(k', t, s.image) <==> t == src {
      if Holds(k', t, s.image) && t != src {
        assert Holds(k, t, s.image);
      }
    }
    if src.OnLoop? {
      BusyIsInUse(s, k, v, src.dev);
      if v.user == None {
        MountedSomewhere(k, s.stage, src);
      }
    }
  }

  // --- letting go ---------------------------------------------------------

  /** A pop at the path leaves mounts off the path alone, and off another path can only lose some. */
  lemma MountedOffAfterPop(k: Kernel, path: string, at: string, t: Source)
    ensures var k' := k.(mounts := PopAt(k.mounts, path));
            && (MountedOff(k', t, at) ==> MountedOff(k, t, at))
            && (path == at && MountedOff(k, t, at) ==> MountedOff(k', t, at))
  {
    var k' := k.(mounts := PopAt(k.mounts, path));
    if t !in k.away && MountedOff(k', t, at) {
      var i :| 0 <= i < |k'.mounts| && k'.mounts[i].source == t && k'.mounts[i].target != at;
      PopAddsNone(k.mounts, path, k'.mounts[i]);
      var j :| 0 <= j < |k.mounts| && k.mounts[j] == k'.mounts[i];
    }
    if t !in k.away && path == at && MountedOff(k, t, at) {
      var i :| 0 <= i < |k.mounts| && k.mounts[i].source == t && k.mounts[i].target != at;
      PopKeeps(k.mounts, path, k.mounts[i]);
      var j :| 0 <= j < |k'.mounts| && k'.mounts[j] == k.mounts[i];
    }
  }

  /**
   A kernel that only let go of things: mounts, mappings other than the volume's,
   autoclear loops nobody uses any more. New mounts show only what was mounted.
   */
  ghost predicate LetsGo(s: Subject, k: Kernel, k': Kernel) {
    && (forall d :: d in k'.loops ==> d in k.loops && k'.loops[d] == k.loops[d])
    && (forall d :: d in k.loops && !k.loops[d].autoclear ==> d in k'.loops)
    && UsersGo(k, k')
    && (forall n :: n in k'.crypt ==> n in k.crypt && k'.crypt[n] == k.crypt[n])
    && LoopUnder(k', Own(s)) == LoopUnder(k, Own(s))
    && StackAt(k'.mounts, s.stage) <= StackAt(k.mounts, s.stage)
    && k'.disks == k.disks
  }

  /** Nothing is in use or mounted that was not. */
  ghost predicate UsersGo(k: Kernel, k': Kernel) {
    && (forall t, f :: Holds(k', t, f) ==> Holds(k, t, f))
    && (forall t :: t != Elsewhere && Mounted(k', t) ==> Mounted(k, t))
  }

  /** To a lock holder, letting go is a step of the kind others may take. */
  lemma LetsGoShrinks(s: Subject, k: Kernel, k': Kernel, v: View, v': View)
    requires Sound(k) && Exclusive(k) && Sound(k') && Exclusive(k') && LetsGo(s, k, k')
    requires Sees(s, k, v) && Sees(s, k', v')
    ensures Shrinks(s, v, v') && Coherent(s, v')
  {
    SeesCoherent(s, k, v);
    SeesCoherent(s, k', v');
    MountedSomewhere(k', s.stage, Own(s));
    MountedSomewhere(k, s.stage, Own(s));
    if v'.user.Some? {
      assert Holds(k, v'.user.value, s.image);
      MountedSomewhere(k', s.stage, v'.user.value);
      MountedSomewhere(k, s.stage, v'.user.value);
    }
    LetsGoLoops(s, k, k', v, v');
  }

  lemma LetsGoLoops(s: Subject, k: Kernel, k': Kernel, v: View, v': View)
    requires Sound(k) && Exclusive(k) && Sound(k') && Exclusive(k') && LetsGo(s, k, k')
    requires Sees(s, k, v) && Sees(s, k', v') && Coherent(s, v) && Coherent(s, v')
    ensures v'.loops == v.loops ||
            (v.dying && v.busy.Some? && v'.busy == None && v'.loops == v.loops - {v.busy.value} &&
                                    OnLoop(v.busy.value) !in v'.stack && v.mapped != v.busy)
    ensures v.dying && v'.busy == None ==> v'.loops != v.loops
  {
    forall d | d in v.loops && d !in v'.loops ensures v.busy == Some(d) && v.dying && v'.busy == None {
      BusyIsInUse(s, k, v, d);
    }
    assert v'.loops <= v.loops;
    if d :| d in v.loops && d !in v'.loops {
      assert v'.loops == v.loops - {d};
      if OnLoop(d) in v'.stack {
        StackIsMounted(k', s.stage, OnLoop(d));
      }
    } else {
      assert v'.loops == v.loops;
      if v.dying && v'.busy == None {
        BusyIsInUse(s, k', v', v.busy.value);
      }
    }
  }

  lemma ReleaseHolds(k: Kernel, d: Dev, t: Source, f: string)
    ensures Holds(Release(k, d), t, f) <==> Holds(k, t, f)
  {
    SameMounted(k, Release(k, d), t);
    if Holds(k, t, f) && Release(k, d) != k {
      assert t.OnMapper? ==> k.crypt[t.name] != d;
    }
  }

  lemma UnmountHolds(k: Kernel, path: string, t: Source, f: string)
    ensures Holds(UnmountedAt(k, path), t, f) ==> Holds(k, t, f)
    ensures Mounted(UnmountedAt(k, path), t) ==> Mounted(k, t)
  {
    var k1, top := k.(mounts := PopAt(k.mounts, path)), Top(StackAt(k.mounts, path));
    MountedAfterPop(k, path);
    SameMounted(k1, UnmountedAt(k, path), t);
    assert Holds(k1, t, f) ==> Holds(k, t, f);
    if top.OnLoop? {
      ReleaseHolds(k1, top.dev, t, f);
    }
  }

  lemma UnmountUsersGo(k: Kernel, path: string)
    ensures UsersGo(k, UnmountedAt(k, path))
  {
    forall t ensures Mounted(UnmountedAt(k, path), t) ==> Mounted(k, t) {
      UnmountHolds(k, path, t, "");
    }
    forall t, f ensures Holds(UnmountedAt(k, path), t, f) ==> Holds(k, t, f) {
      UnmountHolds(k, path, t, f);
    }
  }

  /** umount(8), wherever it is, only lets go. */
  lemma UnmountLetsGo(s: Subject, k: Kernel, path: string)
    ensures LetsGo(s, k, UnmountedAt(k, path))
  {
    StackAfterPop(k.mounts, path, s.stage);
    UnmountUsersGo(k, path);
  }

  /** So does what happens out of sight, if it mounts nothing that is not mounted. */
  lemma ShiftLetsGo(s: Subject, k: Kernel, src: Source, there: bool, shown: bool)
    requires there ==> Mounted(k, src)
    ensures LetsGo(s, k, Shifted(k, src, there, shown))
  {
    var k1 := k.(away := if there then k.away + {src} else k.away - {src},
                 inHost := if shown then k.inHost + {src} else k.inHost - {src});
    var k' := Shifted(k, src, there, shown);
    forall t ensures (Mounted(k', t) ==> Mounted(k, t)) && (Mounted(k1, t) ==> Mounted(k, t)) {
      SameMounted(k1, k', t);
      assert MountedHere(k1, t) <==> MountedHere(k, t);
    }
    forall t, f ensures Holds(k', t, f) ==> Holds(k, t, f) {
      assert Holds(k1, t, f) ==> Holds(k, t, f);
      if src.OnLoop? {
        ReleaseHolds(k1, src.dev, t, f);
      }
    }
  }

  /** A publish, which takes no lock, only shows elsewhere what is mounted already. */
  lemma BindLetsGo(s: Subject, k: Kernel, path: string, target: string)
    requires Sound(k) && Exclusive(k) && target != s.stage
    ensures LetsGo(s, k, BoundAt(k, path, target))
  {
    var top := Top(StackAt(k.mounts, path));
    BoundAtSafe(k, path, target);
    MountedOnly(k, top, target);
    if StackAt(k.mounts, path) != [] {
      StackIsMounted(k, path, top);
    }
    StackAfterMount(k.mounts, Mount(target, top), s.stage);
  }

  /** The volume's own publish. */
  lemma BindSeen(s: Subject, k: Kernel, v: View, target: string)
    requires Sound(k) && Exclusive(k) && Sees(s, k, v) && target != s.stage
    ensures Sees(s, BoundAt(k, s.stage, target), Bound(s, v))
  {
    var k', top := BoundAt(k, s.stage, target), Top(StackAt(k.mounts, s.stage));
    BoundAtSafe(k, s.stage, target);
    StackAfterMount(k.mounts, Mount(target, top), s.stage);
    MountedOffMore(k, Mount(target, top), s.stage, Own(s));
    if v.user.Some? {
      MountedOffMore(k, Mount(target, top), s.stage, v.user.value);
    }
  }

  /** Another volume's mapping closed. */
  lemma CloseLetsGo(s: Subject, k: Kernel, n: Mapper)
    requires Sound(k) && !Mounted(k, OnMapper(n)) && n != FbCrypt(s.volume)
    ensures LetsGo(s, k, Closed(k, n))
  {
    var k' := Closed(k, n);
    forall t ensures Mounted(k', t) ==> Mounted(k, t) {
      SameMounted(k, k', t);
    }
    forall t, f ensures Holds(k', t, f) ==> Holds(k, t, f) {
      CloseHolds(k, n, t, f);
    }
  }

  /** After an unmount a source is mounted if it was, and was not only on top there. */
  lemma MountedAfterUnmount(k: Kernel, path: string, t: Source)
    ensures Mounted(UnmountedAt(k, path), t) <==>
            MountedOff(k, t, path) || t in StackAt(PopAt(k.mounts, path), path)
    ensures MountedOff(UnmountedAt(k, path), t, path) <==> MountedOff(k, t, path)
  {
    var k1, k' := k.(mounts := PopAt(k.mounts, path)), UnmountedAt(k, path);
    MountedOffAfterPop(k, path, path, t);
    MountedSomewhere(k1, path, t);
    SameMounted(k1, k', t);
  }

  /** The image's user survives unless the unmount took its last mount. */
  lemma UserAfterUnmount(s: Subject, k: Kernel, v: View)
    requires Sound(k) && Exclusive(k) && Sees(s, k, v) && v.user.Some?
    ensures var k', t := UnmountedAt(k, s.stage), v.user.value;
            Holds(k', t, s.image) <==> t.OnMapper? || v.spread || t in StackAt(PopAt(k.mounts, s.stage), s.stage)
  {
    var k1, k', t := k.(mounts := PopAt(k.mounts, s.stage)), UnmountedAt(k, s.stage), v.user.value;
    var top := Top(StackAt(k.mounts, s.stage));
    MountedAfterUnmount(k, s.stage, t);
    SameMounted(k1, k', t);
    if top.OnLoop? {
      ReleaseHolds(k1, top.dev, t, s.image);
    }
    assert Holds(k1, t, s.image) <==> t.OnMapper? || Mounted(k1, t);
  }

  /** The volume's own unmount pops its view. */
  lemma UnmountSeen(s: Subject, k: Kernel, v: View)
    requires Sound(k) && Exclusive(k) && Sees(s, k, v)
    ensures Sees(s, UnmountedAt(k, s.stage), Popped(v))
  {
    var k' := UnmountedAt(k, s.stage);
    UnmountedAtSafe(k, s.stage);
    UnmountLetsGo(s, k, s.stage);
    var w := SeesSome(s, k');
    LetsGoShrinks(s, k, k', v, w);
    SeesCoherent(s, k, v);
    StackAfterPop(k.mounts, s.stage, s.stage);
    MountedAfterUnmount(k, s.stage, Own(s));
    if v.user.Some? {
      MountedAfterUnmount(k, s.stage, v.user.value);
      UserAfterUnmount(s, k, v);
      assert w.user == v.user <==> Holds(k', v.user.value, s.image);
    }
    PoppedIs(s, v, w);
  }

  /** What shrinks by one mount, and loses its user exactly when that was its last one, is popped. */
  lemma PoppedIs(s: Subject, v: View, w: View)
    requires Coherent(s, v) && Coherent(s, w) && Shrinks(s, v, w)
    requires w.stack == (if v.stack == [] then [] else v.stack[..|v.stack| - 1]) && w.ownOff == v.ownOff
    requires v.user.Some? ==>
               && (w.user == v.user <==> v.user.value.OnMapper? || v.spread || v.user.value in w.stack)
               && (w.user == v.user ==> w.spread == v.spread && w.hidden == v.hidden && w.busy == v.busy)
    ensures w == Popped(v)
  {
    if v.stack != [] {
      assert v.stack == w.stack + [v.stack[|v.stack| - 1]];
    }
  }

  // --- the same commands, seen by the holder of another volume's lock -------

  /** Opening one volume's mapping over its own loop does not show in another volume's view. */
  lemma OpenUnseen(w: Subject, s: Subject, k: Kernel, v: View, d: Dev)
    requires Distinct(s, w) && Sees(s, k, v) && On(k, d, w.image) && FbCrypt(w.volume) !in k.crypt
    ensures Sees(s, Opened(k, FbCrypt(w.volume), d), v)
  {
    var k' := Opened(k, FbCrypt(w.volume), d);
    forall t ensures Holds(k', t, s.image) <==> Holds(k, t, s.image) {
      SameMounted(k, k', t);
    }
    assert LoopUnder(k', Own(s)) == LoopUnder(k, Own(s));
  }

  /** Nor does mounting it. */
  lemma MountUnseen(w: Subject, s: Subject, k: Kernel, v: View, u: View, src: Source)
    requires Distinct(s, w) && Sound(k) && Exclusive(k) && Sees(s, k, v) && Sees(w, k, u) && SoleUser(w, u, src)
    ensures Sees(s, MountedAt(k, src, w.stage), v)
  {
    var k', m := MountedAt(k, src, w.stage), Mount(w.stage, src);
    MountedOnly(k, src, w.stage);
    StackAfterMount(k.mounts, m, s.stage);
    MountedOffMore(k, m, s.stage, Own(s));
    if v.user.Some? {
      MountedOffMore(k, m, s.stage, v.user.value);
    }
    assert !Holds(k', src, s.image);
    forall t ensures Holds(k', t, s.image) <==> Holds(k, t, s.image) {
    }
  }

  /** If the loop that uses an image, off the staging path only, were mounted nowhere, the image would be free. */
  lemma ClearedSeen(s: Subject, k: Kernel, v: View)
    requires Sound(k) && Exclusive(k) && Sees(s, k, v) && v.stack == [] && v.user.Some? && v.user.value.OnLoop?
    ensures Sees(s, Cleared(k, v.user.value), Freed(v))
  {
    var t := v.user.value;
    var k' := Cleared(k, t);
    ClearedSafe(k, t);
    WithoutStack(k.mounts, t, s.stage);
    ClearedUsers(s, k, v);
    ClearedFreesLoop(s, k, v);
    MountedSomewhere(k, s.stage, Own(s));
    MountedSomewhere(k', s.stage, Own(s));
  }

  lemma ClearedUsers(s: Subject, k: Kernel, v: View)
    requires Sound(k) && Exclusive(k) && Sees(s, k, v) && v.user.Some? && v.user.value.OnLoop?
    ensures forall u :: Mounted(Cleared(k, v.user.value), u) <==> Mounted(k, u) && u != v.user.value
    ensures forall u :: !Holds(Cleared(k, v.user.value), u, s.image)
  {
    var t := v.user.value;
    var k1, k' := k.(mounts := Without(k.mounts, t), away := k.away - {t}), Cleared(k, t);
    forall u ensures Mounted(k', u) <==> Mounted(k, u) && u != t {
      ClearedMounts(k, t, u);
      SameMounted(k1, k', u);
    }
    forall u ensures !Holds(k', u, s.image) {
      ReleaseHolds(k1, t.dev, u, s.image);
      assert Holds(k1, u, s.image) ==> Holds(k, u, s.image);
    }
  }

  lemma ClearedFreesLoop(s: Subject, k: Kernel, v: View)
    requires Sound(k) && Exclusive(k) && Sees(s, k, v) && v.user.Some? && v.user.value.OnLoop?
    ensures forall d :: d in Freed(v).loops <==> On(Cleared(k, v.user.value), d, s.image)
  {
    var t := v.user.value;
    var k1 := k.(mounts := Without(k.mounts, t), away := k.away - {t});
    ClearedMounts(k, t, t);
    assert !Held(k1, t.dev) by {
      if n :| n in k.crypt && k.crypt[n] == t.dev {
        assert Holds(k, OnMapper(n), s.image);
      }
    }
  }
}
