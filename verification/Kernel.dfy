/**
 The node's kernel as far as the driver uses it: the loop table, the open
 dm-crypt mappings, the mount table and the image contents, with the effect of
 each command as a function. The driver owns none of this.
 */
module Kernel {
  import opened Text
  import opened Paths
  import opened Luks

  /** /dev/loopN, named by N. */
  type Dev = nat

  /** crypt.MapperName(volumeID): a SHA-256 prefix, taken as injective. */
  datatype Mapper = FbCrypt(volume: string)

  datatype Source = OnLoop(dev: Dev) | OnMapper(name: Mapper) | Elsewhere

  datatype Mount = Mount(target: string, source: Source)

  /** `file` is the file really attached; `raw` is the back-file losetup prints. */
  datatype Loop = Loop(file: string, raw: string, autoclear: bool)

  /**
   `mounts` lists this process's mounts in mount order; `away` are the sources
   mounted in other mount namespaces, out of this process's sight, and `inHost` those
   whose mounts there pid 1's mount table shows; `disks` are the image files.
   */
  datatype Kernel = Kernel(
    loops: map<Dev, Loop>,
    crypt: map<Mapper, Dev>,
    mounts: seq<Mount>,
    away: set<Source>,
    inHost: set<Source>,
    disks: map<string, Disk>)

  /** losetup's table: each loop's back-file, stripped of " (deleted)". */
  function RowsIn(k: Kernel): map<Dev, string> {
    map d | d in k.loops :: TrimDeleted(k.loops[d].raw)
  }

  // --- what is in use --------------------------------------------------

  predicate MountedHere(k: Kernel, s: Source) {
    exists i :: 0 <= i < |k.mounts| && k.mounts[i].source == s
  }

  predicate Mounted(k: Kernel, s: Source) {
    s in k.away || MountedHere(k, s)
  }

  /** sysfs lists a holder for the loop: a mapping is open over it. */
  predicate Held(k: Kernel, d: Dev) {
    exists n :: n in k.crypt && k.crypt[n] == d
  }

  predicate InUse(k: Kernel, d: Dev) {
    Mounted(k, OnLoop(d)) || Held(k, d)
  }

  predicate On(k: Kernel, d: Dev, file: string) {
    d in k.loops && k.loops[d].file == file
  }

  /**
   `s` is a live user of the image: a loop on it that is mounted directly, or a
   mapping open over a loop on it. Two of these are two filesystem instances.
   */
  predicate Holds(k: Kernel, s: Source, file: string) {
    match s
    case OnLoop(d) => On(k, d, file) && Mounted(k, s)
    case OnMapper(n) => n in k.crypt && On(k, k.crypt[n], file)
    case Elsewhere => false
  }

  ghost predicate Unheld(k: Kernel, file: string) {
    forall s :: !Holds(k, s, file)
  }

  /** The driver's central promise: no image ever has two live users. */
  ghost predicate Exclusive(k: Kernel) {
    forall s, t, f :: Holds(k, s, f) && Holds(k, t, f) ==> s == t
  }

  /** What the kernel itself guarantees about its tables. */
  ghost predicate Sound(k: Kernel) {
    && (forall n :: n in k.crypt ==> k.crypt[n] in k.loops)
    && (forall d :: Mounted(k, OnLoop(d)) ==> d in k.loops)
    && (forall n :: Mounted(k, OnMapper(n)) ==> n in k.crypt)
    && (forall d :: d in k.loops && k.loops[d].autoclear ==> InUse(k, d))
  }

  /** Exclusive, in terms of loops: at most one loop per image is in use. */
  lemma OneLoopInUse(k: Kernel, c: Dev, d: Dev)
    requires Sound(k) && Exclusive(k)
    requires c in k.loops && d in k.loops && k.loops[c].file == k.loops[d].file
    requires InUse(k, c) && InUse(k, d)
    ensures c == d
  {
    var f := k.loops[c].file;
    var s := UserOf(k, c, f);
    var t := UserOf(k, d, f);
  }

  lemma UserOf(k: Kernel, d: Dev, f: string) returns (s: Source)
    requires On(k, d, f) && InUse(k, d)
    ensures Holds(k, s, f)
    ensures s == OnLoop(d) || (s.OnMapper? && k.crypt[s.name] == d)
  {
    if Mounted(k, OnLoop(d)) {
      s := OnLoop(d);
    } else {
      var n :| n in k.crypt && k.crypt[n] == d;
      s := OnMapper(n);
    }
  }

  // --- mount stacks ----------------------------------------------------

  /** The sources mounted at `path`, bottom first. */
  function StackAt(ms: seq<Mount>, path: string): seq<Source> {
    if ms == [] then []
    else
      var m := ms[|ms| - 1];
      StackAt(ms[..|ms| - 1], path) + if m.target == path then [m.source] else []
  }

  /** umount(8): the topmost mount at `path` goes. */
  function PopAt(ms: seq<Mount>, path: string): seq<Mount> {
    if ms == [] then []
    else
      var m := ms[|ms| - 1];
      if m.target == path then ms[..|ms| - 1]
      else PopAt(ms[..|ms| - 1], path) + [m]
  }

  function Top(stack: seq<Source>): Source {
    if stack == [] then Elsewhere else stack[|stack| - 1]
  }

  lemma {:induction false} OwnStackAfterPop(ms: seq<Mount>, path: string)
    ensures StackAt(PopAt(ms, path), path) ==
            var st := StackAt(ms, path); if st == [] then st else st[..|st| - 1]
  {
    if ms != [] {
      var init, last := ms[..|ms| - 1], ms[|ms| - 1];
      OwnStackAfterPop(init, path);
      StackAfterMount(PopAt(init, path), last, path);
    }
  }

  lemma {:induction false} OtherStackAfterPop(ms: seq<Mount>, path: string, other: string)
    requires other != path
    ensures StackAt(PopAt(ms, path), other) == StackAt(ms, other)
  {
    if ms != [] {
      var init, last := ms[..|ms| - 1], ms[|ms| - 1];
      OtherStackAfterPop(init, path, other);
      StackAfterMount(PopAt(init, path), last, other);
    }
  }

  lemma StackAfterPop(ms: seq<Mount>, path: string, other: string)
    ensures StackAt(PopAt(ms, path), path) ==
            var st := StackAt(ms, path); if st == [] then st else st[..|st| - 1]
    ensures other != path ==> StackAt(PopAt(ms, path), other) == StackAt(ms, other)
  {
    OwnStackAfterPop(ms, path);
    if other != path {
      OtherStackAfterPop(ms, path, other);
    }
  }

  lemma {:induction false} StackMember(ms: seq<Mount>, path: string, s: Source)
    ensures s in StackAt(ms, path) <==> Mount(path, s) in ms
  {
    if ms != [] {
      StackMember(ms[..|ms| - 1], path, s);
      assert ms == ms[..|ms| - 1] + [ms[|ms| - 1]];
    }
  }

  /** Popping removes nothing elsewhere, and nothing but the top source. */
  lemma {:induction false} PopKeeps(ms: seq<Mount>, path: string, m: Mount)
    requires m in ms && (m.target != path || m.source != Top(StackAt(ms, path)))
    ensures m in PopAt(ms, path)
  {
    var init, last := ms[..|ms| - 1], ms[|ms| - 1];
    assert ms == init + [last];
    if m != last && last.target != path {
      assert StackAt(ms, path) == StackAt(init, path);
      PopKeeps(init, path, m);
    }
  }

  lemma {:induction false} PopAddsNone(ms: seq<Mount>, path: string, m: Mount)
    requires m in PopAt(ms, path)
    ensures m in ms
  {
    if m in ms[..|ms| - 1] || m == ms[|ms| - 1] {
      return;
    }
    PopAddsNone(ms[..|ms| - 1], path, m);
  }

  lemma StackAfterMount(ms: seq<Mount>, m: Mount, path: string)
    ensures StackAt(ms + [m], path) == StackAt(ms, path) + if m.target == path then [m.source] else []
  {
    assert (ms + [m])[..|ms|] == ms;
  }

  // --- commands --------------------------------------------------------

  /** An autoclear loop disappears once nothing uses it. */
  function Release(k: Kernel, d: Dev): Kernel {
    if d in k.loops && k.loops[d].autoclear && !InUse(k, d) then k.(loops := k.loops - {d}) else k
  }

  /** losetup --find: a free device on `file`. */
  function Attached(k: Kernel, d: Dev, file: string): Kernel {
    k.(loops := k.loops[d := Loop(file, file, false)])
  }

  /** losetup --detach: a loop in use is only marked autoclear. */
  function Detached(k: Kernel, d: Dev): Kernel {
    if d !in k.loops then k
    else if InUse(k, d) then k.(loops := k.loops[d := k.loops[d].(autoclear := true)])
    else k.(loops := k.loops - {d})
  }

  /** cryptsetup open. */
  function Opened(k: Kernel, n: Mapper, d: Dev): Kernel {
    k.(crypt := k.crypt[n := d])
  }

  /** cryptsetup close of an unmounted mapping. */
  function Closed(k: Kernel, n: Mapper): Kernel {
    if n in k.crypt then Release(k.(crypt := k.crypt - {n}), k.crypt[n]) else k
  }

  /** mount(8). */
  function MountedAt(k: Kernel, s: Source, path: string): Kernel {
    k.(mounts := k.mounts + [Mount(path, s)])
  }

  /** mount --bind: the target shows whatever is on top at `path`. */
  function BoundAt(k: Kernel, path: string, target: string): Kernel {
    MountedAt(k, Top(StackAt(k.mounts, path)), target)
  }

  /** umount(8). */
  function UnmountedAt(k: Kernel, path: string): Kernel {
    var s := Top(StackAt(k.mounts, path));
    var k' := k.(mounts := PopAt(k.mounts, path));
    if s.OnLoop? then Release(k', s.dev) else k'
  }

  /**
   What happens out of sight to a source: a mount namespace is cloned or goes, it is
   unmounted in one, pid 1's has it or has it no more.
   */
  function Shifted(k: Kernel, s: Source, there: bool, shown: bool): Kernel {
    var k' := k.(away := if there then k.away + {s} else k.away - {s},
                 inHost := if shown then k.inHost + {s} else k.inHost - {s});
    if s.OnLoop? then Release(k', s.dev) else k'
  }

  /** The mounts of any other source. */
  function Without(ms: seq<Mount>, s: Source): seq<Mount> {
    if ms == [] then []
    else
      var m := ms[|ms| - 1];
      Without(ms[..|ms| - 1], s) + if m.source == s then [] else [m]
  }

  /** The kernel as it would be if the source were mounted nowhere. */
  function Cleared(k: Kernel, s: Source): Kernel {
    var k' := k.(mounts := Without(k.mounts, s), away := k.away - {s});
    if s.OnLoop? then Release(k', s.dev) else k'
  }

  /** The kernel comes to report a loop's file another way, say when the mount it was opened through is gone. */
  function Relabeled(k: Kernel, d: Dev, raw: string): Kernel {
    if d in k.loops then k.(loops := k.loops[d := k.loops[d].(raw := raw)]) else k
  }

  function WithDisk(k: Kernel, file: string, disk: Disk): Kernel {
    k.(disks := k.disks[file := disk])
  }

  // --- every command keeps the tables sound and every image exclusive ---

  lemma ReleaseSafe(k: Kernel, d: Dev)
    requires forall n :: n in k.crypt ==> k.crypt[n] in k.loops
    requires forall e :: Mounted(k, OnLoop(e)) ==> e in k.loops
    requires forall n :: Mounted(k, OnMapper(n)) ==> n in k.crypt
    requires forall e :: e in k.loops && k.loops[e].autoclear && e != d ==> InUse(k, e)
    requires Exclusive(k)
    ensures Sound(Release(k, d)) && Exclusive(Release(k, d))
  {
    var k' := Release(k, d);
    assert forall s :: Mounted(k', s) <==> Mounted(k, s);
    assert forall s, f :: Holds(k', s, f) ==> Holds(k, s, f);
    assert forall e :: InUse(k', e) <==> InUse(k, e);
  }

  lemma AttachedSafe(k: Kernel, d: Dev, file: string)
    requires Sound(k) && Exclusive(k) && d !in k.loops
    ensures Sound(Attached(k, d, file)) && Exclusive(Attached(k, d, file))
  {
    var k' := Attached(k, d, file);
    assert forall s :: Mounted(k', s) <==> Mounted(k, s);
    assert forall s, f :: Holds(k', s, f) ==> Holds(k, s, f);
    assert forall e :: InUse(k', e) <==> InUse(k, e);
  }

  lemma DetachedSafe(k: Kernel, d: Dev)
    requires Sound(k) && Exclusive(k)
    ensures Sound(Detached(k, d)) && Exclusive(Detached(k, d))
  {
    var k' := Detached(k, d);
    assert forall s :: Mounted(k', s) <==> Mounted(k, s);
    assert forall s, f :: Holds(k', s, f) ==> Holds(k, s, f);
    assert forall e :: InUse(k', e) <==> InUse(k, e);
  }

  lemma OpenedSafe(k: Kernel, n: Mapper, d: Dev)
    requires Sound(k) && Exclusive(k) && d in k.loops && n !in k.crypt
    requires Unheld(k, k.loops[d].file)
    ensures Sound(Opened(k, n, d)) && Exclusive(Opened(k, n, d))
  {
    var k' := Opened(k, n, d);
    assert k'.crypt[n] == d;
    assert forall m :: m in k.crypt ==> m in k'.crypt && k'.crypt[m] == k.crypt[m];
    assert forall s :: Mounted(k', s) <==> Mounted(k, s);
    assert forall s, f :: Holds(k', s, f) ==> Holds(k, s, f) || (s == OnMapper(n) && f == k.loops[d].file);
    assert forall e :: InUse(k, e) ==> InUse(k', e);
  }

  lemma ClosedSafe(k: Kernel, n: Mapper)
    requires Sound(k) && Exclusive(k) && !Mounted(k, OnMapper(n))
    ensures Sound(Closed(k, n)) && Exclusive(Closed(k, n))
  {
    if n in k.crypt {
      var k' := k.(crypt := k.crypt - {n});
      assert forall s :: Mounted(k', s) <==> Mounted(k, s);
      assert forall s, f :: Holds(k', s, f) ==> Holds(k, s, f);
      forall e | e != k.crypt[n] && InUse(k, e) ensures InUse(k', e) {
        if !Mounted(k, OnLoop(e)) {
          var m :| m in k.crypt && k.crypt[m] == e;
          assert m in k'.crypt && k'.crypt[m] == e;
        }
      }
      ReleaseSafe(k', k.crypt[n]);
    }
  }

  /** A mount is safe when its source is live and the only user of its image. */
  ghost predicate Mountable(k: Kernel, s: Source) {
    match s
    case OnLoop(d) => d in k.loops && forall t :: Holds(k, t, k.loops[d].file) ==> t == s
    case OnMapper(n) => n in k.crypt
    case Elsewhere => true
  }

  lemma MountedAtSafe(k: Kernel, s: Source, path: string)
    requires Sound(k) && Exclusive(k) && Mountable(k, s)
    ensures Sound(MountedAt(k, s, path)) && Exclusive(MountedAt(k, s, path))
  {
    var k' := MountedAt(k, s, path);
    assert k'.mounts[|k.mounts|].source == s;
    assert forall t :: MountedHere(k', t) ==> MountedHere(k, t) || t == s;
    forall t | MountedHere(k, t) ensures MountedHere(k', t) {
      var i :| 0 <= i < |k.mounts| && k.mounts[i].source == t;
      assert k'.mounts[i].source == t;
    }
    assert forall t, f :: Holds(k', t, f) ==> Holds(k, t, f) || (t == s && s.OnLoop? && f == k.loops[s.dev].file);
    assert forall e :: InUse(k, e) ==> InUse(k', e);
  }

  lemma BoundAtSafe(k: Kernel, path: string, target: string)
    requires Sound(k) && Exclusive(k)
    ensures Sound(BoundAt(k, path, target)) && Exclusive(BoundAt(k, path, target))
    ensures forall s, f :: Holds(BoundAt(k, path, target), s, f) <==> Holds(k, s, f)
  {
    var s := Top(StackAt(k.mounts, path));
    var k' := BoundAt(k, path, target);
    if StackAt(k.mounts, path) != [] {
      StackMember(k.mounts, path, s);
      var i :| 0 <= i < |k.mounts| && k.mounts[i] == Mount(path, s);
      assert k.mounts[i].source == s;
      assert MountedHere(k, s);
    }
    assert Mountable(k, s) by {
      if s.OnLoop? {
        assert Holds(k, s, k.loops[s.dev].file);
      }
    }
    MountedAtSafe(k, s, target);
    MountedOnly(k, s, target);
  }

  lemma MountedOnly(k: Kernel, s: Source, path: string)
    ensures forall t :: Mounted(MountedAt(k, s, path), t) <==> Mounted(k, t) || t == s
  {
    var k' := MountedAt(k, s, path);
    assert k'.mounts[|k.mounts|].source == s;
    forall t | MountedHere(k, t) ensures MountedHere(k', t) {
      var i :| 0 <= i < |k.mounts| && k.mounts[i].source == t;
      assert k'.mounts[i].source == t;
    }
  }

  /** After a pop, only the popped source can have become unmounted. */
  lemma MountedAfterPop(k: Kernel, path: string)
    ensures var k' := k.(mounts := PopAt(k.mounts, path));
            forall s :: (Mounted(k', s) ==> Mounted(k, s)) &&
                        (Mounted(k, s) && s != Top(StackAt(k.mounts, path)) ==> Mounted(k', s))
  {
    var k' := k.(mounts := PopAt(k.mounts, path));
    forall s | MountedHere(k', s) ensures MountedHere(k, s) {
      var i :| 0 <= i < |k'.mounts| && k'.mounts[i].source == s;
      PopAddsNone(k.mounts, path, k'.mounts[i]);
    }
    forall s | MountedHere(k, s) && s != Top(StackAt(k.mounts, path)) ensures MountedHere(k', s) {
      var i :| 0 <= i < |k.mounts| && k.mounts[i].source == s;
      PopKeeps(k.mounts, path, k.mounts[i]);
    }
  }

  lemma UnmountedAtSafe(k: Kernel, path: string)
    requires Sound(k) && Exclusive(k)
    ensures Sound(UnmountedAt(k, path)) && Exclusive(UnmountedAt(k, path))
  {
    var s := Top(StackAt(k.mounts, path));
    var k' := k.(mounts := PopAt(k.mounts, path));
    MountedAfterPop(k, path);
    assert forall t, f :: Holds(k', t, f) ==> Holds(k, t, f);
    assert forall e :: InUse(k, e) && s != OnLoop(e) ==> InUse(k', e);
    if s.OnLoop? {
      ReleaseSafe(k', s.dev);
    }
  }

  lemma ShiftedSafe(k: Kernel, s: Source, there: bool, shown: bool)
    requires Sound(k) && Exclusive(k) && (there ==> Mounted(k, s))
    ensures Sound(Shifted(k, s, there, shown)) && Exclusive(Shifted(k, s, there, shown))
  {
    var k' := k.(away := if there then k.away + {s} else k.away - {s},
                 inHost := if shown then k.inHost + {s} else k.inHost - {s});
    assert forall t :: MountedHere(k', t) <==> MountedHere(k, t);
    assert forall t, f :: Holds(k', t, f) ==> Holds(k, t, f);
    assert forall e :: InUse(k, e) && s != OnLoop(e) ==> InUse(k', e);
    if s.OnLoop? {
      ReleaseSafe(k', s.dev);
    }
  }

  lemma RelabeledSafe(k: Kernel, d: Dev, raw: string)
    requires Sound(k) && Exclusive(k)
    ensures Sound(Relabeled(k, d, raw)) && Exclusive(Relabeled(k, d, raw))
  {
    var k' := Relabeled(k, d, raw);
    assert forall t :: Mounted(k', t) <==> Mounted(k, t);
    assert forall t, f :: Holds(k', t, f) <==> Holds(k, t, f);
    assert forall e :: InUse(k', e) <==> InUse(k, e);
  }

  lemma {:induction false} WithoutIs(ms: seq<Mount>, s: Source, m: Mount)
    ensures m in Without(ms, s) <==> m in ms && m.source != s
  {
    if ms != [] {
      WithoutIs(ms[..|ms| - 1], s, m);
      assert ms == ms[..|ms| - 1] + [ms[|ms| - 1]];
    }
  }

  lemma {:induction false} WithoutStack(ms: seq<Mount>, s: Source, path: string)
    requires s !in StackAt(ms, path)
    ensures StackAt(Without(ms, s), path) == StackAt(ms, path)
  {
    if ms != [] {
      var init, m := ms[..|ms| - 1], ms[|ms| - 1];
      var top := if m.target == path then [m.source] else [];
      assert StackAt(ms, path) == StackAt(init, path) + top;
      assert forall x :: x in StackAt(init, path) || x in top ==> x in StackAt(ms, path);
      WithoutStack(init, s, path);
      if m.source != s {
        StackAfterMount(Without(init, s), m, path);
      } else {
        assert Without(ms, s) == Without(init, s);
        assert m.source in [m.source];
      }
    }
  }

  /** Only that source is mounted no more. */
  lemma ClearedMounts(k: Kernel, s: Source, t: Source)
    ensures Mounted(k.(mounts := Without(k.mounts, s), away := k.away - {s}), t) <==> Mounted(k, t) && t != s
  {
    var k' := k.(mounts := Without(k.mounts, s), away := k.away - {s});
    if MountedHere(k, t) {
      var i :| 0 <= i < |k.mounts| && k.mounts[i].source == t;
      WithoutIs(k.mounts, s, k.mounts[i]);
      if t != s {
        var j :| 0 <= j < |k'.mounts| && k'.mounts[j] == k.mounts[i];
      }
    }
    if MountedHere(k', t) {
      var i :| 0 <= i < |k'.mounts| && k'.mounts[i].source == t;
      WithoutIs(k.mounts, s, k'.mounts[i]);
      var j :| 0 <= j < |k.mounts| && k.mounts[j] == k'.mounts[i];
    }
  }

  lemma ClearedSafe(k: Kernel, s: Source)
    requires Sound(k) && Exclusive(k)
    ensures Sound(Cleared(k, s)) && Exclusive(Cleared(k, s))
  {
    var k' := k.(mounts := Without(k.mounts, s), away := k.away - {s});
    forall t ensures Mounted(k', t) <==> Mounted(k, t) && t != s {
      ClearedMounts(k, s, t);
    }
    assert forall t, f :: Holds(k', t, f) ==> Holds(k, t, f);
    assert forall e :: InUse(k, e) && s != OnLoop(e) ==> InUse(k', e);
    if s.OnLoop? {
      ReleaseSafe(k', s.dev);
    }
  }
}
