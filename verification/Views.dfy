/**
 One volume's view of the kernel: everything about the loops on its image, the
 mapping that bears its name, its staging path and its contents. This is what an
 operation that holds the volume's lock works on. What everybody else does
 meanwhile only ever takes something away from the view.
 */
module Views {
  import opened Text
  import opened Paths
  import opened Luks
  import opened Kernel

  /** The volume an operation holds the lock of, its image and its staging path. */
  datatype Subject = Subject(volume: string, image: string, stage: string)

  const IMAGE_EXT := ".img"

  /** The image is a file named after the volume. */
  predicate ImageNamed(s: Subject) {
    FileName(s.image) && Base(s.image) == s.volume + IMAGE_EXT
  }

  /** The same, folded away: whoever needs the names spells them out. */
  ghost predicate WellNamed(s: Subject) {
    forall i {:trigger Spelled(i)} :: Spelled(i) ==> ImageNamed(s)
  }

  /** Two volumes with everything of their own. */
  ghost predicate Distinct(s: Subject, w: Subject) {
    s.volume != w.volume && s.image != w.image && s.stage != w.stage && WellNamed(s) && WellNamed(w)
  }

  /**
   `loops` are the loops on the image. `user` is the image's live user (a loop
   mounted directly, or a mapping over one), `busy` the loop it uses and `dying`
   whether that loop is marked autoclear. `mapped` is the loop under the volume's
   own mapping. `stack` is what is mounted on the staging path, bottom first;
   `spread` says the user is mounted somewhere else too, `hidden` that it is a
   loop mounted in another mount namespace, out of sight, `ownOff` that the volume's
   mapping is mounted somewhere else. `disk` is the image's contents, if the file exists.
   */
  datatype View = View(
    loops: set<Dev>,
    user: Option<Source>,
    busy: Option<Dev>,
    dying: bool,
    mapped: Option<Dev>,
    stack: seq<Source>,
    spread: bool,
    hidden: bool,
    ownOff: bool,
    disk: Option<Disk>)

  /** The volume's own mapping. */
  function Own(s: Subject): Source {
    OnMapper(FbCrypt(s.volume))
  }

  /** The image is mounted somewhere. */
  predicate UserMounted(v: View) {
    v.user.Some? && (v.spread || v.user.value in v.stack)
  }

  predicate OwnMounted(s: Subject, v: View) {
    v.ownOff || Own(s) in v.stack
  }

  /** What is true of every view of a sound kernel in which every image is exclusive. */
  ghost predicate Coherent(s: Subject, v: View) {
    && (v.user.Some? <==> v.busy.Some?) && (v.busy.Some? ==> v.busy.value in v.loops) && (v.dying ==> v.busy.Some?)
    && v.user != Some(Elsewhere)
    && (v.user.Some? && v.user.value.OnLoop? ==> v.busy == Some(v.user.value.dev) && UserMounted(v))
    && (v.user == Some(Own(s)) <==> v.mapped.Some? && v.mapped.value in v.loops)
    && (v.user == Some(Own(s)) ==> v.busy == v.mapped && v.ownOff == v.spread)
    && (OwnMounted(s, v) ==> v.mapped.Some?)
    && (v.spread ==> v.user.Some?) && (v.hidden ==> v.spread && v.user.value.OnLoop?)
    && (forall i :: 0 <= i < |v.stack| && v.stack[i].OnLoop? && v.stack[i].dev in v.loops ==>
        v.user == Some(v.stack[i]))
  }

  /**
   A step of somebody else, seen by the holder of the lock: it attaches no loop
   to the image and adds no user, lets go of it at most, opens or closes no
   mapping of the volume, mounts nothing that was not mounted, stacks nothing on
   the staging path, and leaves the contents alone. A loop goes only if it was
   marked autoclear and is used no more: not mounted, and not under the volume's
   mapping, which nobody else closes.
   */
  ghost predicate Shrinks(s: Subject, v: View, v': View) {
    && (v'.loops == v.loops || (v.dying && v.busy.Some? && v'.busy == None && v'.loops == v.loops - {v.busy.value} &&
                                OnLoop(v.busy.value) !in v'.stack && v.mapped != v.busy))
    && (v.dying && v'.busy == None ==> v'.loops != v.loops)
    && (v'.user == v.user || v'.user == None) && (v'.busy == v.busy || v'.busy == None)
    && (v'.busy.Some? ==> v'.dying == v.dying)
    && v'.mapped == v.mapped && v'.stack <= v.stack && v'.disk == v.disk
    && (v'.spread || v'.hidden ==> UserMounted(v)) && (v'.ownOff ==> OwnMounted(s, v))
  }

  lemma ShrinksTransitive(s: Subject, a: View, b: View, c: View)
    requires Coherent(s, a) && Coherent(s, b) && Coherent(s, c)
    requires Shrinks(s, a, b) && Shrinks(s, b, c)
    ensures Shrinks(s, a, c)
  {
    assert c.stack <= b.stack <= a.stack;
    assert forall x :: x in c.stack ==> x in b.stack;
    assert forall x :: x in b.stack ==> x in a.stack;
  }

  /** What is mounted was. */
  lemma MountedShrinks(s: Subject, v: View, v': View)
    requires Coherent(s, v) && Shrinks(s, v, v') && UserMounted(v')
    ensures UserMounted(v)
  {
  }

  /**
   Nothing is mounted and at most the volume's own mapping is open: then nobody
   else can change anything about the volume.
   */
  predicate Steady(s: Subject, v: View) {
    v.stack == [] && !v.spread && !v.ownOff && !v.dying && (v.user == None || v.user == Some(Own(s)))
  }

  lemma SteadyStays(s: Subject, v: View, v': View)
    requires Steady(s, v) && Shrinks(s, v, v') && Coherent(s, v) && Coherent(s, v')
    ensures v' == v
  {
  }

  // --- commands on a view ---------------------------------------------------

  function AttachTo(v: View, d: Dev): View {
    v.(loops := v.loops + {d})
  }

  /** A loop in use is only marked autoclear. */
  function DetachFrom(v: View, d: Dev): View {
    if d !in v.loops then v
    else if v.busy == Some(d) then v.(dying := true)
    else v.(loops := v.loops - {d})
  }

  /** The volume's mapping opened over one of the image's loops. */
  function OpenOver(s: Subject, v: View, d: Dev): View {
    v.(user := Some(Own(s)), busy := Some(d), mapped := Some(d))
  }

  /** The image's user is gone; its loop goes with it if marked autoclear. */
  function Freed(v: View): View {
    v.(user := None, busy := None, dying := false, spread := false, hidden := false,
       loops := if v.dying && v.busy.Some? then v.loops - {v.busy.value} else v.loops)
  }

  /** The volume's unmounted mapping closed. */
  function CloseOwn(s: Subject, v: View): View {
    var v' := v.(mapped := None);
    if v.user == Some(Own(s)) then Freed(v') else v'
  }

  function MountOn(v: View, source: Source): View {
    v.(user := Some(source), busy := if source.OnLoop? then Some(source.dev) else v.busy, stack := v.stack + [source])
  }

  /** umount(8) of the staging path: with its last mount a loop is free again. */
  function Popped(v: View): View {
    if v.stack == [] then v
    else
      var top, rest := v.stack[|v.stack| - 1], v.stack[..|v.stack| - 1];
      var v' := v.(stack := rest);
      if top.OnLoop? && v.user == Some(top) && top !in rest && !v.spread then Freed(v') else v'
  }

  /** mount --bind of the staging path: what shows there shows elsewhere too. */
  function Bound(s: Subject, v: View): View {
    if v.stack == [] then v
    else v.(spread := v.spread || v.user == Some(Top(v.stack)), ownOff := v.ownOff || Top(v.stack) == Own(s))
  }

  /**
   `source` is a live device of the volume and nothing else uses the image: what
   a filesystem check or a mount of it needs.
   */
  predicate SoleUser(s: Subject, v: View, source: Source) {
    && (v.user == None || v.user == Some(source)) && !v.dying
    && match source
       case OnLoop(d) => d in v.loops
       case OnMapper(_) => source == Own(s) && v.user == Some(source)
       case Elsewhere => false
  }

  /** An unmount of the staging path only takes away. */
  lemma PopCoheres(s: Subject, v: View)
    requires Coherent(s, v)
    ensures Coherent(s, Popped(v)) && Shrinks(s, v, Popped(v))
  {
    if v.stack != [] {
      var top, rest := v.stack[|v.stack| - 1], v.stack[..|v.stack| - 1];
      assert v.stack == rest + [top];
    }
  }
}
