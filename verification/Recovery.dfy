/**
 Crash recovery: what the startup reconcile does to one volume's view, and that
 after it the same stage, if nothing fails this time, always ends staged.
 */
module Recovery {
  import opened Text
  import opened Paths
  import opened Luks
  import opened Kernel
  import opened Views
  import opened Effects
  import opened Runs
  import opened Trace
  import opened HostCommands
  import opened Crypt
  import opened FailureTracker
  import opened StoreConfig
  import opened Node
  import opened Reconcile

  /** The volume's entry is what the view says: its loop is on the image, its mapping over that loop. */
  predicate Tracked(v: View, e: Option<Entry>) {
    e.Some? && e.value.loopDev.Some? && e.value.loopDev.value in v.loops &&
    (e.value.cryptDev.Some? ==> v.mapped == e.value.loopDev)
  }

  /** A mapping nobody mounted and the volume's entry does not name: reconcile closes it. */
  predicate Orphaned(s: Subject, v: View, e: Option<Entry>) {
    v.user.Some? && v.user.value.OnMapper? && !UserMounted(v) &&
    !(v.user == Some(Own(s)) && Tracked(v, e) && e.value.cryptDev.Some?)
  }

  function AfterClosing(s: Subject, v: View, e: Option<Entry>): View {
    if !Orphaned(s, v, e) then v
    else if v.user == Some(Own(s)) then CloseOwn(s, v)
    else Freed(v)
  }

  /** What reconcile leaves of the view: the tracked loop, and one in use, marked autoclear if untracked. */
  function ReconciledView(s: Subject, v: View, e: Option<Entry>): View {
    var w := AfterClosing(s, v, e);
    var tracked := if Tracked(v, e) then {e.value.loopDev.value} else {};
    w.(loops := (set d | d in w.loops && (d in tracked || w.busy == Some(d))),
       dying := w.busy.Some? && (w.dying || w.busy.value !in tracked))
  }

  /** What the driver can tell about the volume at startup: its loops by their back-files, its entry by its name. */
  ghost predicate Known(s: Subject, k: Kernel, v: View, data: Entries, root: string) {
    && Filed(s, data) && WellNamed(s)
    && (forall d :: d in v.loops ==> d in k.loops && Ours(root, RowsIn(k), d))
    && (forall d :: d in k.loops ==> (d in v.loops <==> Backs(RowsIn(k)[d], s.image)))
    && (v.mapped.Some? ==> v.mapped.value in v.loops)
  }

  /** The image lies in a store under the stores root, under a volume image's name. */
  predicate Housed(s: Subject, root: string) {
    CleanAbsolute(s.image) && HasPrefix(s.image, Clean(root) + "/") && VolumeImageName(AfterSlash(s.image))
  }

  /** The state file is in order, and its entry for the volume is about its image. */
  ghost predicate Filed(s: Subject, data: Entries) {
    forall i {:trigger Spelled(i)} :: Spelled(i) ==>
      WellFiled(data) && (s.volume in data ==> data[s.volume].image == s.image)
  }

  /** Truthful back-files under names that tell volumes apart are enough to know, if the image is there. */
  lemma KnownByName(s: Subject, k: Kernel, v: View, data: Entries, root: string)
    requires Sees(s, k, v) && Ordered(s, k) && WellNamed(s) && v.disk.Some? && Housed(s, root) && Filed(s, data)
    ensures Known(s, k, v, data, root)
  {
    assert Spelled(0);
    forall d | d in k.loops
      ensures d in v.loops <==> Backs(RowsIn(k)[d], s.image)
      ensures d in v.loops ==> Ours(root, RowsIn(k), d)
    {
      RowTells(s, k, k.loops[d]);
      if d in v.loops {
        IsOurs(s, RowsIn(k)[d], root);
      }
    }
  }

  lemma IsOurs(s: Subject, back: string, root: string)
    requires Housed(s, root) && Backs(back, s.image)
    ensures HasPrefix(Clean(back), Clean(root) + "/") || DisconnectedImage(back)
  {
    if back == s.image {
      CleanAbsoluteFixed(back);
    } else {
      TailIsDisconnectedImage(s.image, back);
    }
  }

  // --- which of the volume's things are tracked --------------------------------

  /** The entries tell their volumes by the names of their images. */
  lemma EntryOf(s: Subject, data: Entries, u: string, back: string)
    requires Filed(s, data) && WellNamed(s) && u in data && Backs(back, data[u].image) && Backs(back, s.image)
    ensures u == s.volume
  {
    assert Spelled(0);
    ImagesApart(u, s.volume);
  }

  lemma EntryNames(s: Subject, data: Entries)
    requires Filed(s, data) && s.volume in data
    ensures data[s.volume].image == s.image
    ensures data[s.volume].cryptDev.Some? ==> data[s.volume].cryptDev.value == FbCrypt(s.volume)
  {
    assert Spelled(0);
  }

  lemma EntryKept(s: Subject, k: Kernel, v: View, data: Entries, root: string)
    requires Sees(s, k, v) && Known(s, k, v, data, root)
    ensures var kept := Surviving(data, RowsIn(k), k.crypt);
            Recall(kept, s) == if Tracked(v, Recall(data, s)) then Recall(data, s) else None
  {
    if s.volume in data {
      EntryNames(s, data);
    }
  }

  /** A loop on the image is tracked by the volume's own entry or not at all. */
  lemma LoopTracked(s: Subject, k: Kernel, v: View, data: Entries, root: string, d: Dev)
    requires Sees(s, k, v) && Known(s, k, v, data, root) && d in v.loops
    ensures var kept, e := Surviving(data, RowsIn(k), k.crypt), Recall(data, s);
            TracksLoop(kept, d) <==> Tracked(v, e) && e.value.loopDev == Some(d)
  {
    var kept, e := Surviving(data, RowsIn(k), k.crypt), Recall(data, s);
    EntryKept(s, k, v, data, root);
    if TracksLoop(kept, d) {
      var u :| u in kept && kept[u].loopDev == Some(d);
      EntryOf(s, data, u, RowsIn(k)[d]);
    }
    if Tracked(v, e) && e.value.loopDev == Some(d) {
      assert s.volume in kept && kept[s.volume].loopDev == Some(d);
    }
  }

  /** A mapping over one of them likewise. */
  lemma MapperTracked(s: Subject, k: Kernel, v: View, data: Entries, root: string, n: Mapper)
    requires Sees(s, k, v) && Known(s, k, v, data, root) && n in k.crypt && k.crypt[n] in v.loops
    ensures var kept, e := Surviving(data, RowsIn(k), k.crypt), Recall(data, s);
            TracksMapper(kept, n) <==> n == FbCrypt(s.volume) && Tracked(v, e) && e.value.cryptDev.Some?
  {
    var kept, e := Surviving(data, RowsIn(k), k.crypt), Recall(data, s);
    EntryKept(s, k, v, data, root);
    if TracksMapper(kept, n) {
      var u :| u in kept && kept[u].cryptDev == Some(n);
      assert kept[u].loopDev == Some(k.crypt[n]);
      EntryOf(s, data, u, RowsIn(k)[k.crypt[n]]);
      EntryNames(s, data);
    }
    if n == FbCrypt(s.volume) && Tracked(v, e) && e.value.cryptDev.Some? {
      EntryNames(s, data);
      assert s.volume in kept && kept[s.volume].cryptDev == Some(n);
    }
  }

  // --- the view after reconcile -------------------------------------------------

  /** The image's user is gone exactly when it was an orphaned mapping. */
  lemma UserSurvives(s: Subject, k: Kernel, v: View, data: Entries, root: string)
    requires Sound(k) && Sees(s, k, v) && Known(s, k, v, data, root) && v.user.Some?
    ensures Holds(Reconciled(k, data, root), v.user.value, s.image) <==> !Orphaned(s, v, Recall(data, s))
  {
    var kept, t := Surviving(data, RowsIn(k), k.crypt), v.user.value;
    HoldsAfter(k, OrphanMappers(k, kept, root), OrphanLoops(k, kept, root), t, s.image);
    MountedSomewhere(k, s.stage, t);
    if t.OnMapper? {
      MapperTracked(s, k, v, data, root, t.name);
    }
  }

  lemma NobodyNew(s: Subject, k: Kernel, v: View, data: Entries, root: string, t: Source)
    requires Sound(k) && Exclusive(k) && Sees(s, k, v) && Holds(Reconciled(k, data, root), t, s.image)
    ensures v.user == Some(t)
  {
    var kept := Surviving(data, RowsIn(k), k.crypt);
    HoldsAfter(k, OrphanMappers(k, kept, root), OrphanLoops(k, kept, root), t, s.image);
  }

  lemma UserAfter(s: Subject, k: Kernel, v: View, data: Entries, root: string, w: View)
    requires Sound(k) && Exclusive(k) && Sees(s, k, v) && Known(s, k, v, data, root)
    requires Sees(s, Reconciled(k, data, root), w)
    ensures w.user == AfterClosing(s, v, Recall(data, s)).user
  {
    if v.user.Some? {
      UserSurvives(s, k, v, data, root);
    }
    if w.user.Some? {
      NobodyNew(s, k, v, data, root, w.user.value);
    }
  }

  /** Mappings only go; what stays is over the loop it was over. */
  lemma UnderAfter(s: Subject, k: Kernel, data: Entries, root: string, t: Source)
    ensures LoopUnder(Reconciled(k, data, root), t) in {LoopUnder(k, t), None}
    ensures Holds(Reconciled(k, data, root), t, s.image) ==> LoopUnder(Reconciled(k, data, root), t) == LoopUnder(k, t)
  {
  }

  /** An untracked loop that is still there is the busy one. */
  lemma UntrackedIsBusy(s: Subject, k: Kernel, v: View, data: Entries, root: string, w: View, d: Dev)
    requires Sees(s, k, v) && Known(s, k, v, data, root)
    requires var k' := Reconciled(k, data, root); Sound(k') && Exclusive(k') && Sees(s, k', w)
    requires d in w.loops && d in v.loops
    requires var e := Recall(data, s); !(Tracked(v, e) && e.value.loopDev == Some(d))
    ensures w.busy == Some(d)
  {
    var kept, k' := Surviving(data, RowsIn(k), k.crypt), Reconciled(k, data, root);
    LoopTracked(s, k, v, data, root, d);
    assert d in OrphanLoops(k, kept, root);
    SameInUse(ClosedAll(k, OrphanMappers(k, kept, root)), k', d);
    BusyIsInUse(s, k', w, d);
  }

  /** A tracked loop keeps its record; it can only have gone if it was marked and its user was closed. */
  lemma TrackedAfter(s: Subject, k: Kernel, v: View, data: Entries, root: string, d: Dev)
    requires Sound(k) && Exclusive(k) && Sees(s, k, v) && Known(s, k, v, data, root) && d in v.loops
    requires var e := Recall(data, s); Tracked(v, e) && e.value.loopDev == Some(d)
    ensures var k' := Reconciled(k, data, root);
            && (d in k'.loops ==> k'.loops[d] == k.loops[d])
            && (d !in k'.loops ==> v.busy == Some(d) && v.dying)
  {
    var kept := Surviving(data, RowsIn(k), k.crypt);
    LoopTracked(s, k, v, data, root, d);
    TrackedLoopStays(k, kept, root, OrphanMappers(k, kept, root), OrphanLoops(k, kept, root), d);
    BusyIsInUse(s, k, v, d);
  }

  lemma SameFiles(k: Kernel, data: Entries, root: string, d: Dev)
    ensures var k' := Reconciled(k, data, root);
            d in k'.loops ==> d in k.loops && k'.loops[d].file == k.loops[d].file
  {
  }

  /** A marked loop whose user was closed is gone, and no other tracked loop is. */
  lemma TrackedStays(s: Subject, k: Kernel, v: View, data: Entries, root: string, w: View, d: Dev)
    requires Sound(k) && Exclusive(k) && Sees(s, k, v) && Known(s, k, v, data, root) && d in v.loops
    requires var e := Recall(data, s); Tracked(v, e) && e.value.loopDev == Some(d)
    requires var k' := Reconciled(k, data, root); Sound(k') && Exclusive(k') && Sees(s, k', w)
    requires w.busy == (if Orphaned(s, v, Recall(data, s)) then None else v.busy)
    ensures d in w.loops <==> !(v.dying && v.busy == Some(d) && Orphaned(s, v, Recall(data, s)))
  {
    var k' := Reconciled(k, data, root);
    TrackedAfter(s, k, v, data, root, d);
    SameFiles(k, data, root, d);
    BusyIsOn(s, k', w);
    BusyIsOn(s, k, v);
    if d in w.loops {
      BusyIsInUse(s, k', w, d);
    }
  }

  lemma LoopAfter(s: Subject, k: Kernel, v: View, data: Entries, root: string, w: View, d: Dev)
    requires Sound(k) && Exclusive(k) && Sees(s, k, v) && Known(s, k, v, data, root)
    requires var k' := Reconciled(k, data, root); Sound(k') && Exclusive(k') && Sees(s, k', w)
    requires w.busy == (if Orphaned(s, v, Recall(data, s)) then None else v.busy)
    ensures var e := Recall(data, s);
            d in w.loops <==>
              || w.busy == Some(d)
              || (d in v.loops && Tracked(v, e) && e.value.loopDev == Some(d) &&
                  !(v.dying && v.busy == Some(d) && Orphaned(s, v, e)))
  {
    var e := Recall(data, s);
    BusyIsOn(s, Reconciled(k, data, root), w);
    SameFiles(k, data, root, d);
    assert d in w.loops ==> d in v.loops;
    if d in v.loops {
      if Tracked(v, e) && e.value.loopDev == Some(d) {
        TrackedStays(s, k, v, data, root, w, d);
      } else if d in w.loops {
        UntrackedIsBusy(s, k, v, data, root, w, d);
      }
    }
  }

  /** The loops left: the busy one, and the tracked one unless it went with its user. */
  ghost predicate LeftLoops(s: Subject, v: View, e: Option<Entry>, w: View) {
    forall d :: d in w.loops <==>
      || w.busy == Some(d)
      || (d in v.loops && Tracked(v, e) && e.value.loopDev == Some(d) &&
          !(v.dying && v.busy == Some(d) && Orphaned(s, v, e)))
  }

  lemma LoopsAfter(s: Subject, k: Kernel, v: View, data: Entries, root: string, w: View)
    requires Sound(k) && Exclusive(k) && Sees(s, k, v) && Known(s, k, v, data, root)
    requires var k' := Reconciled(k, data, root); Sound(k') && Exclusive(k') && Sees(s, k', w)
    requires w.busy == (if Orphaned(s, v, Recall(data, s)) then None else v.busy)
    ensures LeftLoops(s, v, Recall(data, s), w)
  {
    forall d { LoopAfter(s, k, v, data, root, w, d); }
  }

  lemma DyingAfter(s: Subject, k: Kernel, v: View, data: Entries, root: string, w: View, d: Dev)
    requires Sound(k) && Exclusive(k) && Sees(s, k, v) && Known(s, k, v, data, root)
    requires var k' := Reconciled(k, data, root); Sound(k') && Exclusive(k') && Sees(s, k', w)
    requires w.busy == v.busy == Some(d)
    ensures var e := Recall(data, s);
            w.dying == (v.dying || !(Tracked(v, e) && e.value.loopDev == Some(d)))
  {
    var kept, e, k' := Surviving(data, RowsIn(k), k.crypt), Recall(data, s), Reconciled(k, data, root);
    BusyIsOn(s, k, v);
    BusyIsOn(s, k', w);
    if Tracked(v, e) && e.value.loopDev == Some(d) {
      TrackedAfter(s, k, v, data, root, d);
    } else {
      LoopTracked(s, k, v, data, root, d);
      assert d in OrphanLoops(k, kept, root);
    }
  }

  /** The volume's own mapping goes exactly when it was the orphaned user. */
  lemma MappedAfter(s: Subject, k: Kernel, v: View, data: Entries, root: string, w: View)
    requires Sound(k) && Exclusive(k) && Sees(s, k, v) && Known(s, k, v, data, root)
    requires var k' := Reconciled(k, data, root); Sound(k') && Exclusive(k') && Sees(s, k', w)
    requires w.user == (if Orphaned(s, v, Recall(data, s)) then None else v.user)
    ensures w.mapped == (if Orphaned(s, v, Recall(data, s)) && v.user == Some(Own(s)) then None else v.mapped)
    ensures w.busy == (if Orphaned(s, v, Recall(data, s)) then None else v.busy)
  {
    var k' := Reconciled(k, data, root);
    SeesCoherent(s, k, v);
    SeesCoherent(s, k', w);
    UnderAfter(s, k, data, root, Own(s));
    if w.user.Some? {
      UnderAfter(s, k, data, root, w.user.value);
    }
    if w.mapped.Some? {
      SameFiles(k, data, root, w.mapped.value);
    }
  }

  lemma ReconciledIs(s: Subject, v: View, e: Option<Entry>, w: View)
    requires Coherent(s, v) && Coherent(s, w)
    requires var gone := Orphaned(s, v, e);
             && w.user == (if gone then None else v.user) && w.busy == (if gone then None else v.busy)
             && w.mapped == (if gone && v.user == Some(Own(s)) then None else v.mapped)
             && w.stack == v.stack && w.disk == v.disk && w.ownOff == v.ownOff
             && (!gone ==> w.spread == v.spread && w.hidden == v.hidden)
    requires w.busy.Some? ==> w.dying == (v.dying || !(Tracked(v, e) && e.value.loopDev == w.busy))
    requires LeftLoops(s, v, e, w)
    ensures w == ReconciledView(s, v, e)
  {
    assert w.loops == ReconciledView(s, v, e).loops;
  }

  lemma SeenIsReconciled(s: Subject, k: Kernel, v: View, data: Entries, root: string, w: View)
    requires Sound(k) && Exclusive(k) && Sees(s, k, v) && Known(s, k, v, data, root)
    requires var k' := Reconciled(k, data, root); Sound(k') && Exclusive(k') && Sees(s, k', w)
    ensures w == ReconciledView(s, v, Recall(data, s))
  {
    UserAfter(s, k, v, data, root, w);
    MappedAfter(s, k, v, data, root, w);
    SeesCoherent(s, k, v);
    SeesCoherent(s, Reconciled(k, data, root), w);
    LoopsAfter(s, k, v, data, root, w);
    if w.busy.Some? {
      DyingAfter(s, k, v, data, root, w, w.busy.value);
    }
    SameSurroundings(s, k, Reconciled(k, data, root), v, w);
    ReconciledIs(s, v, Recall(data, s), w);
  }

  /** On the volume's view, reconcile does what ReconciledView says, and the entry stays if it was tracked. */
  lemma ReconcileSeen(s: Subject, k: Kernel, v: View, data: Entries, root: string)
    requires Sound(k) && Exclusive(k) && Sees(s, k, v) && Known(s, k, v, data, root)
    ensures Sees(s, Reconciled(k, data, root), ReconciledView(s, v, Recall(data, s)))
    ensures var kept := Surviving(data, RowsIn(k), k.crypt);
            Recall(kept, s) == if Tracked(v, Recall(data, s)) then Recall(data, s) else None
  {
    var w := SeesSome(s, Reconciled(k, data, root));
    ReconciledSafe(k, data, root);
    SeenIsReconciled(s, k, v, data, root, w);
    EntryKept(s, k, v, data, root);
  }

  lemma SameSurroundings(s: Subject, k: Kernel, k': Kernel, v: View, w: View)
    requires Sees(s, k, v) && Sees(s, k', w) && k'.mounts == k.mounts && k'.away == k.away
    requires k'.disks == k.disks
    ensures w.stack == v.stack && w.disk == v.disk && w.ownOff == v.ownOff
    ensures w.user == v.user ==> w.spread == v.spread && w.hidden == v.hidden
  {
  }

  // --- what a stage that was cut off leaves ------------------------------------------

  /**
   A volume that a stage may have been cut off on: nothing but what such a stage
   leaves is there, and an entry that names devices names those of the mount.
   */
  ghost predicate Recoverable(s: Subject, v: View, e: Option<Entry>, plan: Plan) {
    && Coherent(s, v) && Partial(s, v, plan.encrypted) && Usable(v.disk, plan)
    && (e.Some? && e.value.loopDev.Some? ==> Names(s, v, e.value, plan))
  }

  /** The entry names the loop and the mapping through which the volume is mounted on its staging path. */
  ghost predicate Names(s: Subject, v: View, e: Entry, plan: Plan) {
    && v.stack != [] && v.busy.Some? && e.loopDev == v.busy && e.stage == s.stage
    && e.cryptDev == (if plan.encrypted then Some(FbCrypt(s.volume)) else None)
  }

  /** Reconcile makes a recoverable volume stageable again, and drops every entry that names no devices. */
  lemma ReconcileReadies(s: Subject, v: View, e: Option<Entry>, plan: Plan)
    requires Recoverable(s, v, e, plan)
    ensures var v', e' := ReconciledView(s, v, e), if Tracked(v, e) then e else None;
            Recoverable(s, v', e', plan) && Stageable(s, v', plan) && (e'.Some? ==> e'.value.loopDev.Some?)
  {
  }

  /** However far a stage got with the contents, the same keys still do. */
  lemma StillUsable(was: Option<Disk>, now: Option<Disk>, plan: Plan)
    requires Usable(was, plan) && Touched(was, now, plan)
    ensures Usable(now, plan)
  {
  }

  // --- reconcile, one command at a time ----------------------------------------

  /** The mappings are closed by moves of their volumes. */
  lemma {:induction false} ClosingIsARun(s: Subject, k: Kernel, ns: set<Mapper>) returns (run: seq<Move>)
    requires Sound(k) && ns <= k.crypt.Keys
    ensures Run(k, run) && After(k, run) == ClosedAll(k, ns) && Careful(s, k, run)
    decreases |ns|
  {
    run := [];
    if ns == {} {
      ClosedNone(k);
    } else {
      var n :| n in ns;
      run := ClosingIsARun(s, k, ns - {n});
      CloseOneMore(k, ns - {n}, n);
      assert ns - {n} + {n} == ns;
      if !Mounted(k, OnMapper(n)) {
        var w := Subject(n.volume, s.image, s.stage);
        var u := SeesSome(w, After(k, run));
        MountedSomewhere(After(k, run), w.stage, Own(w));
        assert Issues(w, u, After(k, run), Step.Close(n.volume));
        CarefulOneMore(s, k, run, Move(w, Step.Close(n.volume)));
        run := run + [Move(w, Step.Close(n.volume))];
      }
    }
  }

  /** The loops are detached by moves too: one on the volume's image counts as its own, any other as somebody else's. */
  lemma {:induction false} DetachingIsARun(s: Subject, k: Kernel, a: seq<Move>, ds: set<Dev>) returns (run: seq<Move>)
    requires Run(k, a) && Careful(s, k, a)
    ensures Run(k, run) && After(k, run) == DetachedAll(After(k, a), ds) && Careful(s, k, run)
    decreases |ds|
  {
    run := a;
    if ds == {} {
      DetachedNone(After(k, a));
    } else {
      var d :| d in ds;
      run := DetachingIsARun(s, k, a, ds - {d});
      DetachOneMore(After(k, a), ds - {d}, d);
      assert ds - {d} + {d} == ds;
      var w := if On(After(k, run), d, s.image) then s else s.(volume := s.volume + "'");
      var u := SeesSome(w, After(k, run));
      assert Issues(w, u, After(k, run), Step.Detach(d));
      CarefulOneMore(s, k, run, Move(w, Step.Detach(d)));
      run := run + [Move(w, Step.Detach(d))];
    }
  }

  /** So a reconcile, however far it gets, is a run like any other, and what is true of runs is true across restarts. */
  lemma ReconcileIsARun(s: Subject, k: Kernel, ns: set<Mapper>, ds: set<Dev>) returns (run: seq<Move>)
    requires Sound(k) && ns <= k.crypt.Keys
    ensures Run(k, run) && After(k, run) == DetachedAll(ClosedAll(k, ns), ds) && Careful(s, k, run)
  {
    var a := ClosingIsARun(s, k, ns);
    run := DetachingIsARun(s, k, a, ds);
  }

  lemma ReconcileLessens(s: Subject, k: Kernel, ns: set<Mapper>, ds: set<Dev>)
    ensures Lessens(s, k, DetachedAll(ClosedAll(k, ns), ds))
  {
  }

  /** The record goes on through a reconcile, however far it gets. */
  lemma LinkReconcile(s: Subject, p: Past, k: Kernel, v: View, ns: set<Mapper>, ds: set<Dev>, v': View)
    returns (run: seq<Move>)
    requires Linked(s, p, k, v) && WellNamed(s) && ns <= k.crypt.Keys
    requires Sees(s, DetachedAll(ClosedAll(k, ns), ds), v')
    ensures Linked(s, p.(log := p.log + run), DetachedAll(ClosedAll(k, ns), ds), v')
  {
    var k' := DetachedAll(ClosedAll(k, ns), ds);
    Unfold(s, p, k, v);
    run := ReconcileIsARun(s, k, ns, ds);
    AlwaysExclusive(k, run);
    ReconcileLessens(s, k, ns, ds);
    OrderedShrinks(s, k, k');
    FollowsRun(s, p, k, run);
    Fold(s, p.(log := p.log + run), k', v');
  }

  /** However far it gets, a recoverable volume stays recoverable, by its entry or without it. */
  lemma ReconcileKeeps(s: Subject, k: Kernel, v: View, ns: set<Mapper>, ds: set<Dev>, v': View, e: Option<Entry>,
                       plan: Plan)
    requires Sound(k) && Exclusive(k) && Sees(s, k, v) && ns <= k.crypt.Keys && Recoverable(s, v, e, plan)
    requires var k' := DetachedAll(ClosedAll(k, ns), ds); Sound(k') && Exclusive(k') && Sees(s, k', v')
    ensures Recoverable(s, v', e, plan) && Recoverable(s, v', None, plan)
  {
    var k' := DetachedAll(ClosedAll(k, ns), ds);
    SeesCoherent(s, k', v');
    SameSurroundings(s, k, k', v, v');
    if v'.user.Some? {
      HoldsAfter(k, ns, ds, v'.user.value, s.image);
    }
    if v.user.Some? {
      HoldsAfter(k, ns, ds, v.user.value, s.image);
      MountedSomewhere(k, s.stage, v.user.value);
    }
  }

  // --- crash and recovery ---------------------------------------------------------

  /** The entry names devices, if there is one. */
  predicate Devised(e: Option<Entry>) {
    e.Some? ==> e.value.loopDev.Some?
  }

  /** Of the volume's entry the state in memory lacks at most one that names no devices. */
  predicate Behind(memory: Option<Entry>, file: Option<Entry>) {
    memory == file || (memory == None && file.Some? && file.value.loopDev == None)
  }

  /** Staging the volume can be tried again, by what is in memory and by what is in the file. */
  ghost predicate Standing(s: Subject, v: View, memory: Entries, file: Entries, plan: Plan) {
    && Recoverable(s, v, Recall(memory, s), plan) && Recoverable(s, v, Recall(file, s), plan)
    && Filed(s, memory) && Filed(s, file) && Behind(Recall(memory, s), Recall(file, s))
  }

  /** And if nothing failed, it will succeed. */
  ghost predicate Ready(s: Subject, v: View, memory: Entries, file: Entries, plan: Plan) {
    Standing(s, v, memory, file, plan) && memory == file && Stageable(s, v, plan) && Devised(Recall(file, s))
  }

  /** What a reconcile that got somewhere leaves of the volume's entry. */
  lemma EntriesStand(s: Subject, k: Kernel, v: View, root: string, was: Entries, data: Entries, file: Entries,
                     v': View, plan: Plan)
    requires Sees(s, k, v) && Ordered(s, k) && WellNamed(s) && Housed(s, root) && Filed(s, was)
    requires Recoverable(s, v, Recall(was, s), plan)
    requires data == Surviving(was, RowsIn(k), k.crypt) && Between(data, file, was)
    requires Recoverable(s, v', Recall(was, s), plan) && Recoverable(s, v', None, plan)
    ensures Standing(s, v', data, file, plan)
  {
    EntryByName(s, k, v, root, was, plan);
    FiledBetween(s, data, file, was);
  }

  lemma EntryByName(s: Subject, k: Kernel, v: View, root: string, was: Entries, plan: Plan)
    requires Sees(s, k, v) && Ordered(s, k) && WellNamed(s) && Housed(s, root) && Filed(s, was)
    requires Recoverable(s, v, Recall(was, s), plan)
    ensures var e, kept := Recall(was, s), Recall(Surviving(was, RowsIn(k), k.crypt), s);
            kept == e || (kept == None && e.Some? && e.value.loopDev == None)
  {
    KnownByName(s, k, v, was, root);
    EntryKept(s, k, v, was, root);
  }

  lemma FiledBetween(s: Subject, data: Entries, file: Entries, was: Entries)
    requires Filed(s, was) && Between(data, file, was)
    ensures Filed(s, data) && Filed(s, file)
    ensures Recall(file, s) in {Recall(data, s), Recall(was, s)} &&
            (Recall(data, s).Some? ==> Recall(file, s) == Recall(data, s))
  {
    assert Spelled(0);
  }

  /** All that a reconcile, failing or cut off anywhere, means for the record and for the volume. */
  lemma ReconcileMeans(s: Subject, p: Past, k: Kernel, v: View, root: string, was: Entries, data: Entries,
                       file: Entries,
                       ns: set<Mapper>, ds: set<Dev>, v': View, plan: Plan) returns (run: seq<Move>)
    requires Linked(s, p, k, v) && WellNamed(s) && Housed(s, root) && Filed(s, was)
    requires Recoverable(s, v, Recall(was, s), plan)
    requires data == Surviving(was, RowsIn(k), k.crypt) && Between(data, file, was) && ns <= k.crypt.Keys
    requires Sees(s, DetachedAll(ClosedAll(k, ns), ds), v')
    ensures Linked(s, p.(log := p.log + run), DetachedAll(ClosedAll(k, ns), ds), v') && Coherent(s, v')
    ensures Standing(s, v', data, file, plan)
  {
    run := LinkReconcile(s, p, k, v, ns, ds, v');
    Unfold(s, p, k, v);
    Unfold(s, p.(log := p.log + run), DetachedAll(ClosedAll(k, ns), ds), v');
    ReconcileKeeps(s, k, v, ns, ds, v', Recall(was, s), plan);
    EntriesStand(s, k, v, root, was, data, file, v', plan);
  }

  /** And what a complete one means. */
  lemma CompleteMeans(s: Subject, p: Past, k: Kernel, v: View, root: string, was: Entries, v': View, plan: Plan)
    requires Linked(s, p, k, v) && WellNamed(s) && Housed(s, root) && Filed(s, was)
    requires Recoverable(s, v, Recall(was, s), plan) && Sees(s, Reconciled(k, was, root), v')
    ensures v' == ReconciledView(s, v, Recall(was, s)) && Stageable(s, v', plan)
    ensures Devised(Recall(Surviving(was, RowsIn(k), k.crypt), s))
  {
    Unfold(s, p, k, v);
    KnownByName(s, k, v, was, root);
    ReconcileSeen(s, k, v, was, root);
    ReconciledSafe(k, was, root);
    SeesOne(s, Reconciled(k, was, root), v', ReconciledView(s, v, Recall(was, s)));
    ReconcileReadies(s, v, Recall(was, s), plan);
  }

  lemma SoundForReconcile(s: Subject, p: Past, k: Kernel, v: View)
    requires Linked(s, p, k, v)
    ensures Sound(k) && Exclusive(k)
  {
    Unfold(s, p, k, v);
  }

  /**
   The reconcile of module Reconcile, as the volume's holder meets it at startup. It
   may fail or be cut off anywhere: what it did goes on record, and the volume stands.
   If nothing fails, it does exactly what ReconciledView says, and the volume is ready.
   */
  method ReconcileHost(host: Host, root: string, ghost plan: Plan) returns (data: Entries)
    requires host.Valid() && Recoverable(host.subject, host.v, Recall(host.stateFile, host.subject), plan)
    requires Housed(host.subject, root) && Filed(host.subject, host.stateFile)
    modifies host`k, host`v, host`log, host`stateFile
    ensures host.Valid() && Standing(host.subject, host.v, data, host.stateFile, plan)
    ensures !host.faulty ==>
              && host.k == Reconciled(old(host.k), old(host.stateFile), root)
              && host.v == ReconciledView(host.subject, old(host.v), Recall(old(host.stateFile), host.subject))
              && data == host.stateFile == Surviving(old(host.stateFile), RowsIn(old(host.k)), old(host.k).crypt)
              && Ready(host.subject, host.v, data, host.stateFile, plan)
  {
    host.Tie();
    SoundForReconcile(host.subject, host.ThePast(), host.k, host.v);
    var reconciler := new Reconciler(root, host.k, host.stateFile, host.faulty);
    ghost var ns, ds;
    var ok;
    ok, ns, ds := reconciler.Reconcile();
    data := reconciler.data;
    if ok {
      Install(host, root, reconciler.k, data, reconciler.file, ns, ds, plan);
    }
  }

  /** What the reconcile did, put on record. */
  method Install(host: Host, root: string, after: Kernel, data: Entries, file: Entries,
                 ghost ns: set<Mapper>, ghost ds: set<Dev>, ghost plan: Plan)
    requires host.Valid() && Recoverable(host.subject, host.v, Recall(host.stateFile, host.subject), plan)
    requires Housed(host.subject, root) && Filed(host.subject, host.stateFile)
    requires data == Surviving(host.stateFile, RowsIn(host.k), host.k.crypt) && Between(data, file, host.stateFile)
    requires ns <= host.k.crypt.Keys && after == DetachedAll(ClosedAll(host.k, ns), ds)
    modifies host`k, host`v, host`log, host`stateFile
    ensures host.Valid() && host.k == after && host.stateFile == file
    ensures Standing(host.subject, host.v, data, file, plan)
    ensures after == Reconciled(old(host.k), old(host.stateFile), root) ==>
              && host.v == ReconciledView(host.subject, old(host.v), Recall(old(host.stateFile), host.subject))
              && Stageable(host.subject, host.v, plan) && Devised(Recall(data, host.subject))
  {
    var seen := Observe(host.subject, after);
    host.Named();
    host.Tie();
    ghost var run :=
      ReconcileMeans(host.subject, host.ThePast(), host.k, host.v, root, host.stateFile, data, file, ns, ds, seen,
                     plan);
    if after == Reconciled(host.k, host.stateFile, root) {
      CompleteMeans(host.subject, host.ThePast(), host.k, host.v, root, host.stateFile, seen, plan);
    }
    host.Resume(after, seen, run);
    host.stateFile := file;
  }

  /** A new plugin process starts: memory is gone, and reconcile runs before anything else does. */
  method Restart(host: Host, root: string, ghost plan: Plan) returns (node: NodeServer)
    requires host.Valid() && Recoverable(host.subject, host.v, Recall(host.stateFile, host.subject), plan)
    requires Housed(host.subject, root) && Filed(host.subject, host.stateFile)
    modifies host`k, host`v, host`log, host`stateFile, host`alive
    ensures fresh(node) && fresh(node.state) && fresh(node.failures) && node.host == host && node.Valid()
    ensures Standing(host.subject, host.v, node.state.data, host.stateFile, plan)
    ensures !host.faulty ==> host.alive && Ready(host.subject, host.v, node.state.data, host.stateFile, plan)
    ensures node.keys == map[] && node.failures.failed == map[]
  {
    var data := ReconcileHost(host, root, plan);
    host.alive := true;
    if host.faulty {
      host.alive := *;
    }
    var state := new State(host);
    state.data := data;
    var failures := new Failures();
    node := new NodeServer(host, state, failures);
  }

  /** One stage, which may fail or be cut off anywhere: the volume stays recoverable. */
  method StageOnce(node: NodeServer, req: StageRequest, ghost plan: Plan) returns (r: Reply)
    requires node.Valid() && !node.host.noisy && PlanOf(req) == Success(plan)
    requires Standing(node.host.subject, node.host.v, node.state.data, node.host.stateFile, plan)
    modifies node`keys, node.state`data, node.failures`failed, node.host`k, node.host`v, node.host`log
    modifies node.host`alive, node.host`tick, node.host`attached, node.host`detached, node.host`strays
    modifies node.host`safe, node.host`unanswered, node.host`checked, node.host`erasures, node.host`stateFile
    ensures node.host.Ran(r.OK?) && node.host.safe == old(node.host.safe)
    ensures node.host.stateFile == old(node.host.stateFile) ||
            Forgotten(node.host.subject, old(node.state.data), node.host.stateFile, req, plan.encrypted)
    ensures Recoverable(node.host.subject, node.host.v, Recall(node.host.stateFile, node.host.subject), plan)
    ensures r.OK? && old(Ready(node.host.subject, node.host.v, node.state.data, node.host.stateFile, plan)) ==>
              var e := Recall(node.host.stateFile, node.host.subject);
              node.state.data == node.host.stateFile && e.Some? && Names(node.host.subject, node.host.v, e.value, plan)
    ensures !node.host.faulty && old(node.host.alive) && req.capable &&
            old(Stageable(node.host.subject, node.host.v, plan)) ==>
              r.OK?
  {
    ghost var host := node.host;
    ghost var was := host.v.disk;
    ghost var how, seen;
    r, how, seen := node.StageLocked(req);
    StillUsable(was, host.v.disk, plan);
  }

  lemma FiledStays(s: Subject, was: Entries, now: Entries, req: StageRequest, encrypted: bool)
    requires WellNamed(s) && Filed(s, was) && Forgotten(s, was, now, req, encrypted)
    ensures Filed(s, now)
  {
    if now != was {
      var dev :| now == was[s.volume := EntryFor(s, req, dev, encrypted)];
      assert Spelled(0);
    }
  }

  /** One attempt that fails or is cut off anywhere. */
  method StageCutOff(node: NodeServer, req: StageRequest, ghost plan: Plan)
    requires node.Valid() && !node.host.noisy && PlanOf(req) == Success(plan)
    requires Standing(node.host.subject, node.host.v, node.state.data, node.host.stateFile, plan)
    modifies node`keys, node.state`data, node.failures`failed, node.host
    ensures node.host.Valid() && node.host.faulty && Filed(node.host.subject, node.host.stateFile)
    ensures Recoverable(node.host.subject, node.host.v, Recall(node.host.stateFile, node.host.subject), plan)
    ensures !node.host.noisy && node.host.safe == old(node.host.safe) && node.host.start == old(node.host.start)
  {
    node.host.faulty := true;
    ghost var was, file := node.state.data, node.host.stateFile;
    var r := StageOnce(node, req, plan);
    node.host.Named();
    if node.host.stateFile != file {
      FiledStays(node.host.subject, was, node.host.stateFile, req, plan.encrypted);
    }
  }

  /** Such an attempt, and the restart after it, whose reconcile may fail or be cut off likewise. */
  method CutOff(node: NodeServer, req: StageRequest, root: string, ghost plan: Plan) returns (next: NodeServer)
    requires node.Valid() && !node.host.noisy && PlanOf(req) == Success(plan) && Housed(node.host.subject, root)
    requires Standing(node.host.subject, node.host.v, node.state.data, node.host.stateFile, plan)
    modifies node`keys, node.state`data, node.failures`failed, node.host
    ensures fresh(next) && fresh(next.state) && fresh(next.failures) && next.host == node.host && next.Valid()
    ensures Standing(node.host.subject, node.host.v, next.state.data, node.host.stateFile, plan)
    ensures !node.host.noisy && node.host.safe == old(node.host.safe) && node.host.start == old(node.host.start)
  {
    StageCutOff(node, req, plan);
    next := Restart(node.host, root, plan);
  }

  /** At least one such attempt, and any number more. */
  method CutOffOften(node: NodeServer, req: StageRequest, root: string, attempts: nat, ghost plan: Plan)
    returns (last: NodeServer)
    requires node.Valid() && !node.host.noisy && PlanOf(req) == Success(plan) && Housed(node.host.subject, root)
    requires Standing(node.host.subject, node.host.v, node.state.data, node.host.stateFile, plan)
    modifies node`keys, node.state`data, node.failures`failed, node.host
    ensures fresh(last) && fresh(last.state) && fresh(last.failures) && last.host == node.host && last.Valid()
    ensures Standing(node.host.subject, node.host.v, last.state.data, node.host.stateFile, plan)
    ensures !node.host.noisy && node.host.safe == old(node.host.safe) && node.host.start == old(node.host.start)
  {
    last := CutOff(node, req, root, plan);
    for i := 0 to attempts
      invariant fresh(last) && fresh(last.state) && fresh(last.failures) && last.host == node.host && last.Valid()
      invariant Standing(node.host.subject, node.host.v, last.state.data, node.host.stateFile, plan)
      invariant !node.host.noisy && node.host.safe == old(node.host.safe) && node.host.start == old(node.host.start)
    {
      last := CutOff(last, req, root, plan);
    }
  }

  /** A restart and the same stage, without failures. */
  method StageAtLast(host: Host, req: StageRequest, root: string, ghost plan: Plan) returns (r: Reply, last: NodeServer)
    requires host.Valid() && !host.noisy && req.capable && PlanOf(req) == Success(plan) && Housed(host.subject, root)
    requires Recoverable(host.subject, host.v, Recall(host.stateFile, host.subject), plan)
    requires Filed(host.subject, host.stateFile)
    modifies host
    ensures r.OK? && fresh(last) && last.host == host && last.state.data == host.stateFile && host.Valid()
    ensures var e := Recall(host.stateFile, host.subject); e.Some? && Names(host.subject, host.v, e.value, plan)
    ensures Recoverable(host.subject, host.v, Recall(host.stateFile, host.subject), plan)
    ensures host.safe == old(host.safe) && host.start == old(host.start)
  {
    host.faulty := false;
    last := Restart(host, root, plan);
    r := StageOnce(last, req, plan);
  }

  /**
   Crash recovery. A volume with no entry, or with the device-less entry a
   re-stage leaves, is staged any number of times, each attempt failing or being
   cut off after any command, with a restart after each, whose reconcile fails or is
   cut off likewise. Then a restart and the same stage without failures end staged, on a
   loop that the entry names, and all of it together is a run of allowed moves.
   */
  method CrashThenRecover(node: NodeServer, req: StageRequest, root: string, attempts: nat)
    returns (r: Reply, last: NodeServer)
    requires node.Valid() && !node.host.noisy && req.capable && PlanOf(req).Success?
    requires Housed(node.host.subject, root)
    requires Standing(node.host.subject, node.host.v, node.state.data, node.host.stateFile, PlanOf(req).value)
    modifies node`keys, node.state`data, node.failures`failed, node.host
    ensures r.OK? && last.host == node.host && last.state.data == node.host.stateFile
    ensures var s, v, e := node.host.subject, node.host.v, Recall(last.state.data, node.host.subject);
            && e.Some? && Names(s, v, e.value, PlanOf(req).value)
            && v.user == Some(Target(s, e.value.loopDev.value, PlanOf(req).value.encrypted)) &&
               v.stack == [v.user.value]
    ensures node.host.Lawful() && node.host.safe == old(node.host.safe) && node.host.start == old(node.host.start)
  {
    ghost var plan := PlanOf(req).value;
    last := CutOffOften(node, req, root, attempts, plan);
    r, last := StageAtLast(node.host, req, root, plan);
    node.host.Kept();
  }
}
