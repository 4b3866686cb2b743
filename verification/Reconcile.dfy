/**
 pkg/loop/reconcile.go: at startup the state file, the loop table and the open
 dm-crypt mappings are made to agree. Nothing else runs on the node yet.
 */
module Reconcile {
  import opened Text
  import opened Paths
  import opened Luks
  import opened Kernel
  import opened Views
  import opened Effects
  import opened HostCommands

  type Rows = map<Dev, string>
  type Entries = map<string, Entry>

  /** The entry's loop is not live, does not back its image, or its mapping is not over it. */
  predicate Stale(e: Entry, rows: Rows, crypt: map<Mapper, Dev>) {
    || e.loopDev == None || e.loopDev.value !in rows || !Backs(rows[e.loopDev.value], e.image)
    || (e.cryptDev.Some? && (e.cryptDev.value !in crypt || crypt[e.cryptDev.value] != e.loopDev.value))
  }

  predicate TracksLoop(data: Entries, d: Dev) {
    exists u :: u in data && data[u].loopDev == Some(d)
  }

  predicate TracksMapper(data: Entries, n: Mapper) {
    exists u :: u in data && data[u].cryptDev == Some(n)
  }

  /** Attached to a file under the stores root, or to a volume image reported by a tail of its path. */
  predicate Ours(root: string, rows: Rows, d: Dev) {
    d in rows && (HasPrefix(Clean(rows[d]), Clean(root) + "/") || DisconnectedImage(rows[d]))
  }

  // --- what a reconcile without failures does ------------------------------

  function Surviving(data: Entries, rows: Rows, crypt: map<Mapper, Dev>): Entries {
    map u | u in data && !Stale(data[u], rows, crypt) :: data[u]
  }

  /** Mappings over loops of ours that no surviving entry names. */
  function OrphanMappers(k: Kernel, data: Entries, root: string): set<Mapper> {
    set n | n in k.crypt && !TracksMapper(data, n) && Ours(root, RowsIn(k), k.crypt[n])
  }

  function OrphanLoops(k: Kernel, data: Entries, root: string): set<Dev> {
    set d | d in k.loops && !TracksLoop(data, d) && Ours(root, RowsIn(k), d)
  }

  /** The mappings left open when a set of them is closed: the mounted ones stay. */
  function Open(k: Kernel, ns: set<Mapper>): map<Mapper, Dev> {
    map n | n in k.crypt && (n !in ns || Mounted(k, OnMapper(n))) :: k.crypt[n]
  }

  /** Closing a set of mappings, in whatever order. */
  function ClosedAll(k: Kernel, ns: set<Mapper>): Kernel {
    var k1 := k.(crypt := Open(k, ns));
    k1.(loops := map d | d in k.loops && !(k.loops[d].autoclear && !InUse(k1, d)) :: k.loops[d])
  }

  /** Detaching a set of loops, in whatever order: those in use are marked autoclear. */
  function DetachedAll(k: Kernel, ds: set<Dev>): Kernel {
    k.(loops := map d | d in k.loops && (d !in ds || InUse(k, d)) ::
                  if d in ds then k.loops[d].(autoclear := true) else k.loops[d])
  }

  function Reconciled(k: Kernel, data: Entries, root: string): Kernel {
    var kept := Surviving(data, RowsIn(k), k.crypt);
    DetachedAll(ClosedAll(k, OrphanMappers(k, kept, root)), OrphanLoops(k, kept, root))
  }

  /** The file lags behind the state in memory, but holds nothing that was not there. */
  ghost predicate Between(data: Entries, file: Entries, was: Entries) {
    && (forall u :: u in data ==> u in file && file[u] == data[u])
    && (forall u :: u in file ==> u in was && file[u] == was[u])
  }

  // --- one more mapping, one more loop ---------------------------------------

  /** Closing a mapping frees no other loop than its own. */
  lemma InUseElsewhere(k: Kernel, n: Mapper, d: Dev)
    requires n in k.crypt && k.crypt[n] != d
    ensures InUse(k.(crypt := k.crypt - {n}), d) <==> InUse(k, d)
  {
    var k' := k.(crypt := k.crypt - {n});
    SameMounted(k, k', OnLoop(d));
    if Held(k, d) {
      var m :| m in k.crypt && k.crypt[m] == d;
      assert m in k'.crypt && k'.crypt[m] == d;
    }
  }

  lemma CloseOneMore(k: Kernel, ns: set<Mapper>, n: Mapper)
    requires Sound(k) && n in k.crypt && n !in ns
    ensures var k' := ClosedAll(k, ns);
            && n in k'.crypt && (Mounted(k', OnMapper(n)) <==> Mounted(k, OnMapper(n)))
            && ClosedAll(k, ns + {n}) == (if Mounted(k, OnMapper(n)) then k' else Closed(k', n))
  {
    var k' := ClosedAll(k, ns);
    SameMounted(k, k', OnMapper(n));
    if Mounted(k, OnMapper(n)) {
      assert Open(k, ns + {n}) == Open(k, ns);
    } else {
      assert Open(k, ns + {n}) == Open(k, ns) - {n};
      CloseOneLoops(k, ns, n);
    }
  }

  lemma CloseOneLoops(k: Kernel, ns: set<Mapper>, n: Mapper)
    requires Sound(k) && n in k.crypt && n !in ns && !Mounted(k, OnMapper(n))
    ensures ClosedAll(k, ns + {n}).loops == Closed(ClosedAll(k, ns), n).loops
  {
    var k1, k2 := k.(crypt := Open(k, ns)), k.(crypt := Open(k, ns) - {n});
    assert Open(k, ns + {n}) == Open(k, ns) - {n};
    var k', d0 := ClosedAll(k, ns), k.crypt[n];
    var k3 := k'.(crypt := k'.crypt - {n});
    SameInUse(k2, k3, d0);
    forall d | d != d0 ensures InUse(k2, d) <==> InUse(k1, d) {
      InUseElsewhere(k1, n, d);
    }
  }

  lemma DetachOneMore(k: Kernel, ds: set<Dev>, d: Dev)
    requires d !in ds
    ensures Detached(DetachedAll(k, ds), d) == DetachedAll(k, ds + {d})
  {
    var k' := DetachedAll(k, ds);
    SameInUse(k, k', d);
  }

  class Reconciler {
    const root: string
    var k: Kernel
    /** The state in memory and in the file. */
    var data: Entries
    var file: Entries
    /** Commands may fail; a process that dies fails in all that follow. */
    var faulty: bool

    constructor (root: string, k: Kernel, file: Entries, faulty: bool)
      ensures this.root == root && this.k == k && data == file && this.file == file && this.faulty == faulty
    {
      this.root, this.k, data, this.file, this.faulty := root, k, file, file, faulty;
    }

    method Attempt() returns (ok: bool)
      ensures !faulty ==> ok
    {
      var fails: bool := *;
      ok := !faulty || !fails;
    }

    /** State.Delete: the map in memory changes, the file if it can be written. */
    method Delete(volume: string)
      modifies `data, `file
      ensures data == old(data) - {volume}
      ensures file == data || (faulty && file == old(file))
    {
      data := data - {volume};
      var ok := Attempt();
      if ok {
        file := data;
      }
    }

    /** Step 1: drops the stale entries. */
    method DropStale(rows: Rows, crypt: map<Mapper, Dev>)
      modifies `data, `file
      ensures data == Surviving(old(data), rows, crypt)
      ensures !faulty ==> file == data || (data == old(data) && file == old(file))
      ensures old(file) == old(data) ==> Between(data, file, old(data))
    {
      var rest := data.Keys;
      SurvivingFrom(data, rows, crypt, rest);
      while rest != {}
        invariant rest <= old(data).Keys && data == SurvivingBut(old(data), rows, crypt, rest)
        invariant !faulty ==> file == data || (data == old(data) && file == old(file))
        invariant old(file) == old(data) ==> Between(data, file, old(data))
        decreases |rest|
      {
        var u :| u in rest;
        SurvivingOneLess(old(data), rows, crypt, rest, u);
        rest := rest - {u};
        if Stale(data[u], rows, crypt) {
          Delete(u);
        }
      }
    }

    method TryClose(n: Mapper, ghost was: Kernel, ghost ns: set<Mapper>) returns (ghost ns': set<Mapper>)
      requires Sound(was) && Sound(k) && Exclusive(k) && k == ClosedAll(was, ns) && n in was.crypt && n !in ns
      modifies `k
      ensures Sound(k) && Exclusive(k) && k == ClosedAll(was, ns')
      ensures ns' == ns + {n} || (faulty && ns' == ns)
    {
      ns' := ns;
      var ok := Attempt();
      if ok {
        CloseOneMore(was, ns, n);
        ns' := ns + {n};
        if !Mounted(k, OnMapper(n)) {
          ClosedSafe(k, n);
          k := Closed(k, n);
        }
      }
    }

    /** Step 2: closes the mappings that are orphans; one that is mounted stays open. `ns` are those it could try. */
    method CloseOrphans(mappings: map<Mapper, Dev>, orphan: Mapper -> bool) returns (ghost ns: set<Mapper>)
      requires Sound(k) && Exclusive(k) && mappings == k.crypt
      modifies `k
      ensures Sound(k) && Exclusive(k) && k == ClosedAll(old(k), ns)
      ensures forall n :: n in ns ==> n in mappings && orphan(n)
      ensures !faulty ==> forall n :: n in mappings && orphan(n) ==> n in ns
    {
      ns := {};
      var rest := mappings.Keys;
      ClosedNone(k);
      while rest != {}
        invariant rest <= mappings.Keys && ns !! rest
        invariant forall n :: n in ns ==> n in mappings && orphan(n)
        invariant !faulty ==> forall n :: n in mappings && orphan(n) ==> n in ns || n in rest
        invariant Sound(k) && Exclusive(k) && k == ClosedAll(old(k), ns)
        decreases |rest|
      {
        var n :| n in rest;
        rest := rest - {n};
        if orphan(n) {
          ns := TryClose(n, old(k), ns);
        }
      }
    }

    /** Step 3: detaches the loops that are orphans; one in use is marked autoclear. */
    method DetachOrphans(rows: Rows, orphan: Dev -> bool) returns (ghost ds: set<Dev>)
      requires Sound(k) && Exclusive(k)
      modifies `k
      ensures Sound(k) && Exclusive(k) && k == DetachedAll(old(k), ds)
      ensures forall d :: d in ds ==> d in rows && orphan(d)
      ensures !faulty ==> forall d :: d in rows && orphan(d) ==> d in ds
    {
      ds := {};
      var rest := rows.Keys;
      DetachedNone(k);
      while rest != {}
        invariant rest <= rows.Keys && ds !! rest
        invariant forall d :: d in ds ==> d in rows && orphan(d)
        invariant !faulty ==> forall d :: d in rows && orphan(d) ==> d in ds || d in rest
        invariant Sound(k) && Exclusive(k) && k == DetachedAll(old(k), ds)
        decreases |rest|
      {
        var d :| d in rest;
        rest := rest - {d};
        if orphan(d) {
          var ok := Attempt();
          if ok {
            DetachOneMore(old(k), ds, d);
            ds := ds + {d};
            DetachedSafe(k, d);
            k := Detached(k, d);
          }
        }
      }
    }

    /**
     Reconcile. Whatever fails, only stale entries are dropped, and only orphan
     mappings closed, before only orphan loops are detached; when nothing fails,
     all of them.
     */
    method Reconcile() returns (ok: bool, ghost ns: set<Mapper>, ghost ds: set<Dev>)
      requires Sound(k) && Exclusive(k)
      modifies `k, `data, `file
      ensures Sound(k) && Exclusive(k) && (!faulty ==> ok)
      ensures !ok ==> k == old(k) && data == old(data) && file == old(file)
      ensures ok ==>
                && data == Surviving(old(data), RowsIn(old(k)), old(k).crypt)
                && ns <= OrphanMappers(old(k), data, root) && ds <= OrphanLoops(old(k), data, root)
                && k == DetachedAll(ClosedAll(old(k), ns), ds)
      ensures old(file) == old(data) ==> Between(data, file, old(data))
      ensures !faulty ==> k == Reconciled(old(k), old(data), root) && (old(file) == old(data) ==> file == data)
    {
      ns, ds := {}, {};
      ok := Attempt();
      if !ok {
        return;
      }
      var rows := RowsIn(k);
      ok := Attempt();
      if !ok {
        return;
      }
      var mappings := k.crypt;
      DropStale(rows, mappings);
      var kept, root := data, root;
      ns := CloseOrphans(mappings, n => n in mappings && !TracksMapper(kept, n) && Ours(root, rows, mappings[n]));
      ds := DetachOrphans(rows, (d: Dev) => !TracksLoop(kept, d) && Ours(root, rows, d));
      assert !faulty ==> ns == OrphanMappers(old(k), kept, root) && ds == OrphanLoops(old(k), kept, root);
    }
  }

  lemma ClosedNone(k: Kernel)
    requires Sound(k)
    ensures ClosedAll(k, {}) == k
  {
    assert Open(k, {}) == k.crypt;
    assert k.(crypt := Open(k, {})) == k;
    assert ClosedAll(k, {}).loops == k.loops;
  }

  lemma DetachedNone(k: Kernel)
    ensures DetachedAll(k, {}) == k
  {
    assert DetachedAll(k, {}).loops == k.loops;
  }

  /** The entries that survive, and those yet to be looked at. */
  function SurvivingBut(data: Entries, rows: Rows, crypt: map<Mapper, Dev>, rest: set<string>): Entries {
    map u | u in data && (u in rest || !Stale(data[u], rows, crypt)) :: data[u]
  }

  lemma SurvivingFrom(data: Entries, rows: Rows, crypt: map<Mapper, Dev>, rest: set<string>)
    requires rest == data.Keys
    ensures SurvivingBut(data, rows, crypt, rest) == data
    ensures SurvivingBut(data, rows, crypt, {}) == Surviving(data, rows, crypt)
  {
  }

  lemma SurvivingOneLess(data: Entries, rows: Rows, crypt: map<Mapper, Dev>, rest: set<string>, u: string)
    requires u in rest && rest <= data.Keys
    ensures var now := SurvivingBut(data, rows, crypt, rest);
            && u in now && now[u] == data[u]
            && SurvivingBut(data, rows, crypt, rest - {u}) == if Stale(data[u], rows, crypt) then now - {u} else now
  {
  }

  // --- what that means ----------------------------------------------------------

  /** The mappings still open over a loop when those in `ns` are closed, unless mounted. */
  lemma HeldAfter(k: Kernel, ns: set<Mapper>, d: Dev)
    ensures var k1 := k.(crypt := Open(k, ns));
            Held(k1, d) <==> exists n :: n in k.crypt && k.crypt[n] == d && (n !in ns || Mounted(k, OnMapper(n)))
  {
    var k1 := k.(crypt := Open(k, ns));
    if n :| n in k.crypt && k.crypt[n] == d && (n !in ns || Mounted(k, OnMapper(n))) {
      assert n in k1.crypt && k1.crypt[n] == d;
    }
  }

  /** A loop whose mappings all stay is there as before, unless it is detached itself. */
  lemma LoopStays(k: Kernel, ns: set<Mapper>, ds: set<Dev>, d: Dev)
    requires Sound(k) && d in k.loops && d !in ds && forall n :: n in ns ==> n in k.crypt && k.crypt[n] != d
    ensures var k' := DetachedAll(ClosedAll(k, ns), ds);
            d in k'.loops && k'.loops[d] == k.loops[d]
  {
    var k1 := k.(crypt := Open(k, ns));
    if InUse(k, d) && !Mounted(k, OnLoop(d)) {
      var n :| n in k.crypt && k.crypt[n] == d;
      assert n in k1.crypt && k1.crypt[n] == d;
    }
    SameMounted(k, k1, OnLoop(d));
  }

  /** Foreign loops and mappings, and tracked mappings, are left exactly as they were. */
  lemma ForeignUntouched(k: Kernel, data: Entries, root: string, ns: set<Mapper>, ds: set<Dev>)
    requires Sound(k) && ns <= OrphanMappers(k, data, root) && ds <= OrphanLoops(k, data, root)
    ensures var k' := DetachedAll(ClosedAll(k, ns), ds);
            && k'.mounts == k.mounts && k'.away == k.away && k'.disks == k.disks
            && (forall d :: d in k.loops && !Ours(root, RowsIn(k), d) ==> d in k'.loops && k'.loops[d] == k.loops[d])
            && (forall n :: n in k.crypt && (TracksMapper(data, n) || !Ours(root, RowsIn(k), k.crypt[n])) ==>
                  n in k'.crypt && k'.crypt[n] == k.crypt[n])
            && (forall d :: d in k'.loops ==>
                d in k.loops && k'.loops[d].file == k.loops[d].file && k'.loops[d].raw == k.loops[d].raw)
            && (forall n :: n in k'.crypt ==> n in k.crypt && k'.crypt[n] == k.crypt[n])
  {
    forall d | d in k.loops && !Ours(root, RowsIn(k), d)
      ensures var k' := DetachedAll(ClosedAll(k, ns), ds); d in k'.loops && k'.loops[d] == k.loops[d]
    {
      LoopStays(k, ns, ds, d);
    }
  }

  /**
   A tracked loop is never detached or marked. It is gone afterwards exactly when
   it was marked already and only mappings that reconcile closes were using it.
   */
  lemma TrackedLoopStays(k: Kernel, data: Entries, root: string, ns: set<Mapper>, ds: set<Dev>, d: Dev)
    requires Sound(k) && ns <= OrphanMappers(k, data, root) && ds <= OrphanLoops(k, data, root)
    requires d in k.loops && TracksLoop(data, d)
    ensures var k' := DetachedAll(ClosedAll(k, ns), ds);
            && (d in k'.loops <==>
                  || !k.loops[d].autoclear || Mounted(k, OnLoop(d))
                  || exists n :: n in k.crypt && k.crypt[n] == d && (n !in ns || Mounted(k, OnMapper(n))))
            && (d in k'.loops ==> k'.loops[d] == k.loops[d])
  {
    var k1 := k.(crypt := Open(k, ns));
    HeldAfter(k, ns, d);
    SameMounted(k, k1, OnLoop(d));
  }

  /** When nothing fails, every untracked loop of ours is gone, or in use and marked autoclear. */
  lemma OrphansGone(k: Kernel, data: Entries, root: string, d: Dev)
    requires Sound(k)
    requires var kept := Surviving(data, RowsIn(k), k.crypt); d in OrphanLoops(k, kept, root)
    ensures var k' := Reconciled(k, data, root);
            d in k'.loops ==> k'.loops[d].autoclear && InUse(k', d)
  {
    var kept := Surviving(data, RowsIn(k), k.crypt);
    var k1 := ClosedAll(k, OrphanMappers(k, kept, root));
    SameInUse(k1, Reconciled(k, data, root), d);
  }

  /** Every entry is filed under its volume and names that volume's image and mapping. */
  predicate WellFiled(data: Entries) {
    forall u :: u in data ==>
      && data[u].volume == u && Base(data[u].image) == u + ".img"
      && (data[u].cryptDev.Some? ==> data[u].cryptDev.value == FbCrypt(u))
  }

  /** No two surviving entries share a loop. */
  lemma NoSharedLoop(data: Entries, rows: Rows, crypt: map<Mapper, Dev>, u: string, w: string)
    requires WellFiled(data)
    requires var kept := Surviving(data, rows, crypt); u in kept && w in kept && kept[u].loopDev == kept[w].loopDev
    ensures u == w
  {
    var back := rows[data[u].loopDev.value];
    assert Base(back) == u + ".img" == w + ".img";
    assert u == (u + ".img")[..|u + ".img"| - 4] == w;
  }

  lemma ReconciledSound(k: Kernel, ns: set<Mapper>, ds: set<Dev>)
    requires Sound(k)
    ensures Sound(ClosedAll(k, ns)) && Sound(DetachedAll(ClosedAll(k, ns), ds))
  {
    var k1, kc, k' := k.(crypt := Open(k, ns)), ClosedAll(k, ns), DetachedAll(ClosedAll(k, ns), ds);
    forall t
      ensures (Mounted(k1, t) <==> Mounted(k, t)) && (Mounted(kc, t) <==> Mounted(k, t))
      ensures Mounted(k', t) <==> Mounted(k, t)
    {
      SameMounted(k, k1, t);
      SameMounted(k, kc, t);
      SameMounted(k, k', t);
    }
    forall d ensures (InUse(kc, d) <==> InUse(k1, d)) && (InUse(k', d) <==> InUse(k1, d)) {
      SameInUse(k1, kc, d);
      SameInUse(kc, k', d);
    }
    forall n | n in k1.crypt ensures k1.crypt[n] in kc.loops && k1.crypt[n] in k'.loops {
      assert Held(k1, k1.crypt[n]);
    }
  }

  /** The loop is not about to vanish: if marked autoclear, it is mounted or under a mapping that stays open. */
  ghost predicate Lasts(k: Kernel, kept: Entries, root: string, d: Dev) {
    || d !in k.loops || !k.loops[d].autoclear || Mounted(k, OnLoop(d))
    || exists n :: n in k.crypt && k.crypt[n] == d && (n !in OrphanMappers(k, kept, root) || Mounted(k, OnMapper(n)))
  }

  ghost predicate Lasting(k: Kernel, kept: Entries, root: string) {
    forall u :: u in kept && kept[u].loopDev.Some? ==> Lasts(k, kept, root, kept[u].loopDev.value)
  }

  /** A survivor's loop still backs its image afterwards, and its mapping is open over it, exactly when it lasts. */
  lemma SurvivorsHold(k: Kernel, data: Entries, root: string, u: string)
    requires Sound(k)
    requires u in Surviving(data, RowsIn(k), k.crypt)
    ensures var kept, k' := Surviving(data, RowsIn(k), k.crypt), Reconciled(k, data, root);
            !Stale(kept[u], RowsIn(k'), k'.crypt) <==> Lasts(k, kept, root, kept[u].loopDev.value)
  {
    var kept := Surviving(data, RowsIn(k), k.crypt);
    var ns, ds := OrphanMappers(k, kept, root), OrphanLoops(k, kept, root);
    var k', d := Reconciled(k, data, root), kept[u].loopDev.value;
    assert TracksLoop(kept, d);
    TrackedLoopStays(k, kept, root, ns, ds, d);
    if kept[u].cryptDev.Some? {
      assert TracksMapper(kept, kept[u].cryptDev.value);
    }
  }

  lemma SurvivingAll(data: Entries, rows: Rows, crypt: map<Mapper, Dev>)
    ensures Surviving(data, rows, crypt) == data <==> forall u :: u in data ==> !Stale(data[u], rows, crypt)
  {
    assert forall u :: u in Surviving(data, rows, crypt) <==> u in data && !Stale(data[u], rows, crypt);
  }

  /** A second run drops no entry exactly when every survivor lasts. */
  lemma SecondRunKeepsEntries(k: Kernel, data: Entries, root: string)
    requires Sound(k)
    ensures var kept, k' := Surviving(data, RowsIn(k), k.crypt), Reconciled(k, data, root);
            Surviving(kept, RowsIn(k'), k'.crypt) == kept <==> Lasting(k, kept, root)
  {
    var kept, k' := Surviving(data, RowsIn(k), k.crypt), Reconciled(k, data, root);
    SurvivingAll(kept, RowsIn(k'), k'.crypt);
    forall u | u in kept
      ensures !Stale(kept[u], RowsIn(k'), k'.crypt) <==> Lasts(k, kept, root, kept[u].loopDev.value)
    {
      SurvivorsHold(k, data, root, u);
    }
  }

  /** And then it changes nothing at all. */
  lemma ReconcileTwice(k: Kernel, data: Entries, root: string)
    requires Sound(k)
    requires Lasting(k, Surviving(data, RowsIn(k), k.crypt), root)
    ensures var kept, k' := Surviving(data, RowsIn(k), k.crypt), Reconciled(k, data, root);
            Surviving(kept, RowsIn(k'), k'.crypt) == kept && Reconciled(k', kept, root) == k'
  {
    var kept, k' := Surviving(data, RowsIn(k), k.crypt), Reconciled(k, data, root);
    SecondRunKeepsEntries(k, data, root);
    NothingLeftToClose(k, data, root);
    NothingLeftToDetach(k, data, root);
  }

  /** Closing mappings that are all mounted changes nothing. */
  lemma CloseOnlyMounted(k: Kernel, ns: set<Mapper>)
    requires Sound(k) && forall n :: n in ns ==> Mounted(k, OnMapper(n))
    ensures ClosedAll(k, ns) == k
  {
    assert Open(k, ns) == k.crypt;
    assert k.(crypt := Open(k, ns)) == k;
    assert ClosedAll(k, ns).loops == k.loops;
  }

  /** Nor does detaching loops that are all in use and marked. */
  lemma DetachOnlyMarked(k: Kernel, ds: set<Dev>)
    requires forall d :: d in ds ==> d in k.loops && k.loops[d].autoclear && InUse(k, d)
    ensures DetachedAll(k, ds) == k
  {
    assert DetachedAll(k, ds).loops == k.loops;
  }

  /** What is ours afterwards was ours before. */
  lemma OursBefore(k: Kernel, ns: set<Mapper>, ds: set<Dev>, root: string, d: Dev)
    requires Ours(root, RowsIn(DetachedAll(ClosedAll(k, ns), ds)), d)
    ensures Ours(root, RowsIn(k), d)
  {
  }

  lemma NothingLeftToClose(k: Kernel, data: Entries, root: string)
    requires Sound(k)
    ensures var kept, k' := Surviving(data, RowsIn(k), k.crypt), Reconciled(k, data, root);
            ClosedAll(k', OrphanMappers(k', kept, root)) == k'
  {
    var kept, k' := Surviving(data, RowsIn(k), k.crypt), Reconciled(k, data, root);
    var ns, ds := OrphanMappers(k, kept, root), OrphanLoops(k, kept, root);
    ReconciledSound(k, ns, ds);
    forall n | n in OrphanMappers(k', kept, root) ensures Mounted(k', OnMapper(n)) {
      OursBefore(k, ns, ds, root, k'.crypt[n]);
      assert n in ns;
      SameMounted(k, k', OnMapper(n));
    }
    CloseOnlyMounted(k', OrphanMappers(k', kept, root));
  }

  lemma NothingLeftToDetach(k: Kernel, data: Entries, root: string)
    requires Sound(k)
    ensures var kept, k' := Surviving(data, RowsIn(k), k.crypt), Reconciled(k, data, root);
            DetachedAll(k', OrphanLoops(k', kept, root)) == k'
  {
    var kept, k' := Surviving(data, RowsIn(k), k.crypt), Reconciled(k, data, root);
    var ns, ds := OrphanMappers(k, kept, root), OrphanLoops(k, kept, root);
    forall d | d in OrphanLoops(k', kept, root) ensures d in k'.loops && k'.loops[d].autoclear && InUse(k', d) {
      OursBefore(k, ns, ds, root, d);
      assert d in ds;
      OrphansGone(k, data, root, d);
    }
    DetachOnlyMarked(k', OrphanLoops(k', kept, root));
  }

  /** One loop, marked autoclear, under the volume's mapping, which is not mounted. */
  function Marked(u: string, image: string, d: Dev): Kernel {
    Kernel(map[d := Loop(image, image, true)], map[FbCrypt(u) := d], [], {}, {}, map[])
  }

  lemma MarkedIsSafe(u: string, image: string, d: Dev)
    ensures Sound(Marked(u, image, d)) && Exclusive(Marked(u, image, d))
  {
    var k := Marked(u, image, d);
    assert k.crypt[FbCrypt(u)] == d;
  }

  /**
   Without that condition it fails: a volume's loop, marked autoclear and used only
   by the volume's own mapping, which its entry does not name, survives the first
   run in the state file but not in the kernel.
   */
  lemma SecondRunCanDropAnEntry(root: string, u: string, image: string, d: Dev)
    requires !HasSuffix(image, DELETED_SUFFIX) && Ours(root, map[d := image], d)
    ensures var k, data := Marked(u, image, d), map[u := Entry(u, Some(d), image, "", None, None, [])];
            var kept, k' := Surviving(data, RowsIn(k), k.crypt), Reconciled(k, data, root);
            Sound(k) && Exclusive(k) && u in kept && u !in Surviving(kept, RowsIn(k'), k'.crypt)
  {
    var k, data := Marked(u, image, d), map[u := Entry(u, Some(d), image, "", None, None, [])];
    MarkedIsSafe(u, image, d);
    MarkedSurvives(u, image, d);
    SurvivorsHold(k, data, root, u);
    MarkedDoesNotLast(root, u, image, d);
  }

  lemma MarkedSurvives(u: string, image: string, d: Dev)
    requires !HasSuffix(image, DELETED_SUFFIX)
    ensures var k, data := Marked(u, image, d), map[u := Entry(u, Some(d), image, "", None, None, [])];
            RowsIn(k) == map[d := image] && Surviving(data, RowsIn(k), k.crypt) == data
  {
    assert RowsIn(Marked(u, image, d)) == map[d := image];
  }

  lemma MarkedDoesNotLast(root: string, u: string, image: string, d: Dev)
    requires !HasSuffix(image, DELETED_SUFFIX) && Ours(root, map[d := image], d)
    ensures !Lasts(Marked(u, image, d), map[u := Entry(u, Some(d), image, "", None, None, [])], root, d)
  {
    MarkedSurvives(u, image, d);
    var k, data := Marked(u, image, d), map[u := Entry(u, Some(d), image, "", None, None, [])];
    assert FbCrypt(u) in OrphanMappers(k, data, root);
  }

  /** The users of an image afterwards: all but the mappings that were closed. */
  lemma HoldsAfter(k: Kernel, ns: set<Mapper>, ds: set<Dev>, t: Source, f: string)
    requires Sound(k)
    ensures Holds(DetachedAll(ClosedAll(k, ns), ds), t, f) <==>
            Holds(k, t, f) && (t.OnMapper? ==> t.name !in ns || Mounted(k, t))
  {
    var k1, kc, k' := k.(crypt := Open(k, ns)), ClosedAll(k, ns), DetachedAll(ClosedAll(k, ns), ds);
    SameMounted(k, k1, t);
    SameMounted(k, k', t);
    if t.OnLoop? || (t.OnMapper? && t.name in k1.crypt) {
      var d := if t.OnLoop? then t.dev else k1.crypt[t.name];
      assert t.OnMapper? ==> Held(k1, d);
      SameInUse(k1, kc, d);
    }
  }

  /** Reconcile keeps the tables sound and every image exclusive. */
  lemma ReconciledSafe(k: Kernel, data: Entries, root: string)
    requires Sound(k) && Exclusive(k)
    ensures Sound(Reconciled(k, data, root)) && Exclusive(Reconciled(k, data, root))
  {
    var kept := Surviving(data, RowsIn(k), k.crypt);
    var ns, ds := OrphanMappers(k, kept, root), OrphanLoops(k, kept, root);
    ReconciledSound(k, ns, ds);
    forall t, f ensures Holds(Reconciled(k, data, root), t, f) ==> Holds(k, t, f) {
      HoldsAfter(k, ns, ds, t, f);
    }
  }
}
