/**
 The thread between one volume's view and the whole kernel. Whoever works on a view
 keeps a record of how the kernel came to be what it is: a run of moves, its own and
 everybody else's, every one of which was allowed when it was made.
 */
module Trace {
  import opened Text
  import opened Paths
  import opened Luks
  import opened Kernel
  import opened Views
  import opened Effects
  import opened Runs

  // --- what names tell ------------------------------------------------------------

  /**
   Loops are reported truthfully and no other file bears the image's name, and the
   volume's mapping, if it is open, is over one of its image's loops.
   */
  ghost predicate Ordered(s: Subject, k: Kernel) {
    && (forall d :: d in k.loops ==> NamedWell(s, k, k.loops[d]))
    && (LoopUnder(k, Own(s)).Some? ==> On(k, LoopUnder(k, Own(s)).value, s.image))
  }

  ghost predicate NamedWell(s: Subject, k: Kernel, l: Loop) {
    forall i {:trigger Spelled(i)} :: Spelled(i) ==>
      FileName(l.file) && Reports(k, l.file, l.raw) && (Base(l.file) == Base(s.image) ==> l.file == s.image)
  }

  lemma NamedStays(s: Subject, k: Kernel, k': Kernel, l: Loop, l': Loop)
    requires NamedWell(s, k, l) && k'.disks.Keys == k.disks.Keys && l'.file == l.file && l'.raw == l.raw
    ensures NamedWell(s, k', l')
  {
    assert Spelled(0);
  }

  /** The loops are the same ones at most, and nobody opened the volume's mapping. */
  ghost predicate Lessens(s: Subject, k: Kernel, k': Kernel) {
    && k'.disks.Keys == k.disks.Keys
    && (forall d :: d in k'.loops ==>
        d in k.loops && k'.loops[d].file == k.loops[d].file && k'.loops[d].raw == k.loops[d].raw)
    && (LoopUnder(k', Own(s)) == None || LoopUnder(k', Own(s)) == LoopUnder(k, Own(s)))
  }

  lemma OrderedShrinks(s: Subject, k: Kernel, k': Kernel)
    requires Ordered(s, k) && Sound(k') && Lessens(s, k, k')
    ensures Ordered(s, k')
  {
    forall d | d in k'.loops ensures NamedWell(s, k', k'.loops[d]) {
      NamedStays(s, k, k', k.loops[d], k'.loops[d]);
    }
  }

  lemma NewLoopNamed(s: Subject, w: Subject, k: Kernel)
    requires WellNamed(s) && WellNamed(w) && (w == s || Distinct(s, w))
    ensures NamedWell(s, k, Loop(w.image, w.image, false))
  {
    assert Spelled(0);
    ImageIsNotDeleted(w.image, w.volume);
    if w != s && Base(w.image) == Base(s.image) {
      ImagesApart(w.volume, s.volume);
    }
  }

  lemma OrderedAttach(s: Subject, w: Subject, k: Kernel, d: Dev)
    requires Sound(k) && Ordered(s, k) && d !in k.loops && WellNamed(s) && WellNamed(w) && (w == s || Distinct(s, w))
    ensures Ordered(s, Attached(k, d, w.image))
  {
    var k' := Attached(k, d, w.image);
    forall e | e in k'.loops ensures NamedWell(s, k', k'.loops[e]) {
      if e == d {
        NewLoopNamed(s, w, k');
      } else {
        NamedStays(s, k, k', k.loops[e], k'.loops[e]);
      }
    }
  }

  lemma StepLessens(s: Subject, w: Subject, u: View, k: Kernel, step: Step)
    requires Issues(w, u, k, step) && !step.Attach? && !step.Report? && (step.Open? ==> w.volume != s.volume)
    ensures Lessens(s, k, Next(k, step))
  {
  }

  lemma OrderedReport(s: Subject, k: Kernel, d: Dev, raw: string)
    requires Ordered(s, k) && (d in k.loops ==> Tells(k, k.loops[d].file, raw))
    ensures Ordered(s, Relabeled(k, d, raw))
  {
    var k' := Relabeled(k, d, raw);
    if d !in k.loops {
      return;
    }
    assert LoopUnder(k', Own(s)) == LoopUnder(k, Own(s));
    assert k'.loops.Keys == k.loops.Keys;
    forall e | e in k'.loops ensures NamedWell(s, k', k'.loops[e]) {
      if e != d {
        NamedStays(s, k, k', k.loops[e], k'.loops[e]);
      } else {
        NamedAnew(s, k, k', k.loops[e], raw);
      }
    }
  }

  lemma NamedAnew(s: Subject, k: Kernel, k': Kernel, l: Loop, raw: string)
    requires NamedWell(s, k, l) && k'.disks == k.disks && Tells(k, l.file, raw)
    ensures NamedWell(s, k', l.(raw := raw))
  {
    assert Spelled(0);
  }

  /** Nobody's move upsets this. */
  lemma OrderedStep(s: Subject, w: Subject, u: View, k: Kernel, step: Step)
    requires Sound(k) && Exclusive(k) && Ordered(s, k) && WellNamed(s) && Issues(w, u, k, step)
    requires w == s || Avoids(s, k, Move(w, step))
    ensures Ordered(s, Next(k, step))
  {
    match step
    case Attach(d, _) => OrderedAttach(s, w, k, d);
    case Report(d, raw) => OrderedReport(s, k, d, raw);
    case Open(_, d) =>
      if w == s {
        OrderedOpen(s, u, k, d);
      } else {
        OrderedLess(s, w, u, k, step);
      }
    case _ => OrderedLess(s, w, u, k, step);
  }

  lemma OrderedLess(s: Subject, w: Subject, u: View, k: Kernel, step: Step)
    requires Sound(k) && Exclusive(k) && Ordered(s, k) && Issues(w, u, k, step)
    requires !step.Attach? && !step.Report? && (step.Open? ==> w.volume != s.volume)
    ensures Ordered(s, Next(k, step))
  {
    StepLessens(s, w, u, k, step);
    StepSafe(w, u, k, step);
    OrderedShrinks(s, k, Next(k, step));
  }

  lemma OrderedOpen(s: Subject, u: View, k: Kernel, d: Dev)
    requires Ordered(s, k) && Sees(s, k, u) && d in u.loops
    ensures Ordered(s, Opened(k, FbCrypt(s.volume), d))
  {
    var k' := Opened(k, FbCrypt(s.volume), d);
    forall e | e in k'.loops ensures NamedWell(s, k', k'.loops[e]) {
      NamedStays(s, k, k', k.loops[e], k'.loops[e]);
    }
  }

  /**
   What may happen to the volume while nobody holds its lock for the observer: moves
   that leave it alone, and careful ones of its own operations.
   */
  ghost predicate OpenTo(s: Subject, k: Kernel, run: seq<Move>) {
    run == [] ||
    var before, last := run[..|run| - 1], run[|run| - 1];
    OpenTo(s, k, before) && ((last.actor == s && Spares(s, After(k, before), last)) ||
                             Avoids(s, After(k, before), last))
  }

  lemma {:induction false} LeftToIsOpenTo(s: Subject, k: Kernel, run: seq<Move>)
    requires LeftTo(s, k, run)
    ensures OpenTo(s, k, run)
  {
    if run != [] {
      LeftToIsOpenTo(s, k, run[..|run| - 1]);
    }
  }

  lemma {:induction false} OrderedRun(s: Subject, k: Kernel, run: seq<Move>)
    requires Sound(k) && Exclusive(k) && Ordered(s, k) && WellNamed(s) && Run(k, run) && OpenTo(s, k, run)
    ensures Ordered(s, After(k, run))
  {
    if run != [] {
      var before, last := run[..|run| - 1], run[|run| - 1];
      OrderedRun(s, k, before);
      AlwaysExclusive(k, before);
      var u :| Issues(last.actor, u, After(k, before), last.step);
      OrderedStep(s, last.actor, u, After(k, before), last.step);
    }
  }

  // --- the record ----------------------------------------------------------------

  /**
   How the kernel came to be what it is: from `start` by the moves of `log`. `safe`
   says that nothing in it is make-believe. `strays` are loops of others that the
   volume's own moves detached.
   */
  datatype Past = Past(start: Kernel, log: seq<Move>, safe: bool, strays: set<Dev>)

  /** The volume's own detaches hit its own loops, or none. */
  ghost predicate Careful(s: Subject, k: Kernel, run: seq<Move>) {
    run == [] || (Careful(s, k, run[..|run| - 1]) && Spares(s, After(k, run[..|run| - 1]), run[|run| - 1]))
  }

  ghost predicate Spares(s: Subject, k: Kernel, m: Move) {
    m.actor == s && m.step.Detach? ==> On(k, m.step.dev, s.image) || m.step.dev !in k.loops
  }

  /** The record is right, and the kernel is what it leads to. */
  ghost predicate Follows(s: Subject, p: Past, k: Kernel) {
    p.safe ==>
      && Sound(p.start) && Exclusive(p.start) && Run(p.start, p.log) && k == After(p.start, p.log)
      && (p.strays == {} ==> Careful(s, p.start, p.log))
  }

  /** Everything that ties a view to the kernel. */
  ghost predicate Tied(s: Subject, p: Past, k: Kernel, v: View) {
    Sound(k) && Exclusive(k) && Ordered(s, k) && Sees(s, k, v) && Follows(s, p, k)
  }

  /** The same, folded away: those who work on views pass it on without looking inside. */
  ghost predicate Linked(s: Subject, p: Past, k: Kernel, v: View) {
    forall i {:trigger Unfolded(i)} :: Unfolded(i) ==> Tied(s, p, k, v)
  }

  lemma Unfold(s: Subject, p: Past, k: Kernel, v: View)
    requires Linked(s, p, k, v)
    ensures Tied(s, p, k, v) && Coherent(s, v)
  {
    assert Unfolded(0);
    SeesCoherent(s, k, v);
  }

  lemma Fold(s: Subject, p: Past, k: Kernel, v: View)
    requires Tied(s, p, k, v)
    ensures Linked(s, p, k, v)
  {
  }

  /** One more move of the volume itself. */
  function Did(p: Past, s: Subject, v: View, k: Kernel, step: Step): Past {
    p.(log := p.log + [Move(s, step)],
       strays := if step.Detach? && step.dev in k.loops && step.dev !in v.loops then p.strays + {step.dev}
         else p.strays)
  }

  lemma FollowsOwn(s: Subject, p: Past, k: Kernel, v: View, step: Step)
    requires Follows(s, p, k) && Sees(s, k, v) && Grants(s, v, k, step)
    ensures Follows(s, Did(p, s, v, k, step), Next(k, step))
  {
    var m := Move(s, step);
    assert (p.log + [m])[..|p.log|] == p.log && (p.log + [m])[|p.log|] == m;
    assert MayMove(k, m) by {
      assert Issues(s, v, k, step);
    }
  }

  /** A command that the view grants keeps the thread, and does to the view what it says. */
  lemma LinkOwn(s: Subject, p: Past, k: Kernel, v: View, step: Step)
    requires Linked(s, p, k, v) && WellNamed(s) && Grants(s, v, k, step)
    requires !step.Shift? && (step.Unmount? ==> step.path == s.stage)
    ensures Linked(s, Did(p, s, v, k, step), Next(k, step), Looks(s, v, step)) && Coherent(s, Looks(s, v, step))
  {
    Unfold(s, p, k, v);
    StepSafe(s, v, k, step);
    OwnStep(s, v, k, step);
    OrderedStep(s, s, v, k, step);
    FollowsOwn(s, p, k, v, step);
    Fold(s, Did(p, s, v, k, step), Next(k, step), Looks(s, v, step));
    SeesCoherent(s, Next(k, step), Looks(s, v, step));
  }

  lemma RunOneMore(k: Kernel, a: seq<Move>, m: Move)
    requires Run(k, a) && MayMove(After(k, a), m)
    ensures Run(k, a + [m]) && After(k, a + [m]) == Next(After(k, a), m.step)
  {
    assert (a + [m])[..|a|] == a && (a + [m])[|a|] == m;
  }

  lemma LastMove(k: Kernel, run: seq<Move>)
    requires run != [] && Run(k, run)
    ensures var before, last := run[..|run| - 1], run[|run| - 1];
            Run(k, before) && MayMove(After(k, before), last) && After(k, run) == Next(After(k, before), last.step)
  {
  }

  lemma {:induction false} RunsJoin(k: Kernel, a: seq<Move>, b: seq<Move>)
    requires Run(k, a) && Run(After(k, a), b)
    ensures Run(k, a + b) && After(k, a + b) == After(After(k, a), b)
    decreases |b|
  {
    if b == [] {
      assert a + b == a;
    } else {
      var init, m := b[..|b| - 1], b[|b| - 1];
      assert a + b == (a + init) + [m];
      LastMove(After(k, a), b);
      RunsJoin(k, a, init);
      RunOneMore(k, a + init, m);
    }
  }

  lemma {:induction false} CarefulJoin(s: Subject, k: Kernel, a: seq<Move>, b: seq<Move>)
    requires Run(k, a) && Run(After(k, a), b) && Careful(s, k, a) && Careful(s, After(k, a), b)
    ensures Careful(s, k, a + b)
    decreases |b|
  {
    if b == [] {
      assert a + b == a;
    } else {
      var init, m := b[..|b| - 1], b[|b| - 1];
      assert a + b == (a + init) + [m];
      LastMove(After(k, a), b);
      CarefulJoin(s, k, a, init);
      RunsJoin(k, a, init);
      CarefulOneMore(s, k, a + init, m);
    }
  }

  lemma {:induction false} OpenToIsCareful(s: Subject, k: Kernel, run: seq<Move>)
    requires OpenTo(s, k, run)
    ensures Careful(s, k, run)
  {
    if run != [] {
      OpenToIsCareful(s, k, run[..|run| - 1]);
    }
  }

  /** A record goes on by a run that is careful itself. */
  lemma FollowsRun(s: Subject, p: Past, k: Kernel, run: seq<Move>)
    requires Follows(s, p, k) && Run(k, run) && Careful(s, k, run)
    ensures Follows(s, p.(log := p.log + run), After(k, run))
  {
    if p.safe {
      RunsJoin(p.start, p.log, run);
      if p.strays == {} {
        CarefulJoin(s, p.start, p.log, run);
      }
    }
  }

  /** Whatever happens to the volume while its lock is free keeps it too. */
  lemma LinkAnybody(s: Subject, p: Past, k: Kernel, v: View, run: seq<Move>, v': View)
    requires Linked(s, p, k, v) && WellNamed(s) && Run(k, run) && OpenTo(s, k, run) && Sees(s, After(k, run), v')
    ensures Linked(s, p.(log := p.log + run), After(k, run), v') && Coherent(s, v')
  {
    Unfold(s, p, k, v);
    AlwaysExclusive(k, run);
    OrderedRun(s, k, run);
    OpenToIsCareful(s, k, run);
    FollowsRun(s, p, k, run);
    Fold(s, p.(log := p.log + run), After(k, run), v');
    SeesCoherent(s, After(k, run), v');
  }

  /** What the others do while it is held shrinks the view at most. */
  lemma LinkOthers(s: Subject, p: Past, k: Kernel, v: View, run: seq<Move>, v': View)
    requires Linked(s, p, k, v) && WellNamed(s) && Run(k, run) && LeftTo(s, k, run) && Sees(s, After(k, run), v')
    ensures Linked(s, p.(log := p.log + run), After(k, run), v') && Coherent(s, v') && Shrinks(s, v, v')
  {
    LeftToIsOpenTo(s, k, run);
    LinkAnybody(s, p, k, v, run, v');
    Unfold(s, p, k, v);
    MeanwhileShrinks(s, v, v', k, run);
  }

  /**
   Make-believe: the volume's holder takes the image to be free although a loop on it
   is mounted out of sight. From here on the kernel is the one it believes in.
   */
  lemma LinkOverlook(s: Subject, p: Past, k: Kernel, v: View)
    requires Linked(s, p, k, v) && v.stack == [] && v.user.Some? && v.user.value.OnLoop?
    ensures Linked(s, p.(safe := false), Cleared(k, v.user.value), Freed(v)) && Coherent(s, Freed(v))
  {
    Unfold(s, p, k, v);
    var t := v.user.value;
    ClearedSafe(k, t);
    ClearedSeen(s, k, v);
    assert Lessens(s, k, Cleared(k, t));
    OrderedShrinks(s, k, Cleared(k, t));
    Fold(s, p.(safe := false), Cleared(k, t), Freed(v));
    SeesCoherent(s, Cleared(k, t), Freed(v));
  }

  /** Who uses a loop on the image. */
  lemma LinkUse(s: Subject, p: Past, k: Kernel, v: View, d: Dev)
    requires Linked(s, p, k, v)
    ensures d in v.loops ==>
              && (Mounted(k, OnLoop(d)) <==> v.user == Some(OnLoop(d)))
              && (v.user == Some(OnLoop(d)) ==> (v.hidden <==> OnLoop(d) in k.away))
              && (Held(k, d) <==> v.busy == Some(d) && v.user != Some(OnLoop(d)))
  {
    Unfold(s, p, k, v);
    if d in v.loops {
      BusyIsInUse(s, k, v, d);
      assert Mounted(k, OnLoop(d)) <==> Holds(k, OnLoop(d), s.image);
      if n :| n in k.crypt && k.crypt[n] == d {
        assert Holds(k, OnMapper(n), s.image);
      }
    }
  }

  /** Only a mount shows in this namespace what did not show before. */
  lemma MountedBefore(k: Kernel, step: Step, src: Source)
    requires src.OnLoop? && MountedHere(Next(k, step), src)
    ensures MountedHere(k, src) || step == MountAt(src, step.path)
  {
    var ms := Next(k, step).mounts;
    var i :| 0 <= i < |ms| && ms[i].source == src;
    match step
    case Unmount(path) => PopAddsNone(k.mounts, path, ms[i]);
    case Bind(path, _) => StackMember(k.mounts, path, src);
    case _ =>
  }

  /** Others mount no loop that is on the image, and put none on it. */
  lemma StepMountsNoneAnew(s: Subject, k: Kernel, m: Move, d: Dev)
    requires Sound(k) && Exclusive(k) && MayMove(k, m) && Avoids(s, k, m)
    requires On(Next(k, m.step), d, s.image) && MountedHere(Next(k, m.step), OnLoop(d))
    ensures On(k, d, s.image) && MountedHere(k, OnLoop(d))
  {
    var u :| Issues(m.actor, u, k, m.step);
    var v := SeesSome(s, k);
    var v' := SeesSome(s, Next(k, m.step));
    OthersShrink(s, v, v', m.actor, u, k, m.step);
    MountedBefore(k, m.step, OnLoop(d));
  }

  lemma {:induction false} MountsNoneAnew(s: Subject, k: Kernel, run: seq<Move>, d: Dev)
    requires Sound(k) && Exclusive(k) && Run(k, run) && LeftTo(s, k, run)
    requires On(After(k, run), d, s.image) && MountedHere(After(k, run), OnLoop(d))
    ensures MountedHere(k, OnLoop(d))
  {
    if run != [] {
      var before, last := run[..|run| - 1], run[|run| - 1];
      AlwaysExclusive(k, before);
      StepMountsNoneAnew(s, After(k, before), last, d);
      MountsNoneAnew(s, k, before, d);
    }
  }

  /** From `k` to `k'` no loop of the view came to be mounted in this namespace. */
  ghost predicate NoneAnew(k: Kernel, k': Kernel, v': View) {
    forall d {:trigger MountedHere(k', OnLoop(d))} :: d in v'.loops && MountedHere(k', OnLoop(d)) ==>
      MountedHere(k, OnLoop(d))
  }

  lemma NoneAnewTransitive(k: Kernel, k': Kernel, k'': Kernel, v': View, v'': View)
    requires NoneAnew(k, k', v') && NoneAnew(k', k'', v'') && v''.loops <= v'.loops
    ensures NoneAnew(k, k'', v'')
  {
  }

  lemma LinkNoneAnew(s: Subject, p: Past, k: Kernel, v: View, run: seq<Move>, v': View)
    requires Linked(s, p, k, v) && Run(k, run) && LeftTo(s, k, run) && Sees(s, After(k, run), v')
    ensures NoneAnew(k, After(k, run), v')
  {
    Unfold(s, p, k, v);
    forall d | d in v'.loops && MountedHere(After(k, run), OnLoop(d)) ensures MountedHere(k, OnLoop(d)) {
      MountsNoneAnew(s, k, run, d);
    }
  }

  /** What losetup lists: the image's loops by its name unless it was deleted, everybody else's by another. */
  ghost predicate RowsTell(s: Subject, v: View, rows: map<Dev, string>) {
    && (forall d :: d in v.loops ==>
          d in rows && (Backs(rows[d], s.image) || (v.disk == None && SillyRenamed(rows[d]))))
    && (forall d :: d in rows && d !in v.loops ==> Base(rows[d]) != Base(s.image))
  }

  lemma LinkTells(s: Subject, p: Past, k: Kernel, v: View)
    requires Linked(s, p, k, v) && WellNamed(s)
    ensures RowsTell(s, v, RowsIn(k))
  {
    Unfold(s, p, k, v);
    forall d | d in k.loops
      ensures var back := RowsIn(k)[d];
              if d in v.loops then Backs(back, s.image) || (v.disk == None && SillyRenamed(back))
                else Base(back) != Base(s.image)
    {
      RowTells(s, k, k.loops[d]);
    }
  }

  lemma RowTells(s: Subject, k: Kernel, l: Loop)
    requires WellNamed(s) && NamedWell(s, k, l)
    ensures var back := TrimDeleted(l.raw);
            if l.file == s.image then Backs(back, s.image) || (s.image !in k.disks && SillyRenamed(back))
            else Base(back) != Base(s.image)
  {
    var back := TrimDeleted(l.raw);
    assert Spelled(0);
    if ReportedAs(l.file, back) {
      BacksIsIdentity(l.file, back, s.image);
    } else {
      SillyIsNoImage(back, s.volume);
    }
  }

  lemma CarefulOneMore(s: Subject, k: Kernel, a: seq<Move>, m: Move)
    requires Run(k, a) && Careful(s, k, a) && MayMove(After(k, a), m) && Spares(s, After(k, a), m)
    ensures Run(k, a + [m]) && Careful(s, k, a + [m]) && After(k, a + [m]) == Next(After(k, a), m.step)
  {
    assert (a + [m])[..|a|] == a && (a + [m])[|a|] == m;
  }

  // --- what a careful operation is to the others ------------------------------------

  /** A careful move of one volume's operation is one that the holder of another's lock reckons with. */
  lemma CarefulAvoids(w: Subject, k: Kernel, m: Move)
    requires Distinct(w, m.actor) && Spares(m.actor, k, m) && (m.step.Bind? ==> m.step.target != w.stage)
    ensures Avoids(w, k, m)
  {
  }

  /** Every operation's detaches hit its own loops, or none. */
  ghost predicate AllCareful(k: Kernel, run: seq<Move>) {
    run == [] ||
    (AllCareful(k, run[..|run| - 1]) && Spares(run[|run| - 1].actor, After(k, run[..|run| - 1]), run[|run| - 1]))
  }

  /** That is so if each of those who moved was careful. */
  lemma {:induction false} AllCarefulIfEach(k: Kernel, run: seq<Move>)
    requires forall i :: 0 <= i < |run| ==> Careful(run[i].actor, k, run)
    ensures AllCareful(k, run)
  {
    if run != [] {
      var before, last := run[..|run| - 1], run[|run| - 1];
      forall i | 0 <= i < |before| ensures Careful(before[i].actor, k, before) {
        assert Careful(run[i].actor, k, run);
      }
      AllCarefulIfEach(k, before);
      assert Careful(run[|run| - 1].actor, k, run);
    }
  }

  /** So what careful operations on other volumes do leaves the volume to the holder of its lock. */
  lemma {:induction false} CarefulIsLeftTo(w: Subject, k: Kernel, run: seq<Move>)
    requires AllCareful(k, run)
    requires forall i :: 0 <= i < |run| ==>
               Distinct(w, run[i].actor) && (run[i].step.Bind? ==> run[i].step.target != w.stage)
    ensures LeftTo(w, k, run)
  {
    if run != [] {
      var before, last := run[..|run| - 1], run[|run| - 1];
      CarefulIsLeftTo(w, k, before);
      CarefulAvoids(w, After(k, before), last);
    }
  }

  // --- a listed loop, by the time it is detached ------------------------------------

  /** The image's busy loop goes with its user: it is marked autoclear, and not under the volume's own mapping. */
  predicate Fleeting(v: View) {
    v.dying && v.mapped != v.busy
  }

  /** The loop that may go, and its number be recycled, while nobody but others moves. */
  function Loose(v: View): set<Dev> {
    if Fleeting(v) && v.busy.Some? then {v.busy.value} else {}
  }

  /** Others only ever take from it. */
  lemma LooseShrinks(s: Subject, v: View, v': View)
    requires Coherent(s, v) && Coherent(s, v') && Shrinks(s, v, v')
    ensures v.loops - Loose(v) <= v'.loops && Loose(v') <= Loose(v)
  {
  }

  /** A loop on the image stays on it, unless it is the fleeting one. */
  lemma ListedStays(s: Subject, k: Kernel, v: View, d: Dev, run: seq<Move>)
    requires Sound(k) && Exclusive(k) && Sees(s, k, v) && d in v.loops && !(Fleeting(v) && v.busy == Some(d))
    requires Run(k, run) && LeftTo(s, k, run)
    ensures On(After(k, run), d, s.image)
  {
    var v' := SeesSome(s, After(k, run));
    MeanwhileShrinks(s, v, v', k, run);
  }

  /** Moves that anybody may make, and that only let go. */
  ghost predicate Eases(k: Kernel, k': Kernel) {
    && k'.crypt == k.crypt && k'.disks == k.disks
    && (forall d :: d in k'.loops ==> d in k.loops && k'.loops[d] == k.loops[d])
  }

  lemma LeftToJoin(s: Subject, k: Kernel, a: seq<Move>, m: Move)
    requires Run(k, a) && LeftTo(s, k, a) && MayMove(After(k, a), m) && Avoids(s, After(k, a), m)
    ensures Run(k, a + [m]) && LeftTo(s, k, a + [m]) && After(k, a + [m]) == Next(After(k, a), m.step)
  {
    assert (a + [m])[..|a|] == a && (a + [m])[|a|] == m;
  }

  /** Everything can be unmounted, one path after the other. */
  lemma {:induction false} UnmountAll(s: Subject, k: Kernel, a: seq<Move>) returns (run: seq<Move>)
    requires Run(k, a) && LeftTo(s, k, a)
    ensures Run(k, run) && LeftTo(s, k, run) && Eases(After(k, a), After(k, run))
    ensures After(k, run).mounts == [] && After(k, run).away == After(k, a).away
    decreases |After(k, a).mounts|
  {
    var now := After(k, a);
    if now.mounts == [] {
      run := a;
    } else {
      var m := Move(s, Unmount(now.mounts[|now.mounts| - 1].target));
      var u := SeesSome(s, now);
      assert Issues(s, u, now, m.step);
      LeftToJoin(s, k, a, m);
      run := UnmountAll(s, k, a + [m]);
    }
  }

  lemma LeaveOne(s: Subject, k: Kernel, a: seq<Move>, src: Source) returns (run: seq<Move>)
    requires Run(k, a) && LeftTo(s, k, a)
    ensures Run(k, run) && LeftTo(s, k, run) && After(k, run) == Shifted(After(k, a), src, false, false)
  {
    var m := Move(s, Shift(src, false, false));
    var u := SeesSome(s, After(k, a));
    assert Issues(s, u, After(k, a), m.step);
    LeftToJoin(s, k, a, m);
    run := a + [m];
  }

  lemma LeftEases(k: Kernel, src: Source)
    ensures var k' := Shifted(k, src, false, false); Eases(k, k') && k'.away == k.away - {src} && k'.mounts == k.mounts
  {
  }

  lemma {:induction false} LeaveAll(s: Subject, k: Kernel, a: seq<Move>) returns (run: seq<Move>)
    requires Run(k, a) && LeftTo(s, k, a)
    ensures Run(k, run) && LeftTo(s, k, run) && Eases(After(k, a), After(k, run))
    ensures After(k, run).away == {} && After(k, run).mounts == After(k, a).mounts
    decreases |After(k, a).away|
  {
    run := a;
    if After(k, a).away != {} {
      var src :| src in After(k, a).away;
      run := LeaveOne(s, k, a, src);
      LeftEases(After(k, a), src);
      run := LeaveAll(s, k, run);
    }
  }

  lemma CloseEases(k: Kernel, n: Mapper)
    requires k.mounts == [] && k.away == {}
    ensures var k' := Closed(k, n);
            && k'.mounts == [] && k'.away == {} && k'.crypt == k.crypt - {n}
            && (forall d :: d in k'.loops ==> d in k.loops && k'.loops[d] == k.loops[d])
  {
  }

  /** An unused kernel without mounts: a mapping of another volume can be closed as well. */
  lemma CloseForeign(s: Subject, x: Subject, k: Kernel, a: seq<Move>) returns (run: seq<Move>)
    requires Run(k, a) && LeftTo(s, k, a) && Distinct(s, x) && After(k, a).mounts == [] && After(k, a).away == {}
    ensures Run(k, run) && LeftTo(s, k, run) && After(k, run) == Closed(After(k, a), FbCrypt(x.volume))
  {
    var m := Move(x, Close(x.volume));
    var u := SeesSome(x, After(k, a));
    MountedSomewhere(After(k, a), x.stage, Own(x));
    assert Issues(x, u, After(k, a), m.step);
    LeftToJoin(s, k, a, m);
    run := a + [m];
  }

  /** Everything can be let go of: mounts here and in pid 1's namespace, and another volume's mapping. */
  lemma LetGoOfAll(s: Subject, x: Subject, k: Kernel, foreign: bool) returns (run: seq<Move>)
    requires Sound(k) && Exclusive(k) && (foreign ==> Distinct(s, x))
    ensures Run(k, run) && LeftTo(s, k, run)
    ensures var now := After(k, run);
            && now.mounts == [] && now.away == {}
            && now.crypt == (if foreign then k.crypt - {FbCrypt(x.volume)} else k.crypt)
            && (forall d :: d in now.loops ==> d in k.loops && now.loops[d] == k.loops[d])
  {
    run := UnmountAll(s, k, []);
    run := LeaveAll(s, k, run);
    if foreign {
      CloseEases(After(k, run), FbCrypt(x.volume));
      run := CloseForeign(s, x, k, run);
    }
  }

  /** A loop marked autoclear that nothing uses is not there. */
  lemma UnusedIsGone(k: Kernel, d: Dev)
    requires Sound(k) && k.mounts == [] && k.away == {} && forall n :: n in k.crypt ==> k.crypt[n] != d
    ensures d in k.loops ==> !k.loops[d].autoclear
  {
  }

  /** Over a loop on an image there is at most the one mapping that uses it. */
  lemma OnlyUserMaps(s: Subject, k: Kernel, v: View, n: Mapper)
    requires Exclusive(k) && Sees(s, k, v) && v.busy.Some? && v.busy.value in v.loops && n in k.crypt &&
             k.crypt[n] == v.busy.value
    ensures v.user == Some(OnMapper(n))
  {
    assert Holds(k, OnMapper(n), s.image);
  }

  /** The fleeting loop can be gone after moves of others alone. */
  lemma FleetingGoes(s: Subject, x: Subject, k: Kernel, v: View) returns (run: seq<Move>)
    requires Sound(k) && Exclusive(k) && Sees(s, k, v) && Fleeting(v)
    requires v.user.Some? && (v.user.value.OnMapper? ==> v.user == Some(Own(x)) && Distinct(s, x))
    ensures Run(k, run) && LeftTo(s, k, run) && v.busy.Some? && v.busy.value !in After(k, run).loops
  {
    SeesCoherent(s, k, v);
    run := LetGoOfAll(s, x, k, v.user.value.OnMapper?);
    var now := After(k, run);
    AlwaysExclusive(k, run);
    forall n | n in now.crypt ensures now.crypt[n] != v.busy.value {
      if k.crypt[n] == v.busy.value {
        OnlyUserMaps(s, k, v, n);
      }
    }
    UnusedIsGone(now, v.busy.value);
  }

  /** By this run of others the loop's number comes to be another volume's. */
  ghost predicate Recycles(s: Subject, w: Subject, k: Kernel, d: Dev, run: seq<Move>) {
    Run(k, run) && LeftTo(s, k, run) && On(After(k, run), d, w.image)
  }

  /**
   The number of a listed loop can belong to another volume by the time it is
   detached, with nobody but others moving in between, exactly when the loop was
   fleeting when it was listed.
   */
  lemma RecycledExactly(s: Subject, w: Subject, x: Subject, k: Kernel, v: View, d: Dev)
    requires Sound(k) && Exclusive(k) && Sees(s, k, v) && d in v.loops && Distinct(s, w)
    requires v.user.Some? && v.user.value.OnMapper? && v.user != Some(Own(s)) ==>
               v.user == Some(Own(x)) && Distinct(s, x)
    ensures (exists run :: Recycles(s, w, k, d, run)) <==> Fleeting(v) && v.busy == Some(d)
  {
    if Fleeting(v) && v.busy == Some(d) {
      SeesCoherent(s, k, v);
      var run := FleetingRecycled(s, w, x, k, v);
    }
    forall run | Recycles(s, w, k, d, run) ensures Fleeting(v) && v.busy == Some(d) {
      OnlyFleetingRecycled(s, w, k, v, d, run);
    }
  }

  lemma OnlyFleetingRecycled(s: Subject, w: Subject, k: Kernel, v: View, d: Dev, run: seq<Move>)
    requires Sound(k) && Exclusive(k) && Sees(s, k, v) && d in v.loops && Distinct(s, w) && Recycles(s, w, k, d, run)
    ensures Fleeting(v) && v.busy == Some(d)
  {
    if !(Fleeting(v) && v.busy == Some(d)) {
      ListedStays(s, k, v, d, run);
    }
  }

  lemma FleetingRecycled(s: Subject, w: Subject, x: Subject, k: Kernel, v: View) returns (run: seq<Move>)
    requires Sound(k) && Exclusive(k) && Sees(s, k, v) && Fleeting(v) && Distinct(s, w)
    requires v.user.Some? && (v.user.value.OnMapper? ==> v.user == Some(Own(x)) && Distinct(s, x))
    ensures v.busy.Some? && Recycles(s, w, k, v.busy.value, run)
  {
    var a := FleetingGoes(s, x, k, v);
    var m := Move(w, Attach(v.busy.value, w.image));
    var u := SeesSome(w, After(k, a));
    assert Issues(w, u, After(k, a), m.step);
    LeftToJoin(s, k, a, m);
    run := a + [m];
  }
}
