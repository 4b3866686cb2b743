/**
 The node as one volume's operations meet it through commands: losetup,
 cryptsetup, mount, umount, findmnt, sysfs and the state file. The state is the
 kernel, the volume's view of it, and a record of the moves that led there: every
 command that takes effect is one more move on that record, allowed when it was
 made. Before every command everybody else may have moved; every command may fail;
 and the plugin process may die at any point, after which nothing it does has an
 effect any more.
 */
module HostCommands {
  import opened Text
  import opened Paths
  import opened Luks
  import opened Kernel
  import opened Views
  import opened Effects
  import opened Runs
  import opened Trace

  /** One entry of the state file (loop.Mapping). */
  datatype Entry = Entry(
    volume: string,
    loopDev: Option<Dev>,
    image: string,
    stage: string,
    cryptDev: Option<Mapper>,
    context: Option<map<string, string>>,
    flags: seq<string>)

  /** luksFormat or mkfs, with the contents it ran over. */
  datatype Erasure = DidFormat(disk: Disk) | DidMkfs(disk: Disk)

  /** A header command, what it refuses and what it does. */
  datatype HeaderEdit =
    | AddKey(authorised: Key, added: Key)
    | RemoveKey(removed: Key)
    | SetLabel(tag: Label)
  {
    predicate Applies(d: Disk) {
      d.Header? &&
      match this
      case AddKey(authorised, _) => authorised in d.slots
      case RemoveKey(removed) => removed in d.slots
      case SetLabel(_) => true
    }

    function Apply(d: Disk): Disk
      requires Applies(d)
    {
      match this
      case AddKey(_, added) => d.(slots := d.slots + multiset{added})
      case RemoveKey(removed) => d.(slots := d.slots - multiset{removed})
      case SetLabel(tag) => d.(tag := tag)
    }
  }

  /** What everybody else does between two commands, by the kernel it finds. */
  type Moves = (nat, Kernel) -> seq<Move>

  /** Others make moves that are allowed when they are made, and leave the volume to its holder. */
  ghost predicate Fair(s: Subject, others: Moves) {
    forall i, k :: Sound(k) && Exclusive(k) && Ordered(s, k) ==> Run(k, others(i, k)) && LeftTo(s, k, others(i, k))
  }

  /** While the lock is free, operations on the volume itself move, too, and are careful. */
  ghost predicate Mild(s: Subject, anybody: Moves) {
    forall i, k :: Sound(k) && Exclusive(k) && Ordered(s, k) ==> Run(k, anybody(i, k)) && OpenTo(s, k, anybody(i, k))
  }

  /** A loop number at or after `d` that is free. */
  function FreeFrom(used: set<Dev>, d: Dev): (free: Dev)
    ensures free !in used && free >= d
    decreases |used|
  {
    if d in used then FreeFrom(used - {d}, d + 1) else d
  }

  class Host {
    const subject: Subject
    const others: Moves
    const anybody: Moves
    /** pid 1's mount table can be read (the pod shares the host's PID namespace). */
    const hostReadable: bool

    /** The kernel, and what the volume sees of it. */
    var k: Kernel
    var v: View
    var stateFile: map<string, Entry>
    var alive: bool
    /** Commands may fail and the process may die. */
    var faulty: bool
    /** Others may move between commands. */
    var noisy: bool
    var tick: nat

    /** The kernel came from `start` by the moves of `log`, which are real as long as `safe` holds. */
    ghost var start: Kernel
    ghost var log: seq<Move>
    ghost var safe: bool
    /** Loops of others that were detached on this volume's behalf. */
    ghost var strays: set<Dev>
    /** The devices attached and detached so far, and every command that erased contents. */
    ghost var attached: seq<Dev>
    ghost var detached: seq<Dev>
    ghost var erasures: seq<Erasure>
    /** The filesystem was checked since the last attach; mountinfo showed no pod publishing it. */
    ghost var checked: bool
    ghost var unpublished: bool
    /** A look at pid 1's mount table went unanswered, or could not have shown a mount that was there. */
    ghost var unanswered: bool

    constructor (subject: Subject, others: Moves, anybody: Moves, hostReadable: bool, k: Kernel,
                 stateFile: map<string, Entry>, faulty: bool, noisy: bool)
      requires WellNamed(subject) && Fair(subject, others) && Mild(subject, anybody)
      requires Sound(k) && Exclusive(k) && Ordered(subject, k)
      ensures this.subject == subject && this.others == others && this.anybody == anybody
      ensures this.hostReadable == hostReadable
      ensures this.k == start == k && log == [] && safe && strays == {} && this.stateFile == stateFile
      ensures Valid() && Sees(subject, k, v) && alive && this.faulty == faulty && this.noisy == noisy
    {
      this.subject, this.others, this.anybody, this.hostReadable := subject, others, anybody, hostReadable;
      this.k, this.stateFile := k, stateFile;
      alive, this.faulty, this.noisy, tick := true, faulty, noisy, 0;
      start, log, safe, strays := k, [], true, {};
      attached, detached, erasures := [], [], [];
      checked, unpublished, unanswered := false, false, false;
      new;
      v := Observe(subject, k);
      SeesCoherent(subject, k, v);
      Fold(subject, ThePast(), k, v);
    }

    ghost function ThePast(): Past
      reads `start, `log, `safe, `strays
    {
      Past(start, log, safe, strays)
    }

    ghost predicate Valid()
      reads `k, `v, `start, `log, `safe, `strays
    {
      Coherent(subject, v) && Founded() && Grounded()
    }

    /** The view is tied to the kernel and the record; folded away once more. */
    ghost predicate Grounded()
      reads `k, `v, `start, `log, `safe, `strays
    {
      forall i {:trigger Uncovered(i)} :: Uncovered(i) ==> Linked(subject, ThePast(), k, v)
    }

    lemma Tie()
      requires Valid()
      ensures Linked(subject, ThePast(), k, v)
    {
      assert Uncovered(0);
    }

    /** What never changes, folded away like Linked. */
    ghost predicate Founded() {
      forall i {:trigger Unfolded(i)} :: Unfolded(i) ==>
        WellNamed(subject) && Fair(subject, others) && Mild(subject, anybody)
    }

    /** What the others do next is fair. */
    lemma OthersAreFair()
      requires Valid()
      ensures Runs.Run(k, others(tick, k)) && LeftTo(subject, k, others(tick, k)) && WellNamed(subject)
    {
      assert Unfolded(0);
      Tie();
      Unfold(subject, ThePast(), k, v);
    }

    lemma AnybodyIsMild()
      requires Valid()
      ensures Runs.Run(k, anybody(tick, k)) && OpenTo(subject, k, anybody(tick, k)) && WellNamed(subject)
    {
      assert Unfolded(0);
      Tie();
      Unfold(subject, ThePast(), k, v);
    }

    lemma Named()
      requires Valid()
      ensures WellNamed(subject)
    {
      assert Unfolded(0);
    }

    /**
     While nothing was overlooked, no image has two live users, and the kernel was
     reached by a run of allowed moves, in which the volume's own detaches, unless some
     went astray, hit its own loops.
     */
    ghost predicate Lawful()
      reads `k, `start, `log, `safe, `strays
    {
      safe ==>
        Exclusive(k) && Runs.Run(start, log) && k == After(start, log) &&
        (strays == {} ==> Careful(subject, start, log))
    }

    /** So it is in every valid state. */
    lemma Kept()
      requires Valid()
      ensures Lawful()
    {
      Tie();
      Unfold(subject, ThePast(), k, v);
    }

    /** A command ran: it can have succeeded only if the process lives, and nobody comes back to life. */
    twostate predicate Ran(ok: bool)
      reads this
    {
      Valid() && (alive ==> old(alive)) && (ok ==> alive)
    }

    /** From `a` to `b` only others moved. */
    ghost predicate Passed(a: View, b: View)
      reads this
    {
      Coherent(subject, b) && Shrinks(subject, a, b) && (Steady(subject, a) || !noisy ==> b == a)
    }

    lemma PassedTransitive(a: View, b: View, c: View)
      requires Coherent(subject, a) && Passed(a, b) && Passed(b, c)
      ensures Passed(a, c)
    {
      ShrinksTransitive(subject, a, b, c);
    }

    /** Others move; then the command is either carried out (`go`) or fails, maybe for good. */
    method Begin() returns (go: bool)
      requires Valid()
      modifies `k, `v, `log, `alive, `tick
      ensures Ran(go) && Passed(old(v), v)
      ensures !faulty && old(alive) ==> go
      ensures NoneAnew(old(k), k, v) && (!noisy ==> k == old(k))
    {
      tick := tick + 1;
      if noisy {
        OthersMove();
      }
      go := alive;
      if faulty {
        var dies: bool := *;
        var fails: bool := *;
        alive := alive && !dies;
        go := alive && !fails;
      }
    }

    method OthersMove()
      requires Valid()
      modifies `k, `v, `log
      ensures Valid() && Shrinks(subject, old(v), v) && (Steady(subject, old(v)) ==> v == old(v))
      ensures NoneAnew(old(k), k, v)
    {
      var run := others(tick, k);
      var seen := Observe(subject, After(k, run));
      OthersAreFair();
      Tie();
      LinkOthers(subject, ThePast(), k, v, run, seen);
      LinkNoneAnew(subject, ThePast(), k, v, run, seen);
      if Steady(subject, v) {
        SteadyStays(subject, v, seen);
      }
      k, v, log := After(k, run), seen, log + run;
    }

    /**
     The command is issued. It is reported done (`go`) or failed, and one that is reported
     failed, killed at its deadline, say, may take effect (`acts`) all the same.
     */
    method Attempt() returns (go: bool, acts: bool)
      requires Valid()
      modifies `k, `v, `log, `alive, `tick
      ensures Ran(go) && Passed(old(v), v)
      ensures (go ==> acts) && (acts && !go ==> faulty && old(alive))
      ensures !faulty && old(alive) ==> go
    {
      var running := alive;
      go := Begin();
      var late: bool := *;
      acts := go || (late && faulty && running);
    }

    /** The lock is free: anybody may have moved. */
    method Unlocked()
      requires Valid()
      modifies `k, `v, `log, `tick
      ensures Valid() && (!noisy ==> k == old(k) && v == old(v))
    {
      tick := tick + 1;
      if noisy {
        var run := anybody(tick, k);
        var seen := Observe(subject, After(k, run));
        AnybodyIsMild();
        Tie();
        LinkAnybody(subject, ThePast(), k, v, run, seen);
        k, v, log := After(k, run), seen, log + run;
      }
    }

    /** Whatever else happened to the kernel, if it is on record. */
    method Resume(after: Kernel, seen: View, ghost run: seq<Move>)
      requires Valid() && Coherent(subject, seen) && Linked(subject, ThePast().(log := log + run), after, seen)
      modifies `k, `v, `log
      ensures Valid() && k == after && v == seen && log == old(log) + run
    {
      k, v, log := after, seen, log + run;
    }

    /** Any device that is free. */
    method PickFree() returns (dev: Dev)
      requires Valid()
      ensures dev !in k.loops && dev !in v.loops
    {
      dev := *;
      dev := FreeFrom(k.loops.Keys, dev);
      Tie();
      Unfold(subject, ThePast(), k, v);
    }

    /** The driver takes the image to be free although a loop on it is mounted out of its sight. */
    method Overlook()
      requires Valid() && v.stack == [] && v.user.Some? && v.user.value.OnLoop?
      modifies `k, `v, `safe
      ensures Valid() && !safe && v == Freed(old(v))
    {
      Tie();
      LinkOverlook(subject, ThePast(), k, v);
      k, v, safe := Cleared(k, v.user.value), Freed(v), false;
    }

    /** The effect of a command that the view grants, on the kernel and on the view. */
    method Act(step: Step)
      requires Valid() && Grants(subject, v, k, step)
      requires !step.Shift? && !step.Detach? && (step.Unmount? ==> step.path == subject.stage)
      modifies `k, `v, `log
      ensures Valid() && v == Looks(subject, old(v), step)
    {
      Named();
      Tie();
      LinkOwn(subject, ThePast(), k, v, step);
      v, k, log := Looks(subject, v, step), Next(k, step), log + [Move(subject, step)];
    }

    /** A detach asks nothing: what it hits may be another's. */
    method ActDetach(dev: Dev)
      requires Valid()
      modifies `k, `v, `log, `strays
      ensures Valid() && v == DetachFrom(old(v), dev)
      ensures strays == old(strays) || (dev !in old(v).loops && strays == old(strays) + {dev})
    {
      ghost var step := Step.Detach(dev);
      ghost var p := Did(ThePast(), subject, v, k, step);
      Named();
      Tie();
      LinkOwn(subject, ThePast(), k, v, step);
      v, k, log, strays := DetachFrom(v, dev), Detached(k, dev), p.log, p.strays;
      assert ThePast() == p;
    }

    // --- losetup -------------------------------------------------------

    /** losetup --list, each back-file stripped of " (deleted)". */
    method ListLoops() returns (ok: bool, rows: map<Dev, string>)
      requires Valid()
      modifies `k, `v, `log, `alive, `tick
      ensures Ran(ok) && Passed(old(v), v)
      ensures !faulty && old(alive) ==> ok
      ensures ok ==> RowsTell(subject, v, rows)
      ensures !noisy ==> k == old(k)
    {
      ok := Begin();
      rows := RowsIn(k);
      Named();
      Tie();
      LinkTells(subject, ThePast(), k, v);
    }

    /** losetup --find --show on the volume's image, which must exist. */
    method Attach() returns (ok: bool, dev: Dev, ghost did: bool, ghost mid: View)
      requires Valid()
      modifies `k, `v, `log, `alive, `tick, `attached, `checked
      ensures Ran(ok) && Passed(old(v), mid) && (ok ==> did)
      ensures !faulty && old(alive) ==> alive && (ok <==> mid.disk.Some?) && did == ok
      ensures did ==> dev !in mid.loops && mid.disk.Some? && v == AttachTo(mid, dev)
      ensures attached == if did then old(attached) + [dev] else old(attached)
      ensures !did ==> v == mid
    {
      var acts;
      ok, acts := Attempt();
      mid := v;
      dev := PickFree();
      ok := ok && v.disk.Some?;
      did := acts && v.disk.Some?;
      if acts && v.disk.Some? {
        Named();
        Act(Step.Attach(dev, subject.image));
        attached := attached + [dev];
        checked := false;
      }
    }

    /** losetup --detach; a device that is not attached is no error, one in use is marked autoclear. */
    method Detach(dev: Dev) returns (ok: bool, ghost did: bool, ghost mid: View)
      requires Valid()
      modifies `k, `v, `log, `alive, `tick, `detached, `strays
      ensures Ran(ok) && Passed(old(v), mid) && (ok ==> did)
      ensures !faulty && old(alive) ==> ok
      ensures did ==> v == DetachFrom(mid, dev) && detached == old(detached) + [dev]
      ensures !did ==> v == mid && detached == old(detached)
      ensures strays == old(strays) || (dev !in mid.loops && strays == old(strays) + {dev})
    {
      var acts;
      ok, acts := Attempt();
      mid, did := v, acts;
      if acts {
        ActDetach(dev);
        detached := detached + [dev];
      }
    }

    /** A command that changes none of the tables: set-capacity, resize2fs, mkdir, stat. */
    method Run() returns (ok: bool)
      requires Valid()
      modifies `k, `v, `log, `alive, `tick
      ensures Ran(ok) && Passed(old(v), v)
      ensures !faulty && old(alive) ==> ok
      ensures !noisy ==> k == old(k)
    {
      ok := Begin();
    }

    /** os.Stat of the image. */
    method StatImage() returns (ok: bool)
      requires Valid()
      modifies `k, `v, `log, `alive, `tick
      ensures Ran(ok) && Passed(old(v), v)
      ensures ok ==> v.disk.Some?
      ensures !faulty && old(alive) ==> alive && (ok <==> v.disk.Some?)
      ensures !noisy ==> k == old(k)
    {
      ok := Begin();
      ok := ok && v.disk.Some?;
    }

    // --- mounts --------------------------------------------------------

    /** findmnt on the staging path itself. */
    method IsStaged() returns (ok: bool, mounted: bool)
      requires Valid()
      modifies `k, `v, `log, `alive, `tick
      ensures Ran(ok) && Passed(old(v), v)
      ensures !faulty && old(alive) ==> ok
      ensures ok ==> (mounted <==> v.stack != [])
      ensures !noisy ==> k == old(k)
    {
      ok := Begin();
      mounted := v.stack != [];
    }

    /** The device visible at the staging path. */
    method StageSource() returns (ok: bool, source: Source)
      requires Valid()
      modifies `k, `v, `log, `alive, `tick
      ensures Ran(ok) && Passed(old(v), v)
      ensures ok ==> v.stack != [] && source == Top(v.stack)
      ensures !faulty && old(alive) ==> alive && (ok <==> v.stack != [])
    {
      ok := Begin();
      source := Top(v.stack);
      ok := ok && v.stack != [];
    }

    /** findmnt -S in this process's namespace. */
    method IsLoopMounted(dev: Dev) returns (ok: bool, mounted: bool)
      requires Valid()
      modifies `k, `v, `log, `alive, `tick
      ensures Ran(ok) && Passed(old(v), v)
      ensures !faulty && old(alive) ==> ok
      ensures ok && dev in v.loops ==>
                (mounted ==> v.user == Some(OnLoop(dev))) && (v.user == Some(OnLoop(dev)) ==> mounted || v.hidden)
      ensures mounted <==> MountedHere(k, OnLoop(dev))
      ensures NoneAnew(old(k), k, v) && (!noisy ==> k == old(k))
    {
      ok := Begin();
      mounted := MountedHere(k, OnLoop(dev));
      Tie();
      LinkUse(subject, ThePast(), k, v, dev);
    }

    /**
     findmnt --task 1 -S: it may fail like any other, and does if pid 1's table cannot
     be read. `told` says that it would have shown a mount that is there.
     */
    method IsLoopMountedInHost(dev: Dev) returns (ok: bool, mounted: bool, ghost told: bool)
      requires Valid()
      modifies `k, `v, `log, `alive, `tick, `unanswered
      ensures Ran(ok) && Passed(old(v), v) && NoneAnew(old(k), k, v)
      ensures !faulty && old(alive) ==> alive && (ok <==> hostReadable)
      ensures told == (ok && (OnLoop(dev) in k.away ==> OnLoop(dev) in k.inHost))
      ensures unanswered == (old(unanswered) || !told)
      ensures (ok ==> hostReadable) && (mounted ==> OnLoop(dev) in k.inHost)
      ensures ok && dev in v.loops && mounted ==> v.user == Some(OnLoop(dev))
      ensures told && dev in v.loops && v.user == Some(OnLoop(dev)) ==> mounted || MountedHere(old(k), OnLoop(dev))
      ensures !noisy ==> k == old(k)
    {
      ok := Begin();
      ok := ok && hostReadable;
      mounted := OnLoop(dev) in k.away && OnLoop(dev) in k.inHost;
      told := ok && (OnLoop(dev) in k.away ==> OnLoop(dev) in k.inHost);
      unanswered := unanswered || !told;
      Tie();
      LinkUse(subject, ThePast(), k, v, dev);
    }

    /** The holders directory of a loop, in sysfs: a mapping over it. */
    method HasHolders(dev: Dev) returns (ok: bool, held: bool)
      requires Valid()
      modifies `k, `v, `log, `alive, `tick
      ensures Ran(ok) && Passed(old(v), v)
      ensures !faulty && old(alive) ==> ok
      ensures ok && dev in v.loops ==> (held <==> v.busy == Some(dev) && v.user != Some(OnLoop(dev)))
      ensures NoneAnew(old(k), k, v) && (!noisy ==> k == old(k))
    {
      ok := Begin();
      held := Held(k, dev);
      Tie();
      LinkUse(subject, ThePast(), k, v, dev);
    }

    /** mount(8) on the staging path of the device that alone uses the image, and was checked. */
    method MountStage(source: Source) returns (ok: bool, ghost did: bool, ghost mid: View)
      requires Valid() && SoleUser(subject, v, source) && checked
      modifies `k, `v, `log, `alive, `tick
      ensures Ran(ok) && Passed(old(v), mid) && (ok ==> did)
      ensures !faulty && old(alive) ==> ok
      ensures did ==> SoleUser(subject, mid, source) && v == MountOn(mid, source)
      ensures !did ==> v == mid
    {
      var acts;
      ok, acts := Attempt();
      mid, did := v, acts;
      if acts {
        Act(MountAt(source, subject.stage));
      }
    }

    /** mount --bind of the staging path onto a publish target. */
    method BindStage(target: string) returns (ok: bool, ghost did: bool, ghost mid: View)
      requires Valid() && target != subject.stage
      modifies `k, `v, `log, `alive, `tick
      ensures Ran(ok) && Passed(old(v), mid) && (ok ==> did)
      ensures !faulty && old(alive) ==> ok
      ensures v == if did then Bound(subject, mid) else mid
    {
      var acts;
      ok, acts := Attempt();
      mid, did := v, acts;
      if acts {
        Act(Step.Bind(subject.stage, target));
      }
    }

    /** Reads mountinfo for pods that publish what shows at the staging path: such a mount is elsewhere. */
    method IsPublished() returns (ok: bool, published: bool)
      requires Valid()
      modifies `k, `v, `log, `alive, `tick, `unpublished
      ensures Ran(ok) && Passed(old(v), v)
      ensures !faulty && old(alive) ==> ok
      ensures ok ==> unpublished == !published
      ensures ok && published ==> v.stack != [] && (v.spread || v.user != Some(Top(v.stack)))
    {
      ok := Begin();
      published := *;
      published := published && v.stack != [] && (v.spread || v.user != Some(Top(v.stack)));
      unpublished := !published;
    }

    /** umount(8) of the staging path; a path that is not mounted is no error. */
    method UnmountStage() returns (ok: bool, ghost did: bool, ghost mid: View)
      requires Valid()
      modifies `k, `v, `log, `alive, `tick
      ensures Ran(ok) && Passed(old(v), mid) && (ok ==> did)
      ensures !faulty && old(alive) ==> ok
      ensures v == if did then Popped(mid) else mid
    {
      var acts;
      ok, acts := Attempt();
      mid, did := v, acts;
      if acts {
        Act(Unmount(subject.stage));
      }
    }

    /** e2fsck of the device that alone uses the image, and not while the image is mounted. */
    method Fsck(source: Source) returns (ok: bool)
      requires Valid() && SoleUser(subject, v, source) && !UserMounted(v)
      modifies `k, `v, `log, `alive, `tick, `checked
      ensures Ran(ok) && Passed(old(v), v)
      ensures !faulty && old(alive) ==> ok
      ensures ok ==> checked
    {
      ok := Begin();
      if ok {
        checked := true;
      }
    }

    // --- cryptsetup ----------------------------------------------------

    /** The loop under the volume's mapping, if it is open, from sysfs. */
    method OwnMapping() returns (ok: bool, backing: Option<Dev>)
      requires Valid()
      modifies `k, `v, `log, `alive, `tick
      ensures Ran(ok) && Passed(old(v), v)
      ensures !faulty && old(alive) ==> ok
      ensures ok ==> backing == v.mapped
    {
      ok := Begin();
      backing := v.mapped;
    }

    /** cryptsetup close of the volume's mapping: no error if inactive, busy if mounted. */
    method Close() returns (ok: bool, ghost did: bool, ghost mid: View)
      requires Valid()
      modifies `k, `v, `log, `alive, `tick
      ensures Ran(ok) && Passed(old(v), mid) && (ok ==> did)
      ensures !faulty && old(alive) ==> alive && (ok <==> !OwnMounted(subject, mid))
      ensures did ==> !OwnMounted(subject, mid) && v == CloseOwn(subject, mid)
      ensures !did ==> v == mid
    {
      var acts;
      ok, acts := Attempt();
      mid := v;
      ok := ok && !OwnMounted(subject, v);
      did := acts && !OwnMounted(subject, v);
      if acts && !OwnMounted(subject, v) {
        Act(Step.Close(subject.volume));
      }
    }

    /** Reads one of the image's loops; fails when there is nothing to read. */
    method ReadDisk(dev: Dev) returns (ok: bool, disk: Disk)
      requires Valid() && dev in v.loops && Steady(subject, v)
      modifies `k, `v, `log, `alive, `tick
      ensures Ran(ok) && v == old(v)
      ensures !faulty && old(alive) ==> alive && (ok <==> v.disk.Some?)
      ensures ok ==> v.disk == Some(disk)
    {
      ok := Begin();
      ok := ok && v.disk.Some?;
      disk := if ok then v.disk.value else Raw([]);
    }

    /** luksFormat --label fileblock-unformatted. */
    method LuksFormat(dev: Dev, key: Key) returns (ok: bool, ghost did: bool)
      requires Valid() && dev in v.loops && Steady(subject, v)
      modifies `k, `v, `log, `alive, `tick, `erasures
      ensures Ran(ok) && (ok ==> did)
      ensures !faulty && old(alive) ==> alive && (ok <==> old(v).disk.Some?)
      ensures did ==> old(v).disk.Some? && v == old(v).(disk := Some(Header(multiset{key}, Unformatted, false))) &&
                      erasures == old(erasures) + [DidFormat(old(v).disk.value)]
      ensures !did ==> v == old(v) && erasures == old(erasures)
    {
      var acts;
      ok, acts := Attempt();
      ok := ok && v.disk.Some?;
      did := acts && v.disk.Some?;
      if acts && v.disk.Some? {
        erasures := erasures + [DidFormat(v.disk.value)];
        Act(Write(subject.image, Header(multiset{key}, Unformatted, false)));
      }
    }

    /** luksAddKey, luksRemoveKey or config --label: rewrites the header unless it refuses. */
    method RewriteHeader(dev: Dev, edit: HeaderEdit) returns (ok: bool, ghost did: bool)
      requires Valid() && dev in v.loops && Steady(subject, v)
      modifies `k, `v, `log, `alive, `tick
      ensures Ran(ok) && (ok ==> did)
      ensures !faulty && old(alive) ==> alive && (ok <==> old(v).disk.Some? && edit.Applies(old(v).disk.value))
      ensures did ==> old(v).disk.Some? && edit.Applies(old(v).disk.value) &&
                      v == old(v).(disk := Some(edit.Apply(old(v).disk.value)))
      ensures !did ==> v == old(v)
    {
      var acts;
      ok, acts := Attempt();
      var applies := v.disk.Some? && edit.Applies(v.disk.value);
      ok := ok && applies;
      did := acts && applies;
      if acts && applies {
        Act(Write(subject.image, edit.Apply(v.disk.value)));
      }
    }

    /** cryptsetup open under the volume's name: refused for a wrong key or a name already taken. */
    method Open(dev: Dev, key: Key) returns (ok: bool, ghost did: bool)
      requires Valid() && dev in v.loops && Steady(subject, v) && v.user == None
      modifies `k, `v, `log, `alive, `tick
      ensures Ran(ok) && (ok ==> did)
      ensures !faulty && old(alive) ==>
                alive && (ok <==> old(v).mapped == None && old(v).disk.Some? && Opens(old(v).disk.value, key)) &&
                did == ok
      ensures did ==> old(v).mapped == None && old(v).disk.Some? && Opens(old(v).disk.value, key) &&
                      v == OpenOver(subject, old(v), dev)
      ensures !did ==> v == old(v)
    {
      var acts;
      ok, acts := Attempt();
      var opens := v.mapped == None && v.disk.Some? && Opens(v.disk.value, key);
      ok := ok && opens;
      did := acts && opens;
      if acts && opens {
        Act(Step.Open(subject.volume, dev));
      }
    }

    /** mkfs.ext4 inside the volume's mapping; when it fails midway, what lies there is anybody's guess. */
    method Mkfs() returns (ok: bool)
      requires Valid() && v.user == Some(Own(subject)) && Steady(subject, v)
      modifies `k, `v, `log, `alive, `tick, `erasures
      ensures Ran(ok)
      ensures !faulty && old(alive) ==> alive && (ok <==> old(v).disk.Some? && old(v).disk.value.Header?)
      ensures if erasures == old(erasures) then !ok && v == old(v)
              else old(v).disk.Some? && old(v).disk.value.Header? && v.disk.Some? && v.disk.value.Header? &&
                   v == old(v).(disk := Some(old(v).disk.value.(filesystem := v.disk.value.filesystem))) &&
                   (ok ==> v.disk.value.filesystem) && erasures == old(erasures) + [DidMkfs(old(v).disk.value)]
    {
      var running := alive;
      var go := Begin();
      var begun, made: bool := *, *;
      ok := go && v.disk.Some? && v.disk.value.Header?;
      if ok || (begun && faulty && running && v.disk.Some? && v.disk.value.Header?) {
        erasures := erasures + [DidMkfs(v.disk.value)];
        Act(Write(subject.image, v.disk.value.(filesystem := made || ok)));
      }
    }

    // --- the state file ------------------------------------------------

    /** Writes the state file anew; the rename makes it all or nothing. */
    method WriteState(data: map<string, Entry>) returns (ok: bool)
      requires Valid()
      modifies `k, `v, `log, `alive, `tick, `stateFile
      ensures Ran(ok) && Passed(old(v), v)
      ensures !faulty && old(alive) ==> ok
      ensures stateFile == if ok then data else old(stateFile)
    {
      ok := Begin();
      if ok {
        stateFile := data;
      }
    }
  }
}
