/**
 pkg/store/registry.go: each backing store is mounted once per process and its
 path handed out, after a look whether the mount is still there. A Get holds the
 lock of one mount; Gets of other mounts, check goroutines and outside unmounts go
 on between its steps.
 */
module Registry {
  import opened Text
  import opened StoreConfig
  import opened Identity

  type Id = string

  /** A staleness check in flight: still running, or its answer waiting in the channel. */
  datatype Check = Running | Answered(mounted: bool, failed: bool)

  /**
   The registry's maps and what they are about: `depth` counts the mounts stacked
   on each mount's target, `era` the mounts ever made there, `made` the store
   directories created, each with the era of the mount it was created on.
   `goroutines` are the checks running; `mounting` are the mounts whose Get is
   between mount(8) and noting it; `gone` are those whose Get was just told that
   nothing is mounted.
   */
  datatype World = World(
    mounted: map<Id, string>,
    stores: map<Id, string>,
    configs: map<Id, Config>,
    checking: map<Id, Check>,
    depth: map<Id, nat>,
    era: map<Id, nat>,
    made: set<(string, nat)>,
    goroutines: multiset<Id>,
    mounting: set<Id>,
    gone: set<Id>)

  function Depth(s: World, id: Id): nat {
    if id in s.depth then s.depth[id] else 0
  }

  function Era(s: World, id: Id): nat {
    if id in s.era then s.era[id] else 0
  }

  function SubDirOf(c: Config): string {
    if c.NFS? then c.subDir else ""
  }

  /** The key of the configuration can be taken apart again. */
  predicate Unambiguous(c: Config) {
    c.Local? || Barless(c)
  }

  /** The stores root and how configurations are named: SHA-256 prefixes of their keys. */
  datatype Naming = Naming(root: string, mountId: Config -> Id, storeId: Config -> Id)
  {
    function Target(id: Id): string {
      root + "/" + id
    }

    function PathOf(c: Config): string {
      if SubDirOf(c) == "" then Target(mountId(c)) else Target(mountId(c)) + "/" + SubDirOf(c)
    }

    /** A store ID settles the mount and the subDir; mount IDs are plain file names. */
    ghost predicate Faithful() {
      && (forall c, c' :: Unambiguous(c) && Unambiguous(c') && storeId(c) == storeId(c') ==>
            mountId(c) == mountId(c') && SubDirOf(c) == SubDirOf(c'))
      && (forall c :: Free(mountId(c), '/'))
    }
  }

  /** SHA-256 prefixes, as far as they are relied on: no two keys get the same one, and it is a plain file name. */
  ghost predicate Injective(hash: string -> string) {
    (forall a, b :: hash(a) == hash(b) ==> a == b) && forall a :: Free(hash(a), '/')
  }

  /** The configuration is named by hashes of its keys. */
  ghost predicate NamedBy(nm: Naming, hash: string -> string, c: Config) {
    nm.mountId(c) == hash(MountKey(c)) && nm.storeId(c) == hash(StoreKey(c))
  }

  /** Naming configurations by hashes of their keys is faithful. */
  lemma HashedNaming(nm: Naming, hash: string -> string)
    requires Injective(hash)
    requires forall c :: NamedBy(nm, hash, c)
    ensures nm.Faithful()
  {
    forall c, c' | Unambiguous(c) && Unambiguous(c') && nm.storeId(c) == nm.storeId(c')
      ensures nm.mountId(c) == nm.mountId(c') && SubDirOf(c) == SubDirOf(c')
    {
      HashedAlike(nm, hash, c, c');
    }
    forall c ensures Free(nm.mountId(c), '/') {
      assert NamedBy(nm, hash, c);
    }
  }

  lemma HashedAlike(nm: Naming, hash: string -> string, c: Config, c': Config)
    requires Injective(hash) && Unambiguous(c) && Unambiguous(c') && nm.storeId(c) == nm.storeId(c')
    requires NamedBy(nm, hash, c) && NamedBy(nm, hash, c')
    ensures nm.mountId(c) == nm.mountId(c') && SubDirOf(c) == SubDirOf(c')
  {
    SameKeySameStore(c, c');
  }

  lemma SameKeySameStore(c: Config, c': Config)
    requires Unambiguous(c) && Unambiguous(c') && StoreKey(c) == StoreKey(c')
    ensures MountKey(c) == MountKey(c') && SubDirOf(c) == SubDirOf(c')
  {
    if c.NFS? && c'.NFS? {
      SameStoreExactly(c, c');
    } else if c.NFS? {
      NfsIsNotLocal(c, c');
    } else if c'.NFS? {
      NfsIsNotLocal(c', c);
    }
  }

  // --- the invariant -----------------------------------------------------------

  /**
   A cached store: its path is its mount's path plus its subDir, made on the mount's
   present era unless nothing is mounted there any more.
   */
  ghost predicate CachedWell(nm: Naming, s: World, t: Id)
    requires t in s.stores
  {
    && t in s.configs && nm.storeId(s.configs[t]) == t && Unambiguous(s.configs[t])
    && nm.mountId(s.configs[t]) in s.mounted
    && s.stores[t] == nm.PathOf(s.configs[t])
    && (SubDirOf(s.configs[t]) != "" ==> MadeHere(s, nm.mountId(s.configs[t]), s.stores[t]))
  }

  /** The directory was created on the present mount, if there is one. */
  predicate MadeHere(s: World, id: Id, path: string) {
    (path, Era(s, id)) in s.made || Depth(s, id) == 0
  }

  /** Only a definitive answer says so. */
  predicate SaysGone(answer: Check) {
    answer.Answered? && !answer.failed && !answer.mounted
  }

  /** What is true of mounts between any two steps of anybody, whatever the configurations. */
  ghost predicate DepthInv(nm: Naming, s: World) {
    && (forall id :: id in s.mounted ==> s.mounted[id] == nm.Target(id))
    && (forall id :: id in s.depth && id !in s.mounted && id !in s.mounting ==> s.depth[id] == 0)
    && (forall id :: id in s.depth ==> s.depth[id] <= 1)
  }

  /** Of checks: the running ones are counted, at most one per mount. */
  ghost predicate Counted(s: World) {
    forall id :: s.goroutines[id] == if id in s.checking && s.checking[id].Running? then 1 else 0
  }

  /** What they say of a mount that is gone is true. */
  ghost predicate Truthful(s: World) {
    && (forall id :: id in s.checking ==> id in s.mounted && (SaysGone(s.checking[id]) ==> Depth(s, id) == 0))
    && (forall id :: id in s.gone ==> id in s.mounted && Depth(s, id) == 0)
  }

  ghost predicate MountInv(nm: Naming, s: World) {
    DepthInv(nm, s) && Counted(s) && Truthful(s)
  }

  /** What is true of the cached stores too, as long as the configurations are unambiguous. */
  ghost predicate CacheInv(nm: Naming, s: World) {
    forall t :: t in s.stores ==> CachedWell(nm, s, t)
  }

  /** Both, if the configurations are `tidy`. */
  ghost predicate Inv(nm: Naming, s: World, tidy: bool) {
    MountInv(nm, s) && (tidy ==> CacheInv(nm, s))
  }

  /**
   What everybody else may do while `id`'s lock is held: nothing about that mount
   but unmount it, or finish a check of it.
   */
  ghost predicate Others(nm: Naming, id: Id, s: World, s': World, tidy: bool) {
    Inv(nm, s', tidy) && Apart(id, s, s') && (tidy ==> StoresApart(nm, id, s, s'))
  }

  ghost predicate Apart(id: Id, s: World, s': World) {
    && (id in s'.mounted <==> id in s.mounted) && (id in s'.mounting <==> id in s.mounting)
    && (id in s'.checking <==> id in s.checking) && (id in s'.gone <==> id in s.gone)
    && (id in s.checking && s.checking[id].Answered? ==> s'.checking[id] == s.checking[id])
    && Depth(s', id) <= Depth(s, id) && Era(s', id) == Era(s, id) && s.made <= s'.made
  }

  ghost predicate StoresApart(nm: Naming, id: Id, s: World, s': World) {
    forall c :: Unambiguous(c) && nm.mountId(c) == id ==> SameStore(s, s', nm.storeId(c))
  }

  /** However often they move, it is one such move. */
  lemma OthersTransitive(nm: Naming, id: Id, a: World, b: World, c: World, tidy: bool)
    requires Others(nm, id, a, b, tidy) && Others(nm, id, b, c, tidy)
    ensures Others(nm, id, a, c, tidy)
  {
  }

  ghost predicate SameStore(s: World, s': World, t: Id) {
    && (t in s'.stores <==> t in s.stores) && (t in s.stores ==> s'.stores[t] == s.stores[t])
    && (t in s'.configs <==> t in s.configs) && (t in s.configs ==> s'.configs[t] == s.configs[t])
  }

  // --- the steps -----------------------------------------------------------------

  predicate Under(p: string, path: string) {
    p == path || HasPrefix(p, path + "/")
  }

  /** evictStores: every store path at or below `path` goes. */
  function Evicted(stores: map<Id, string>, path: string): map<Id, string> {
    map t | t in stores && !Under(stores[t], path) :: stores[t]
  }

  /** The mount is gone: forget it and the stores on it. */
  function Forgot(s: World, id: Id, path: string): World {
    s.(mounted := s.mounted - {id}, stores := Evicted(s.stores, path), gone := s.gone - {id})
  }

  /** mount(8) at the target. */
  function DidMount(s: World, id: Id): World {
    s.(depth := s.depth[id := Depth(s, id) + 1], era := s.era[id := Era(s, id) + 1], mounting := s.mounting + {id})
  }

  function Noted(s: World, id: Id, path: string): World {
    s.(mounted := s.mounted[id := path], mounting := s.mounting - {id})
  }

  /** MkdirAll: with nothing mounted there it creates the directory under the mountpoint. */
  function MadeDir(s: World, id: Id, path: string): World {
    if Depth(s, id) > 0 then s.(made := s.made + {(path, Era(s, id))}) else s
  }

  function Remembered(nm: Naming, s: World, c: Config): World {
    s.(stores := s.stores[nm.storeId(c) := nm.PathOf(c)], configs := s.configs[nm.storeId(c) := c])
  }

  function CheckBegun(s: World, id: Id): World {
    s.(checking := s.checking[id := Running], goroutines := s.goroutines + multiset{id})
  }

  function CheckDone(s: World, id: Id, answer: Check): World {
    s.(checking := s.checking[id := answer], goroutines := s.goroutines - multiset{id})
  }

  /** An abandoned check's answer only frees the slot. */
  function CheckCleared(s: World, id: Id): World {
    s.(checking := s.checking - {id})
  }

  /** The answer of one's own check tells whether the mount is gone. */
  function CheckTaken(s: World, id: Id): World {
    CheckCleared(s, id).(gone := if id in s.checking && SaysGone(s.checking[id]) then s.gone + {id} else s.gone)
  }

  /** An unmount from outside. */
  function DidUnmount(s: World, id: Id): World {
    s.(depth := s.depth[id := 0])
  }

  // --- paths tell mounts apart -------------------------------------------------------

  /** What lies at or below a mount's target belongs to that mount. */
  lemma UnderIsOwn(nm: Naming, c: Config, other: Id)
    requires Free(nm.mountId(c), '/') && Free(other, '/') && Under(nm.PathOf(c), nm.Target(other))
    ensures nm.mountId(c) == other
  {
    var id, p, path := nm.mountId(c), nm.PathOf(c), nm.Target(other);
    var rest := p[|nm.root| + 1..];
    assert rest == id || rest == id + "/" + SubDirOf(c);
    assert p[..|path|] == path && path[|nm.root| + 1..] == other;
    assert rest[..|other|] == other;
    assert |rest| > |other| ==> rest[|other|] == '/';
    FirstPart(rest, id, other);
  }

  /** A string has one first component. */
  lemma FirstPart(s: string, a: string, b: string)
    requires Free(a, '/') && Free(b, '/') && a <= s && b <= s
    requires |s| > |a| ==> s[|a|] == '/'
    requires |s| > |b| ==> s[|b|] == '/'
    ensures a == b
  {
    assert forall i :: 0 <= i < |a| ==> s[i] == a[i] && a[i] != '/';
    assert forall i :: 0 <= i < |b| ==> s[i] == b[i] && b[i] != '/';
  }

  /** Everything at a mount's target or below it is evicted with it. */
  lemma OwnIsUnder(nm: Naming, c: Config)
    ensures Under(nm.PathOf(c), nm.Target(nm.mountId(c)))
  {
  }

  // --- every step keeps the invariant and, to others, is one they reckon with -----------

  lemma ForgotKeeps(nm: Naming, s: World, id: Id)
    requires nm.Faithful() && CacheInv(nm, s)
    ensures CacheInv(nm, Forgot(s, id, nm.Target(id)))
  {
    var s' := Forgot(s, id, nm.Target(id));
    forall t | t in s'.stores ensures CachedWell(nm, s', t) {
      assert CachedWell(nm, s, t);
      OwnIsUnder(nm, s.configs[t]);
    }
  }

  /** What else leaves the cached stores alone, the mounts they are on, and at most unmounts. */
  lemma CacheStays(nm: Naming, s: World, s': World)
    requires CacheInv(nm, s) && s'.stores == s.stores && s'.configs == s.configs && s.made <= s'.made
    requires forall id :: id in s.mounted ==>
               id in s'.mounted && Era(s', id) == Era(s, id) && Depth(s', id) <= Depth(s, id)
    ensures CacheInv(nm, s')
  {
    forall t | t in s'.stores ensures CachedWell(nm, s', t) {
      assert CachedWell(nm, s, t);
    }
  }

  lemma RememberedKeeps(nm: Naming, s: World, c: Config)
    requires nm.Faithful() && CacheInv(nm, s) && Unambiguous(c) && nm.mountId(c) in s.mounted
    requires SubDirOf(c) != "" ==> MadeHere(s, nm.mountId(c), nm.PathOf(c))
    ensures CacheInv(nm, Remembered(nm, s, c))
  {
    var s' := Remembered(nm, s, c);
    forall t | t in s'.stores ensures CachedWell(nm, s', t) {
      if t != nm.storeId(c) {
        assert CachedWell(nm, s, t);
      }
    }
  }

  /** A step about one mount's stores leaves the other mounts' alone. */
  lemma RememberedApart(nm: Naming, s: World, c: Config, id: Id)
    requires nm.Faithful() && Unambiguous(c) && nm.mountId(c) != id
    ensures StoresApart(nm, id, s, Remembered(nm, s, c))
  {
  }

  lemma ForgotApart(nm: Naming, s: World, other: Id, id: Id)
    requires nm.Faithful() && CacheInv(nm, s) && Free(other, '/') && other != id
    ensures StoresApart(nm, id, s, Forgot(s, other, nm.Target(other)))
  {
    forall c | Unambiguous(c) && nm.mountId(c) == id
      ensures SameStore(s, Forgot(s, other, nm.Target(other)), nm.storeId(c))
    {
      var t := nm.storeId(c);
      if t in s.stores {
        assert CachedWell(nm, s, t);
        if Under(nm.PathOf(s.configs[t]), nm.Target(other)) {
          UnderIsOwn(nm, s.configs[t], other);
        }
      }
    }
  }

  /** The steps a Get of another mount takes, and those nobody's lock keeps away. */
  datatype Step =
    | Forget(id: Id)
    | DoMount(id: Id)
    | Note(id: Id)
    | MakeDir(config: Config)
    | Remember(config: Config)
    | BeginCheck(id: Id)
    | DiscardCheck(id: Id)
    | TakeCheck(id: Id)
    | FinishCheck(id: Id, answer: Check)
    | OutsideUnmount(id: Id)

  /** Whose lock a step is taken under. */
  function Locks(nm: Naming, step: Step): Option<Id> {
    match step
    case Forget(id) => Some(id)
    case DoMount(id) => Some(id)
    case Note(id) => Some(id)
    case MakeDir(c) => Some(nm.mountId(c))
    case Remember(c) => Some(nm.mountId(c))
    case BeginCheck(id) => Some(id)
    case DiscardCheck(id) => Some(id)
    case TakeCheck(id) => Some(id)
    case FinishCheck(_, _) => None
    case OutsideUnmount(_) => None
  }

  /**
   When a Get takes the step, going by the registry's own maps and by what it was
   told. Only a check that ends looks at what is mounted, and tells it truthfully.
   */
  ghost predicate Enabled(nm: Naming, s: World, step: Step) {
    match step
    case Forget(id) => id in s.gone && id !in s.checking && Free(id, '/')
    case DoMount(id) => id !in s.mounted && id !in s.mounting
    case Note(id) => id in s.mounting
    case MakeDir(_) => true
    case Remember(c) => nm.mountId(c) in s.mounted
    case BeginCheck(id) => id in s.mounted && id !in s.checking
    case DiscardCheck(id) => id in s.checking && s.checking[id].Answered?
    case TakeCheck(id) => id in s.checking && s.checking[id].Answered?
    case FinishCheck(id, answer) =>
      && id in s.checking && s.checking[id].Running?
      && answer.Answered? && (!answer.failed ==> (answer.mounted <==> Depth(s, id) > 0))
    case OutsideUnmount(_) => true
  }

  function Next(nm: Naming, s: World, step: Step): World {
    match step
    case Forget(id) => Forgot(s, id, nm.Target(id))
    case DoMount(id) => DidMount(s, id)
    case Note(id) => Noted(s, id, nm.Target(id))
    case MakeDir(c) => MadeDir(s, nm.mountId(c), nm.PathOf(c))
    case Remember(c) => Remembered(nm, s, c)
    case BeginCheck(id) => CheckBegun(s, id)
    case DiscardCheck(id) => CheckCleared(s, id)
    case TakeCheck(id) => CheckTaken(s, id)
    case FinishCheck(id, answer) => CheckDone(s, id, answer)
    case OutsideUnmount(id) => DidUnmount(s, id)
  }

  /** The step is about an unambiguous configuration, whose subDir was seen to if it is remembered. */
  ghost predicate Tidy(nm: Naming, s: World, step: Step) {
    step.Remember? ==>
      var c := step.config;
      Unambiguous(c) && (SubDirOf(c) != "" ==> MadeHere(s, nm.mountId(c), nm.PathOf(c)))
  }

  lemma StepKeepsDepths(nm: Naming, s: World, step: Step)
    requires MountInv(nm, s) && Enabled(nm, s, step)
    ensures DepthInv(nm, Next(nm, s, step))
  {
  }

  predicate IsCheck(step: Step) {
    step.BeginCheck? || step.DiscardCheck? || step.TakeCheck? || step.FinishCheck?
  }

  lemma StepKeepsCount(nm: Naming, s: World, step: Step)
    requires Counted(s) && Enabled(nm, s, step)
    ensures Counted(Next(nm, s, step))
  {
  }

  lemma StepKeepsTruth(nm: Naming, s: World, step: Step)
    requires DepthInv(nm, s) && Truthful(s) && Enabled(nm, s, step)
    ensures Truthful(Next(nm, s, step))
  {
  }

  lemma StepKeepsMounts(nm: Naming, s: World, step: Step)
    requires MountInv(nm, s) && Enabled(nm, s, step)
    ensures MountInv(nm, Next(nm, s, step))
  {
    StepKeepsDepths(nm, s, step);
    StepKeepsCount(nm, s, step);
    StepKeepsTruth(nm, s, step);
  }

  lemma StepKeepsCaches(nm: Naming, s: World, step: Step)
    requires nm.Faithful() && CacheInv(nm, s) && Enabled(nm, s, step) && Tidy(nm, s, step)
    ensures CacheInv(nm, Next(nm, s, step))
  {
    match step
    case Forget(id) => ForgotKeeps(nm, s, id);
    case Remember(c) => RememberedKeeps(nm, s, c);
    case _ => CacheStays(nm, s, Next(nm, s, step));
  }

  lemma StepKeeps(nm: Naming, s: World, step: Step, tidy: bool)
    requires nm.Faithful() && Inv(nm, s, tidy) && Enabled(nm, s, step) && (tidy ==> Tidy(nm, s, step))
    ensures Inv(nm, Next(nm, s, step), tidy)
  {
    StepKeepsMounts(nm, s, step);
    if tidy {
      StepKeepsCaches(nm, s, step);
    }
  }

  lemma StepApart(nm: Naming, s: World, step: Step, id: Id)
    requires Enabled(nm, s, step) && Locks(nm, step) != Some(id)
    ensures Apart(id, s, Next(nm, s, step))
  {
  }

  lemma StepStores(nm: Naming, s: World, step: Step, id: Id)
    requires nm.Faithful() && CacheInv(nm, s) && Enabled(nm, s, step) && Tidy(nm, s, step) &&
             Locks(nm, step) != Some(id)
    ensures StoresApart(nm, id, s, Next(nm, s, step))
  {
    if step.Forget? {
      ForgotApart(nm, s, step.id, id);
    } else if step.Remember? {
      RememberedApart(nm, s, step.config, id);
    } else {
      SameStores(nm, s, Next(nm, s, step), id);
    }
  }

  lemma SameStores(nm: Naming, s: World, s': World, id: Id)
    requires s'.stores == s.stores && s'.configs == s.configs
    ensures StoresApart(nm, id, s, s')
  {
  }

  /**
   Rely and guarantee meet: whatever a Get of another mount does, and whatever
   needs no lock, is to the holder of a mount's lock one of the moves it reckons
   with.
   */
  lemma StepIsOthers(nm: Naming, s: World, step: Step, id: Id, tidy: bool)
    requires nm.Faithful() && Inv(nm, s, tidy) && Enabled(nm, s, step) && (tidy ==> Tidy(nm, s, step))
    requires Locks(nm, step) != Some(id)
    ensures Others(nm, id, s, Next(nm, s, step), tidy)
  {
    StepApart(nm, s, step, id);
    StepKeeps(nm, s, step, tidy);
    if tidy {
      StepStores(nm, s, step, id);
    }
  }

  function After(nm: Naming, s: World, run: seq<Step>): World {
    if run == [] then s else Next(nm, After(nm, s, run[..|run| - 1]), run[|run| - 1])
  }

  ghost predicate Run(nm: Naming, s: World, run: seq<Step>) {
    run == [] || (Run(nm, s, run[..|run| - 1]) && Enabled(nm, After(nm, s, run[..|run| - 1]), run[|run| - 1]))
  }

  ghost predicate TidyRun(nm: Naming, s: World, run: seq<Step>) {
    run == [] || (TidyRun(nm, s, run[..|run| - 1]) && Tidy(nm, After(nm, s, run[..|run| - 1]), run[|run| - 1]))
  }

  /**
   In every interleaving of the steps of any Gets, of whatever configurations,
   checks and outside unmounts no target is ever mounted twice, and at most one
   check per mount is running.
   */
  lemma {:induction false} NeverStacks(nm: Naming, s: World, run: seq<Step>, id: Id)
    requires MountInv(nm, s) && Run(nm, s, run)
    ensures MountInv(nm, After(nm, s, run)) && Depth(After(nm, s, run), id) <= 1 &&
            After(nm, s, run).goroutines[id] <= 1
  {
    if run != [] {
      NeverStacks(nm, s, run[..|run| - 1], id);
      StepKeepsMounts(nm, After(nm, s, run[..|run| - 1]), run[|run| - 1]);
    }
  }

  /** If the configurations are unambiguous, every cached store is right, too. */
  lemma {:induction false} CachesStayRight(nm: Naming, s: World, run: seq<Step>)
    requires nm.Faithful() && CacheInv(nm, s) && Run(nm, s, run) && TidyRun(nm, s, run)
    ensures CacheInv(nm, After(nm, s, run))
  {
    if run != [] {
      CachesStayRight(nm, s, run[..|run| - 1]);
      StepKeepsCaches(nm, After(nm, s, run[..|run| - 1]), run[|run| - 1]);
    }
  }

  /** However much is done under other locks, or under none, it is one move the holder of a lock reckons with. */
  lemma {:induction false} RunIsOthers(nm: Naming, s: World, run: seq<Step>, id: Id, tidy: bool)
    requires nm.Faithful() && Inv(nm, s, tidy) && Run(nm, s, run) && (tidy ==> TidyRun(nm, s, run))
    requires forall i :: 0 <= i < |run| ==> Locks(nm, run[i]) != Some(id)
    ensures Others(nm, id, s, After(nm, s, run), tidy)
  {
    if run != [] {
      var before, last := run[..|run| - 1], run[|run| - 1];
      RunIsOthers(nm, s, before, id, tidy);
      StepIsOthers(nm, After(nm, s, before), last, id, tidy);
      OthersTransitive(nm, id, s, After(nm, s, before), After(nm, s, run), tidy);
    }
  }

  /** A mount can be gone again as soon as it is noted. */
  lemma MountedAndLost(nm: Naming, s: World, id: Id) returns (run: seq<Step>)
    requires Depth(s, id) == 0 && id !in s.mounted && id !in s.mounting
    ensures Run(nm, s, run)
    ensures var s' := After(nm, s, run);
            id in s'.mounted && Depth(s', id) == 0 && Era(s', id) == Era(s, id) + 1 && s'.made == s.made
  {
    RunOneMore(nm, s, [], DoMount(id));
    run := [] + [DoMount(id)];
    RunOneMore(nm, s, run, Note(id));
    run := run + [Note(id)];
    RunOneMore(nm, s, run, OutsideUnmount(id));
    run := run + [OutsideUnmount(id)];
  }

  /** So a Get can succeed with its subDir on no mount: MkdirAll then makes it below the mountpoint. */
  lemma SubDirOnNoMount(nm: Naming, s: World, c: Config) returns (run: seq<Step>)
    requires Depth(s, nm.mountId(c)) == 0 && nm.mountId(c) !in s.mounted && nm.mountId(c) !in s.mounting
    requires (nm.PathOf(c), Era(s, nm.mountId(c)) + 1) !in s.made
    ensures Run(nm, s, run + [MakeDir(c)] + [Remember(c)])
    ensures var s' := After(nm, s, run + [MakeDir(c)] + [Remember(c)]);
            nm.storeId(c) in s'.stores && nm.mountId(c) in s'.mounted &&
            (nm.PathOf(c), Era(s', nm.mountId(c))) !in s'.made
  {
    run := MountedAndLost(nm, s, nm.mountId(c));
    RunOneMore(nm, s, run, MakeDir(c));
    RunOneMore(nm, s, run + [MakeDir(c)], Remember(c));
  }

  lemma RunOneMore(nm: Naming, s: World, run: seq<Step>, step: Step)
    requires Run(nm, s, run) && Enabled(nm, After(nm, s, run), step)
    ensures Run(nm, s, run + [step]) && After(nm, s, run + [step]) == Next(nm, After(nm, s, run), step)
    ensures TidyRun(nm, s, run) && Tidy(nm, After(nm, s, run), step) ==> TidyRun(nm, s, run + [step])
  {
    assert (run + [step])[..|run|] == run;
  }

  lemma {:induction false} RunsJoin(nm: Naming, s: World, a: seq<Step>, b: seq<Step>)
    requires Run(nm, s, a) && Run(nm, After(nm, s, a), b)
    ensures Run(nm, s, a + b) && After(nm, s, a + b) == After(nm, After(nm, s, a), b)
    ensures TidyRun(nm, s, a) && TidyRun(nm, After(nm, s, a), b) ==> TidyRun(nm, s, a + b)
    decreases |b|
  {
    if b == [] {
      assert a + b == a;
    } else {
      var init, step := b[..|b| - 1], b[|b| - 1];
      assert a + b == (a + init) + [step];
      RunsJoin(nm, s, a, init);
      RunOneMore(nm, s, a + init, step);
    }
  }

  /** A mount that startup did not adopt is stacked on by the very first step of a Get. */
  lemma MissedIsStacked(nm: Naming, s: World, id: Id)
    requires Depth(s, id) > 0 && id !in s.mounted && id !in s.mounting
    ensures Run(nm, s, [DoMount(id)]) && Depth(After(nm, s, [DoMount(id)]), id) > 1
  {
    RunOneMore(nm, s, [], DoMount(id));
    assert [] + [DoMount(id)] == [DoMount(id)];
  }

  /** evictStores: the loop that deletes while it ranges over the map. */
  method EvictStores(stores: map<Id, string>, path: string) returns (left: map<Id, string>)
    ensures left == Evicted(stores, path)
  {
    left := stores;
    var rest := stores.Keys;
    while rest != {}
      invariant rest <= stores.Keys && left.Keys <= stores.Keys
      invariant forall t :: t in stores ==> (t in left <==> t in rest || !Under(stores[t], path))
      invariant forall t :: t in left ==> left[t] == stores[t]
      decreases |rest|
    {
      var t :| t in rest;
      rest := rest - {t};
      if Under(stores[t], path) {
        left := left - {t};
      }
    }
  }

  // --- Get ---------------------------------------------------------------------------------

  /** The steps of everybody else while the lock of a mount is held, by the world they find. */
  type Adversary = (Id, nat, World) -> seq<Step>

  /** The run is one of the others: every step is enabled when it is taken, and none under the lock of `id`. */
  ghost predicate Elsewhere(nm: Naming, id: Id, s: World, run: seq<Step>, tidy: bool) {
    && Run(nm, s, run) && (tidy ==> TidyRun(nm, s, run))
    && forall i :: 0 <= i < |run| ==> Locks(nm, run[i]) != Some(id)
  }

  ghost predicate Fair(nm: Naming, adversary: Adversary, tidy: bool) {
    forall id, i, s :: Inv(nm, s, tidy) ==> Elsewhere(nm, id, s, adversary(id, i, s), tidy)
  }

  /** How the world came to be what it is: by a run of enabled steps. */
  ghost predicate OnRecord(nm: Naming, start: World, log: seq<Step>, s: World, tidy: bool) {
    Run(nm, start, log) && s == After(nm, start, log) && (tidy ==> TidyRun(nm, start, log))
  }

  /** What a lock holder finds unchanged however long it waits, whatever became of checks. */
  ghost predicate Holding(nm: Naming, id: Id, s: World, s': World, tidy: bool) {
    && (id in s'.mounted <==> id in s.mounted) && (id in s'.mounting <==> id in s.mounting)
    && (tidy ==> StoresApart(nm, id, s, s'))
    && Depth(s', id) <= Depth(s, id) && Era(s', id) == Era(s, id) && s.made <= s'.made
  }

  lemma HoldingOn(nm: Naming, id: Id, a: World, b: World, c: World, tidy: bool)
    requires Holding(nm, id, a, b, tidy) && Holding(nm, id, b, c, tidy)
    ensures Holding(nm, id, a, c, tidy)
  {
  }

  /** The invariant, folded away: those who only pass it on do not look inside. */
  ghost predicate Right(nm: Naming, s: World, tidy: bool) {
    forall i {:trigger Unfolded(i)} :: Unfolded(i) ==> Inv(nm, s, tidy)
  }

  /** What it means for one mount. */
  lemma RightAt(nm: Naming, s: World, tidy: bool, id: Id)
    requires Right(nm, s, tidy)
    ensures Depth(s, id) <= 1 && (id in s.gone || (id !in s.mounted && id !in s.mounting) ==> Depth(s, id) == 0)
  {
    assert Unfolded(0);
  }

  lemma ChecksHold(nm: Naming, id: Id, s: World, step: Step, tidy: bool)
    requires IsCheck(step) && step.id == id
    ensures Holding(nm, id, s, Next(nm, s, step), tidy)
  {
  }

  /** What the cache says of a store is true of its configuration. */
  lemma CachedIsMade(nm: Naming, s: World, c: Config)
    requires nm.Faithful() && Right(nm, s, true) && Unambiguous(c) && nm.storeId(c) in s.stores && SubDirOf(c) != ""
    ensures MadeHere(s, nm.mountId(c), nm.PathOf(c))
  {
    assert Unfolded(0);
    assert CachedWell(nm, s, nm.storeId(c));
  }

  /** What the cache says of a mount that was seen live is true of that mount. */
  lemma CachedOnLive(nm: Naming, seen: World, s: World, c: Config)
    requires nm.Faithful() && Right(nm, seen, true) && StoresApart(nm, nm.mountId(c), seen, s) && Unambiguous(c)
    requires nm.storeId(c) in s.stores && SubDirOf(c) != "" && Depth(seen, nm.mountId(c)) > 0
    ensures (nm.PathOf(c), Era(seen, nm.mountId(c))) in seen.made
  {
    assert SameStore(seen, s, nm.storeId(c));
    CachedIsMade(nm, seen, c);
  }

  class Registry {
    const nm: Naming
    const adversary: Adversary
    /** The staleness checker; without one nothing is ever found stale. */
    const checker: bool
    /** No Get is of a configuration whose key is ambiguous. */
    ghost const tidy: bool
    var s: World
    var tick: nat
    /** The world the record starts from, and every step since, one's own and everybody else's. */
    ghost var start: World
    ghost var log: seq<Step>

    /** NewRegistry, before anything is adopted. `depth` are the mounts that are there already. */
    constructor (nm: Naming, adversary: Adversary, checker: bool, depth: map<Id, nat>, ghost tidy: bool)
      ensures this.nm == nm && this.adversary == adversary && this.checker == checker && this.tidy == tidy
      ensures s == World(map[], map[], map[], map[], depth, map[], {}, multiset{}, {}, {})
    {
      this.nm, this.adversary, this.checker, this.tidy, tick := nm, adversary, checker, tidy, 0;
      s := World(map[], map[], map[], map[], depth, map[], {}, multiset{}, {}, {});
      start, log := World(map[], map[], map[], map[], depth, map[], {}, multiset{}, {}, {}), [];
    }

    ghost predicate Valid()
      reads this
    {
      Right(nm, s, tidy) && Grounded()
    }

    /** Folded away likewise. */
    ghost predicate Grounded()
      reads this
    {
      forall i {:trigger Unfolded(i)} :: Unfolded(i) ==>
        nm.Faithful() && Fair(nm, adversary, tidy) && OnRecord(nm, start, log, s, tidy)
    }

    /** Whatever Gets did, it was a run: NeverStacks and CachesStayRight are about it. */
    lemma Kept()
      requires Valid()
      ensures nm.Faithful() && Fair(nm, adversary, tidy) && OnRecord(nm, start, log, s, tidy) && Inv(nm, s, tidy)
    {
      assert Unfolded(0);
    }

    lemma Named()
      requires Valid()
      ensures nm.Faithful()
    {
      Kept();
    }

    lemma Recorded()
      requires Valid()
      ensures OnRecord(nm, start, log, s, tidy)
    {
      Kept();
    }

    /** Others move. */
    method Yield(id: Id)
      requires Valid()
      modifies this
      ensures Valid() && Apart(id, old(s), s) && Holding(nm, id, old(s), s, tidy)
      ensures start == old(start) && old(log) <= log
    {
      tick := tick + 1;
      Kept();
      var run := adversary(id, tick, s);
      RunIsOthers(nm, s, run, id, tidy);
      RunsJoin(nm, start, log, run);
      s, log := After(nm, s, run), log + run;
    }

    /** Everything a Get changes, it changes by a step enabled then. */
    method Take(step: Step)
      requires Valid() && Enabled(nm, s, step) && (tidy ==> Tidy(nm, s, step))
      modifies `s, `log
      ensures Valid() && s == Next(nm, old(s), step) && log == old(log) + [step]
    {
      Kept();
      StepKeeps(nm, s, step, tidy);
      RunOneMore(nm, start, log, step);
      s, log := Next(nm, s, step), log + [step];
    }

    /** The steps of a check change nothing a lock holder relies on. */
    method StepCheck(id: Id, step: Step)
      requires Valid() && Enabled(nm, s, step)
      requires IsCheck(step) && step.id == id
      modifies `s, `log
      ensures Valid() && Holding(nm, id, old(s), s, tidy) && s == Next(nm, old(s), step) && old(log) <= log
    {
      ChecksHold(nm, id, s, step, tidy);
      Take(step);
    }

    /**
     checkMountPoint: at most one check in flight per mount. An abandoned check's
     answer only frees its slot; a fresh one is the truth at `seen`, some moment of
     this call.
     */
    method CheckMountPoint(id: Id) returns (answer: Option<Check>, ghost seen: World)
      requires Valid() && id in s.mounted
      modifies this
      ensures Valid() && Holding(nm, id, old(s), seen, tidy) && Holding(nm, id, seen, s, tidy) && Right(nm, seen, tidy)
      ensures answer.Some? ==>
                && answer.value.Answered? && id !in s.checking && (SaysGone(answer.value) ==> id in s.gone)
                && (!answer.value.failed ==> (answer.value.mounted <==> Depth(seen, id) > 0))
      ensures id in old(s).checking ==> answer == None
      ensures start == old(start) && old(log) <= log
    {
      seen := s;
      if id in s.checking {
        if s.checking[id].Answered? {
          StepCheck(id, DiscardCheck(id));
        }
        return None, seen;
      }
      StepCheck(id, BeginCheck(id));
      ghost var b := s;
      Yield(id);
      HoldingOn(nm, id, old(s), b, s, tidy);
      seen := s;
      var fails, late: bool := *, *;
      if late || s.checking[id].Answered? {
        return None, seen;
      }
      answer := Some(Answered(Depth(s, id) > 0, fails));
      Collect(id, answer.value);
    }

    /** The goroutine answers, and the answer is taken from the channel. */
    method Collect(id: Id, answer: Check)
      requires Valid() && Enabled(nm, s, FinishCheck(id, answer))
      modifies this
      ensures Valid() && Holding(nm, id, old(s), s, tidy) && id !in s.checking && (SaysGone(answer) ==> id in s.gone)
      ensures start == old(start) && old(log) <= log
    {
      StepCheck(id, FinishCheck(id, answer));
      ghost var b := s;
      Yield(id);
      HoldingOn(nm, id, old(s), b, s, tidy);
      b := s;
      StepCheck(id, Step.TakeCheck(id));
      HoldingOn(nm, id, old(s), b, s, tidy);
    }

    /** stillMounted: only a fresh, definitive answer says no, and then nothing is mounted there. */
    method StillMounted(id: Id) returns (still: bool, ghost definitive: bool, ghost seen: World)
      requires Valid() && id in s.mounted
      modifies this
      ensures Valid() && Holding(nm, id, old(s), seen, tidy) && Holding(nm, id, seen, s, tidy) && Right(nm, seen, tidy)
      ensures !still ==> Depth(s, id) == 0 && id in s.gone && id !in s.checking
      ensures definitive && still ==> Depth(seen, id) > 0
      ensures start == old(start) && old(log) <= log
    {
      seen, definitive := s, false;
      if !checker {
        return true, false, seen;
      }
      var answer;
      answer, seen := CheckMountPoint(id);
      if answer == None || answer.value.failed {
        return true, false, seen;
      }
      RightAt(nm, s, tidy, id);
      return answer.value.mounted, true, seen;
    }

    /** The first half of Get: the mount is there, or not known to be gone; mount(8) only hits an unmounted target. */
    method EnsureMounted(id: Id, supported: bool) returns (ok: bool, ghost live: bool, ghost seen: World)
      requires Valid() && id !in s.mounting && Free(id, '/')
      modifies this
      ensures Valid() && id !in s.mounting && old(s).made <= s.made && start == old(start) && old(log) <= log
      ensures ok ==> id in s.mounted && Era(seen, id) == Era(s, id) && (live ==> Depth(seen, id) == 1)
      ensures seen.made <= s.made && Right(nm, seen, tidy) && (tidy && ok ==> StoresApart(nm, id, seen, s))
      ensures !ok ==> id !in s.mounted
    {
      live, seen := false, s;
      var cached := id in s.mounted;
      if cached {
        cached, live, seen := StillMounted(id);
        RightAt(nm, seen, tidy, id);
        HoldingOn(nm, id, old(s), seen, s, tidy);
        if cached {
          return true, live, seen;
        }
        Take(Forget(id));
      }
      ok, seen := MountAnew(id, supported);
      live := ok;
    }

    /** Mounts a target that is not mounted. A failed mount mounts nothing. */
    method MountAnew(id: Id, supported: bool) returns (ok: bool, ghost seen: World)
      requires Valid() && id !in s.mounted && id !in s.mounting
      modifies this
      ensures Valid() && id !in s.mounting && old(s).made <= s.made && start == old(start) && old(log) <= log
      ensures ok ==> id in s.mounted && Depth(seen, id) == 1 && Era(seen, id) == Era(s, id) == Era(old(s), id) + 1
      ensures seen.made <= s.made && Right(nm, seen, tidy) && (tidy && ok ==> StoresApart(nm, id, seen, s))
      ensures !ok ==> id !in s.mounted
    {
      seen := s;
      Yield(id);
      var fails: bool := *;
      if fails || !supported {
        return false, seen;
      }
      RightAt(nm, s, tidy, id);
      Take(DoMount(id));
      seen := s;
      Yield(id);
      Take(Note(id));
      ok := true;
    }

    /**
     Creates the store's directory unless a cached entry says it is there. Either way
     it was made on the present mount, unless nothing is mounted there any more.
     */
    method EnsureSubDir(c: Config) returns (ok: bool, ghost skipped: bool)
      requires Valid() && (tidy ==> Unambiguous(c)) && nm.mountId(c) in s.mounted && nm.mountId(c) !in s.mounting
      modifies this
      ensures Valid() && Holding(nm, nm.mountId(c), old(s), s, tidy) && start == old(start) && old(log) <= log
      ensures ok && SubDirOf(c) != "" && (tidy || !skipped) ==> MadeHere(s, nm.mountId(c), nm.PathOf(c))
      ensures skipped ==> SubDirOf(c) == "" || nm.storeId(c) in old(s).stores
    {
      skipped := true;
      if SubDirOf(c) == "" {
        return true, true;
      }
      if nm.storeId(c) in s.stores {
        Named();
        if tidy {
          CachedIsMade(nm, s, c);
        }
        return true, true;
      }
      Yield(nm.mountId(c));
      var fails: bool := *;
      if fails {
        return false, false;
      }
      Take(MakeDir(c));
      return true, false;
    }

    /**
     Get. Under every interleaving the mount's target is mounted at most once, and
     by us only when it is not mounted. On success the store path handed out is the
     mount's path plus the subDir, cached with its configuration. The subDir was made
     on the mount there is, if there still is one; a Get that trusts the cache for it
     and saw the mount live knows that it was made on that very mount.
     */
    method Get(c: Config, supported: bool)
      returns (r: Option<string>, ghost live: bool, ghost skipped: bool, ghost seen: World)
      requires Valid() && (tidy ==> Unambiguous(c)) && nm.mountId(c) !in s.mounting
      modifies this
      ensures Valid() && nm.mountId(c) !in s.mounting && start == old(start) && old(log) <= log
      ensures Depth(s, nm.mountId(c)) <= 1 && OnRecord(nm, start, log, s, tidy)
      ensures r.Some? ==>
                && r.value == nm.PathOf(c) && nm.mountId(c) in s.mounted
                && nm.storeId(c) in s.stores && s.stores[nm.storeId(c)] == r.value
                && nm.storeId(c) in s.configs && s.configs[nm.storeId(c)] == c
                && Era(seen, nm.mountId(c)) == Era(s, nm.mountId(c)) && (live ==> Depth(seen, nm.mountId(c)) == 1)
      ensures r.Some? && SubDirOf(c) != "" && (tidy || !skipped) ==> MadeHere(s, nm.mountId(c), r.value)
      ensures r.Some? && SubDirOf(c) != "" && tidy && skipped && live ==> (r.value, Era(seen, nm.mountId(c))) in s.made
    {
      var id := nm.mountId(c);
      Named();
      Yield(id);
      skipped := true;
      var ok;
      ok, live, seen := EnsureMounted(id, supported);
      if ok {
        r, skipped := Finish(c, live, seen);
      } else {
        r := None;
      }
      RightAt(nm, s, tidy, id);
      Recorded();
    }

    /** The second half of Get, on a mount that is recorded. */
    method Finish(c: Config, ghost live: bool, ghost seen: World) returns (r: Option<string>, ghost skipped: bool)
      requires Valid() && (tidy ==> Unambiguous(c)) && nm.mountId(c) in s.mounted && nm.mountId(c) !in s.mounting
      requires Right(nm, seen, tidy) && seen.made <= s.made && (tidy ==> StoresApart(nm, nm.mountId(c), seen, s))
      requires live ==> Depth(seen, nm.mountId(c)) > 0
      modifies this
      ensures Valid() && nm.mountId(c) in s.mounted && nm.mountId(c) !in s.mounting
      ensures start == old(start) && old(log) <= log && Era(s, nm.mountId(c)) == Era(old(s), nm.mountId(c))
      ensures r.Some? ==>
                && r.value == nm.PathOf(c)
                && nm.storeId(c) in s.stores && s.stores[nm.storeId(c)] == r.value
                && nm.storeId(c) in s.configs && s.configs[nm.storeId(c)] == c
      ensures r.Some? && SubDirOf(c) != "" && (tidy || !skipped) ==> MadeHere(s, nm.mountId(c), r.value)
      ensures r.Some? && SubDirOf(c) != "" && tidy && skipped && live ==> (r.value, Era(seen, nm.mountId(c))) in s.made
    {
      if tidy && live && SubDirOf(c) != "" && nm.storeId(c) in s.stores {
        Named();
        CachedOnLive(nm, seen, s, c);
      }
      var ok;
      ok, skipped := EnsureSubDir(c);
      if !ok {
        return None, skipped;
      }
      Yield(nm.mountId(c));
      Take(Remember(c));
      r := Some(nm.PathOf(c));
    }

    /**
     AdoptExisting, at startup: records every store directory that is found to be
     a mountpoint. The registry starts out right if and only if every mount there is
     has its directory listed and its check answered; MissedIsStacked tells what
     becomes of one that has not.
     */
    method AdoptExisting(listed: seq<Id>, failing: set<Id>)
      requires nm.Faithful() && Fair(nm, adversary, tidy)
      requires s.mounted == map[] && s.stores == map[] && s.checking == map[] && s.goroutines == multiset{}
      requires s.mounting == {} && s.gone == {} && forall id :: id in s.depth ==> s.depth[id] <= 1
      modifies `s, `start, `log
      ensures s == old(s).(mounted := s.mounted) && start == s && log == []
      ensures forall id :: id in s.mounted <==> id in listed && id !in failing && Depth(s, id) > 0
      ensures forall id :: id in s.mounted ==> s.mounted[id] == nm.Target(id)
      ensures Valid() <==> forall id :: Depth(s, id) > 0 ==> id in listed && id !in failing
    {
      for i := 0 to |listed|
        invariant s == old(s).(mounted := s.mounted)
        invariant forall id :: id in s.mounted <==> id in listed[..i] && id !in failing && Depth(s, id) > 0
        invariant forall id :: id in s.mounted ==> s.mounted[id] == nm.Target(id)
      {
        assert listed[..i + 1] == listed[..i] + [listed[i]];
        if listed[i] !in failing && Depth(s, listed[i]) > 0 {
          s := s.(mounted := s.mounted[listed[i] := nm.Target(listed[i])]);
        }
      }
      assert listed[..|listed|] == listed;
      start, log := s, [];
      assert Unfolded(0);
    }
  }
}
