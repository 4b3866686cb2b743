/**
 pkg/driver/node.go and pkg/loop/state.go: staging, adopting, unstaging and
 re-staging one volume, by a caller that holds the volume's lock. Everybody
 else (other volumes' operations, unlocked publishes, the operator) moves
 between the commands; every command may fail; the process may die anywhere.
 */
module Node {
  import opened Text
  import opened Paths
  import opened Luks
  import opened Kernel
  import opened Views
  import opened Effects
  import opened Runs
  import opened Trace
  import opened HostCommands
  import opened Crypt
  import opened FailureTracker
  import opened StoreConfig

  datatype Code =
    | InvalidArgument | NotFound | Unavailable | FailedPrecondition | PermissionDenied | ResourceExhausted | Internal

  datatype Reply = OK | Error(code: Code)

  datatype StageRequest = StageRequest(context: Params, secrets: Params, flags: seq<string>, capable: bool)

  /** How a stage succeeded. */
  datatype How = Nothing | AlreadyStaged | Adopted(dev: Dev) | Fresh(dev: Dev)

  const SECRET_KEY := "key"
  const SECRET_PREVIOUS_KEY := "previousKey"
  const MIN_KEY_LEN: nat := 32

  /** keysFromSecrets. */
  function KeysFromSecrets(secrets: Params): Result<Keys, Code> {
    var current := Lookup(secrets, SECRET_KEY);
    if current == "" then Failure(FailedPrecondition)
    else if |current| < MIN_KEY_LEN then Failure(InvalidArgument)
    else Success(Keys(current, Lookup(secrets, SECRET_PREVIOUS_KEY)))
  }

  /** The secrets a re-stage passes on: the cached keys. */
  function SecretsOf(keys: Keys): Params {
    map[SECRET_KEY := keys.current] + if keys.previous != "" then map[SECRET_PREVIOUS_KEY := keys.previous] else map[]
  }

  /** A cached key comes back out of the secrets a re-stage builds from it. */
  lemma SecretsRoundTrip(secrets: Params, keys: Keys)
    requires KeysFromSecrets(secrets) == Success(keys)
    ensures KeysFromSecrets(SecretsOf(keys)) == Success(keys)
  {
    assert |SECRET_KEY| != |SECRET_PREVIOUS_KEY|;
  }

  predicate Encrypted(context: Params) {
    Lookup(context, PARAM_ENCRYPTED) == "true"
  }

  /** What a request that gets past the parameter checks asks for. */
  datatype Plan = Plan(encrypted: bool, keys: Keys)

  function PlanOf(req: StageRequest): Result<Plan, Code> {
    if ConfigFromParams(req.context).Failure? then Failure(InvalidArgument)
    else if !Encrypted(req.context) then Success(Plan(false, Keys("", "")))
    else
      match KeysFromSecrets(req.secrets)
      case Failure(code) => Failure(code)
      case Success(keys) =>
        if FormatFromParams(req.context, true).Failure? then Failure(InvalidArgument) else Success(Plan(true, keys))
  }

  /** What is mounted on the staging path. */
  function Target(s: Subject, dev: Dev, encrypted: bool): Source {
    if encrypted then Own(s) else OnLoop(dev)
  }

  function EntryFor(s: Subject, req: StageRequest, dev: Dev, encrypted: bool): Entry {
    Entry(s.volume, Some(dev), s.image, s.stage, if encrypted then Some(FbCrypt(s.volume)) else None,
          Some(req.context), req.flags)
  }

  /** The entry is in memory and in the file. */
  predicate Recorded(s: Subject, was: map<string, Entry>, now: map<string, Entry>, file: map<string, Entry>, e: Entry) {
    now == was[s.volume := e] && file == now
  }

  /** A failed stage leaves the entries as they were, or in memory the entry it could not write. */
  ghost predicate Forgotten(s: Subject, was: map<string, Entry>, now: map<string, Entry>, req: StageRequest,
                            encrypted: bool)
  {
    now == was || exists dev :: now == was[s.volume := EntryFor(s, req, dev, encrypted)]
  }

  /** Nothing uses the image and nothing is mounted on the staging path. */
  ghost predicate Unused(v: View) {
    v.user == None && v.stack == []
  }

  /** Nobody else can change what is unused. */
  lemma UnusedStays(s: Subject, v: View, v': View)
    requires Unused(v) && Shrinks(s, v, v') && Coherent(s, v) && Coherent(s, v')
    ensures Unused(v') && v'.loops == v.loops && v'.mapped == v.mapped && v'.disk == v.disk
  {
  }

  /** The one loop on the image is `dev`, and the volume is mounted through it on its staging path only. */
  ghost predicate StagedOn(s: Subject, v: View, dev: Dev, encrypted: bool) {
    && v.loops == {dev} && v.busy == Some(dev) && !v.dying && !v.spread
    && v.user == Some(Target(s, dev, encrypted)) && v.stack == [Target(s, dev, encrypted)]
  }

  /** The staging path shows the volume, through its loop `dev`. */
  ghost predicate MountedOver(s: Subject, v: View, dev: Dev, encrypted: bool) {
    && v.busy == Some(dev) && v.user == Some(Target(s, dev, encrypted))
    && v.stack != [] && Top(v.stack) == Target(s, dev, encrypted)
  }

  /** A loop that was on the image and shows at the staging path is still the image's, and its user. */
  lemma OverStillThere(s: Subject, a: View, b: View, dev: Dev, encrypted: bool)
    requires Coherent(s, a) && Coherent(s, b) && Shrinks(s, a, b) && dev in a.loops
    requires b.stack != [] && Top(b.stack) == Target(s, dev, encrypted)
    requires encrypted ==> b.mapped == Some(dev)
    ensures MountedOver(s, b, dev, encrypted)
  {
    var i := |b.stack| - 1;
    assert b.stack[i] == a.stack[i] == Target(s, dev, encrypted);
  }

  /**
   What a stage may leave of an unused volume when it is cut off anywhere and
   nobody else interferes: nothing in use; or the mapping open, unmounted; or
   the volume mounted on its staging path only.
   */
  ghost predicate Partial(s: Subject, v: View, encrypted: bool) {
    && !v.spread
    && (v.user == None ==> v.stack == [] && (encrypted ==> v.mapped == None))
    && (v.user.Some? ==>
          && v.busy.Some?
          && v.user.value == Target(s, v.busy.value, encrypted)
          && (v.stack == [v.user.value] || (encrypted && v.stack == [])))
  }

  lemma ClosePartial(s: Subject, v: View)
    requires Coherent(s, v) && Partial(s, v, true) && !OwnMounted(s, v)
    ensures Partial(s, CloseOwn(s, v), true)
  {
  }

  lemma DetachPartial(s: Subject, v: View, d: Dev, encrypted: bool)
    requires Coherent(s, v) && Partial(s, v, encrypted)
    ensures Partial(s, DetachFrom(v, d), encrypted)
  {
  }

  /** The stack can be taken down again: unmounted, on at most the one loop, and closed if it is open. */
  ghost predicate Undoable(s: Subject, v: View, dev: Dev, mapped: bool, encrypted: bool) {
    Partial(s, v, encrypted) && v.stack == [] && v.loops <= {dev} && !v.dying && (v.user.Some? ==> mapped)
  }

  lemma UndoableCloses(s: Subject, v: View, dev: Dev)
    requires Coherent(s, v) && Undoable(s, v, dev, true, true)
    ensures Steady(s, v) && !OwnMounted(s, v)
    ensures Undoable(s, CloseOwn(s, v), dev, false, true)
  {
  }

  lemma UndoableDetaches(s: Subject, v: View, v': View, dev: Dev, encrypted: bool)
    requires Coherent(s, v) && Coherent(s, v') && Undoable(s, v, dev, false, encrypted) && Shrinks(s, v, v')
    ensures Unused(DetachFrom(v', dev)) && DetachFrom(v', dev).loops == {}
  {
    UnusedStays(s, v, v');
  }

  /** The volume's device is up over the image's one loop, and not mounted yet. */
  ghost predicate ReadyOn(s: Subject, v: View, dev: Dev, encrypted: bool) {
    Undoable(s, v, dev, encrypted, encrypted) && v.loops == {dev} && (encrypted ==> v.user.Some?)
  }

  lemma ReadyStays(s: Subject, v: View, v': View, dev: Dev, encrypted: bool)
    requires Coherent(s, v) && Coherent(s, v') && ReadyOn(s, v, dev, encrypted) && Shrinks(s, v, v')
    ensures ReadyOn(s, v', dev, encrypted) && v'.disk == v.disk
  {
  }

  /** A device that is up is the image's only user, so a check and a mount of it are safe. */
  lemma ReadyIsSole(s: Subject, v: View, dev: Dev, encrypted: bool)
    requires Coherent(s, v) && ReadyOn(s, v, dev, encrypted)
    ensures SoleUser(s, v, Target(s, dev, encrypted)) && !UserMounted(v)
    ensures StagedOn(s, MountOn(v, Target(s, dev, encrypted)), dev, encrypted)
  {
  }

  /** Unmounting a volume staged here makes it ready again, if nobody published it meanwhile. */
  lemma StagedPops(s: Subject, v: View, dev: Dev, encrypted: bool)
    requires Coherent(s, v) && StagedOn(s, v, dev, encrypted)
    ensures Partial(s, v, encrypted) && Partial(s, Popped(v), encrypted)
    ensures Undoable(s, Popped(v), dev, encrypted, encrypted)
  {
    assert v.stack[..0] == [];
  }

  /** What a stage may do to the contents: nothing to a plain image, what Prepare may to an encrypted one. */
  ghost predicate Touched(was: Option<Disk>, now: Option<Disk>, plan: Plan) {
    if plan.encrypted && was.Some? then now.Some? && Reaches(was.value, now.value, plan.keys) else now == was
  }

  /** What it has done to them when it succeeds. */
  ghost predicate Finished(was: Option<Disk>, now: Option<Disk>, plan: Plan) {
    was.Some? && now.Some? &&
    (plan.encrypted ==> Accepts(was.value, plan.keys) && now.value == Settled(was.value, plan.keys))
  }

  /** Whether the image can be staged at all. */
  predicate Usable(disk: Option<Disk>, plan: Plan) {
    disk.Some? && (plan.encrypted ==> Accepts(disk.value, plan.keys))
  }

  /** Erasures are warranted, and there are none once the volume was finished. */
  ghost predicate Spared(was: Option<Disk>, a: seq<Erasure>, b: seq<Erasure>) {
    Warranted(a, b) && (was.Some? && Sealed(was.value) ==> b == a)
  }

  /** Nothing stands in the way of a stage: the volume is unused, or mounted on its staging path only. */
  ghost predicate Stageable(s: Subject, v: View, plan: Plan) {
    && Usable(v.disk, plan) && Partial(s, v, plan.encrypted)
    && (v.stack == [] ==> v.user == None)
  }

  /** cryptStatus. */
  function CryptStatus(p: Prepared): Code {
    match p
    case WrongKey => PermissionDenied
    case NotBlank => FailedPrecondition
    case _ => Internal
  }

  /** The volume's entry, if there is one. */
  function Recall(data: map<string, Entry>, s: Subject): Option<Entry> {
    if s.volume in data then Some(data[s.volume]) else None
  }

  /** The volume's entry says it is staged at this path. */
  predicate StagedHere(s: Subject, data: map<string, Entry>) {
    s.volume in data && data[s.volume].stage == s.stage
  }

  /** The volume is staged, encrypted or not as its entry says. */
  ghost predicate StagedAsRecorded(s: Subject, v: View, data: map<string, Entry>) {
    Recall(data, s).Some? && v.busy.Some? && StagedOn(s, v, v.busy.value, data[s.volume].cryptDev.Some?)
  }

  /** The two entries make for the same stage request. */
  predicate SameRequest(a: Entry, b: Entry) {
    a.volume == b.volume && a.stage == b.stage && a.context == b.context && a.flags == b.flags
  }

  /** Nothing but the devices of the volume's entry changed. */
  ghost predicate Retained(s: Subject, was: map<string, Entry>, now: map<string, Entry>, m: Entry) {
    s.volume in now && SameRequest(now[s.volume], m) && now == was[s.volume := now[s.volume]]
  }

  /** The stage request a re-stage builds from the entry and the cached key, if it can. */
  function RequestOf(m: Entry, keys: map<string, Keys>, s: Subject): Option<StageRequest> {
    if m.context == None then None
    else if !Encrypted(m.context.value) then Some(StageRequest(m.context.value, map[], m.flags, true))
    else if s.volume !in keys then None
    else Some(StageRequest(m.context.value, SecretsOf(keys[s.volume]), m.flags, true))
  }

  /** The plan of a re-stage's request, if it is accepted at all, carries the cached key. */
  lemma RestagePlan(m: Entry, keys: map<string, Keys>, s: Subject)
    requires RequestOf(m, keys, s).Some?
    ensures match PlanOf(RequestOf(m, keys, s).value)
            case Success(plan) => plan.encrypted ==> s.volume in keys && plan.keys == keys[s.volume]
            case Failure(_) => true
  {
    assert |SECRET_KEY| != |SECRET_PREVIOUS_KEY|;
  }

  /** A stage by such a request changes nothing but the devices of the entry. */
  lemma AgainRetains(s: Subject, was: map<string, Entry>, now: map<string, Entry>, m: Entry, req: StageRequest,
                     encrypted: bool)
    requires Recall(was, s).Some? && SameRequest(was[s.volume], m) && m.stage == s.stage && m.volume == s.volume
    requires m.context == Some(req.context) && m.flags == req.flags && Forgotten(s, was, now, req, encrypted)
    ensures Retained(s, was, now, m)
  {
  }

  /** The recorded device. */
  function Noted(m: Option<Entry>): set<Dev> {
    if m.Some? && m.value.loopDev.Some? then {m.value.loopDev.value} else {}
  }

  /** What an unstage detaches: by the image's name, or the recorded device if its file was silly-renamed. */
  predicate Detachable(s: Subject, m: Option<Entry>, d: Dev, back: string) {
    Base(back) == s.volume + IMAGE_EXT || (m.Some? && m.value.loopDev == Some(d) && SillyRenamed(back))
  }

  /** The recorded device, if it is listed under a silly name: whose file that was, its name does not tell. */
  function SillyRecorded(m: Option<Entry>, rows: map<Dev, string>): set<Dev> {
    set d | d in rows && m.Some? && m.value.loopDev == Some(d) && SillyRenamed(rows[d])
  }

  /**
   A loop picked for its listed name is not another volume's when it is detached,
   whatever the others did since, but for two: the loose one, and the recorded one
   if it was listed under a silly name.
   */
  lemma OthersNeverDetached(s: Subject, w: Subject, m: Option<Entry>, k: Kernel, v: View, d: Dev, run: seq<Move>)
    requires Sound(k) && Exclusive(k) && Sees(s, k, v) && WellNamed(s) && Ordered(s, k)
    requires d in RowsIn(k) && Detachable(s, m, d, RowsIn(k)[d])
    requires Runs.Run(k, run) && LeftTo(s, k, run) && w.image != s.image && On(After(k, run), d, w.image)
    ensures d in Loose(v) + SillyRecorded(m, RowsIn(k))
  {
    assert Spelled(0);
    SeesCoherent(s, k, v);
    RowTells(s, k, k.loops[d]);
    if d in v.loops && d !in Loose(v) {
      ListedStays(s, k, v, d, run);
    }
  }

  /** No loop is left on the image, or one still in use elsewhere, which goes with its user. */
  ghost predicate LetGo(v: View) {
    v.loops == {} || (v.dying && v.busy.Some? && v.loops == {v.busy.value})
  }

  /**
   What an unstage leaves on the image: the loop still in use elsewhere, and of a
   deleted image the loops that only a silly name is left of, but for the recorded one.
   */
  ghost predicate LetGoBut(v: View, m: Option<Entry>, rows: map<Dev, string>) {
    forall d :: d in v.loops ==>
      (v.busy == Some(d) && v.dying) || (v.disk == None && d in rows && SillyRenamed(rows[d]) && d !in Noted(m))
  }

  lemma NothingLeft(v: View, m: Option<Entry>, rows: map<Dev, string>)
    requires LetGoBut(v, m, rows)
    ensures v.disk.Some? || v.loops <= Noted(m) ==> LetGo(v)
  {
    if d :| d in v.loops && (v.disk.Some? || v.loops <= Noted(m)) {
      assert v.loops == {d};
    }
  }

  lemma LetGoButStays(s: Subject, v: View, v': View, m: Option<Entry>, rows: map<Dev, string>)
    requires Coherent(s, v) && Coherent(s, v') && Shrinks(s, v, v') && LetGoBut(v, m, rows)
    ensures LetGoBut(v', m, rows) && v'.loops <= v.loops && v'.disk == v.disk && (v.stack == [] ==> v'.stack == [])
  {
  }

  /** Of what `rows` lists, the pick covers the image's loops but for those, and nothing else but one. */
  lemma PickCovers(s: Subject, v: View, m: Option<Entry>, rows: map<Dev, string>, d: Dev)
    requires WellNamed(s) && RowsTell(s, v, rows) && d in rows
    ensures Detachable(s, m, d, rows[d]) ==> d in v.loops || d in SillyRecorded(m, rows)
    ensures !Detachable(s, m, d, rows[d]) && d in v.loops ==> v.disk == None && SillyRenamed(rows[d]) && d !in Noted(m)
  {
    assert Spelled(0);
  }

  /**
   From `a` on, the devices `gone` were detached, or are in use and marked autoclear,
   and of the others' moves only a loose loop fell victim.
   */
  ghost predicate LettingGo(a: View, v: View, gone: seq<Dev>) {
    && v.loops <= a.loops && v.mapped == a.mapped && v.disk == a.disk
    && (forall d :: d in v.loops && d in gone ==> v.busy == Some(d) && v.dying)
    && (forall d :: d in a.loops && d !in v.loops ==> d in gone || d in Loose(a))
    && (forall d :: d in Loose(v) ==> d in gone || d in Loose(a))
    && (a.stack == [] ==> v.stack == []) && (a.user == None ==> v.user == None)
  }

  lemma LettingGoMeanwhile(s: Subject, a: View, v: View, v': View, gone: seq<Dev>)
    requires Coherent(s, v) && Coherent(s, v') && Shrinks(s, v, v') && LettingGo(a, v, gone)
    ensures LettingGo(a, v', gone)
  {
    LooseShrinks(s, v, v');
  }

  lemma LettingGoOn(s: Subject, a: View, v: View, gone: seq<Dev>, d: Dev)
    requires Coherent(s, v) && LettingGo(a, v, gone)
    ensures LettingGo(a, DetachFrom(v, d), gone + [d])
    ensures d in a.loops && d !in gone && d !in v.loops ==> d in Loose(a)
  {
  }

  /** Nothing was added to the image. */
  ghost predicate Lesser(v: View, v': View) {
    v'.loops <= v.loops && v'.disk == v.disk && Loose(v') <= Loose(v) && (v.stack == [] ==> v'.stack == [])
  }

  const MAX_STAGE_UNMOUNTS: nat := 8

  /** Every mount on the staging path unmounted, topmost first. */
  ghost function PoppedAll(v: View): View
    decreases |v.stack|
  {
    if v.stack == [] then v else PoppedAll(Popped(v))
  }

  // --- pkg/loop/state.go ------------------------------------------------

  class State {
    const host: Host
    var data: map<string, Entry>

    /** LoadState. */
    constructor (host: Host)
      ensures this.host == host && data == host.stateFile
    {
      this.host := host;
      data := host.stateFile;
    }

    method Get(volume: string) returns (m: Option<Entry>)
      ensures m == if volume in data then Some(data[volume]) else None
    {
      m := if volume in data then Some(data[volume]) else None;
    }

    /** The map in memory changes first; the file follows if it can be written. */
    method Put(m: Entry) returns (ok: bool)
      requires host.Valid()
      modifies `data, host`k, host`v, host`log, host`alive, host`tick, host`stateFile
      ensures host.Ran(ok) && host.Passed(old(host.v), host.v)
      ensures !host.faulty && old(host.alive) ==> ok
      ensures data == old(data)[m.volume := m]
      ensures host.stateFile == if ok then data else old(host.stateFile)
    {
      data := data[m.volume := m];
      ok := host.WriteState(data);
    }

    method Delete(volume: string) returns (ok: bool)
      requires host.Valid()
      modifies `data, host`k, host`v, host`log, host`alive, host`tick, host`stateFile
      ensures host.Ran(ok) && host.Passed(old(host.v), host.v)
      ensures !host.faulty && old(host.alive) ==> ok
      ensures data == old(data) - {volume}
      ensures host.stateFile == if ok then data else old(host.stateFile)
    {
      data := data - {volume};
      ok := host.WriteState(data);
    }
  }

  // --- pkg/loop/losetup.go ----------------------------------------------

  /** Find: the attached devices `wanted` picks, in no particular order, each once. */
  method Find(rows: map<Dev, string>, wanted: (Dev, string) -> bool) returns (devs: seq<Dev>)
    ensures forall d :: d in devs <==> d in rows && wanted(d, rows[d])
    ensures forall i, j :: 0 <= i < j < |devs| ==> devs[i] != devs[j]
  {
    devs := [];
    var rest := rows.Keys;
    while rest != {}
      invariant rest <= rows.Keys
      invariant forall d :: d in devs <==> d in rows && d !in rest && wanted(d, rows[d])
      invariant forall i, j :: 0 <= i < j < |devs| ==> devs[i] != devs[j]
      decreases |rest|
    {
      var d :| d in rest;
      rest := rest - {d};
      if wanted(d, rows[d]) {
        devs := devs + [d];
      }
    }
  }

  /** FindBacking lists exactly the loops on the volume's image, if the image is there. */
  method FindBacking(host: Host) returns (ok: bool, devs: seq<Dev>)
    requires host.Valid()
    modifies host`k, host`v, host`log, host`alive, host`tick
    ensures host.Ran(ok) && host.Passed(old(host.v), host.v)
    ensures !host.faulty && old(host.alive) ==> ok
    ensures forall i, j :: 0 <= i < j < |devs| ==> devs[i] != devs[j]
    ensures ok ==> forall d :: d in devs ==> d in host.v.loops
    ensures ok && host.v.disk.Some? ==> forall d :: d in host.v.loops ==> d in devs
    ensures !host.noisy ==> host.k == old(host.k)
  {
    var rows;
    ok, rows := host.ListLoops();
    if ok {
      var image := host.subject.image;
      devs := Find(rows, (d: Dev, back: string) => Backs(back, image));
    } else {
      devs := [];
    }
  }

  // --- pkg/driver/node.go -----------------------------------------------

  class NodeServer {
    const host: Host
    const state: State
    const failures: Failures
    const luks: LuksLayer
    /** Stage secrets of encrypted volumes, in memory only. */
    var keys: map<string, Keys>

    constructor (host: Host, state: State, failures: Failures)
      requires state.host == host
      ensures this.host == host && this.state == state && this.failures == failures && luks.host == host
      ensures keys == map[]
    {
      this.host, this.state, this.failures, keys := host, state, failures, map[];
      luks := new LuksLayer(host);
    }

    ghost predicate Valid()
      reads this, host
    {
      state.host == host && luks.host == host && host.Valid()
    }

    /** A loop on the image that is mounted out of sight can be seen in pid 1's mount table. */
    ghost predicate Sighted(k: Kernel, v: View) {
      v.hidden ==> host.hostReadable && v.user.Some? && v.user.value in k.inHost
    }

    /** A loop on the image is mounted out of sight only, and not to be seen in pid 1's mount table. */
    ghost predicate Unsighted(k: Kernel, v: View) {
      !Sighted(k, v) && v.user.Some? && !MountedHere(k, v.user.value)
    }

    /**
     loopBusy: at the last look, a loop it clears was not the image's busy one, unless it
     was mounted out of sight only and the look at pid 1's table failed or did not show it.
     */
    method LoopBusy(dev: Dev) returns (ok: bool, busy: bool, ghost told: bool)
      requires Valid()
      modifies host`k, host`v, host`log, host`alive, host`tick, host`unanswered
      ensures host.Ran(ok) && host.Passed(old(host.v), host.v) && NoneAnew(old(host.k), host.k, host.v)
      ensures (old(host.unanswered) ==> host.unanswered) && (!told ==> host.unanswered || busy)
      ensures ok && !busy && dev in host.v.loops && host.v.busy == Some(dev) ==>
                !told && host.v.user == Some(OnLoop(dev)) && !MountedHere(host.k, OnLoop(dev))
      ensures !host.faulty && old(host.alive) ==> ok && (dev in host.v.loops && busy ==> old(host.v).user.Some?)
      ensures !host.noisy ==> host.k == old(host.k)
      ensures !host.faulty && !host.noisy && old(host.alive) && Sighted(old(host.k), old(host.v)) ==>
                old(host.v).user == Some(OnLoop(dev)) ==> told || busy
      ensures !host.faulty && !host.noisy && old(host.alive) && dev in host.v.loops &&
              Unsighted(old(host.k), old(host.v)) ==>
                !busy
    {
      ghost var a, k0 := host.v, host.k;
      var mounted, held;
      ok, mounted, told := LookForMounts(dev);
      if !ok || mounted {
        return ok, true, told;
      }
      ghost var c, k2 := host.v, host.k;
      ok, held := host.HasHolders(dev);
      host.PassedTransitive(a, c, host.v);
      NoneAnewTransitive(k0, k2, host.k, c, host.v);
      return ok, held, told;
    }

    /** The first two looks; a second one that fails is passed over. */
    method LookForMounts(dev: Dev) returns (ok: bool, mounted: bool, ghost told: bool)
      requires Valid()
      modifies host`k, host`v, host`log, host`alive, host`tick, host`unanswered
      ensures Valid() && (host.alive ==> old(host.alive)) && host.Passed(old(host.v), host.v)
      ensures NoneAnew(old(host.k), host.k, host.v) && (!host.noisy ==> host.k == old(host.k))
      ensures (old(host.unanswered) ==> host.unanswered) && (!told ==> host.unanswered || mounted || !ok)
      ensures mounted && dev in host.v.loops && ok ==> host.v.user == Some(OnLoop(dev))
      ensures ok && !mounted && dev in host.v.loops && host.v.user == Some(OnLoop(dev)) ==>
                !told && !MountedHere(host.k, OnLoop(dev))
      ensures (ok && mounted ==> host.alive) && (!host.faulty && old(host.alive) ==> ok && host.alive)
      ensures !host.faulty && !host.noisy && old(host.alive) && Sighted(old(host.k), old(host.v)) ==>
                old(host.v).user == Some(OnLoop(dev)) ==> told || mounted
      ensures !host.faulty && !host.noisy && old(host.alive) && dev in host.v.loops &&
              Unsighted(old(host.k), old(host.v)) ==>
                !mounted
    {
      ghost var a, k0 := host.v, host.k;
      told := false;
      ok, mounted := host.IsLoopMounted(dev);
      if !ok || mounted {
        return;
      }
      ghost var b, k1 := host.v, host.k;
      var answered, there;
      answered, there, told := host.IsLoopMountedInHost(dev);
      host.PassedTransitive(a, b, host.v);
      NoneAnewTransitive(k0, k1, host.k, b, host.v);
      mounted := answered && there;
    }

    /**
     The refusal loop. Past it nothing uses the image, unless a loop on it is mounted
     out of sight only and the look for it failed or did not show it; and without
     interference exactly then something does.
     */
    method RefuseBusy(devs: seq<Dev>) returns (r: Reply, ghost untold: set<Dev>)
      requires Valid() && host.alive && forall d :: d in devs <==> d in host.v.loops
      modifies host`k, host`v, host`log, host`alive, host`tick, host`unanswered
      ensures host.Ran(r.OK?) && host.Passed(old(host.v), host.v)
      ensures old(host.unanswered) || untold != {} ==> host.unanswered
      ensures r.OK? && host.v.user.Some? ==>
                && host.v.busy.Some? && host.v.busy.value in untold && host.v.user == Some(OnLoop(host.v.busy.value))
                && !MountedHere(host.k, host.v.user.value)
      ensures r.OK? && !host.noisy ==>
                (host.v.user.Some? <==>
                   old(host.v).hidden && old(host.v).busy.Some? && old(host.v).busy.value in untold)
      ensures !host.faulty && old(host.v).user == None ==> r.OK?
      ensures !host.faulty && !host.noisy && Sighted(old(host.k), old(host.v)) && r.OK? ==> host.v.user == None
      ensures !host.faulty && !host.noisy && Unsighted(old(host.k), old(host.v)) ==> r.OK? && host.v.user.Some?
      ensures !host.faulty && !r.OK? ==> r == Error(FailedPrecondition)
    {
      ghost var a := host.v;
      untold := {};
      for i := 0 to |devs|
        invariant Valid() && host.alive && host.Passed(a, host.v)
        invariant old(host.unanswered) || untold != {} ==> host.unanswered
        invariant !host.noisy ==> host.k == old(host.k)
        invariant !host.faulty && !host.noisy && Sighted(old(host.k), a) && a.busy.Some? &&
                  a.user == Some(OnLoop(a.busy.value)) ==>
                    a.busy.value !in untold
        invariant host.v.busy.Some? && host.v.busy.value in devs[..i] ==>
                    && host.v.user == Some(OnLoop(host.v.busy.value)) && host.v.busy.value in untold
                    && !MountedHere(host.k, OnLoop(host.v.busy.value))
      {
        ghost var b := host.v;
        var ok, busy;
        ghost var told;
        ok, busy, told := LoopBusy(devs[i]);
        host.PassedTransitive(a, b, host.v);
        if !ok {
          return Error(Internal), untold;
        }
        if busy {
          return Error(FailedPrecondition), untold;
        }
        if !told {
          untold := untold + {devs[i]};
        }
        assert devs[..i + 1] == devs[..i] + [devs[i]];
      }
      HiddenIfNotHere();
      return OK, untold;
    }

    /** A loop in use that is not mounted here is mounted out of sight. */
    lemma HiddenIfNotHere()
      requires Valid()
      ensures host.v.user.Some? && host.v.user.value.OnLoop? && !MountedHere(host.k, host.v.user.value) ==>
                host.v.hidden
    {
      if host.v.user.Some? && host.v.user.value.OnLoop? {
        host.Tie();
        LinkUse(host.subject, host.ThePast(), host.k, host.v, host.v.user.value.dev);
      }
    }

    /** Detaches idle leftovers one by one: the image's own, but for those gone before. */
    method DetachIdle(devs: seq<Dev>) returns (ok: bool)
      requires Valid() && host.alive && Unused(host.v) && forall d :: d in host.v.loops ==> d in devs
      requires forall i, j :: 0 <= i < j < |devs| ==> devs[i] != devs[j]
      modifies host`k, host`v, host`log, host`alive, host`tick, host`detached, host`strays
      ensures host.Ran(ok) && Unused(host.v)
      ensures host.v.mapped == old(host.v).mapped && host.v.disk == old(host.v).disk &&
              host.v.loops <= old(host.v).loops
      ensures !host.faulty ==> ok
      ensures ok ==> host.v.loops == {}
      ensures host.strays <= old(host.strays) + (set d | d in devs && d !in old(host.v).loops)
    {
      ghost var a := host.v;
      for i := 0 to |devs|
        invariant Valid() && host.alive && Unused(host.v)
        invariant host.v.mapped == a.mapped && host.v.disk == a.disk
        invariant forall d :: d in host.v.loops <==> d in a.loops && d !in devs[..i]
        invariant host.strays <= old(host.strays) + (set d | d in devs && d !in a.loops)
      {
        ghost var b := host.v;
        ghost var did, mid;
        ok, did, mid := host.Detach(devs[i]);
        UnusedStays(host.subject, b, mid);
        assert devs[i] in devs && devs[i] !in devs[..i];
        if !ok {
          return;
        }
        assert devs[..i + 1] == devs[..i] + [devs[i]];
      }
      ok := true;
    }

    /** detachOnFail: both commands are tried, and their errors dropped. */
    method Undo(dev: Dev, mapped: bool, ghost encrypted: bool)
      requires Valid() && (mapped ==> encrypted)
      modifies host`k, host`v, host`log, host`alive, host`tick, host`detached, host`strays
      ensures Valid() && (host.alive ==> old(host.alive)) && host.v.disk == old(host.v).disk
      ensures (!host.noisy || old(Steady(host.subject, host.v))) && old(Partial(host.subject, host.v, encrypted)) ==>
                Partial(host.subject, host.v, encrypted)
      ensures !host.faulty && old(host.alive) && old(Undoable(host.subject, host.v, dev, mapped, encrypted)) ==>
                host.alive && Unused(host.v) && host.v.loops == {}
      ensures dev in old(host.v).loops && !old(host.v).dying ==> host.strays == old(host.strays)
    {
      if mapped {
        CloseAfterFailure(dev);
      }
      DetachAfterFailure(dev, encrypted);
    }

    method DetachAfterFailure(dev: Dev, ghost encrypted: bool)
      requires Valid()
      modifies host`k, host`v, host`log, host`alive, host`tick, host`detached, host`strays
      ensures Valid() && (host.alive ==> old(host.alive)) && host.v.disk == old(host.v).disk
      ensures (!host.noisy || old(Steady(host.subject, host.v))) && old(Partial(host.subject, host.v, encrypted)) ==>
                Partial(host.subject, host.v, encrypted)
      ensures !host.faulty && old(host.alive) && old(Undoable(host.subject, host.v, dev, false, encrypted)) ==>
                host.alive && Unused(host.v) && host.v.loops == {}
      ensures dev in old(host.v).loops && !old(host.v).dying ==> host.strays == old(host.strays)
    {
      ghost var b := host.v;
      ghost var did, mid;
      var ok;
      ok, did, mid := host.Detach(dev);
      if Undoable(host.subject, b, dev, false, encrypted) {
        UndoableDetaches(host.subject, b, mid, dev, encrypted);
      }
      if Partial(host.subject, mid, encrypted) {
        DetachPartial(host.subject, mid, dev, encrypted);
      }
    }

    method CloseAfterFailure(ghost dev: Dev)
      requires Valid()
      modifies host`k, host`v, host`log, host`alive, host`tick
      ensures Valid() && (host.alive ==> old(host.alive)) && host.v.disk == old(host.v).disk
      ensures old(Steady(host.subject, host.v)) ==> Steady(host.subject, host.v)
      ensures (!host.noisy || old(Steady(host.subject, host.v))) && old(Partial(host.subject, host.v, true)) ==>
                Partial(host.subject, host.v, true)
      ensures !host.faulty && old(host.alive) && old(Undoable(host.subject, host.v, dev, true, true)) ==>
                host.alive && Undoable(host.subject, host.v, dev, false, true)
      ensures !old(host.v).dying ==> host.v.loops == old(host.v).loops && !host.v.dying
    {
      if Undoable(host.subject, host.v, dev, true, true) {
        UndoableCloses(host.subject, host.v, dev);
      }
      ghost var did, mid;
      var ok;
      ok, did, mid := host.Close();
      if did && Partial(host.subject, mid, true) {
        ClosePartial(host.subject, mid);
      }
    }

    /** Steps 2 to 5 of a stage: check, grow, mount and record a device that is up. */
    method MountTarget(req: StageRequest, dev: Dev, encrypted: bool) returns (r: Reply, ghost seen: View)
      requires Valid() && ReadyOn(host.subject, host.v, dev, encrypted)
      modifies state`data, host`k, host`v, host`log, host`alive, host`tick
      modifies host`detached, host`strays, host`stateFile, host`checked
      ensures host.Ran(r.OK?) && host.v.disk == old(host.v).disk && host.strays == old(host.strays)
      ensures r.OK? ==>
                StagedOn(host.subject, seen, dev, encrypted) && host.Passed(seen, host.v) && host.v.loops == {dev}
      ensures r.OK? ==>
                Recorded(host.subject, old(state.data), state.data, host.stateFile,
                         EntryFor(host.subject, req, dev, encrypted))
      ensures !r.OK? ==>
                Forgotten(host.subject, old(state.data), state.data, req, encrypted) &&
                host.stateFile == old(host.stateFile)
      ensures !host.noisy ==> Partial(host.subject, host.v, encrypted)
      ensures !host.faulty && old(host.alive) ==> r.OK?
    {
      var target := Target(host.subject, dev, encrypted);
      ghost var b := host.v;
      ReadyIsSole(host.subject, host.v, dev, encrypted);
      var ok := host.Fsck(target);
      ReadyStays(host.subject, b, host.v, dev, encrypted);
      if ok {
        ok := GrowAndMakeDir(dev, encrypted);
      }
      if ok {
        ghost var did;
        ok, did := MountDevice(dev, encrypted);
      }
      if !ok {
        Undo(dev, encrypted, encrypted);
        return Error(Internal), host.v;
      }
      seen := host.v;
      r := Record(req, dev, encrypted);
    }

    /** Step 4: the mount, which may have happened even if it is reported failed. */
    method MountDevice(dev: Dev, encrypted: bool) returns (ok: bool, ghost did: bool)
      requires Valid() && ReadyOn(host.subject, host.v, dev, encrypted) && host.checked
      modifies host`k, host`v, host`log, host`alive, host`tick
      ensures host.Ran(ok) && host.v.disk == old(host.v).disk && (ok ==> did)
      ensures Partial(host.subject, host.v, encrypted) && dev in host.v.loops && !host.v.dying
      ensures if did then StagedOn(host.subject, host.v, dev, encrypted)
              else ReadyOn(host.subject, host.v, dev, encrypted)
      ensures !host.faulty && old(host.alive) ==> ok
    {
      ghost var mid;
      ReadyIsSole(host.subject, host.v, dev, encrypted);
      ok, did, mid := host.MountStage(Target(host.subject, dev, encrypted));
      ReadyStays(host.subject, old(host.v), mid, dev, encrypted);
      ReadyIsSole(host.subject, mid, dev, encrypted);
      if did {
        StagedPops(host.subject, host.v, dev, encrypted);
      }
    }

    /** Step 5: record the mounted volume, or take it down again. */
    method Record(req: StageRequest, dev: Dev, encrypted: bool) returns (r: Reply)
      requires Valid() && StagedOn(host.subject, host.v, dev, encrypted)
      modifies state`data, host`k, host`v, host`log, host`alive, host`tick, host`detached, host`strays, host`stateFile
      ensures host.Ran(r.OK?) && host.v.disk == old(host.v).disk && host.strays == old(host.strays)
      ensures r.OK? ==> host.Passed(old(host.v), host.v) && host.v.loops == {dev}
      ensures r.OK? ==>
                Recorded(host.subject, old(state.data), state.data, host.stateFile,
                         EntryFor(host.subject, req, dev, encrypted))
      ensures !r.OK? ==>
                Forgotten(host.subject, old(state.data), state.data, req, encrypted) &&
                host.stateFile == old(host.stateFile)
      ensures !host.noisy ==> Partial(host.subject, host.v, encrypted)
      ensures !host.faulty && old(host.alive) ==> r.OK?
    {
      StagedPops(host.subject, host.v, dev, encrypted);
      var ok := state.Put(EntryFor(host.subject, req, dev, encrypted));
      if ok {
        return OK;
      }
      ghost var did, mid;
      ok, did, mid := host.UnmountStage();
      Undo(dev, encrypted, encrypted);
      return Error(Internal);
    }

    method GrowAndMakeDir(dev: Dev, encrypted: bool) returns (ok: bool)
      requires Valid() && ReadyOn(host.subject, host.v, dev, encrypted)
      modifies host`k, host`v, host`log, host`alive, host`tick
      ensures host.Ran(ok) && host.v.disk == old(host.v).disk && ReadyOn(host.subject, host.v, dev, encrypted)
      ensures !host.faulty && old(host.alive) ==> ok
    {
      ghost var b := host.v;
      ok := true;
      if !encrypted {
        ok := host.Run();
        ReadyStays(host.subject, b, host.v, dev, encrypted);
      }
      if ok {
        b := host.v;
        ok := host.Run();
        ReadyStays(host.subject, b, host.v, dev, encrypted);
      }
      if ok {
        b := host.v;
        ok := host.Run();
        ReadyStays(host.subject, b, host.v, dev, encrypted);
      }
    }

    /** Step 1 of a stage: attach a loop and, for an encrypted volume, prepare and open it. */
    method BringUp(plan: Plan) returns (r: Reply, dev: Dev)
      requires Valid() && host.alive && Unused(host.v) && host.v.loops == {}
      requires plan.encrypted ==> host.v.mapped == None
      modifies host`k, host`v, host`log, host`alive, host`tick
      modifies host`attached, host`detached, host`strays, host`checked, host`erasures
      ensures host.Ran(r.OK?) && Touched(old(host.v).disk, host.v.disk, plan) && host.strays == old(host.strays)
      ensures Spared(old(host.v).disk, old(host.erasures), host.erasures)
      ensures r.OK? ==>
                ReadyOn(host.subject, host.v, dev, plan.encrypted) && host.attached == old(host.attached) + [dev]
      ensures r.OK? ==> Finished(old(host.v).disk, host.v.disk, plan)
      ensures !r.OK? ==> Partial(host.subject, host.v, plan.encrypted)
      ensures !host.faulty ==>
                && host.alive && (r.OK? <==> Usable(old(host.v).disk, plan))
                && (!r.OK? ==> Unused(host.v) && host.v.loops == {})
    {
      var ok := host.Run();
      ghost var b := host.v;
      UnusedStays(host.subject, old(host.v), b);
      if !ok {
        return Error(Internal), 0;
      }
      ghost var did, mid;
      ok, dev, did, mid := host.Attach();
      UnusedStays(host.subject, b, mid);
      if !ok {
        var exhausted: bool := *;
        return Error(if exhausted then ResourceExhausted else Internal), 0;
      }
      if !plan.encrypted {
        return OK, dev;
      }
      r := OpenCrypt(dev, plan);
    }

    /** The encrypted half of step 1. */
    method OpenCrypt(dev: Dev, plan: Plan) returns (r: Reply)
      requires Valid() && plan.encrypted && AttachedIdle(host.subject, host.v, dev)
      requires host.v.loops == {dev} && host.v.mapped == None
      modifies host`k, host`v, host`log, host`alive, host`tick, host`detached, host`strays, host`erasures
      ensures host.Ran(r.OK?) && Touched(old(host.v).disk, host.v.disk, plan) && host.strays == old(host.strays)
      ensures Spared(old(host.v).disk, old(host.erasures), host.erasures)
      ensures r.OK? ==> ReadyOn(host.subject, host.v, dev, true) && Finished(old(host.v).disk, host.v.disk, plan)
      ensures !r.OK? ==> Partial(host.subject, host.v, true)
      ensures !host.faulty && old(host.alive) ==>
                && host.alive && (r.OK? <==> Usable(old(host.v).disk, plan))
                && (!r.OK? ==> Unused(host.v) && host.v.loops == {})
    {
      var ok := host.Run();
      if !ok {
        Undo(dev, false, true);
        return Error(Internal);
      }
      var p := luks.Prepare(dev, plan.keys);
      if !p.Ready? {
        Undo(dev, false, true);
        return Error(CryptStatus(p));
      }
      return OK;
    }

    /**
     What stages and re-stages do to the others: of their loops at most one that took
     the number of a loose one is detached, and the image was really free when a loop
     was attached to it, unless it was mounted out of sight and the look went unanswered.
     */
    twostate predicate Minds(more: set<Dev>)
      reads host
    {
      && (forall d :: d in host.strays ==> d in old(host.strays) || d in Loose(old(host.v)) || d in more)
      && (old(host.unanswered) ==> host.unanswered)
      && (host.safe == old(host.safe) || (UserMounted(old(host.v)) && host.unanswered))
      && (!host.noisy ==> host.safe == old(host.safe) || old(host.v).hidden)
    }

    /** The refusal, by a driver that believes its own looks. */
    method Believe(devs: seq<Dev>) returns (r: Reply, ghost blind: bool)
      requires Valid() && host.alive && host.v.stack == [] && forall d :: d in devs <==> d in host.v.loops
      modifies host`k, host`v, host`log, host`alive, host`tick, host`safe, host`unanswered
      ensures host.Ran(r.OK?) && host.v.disk == old(host.v).disk && host.v.mapped == old(host.v).mapped
      ensures r.OK? ==> Unused(host.v) && old(host.v).loops - Loose(old(host.v)) <= host.v.loops <= old(host.v).loops
      ensures Minds({}) && (blind ==> host.unanswered) && (!blind ==> host.safe == old(host.safe))
      ensures !host.noisy && blind ==> old(host.v).hidden && (host.faulty || !Sighted(old(host.k), old(host.v)))
      ensures !host.noisy && !blind ==> host.v == old(host.v)
      ensures !host.faulty && old(host.v).user == None ==> r.OK?
      ensures !host.faulty && !r.OK? ==> r == Error(FailedPrecondition)
    {
      ghost var a := host.v;
      ghost var untold;
      r, untold := RefuseBusy(devs);
      LooseShrinks(host.subject, a, host.v);
      blind := false;
      if r.OK? && host.v.user.Some? {
        // No step of the driver's: from here on it takes the image to be free.
        MountedShrinks(host.subject, a, host.v);
        blind := true;
        host.Overlook();
      }
    }

    /** The staging path is unmounted: refuse an image in use, drop idle leftovers. */
    method ClearWay(plan: Plan, devs: seq<Dev>) returns (r: Reply)
      requires Valid() && host.alive && host.v.stack == [] && forall d :: d in devs <==> d in host.v.loops
      requires forall i, j :: 0 <= i < j < |devs| ==> devs[i] != devs[j]
      modifies host`k, host`v, host`log, host`alive, host`tick, host`detached, host`strays, host`safe, host`unanswered
      ensures host.Ran(r.OK?) && host.v.disk == old(host.v).disk && Minds({})
      ensures r.OK? ==> Unused(host.v) && host.v.loops == {} && (plan.encrypted ==> host.v.mapped == None)
      ensures !host.noisy && old(Partial(host.subject, host.v, plan.encrypted)) ==>
                Partial(host.subject, host.v, plan.encrypted)
      ensures !host.faulty && old(Unused(host.v)) && (plan.encrypted ==> old(host.v).mapped == None) ==> r.OK?
      ensures !host.faulty && !r.OK? ==> r == Error(FailedPrecondition)
      ensures !host.faulty && !host.noisy && Sighted(old(host.k), old(host.v)) ==>
                host.safe == old(host.safe) && (!r.OK? ==> host.v == old(host.v))
      ensures !host.noisy && r.OK? &&
              (old(host.v).hidden ==> !host.unanswered || (!host.faulty && Sighted(old(host.k), old(host.v)))) ==>
                old(host.v).user == None && (plan.encrypted ==> old(host.v).mapped == None)
    {
      ghost var blind;
      r, blind := Believe(devs);
      if !r.OK? {
        return;
      }
      ghost var b := host.v;
      if plan.encrypted {
        var ok, backing := host.OwnMapping();
        UnusedStays(host.subject, b, host.v);
        if !ok {
          return Error(Internal);
        }
        if backing.Some? {
          return Error(FailedPrecondition);
        }
      }
      var ok := DetachIdle(devs);
      r := if ok then OK else Error(Internal);
    }

    /** A stage that attaches: from a clear way to a recorded mount over one fresh loop. */
    method AttachStage(req: StageRequest, plan: Plan, devs: seq<Dev>)
      returns (r: Reply, ghost dev: Dev, ghost seen: View)
      requires Valid() && host.alive && host.v.stack == [] && forall d :: d in devs <==> d in host.v.loops
      requires forall i, j :: 0 <= i < j < |devs| ==> devs[i] != devs[j]
      modifies state`data, host`k, host`v, host`log, host`alive, host`tick, host`safe, host`unanswered
      modifies host`attached, host`detached, host`strays, host`checked, host`erasures, host`stateFile
      ensures host.Ran(r.OK?) && Touched(old(host.v).disk, host.v.disk, plan) && Minds({})
      ensures Spared(old(host.v).disk, old(host.erasures), host.erasures)
      ensures r.OK? ==>
                StagedOn(host.subject, seen, dev, plan.encrypted) && host.Passed(seen, host.v) && host.v.loops == {dev}
      ensures r.OK? ==> host.attached == old(host.attached) + [dev] && Finished(old(host.v).disk, host.v.disk, plan)
      ensures r.OK? ==>
                Recorded(host.subject, old(state.data), state.data, host.stateFile,
                         EntryFor(host.subject, req, dev, plan.encrypted))
      ensures !r.OK? ==>
                Forgotten(host.subject, old(state.data), state.data, req, plan.encrypted) &&
                host.stateFile == old(host.stateFile)
      ensures !host.noisy && old(Partial(host.subject, host.v, plan.encrypted)) ==>
                Partial(host.subject, host.v, plan.encrypted)
      ensures !host.faulty && old(Unused(host.v)) && (plan.encrypted ==> old(host.v).mapped == None) &&
              Usable(old(host.v).disk, plan) ==>
                r.OK?
      ensures !host.faulty && !host.noisy && Sighted(old(host.k), old(host.v)) ==> host.safe == old(host.safe)
      ensures !host.faulty && !host.noisy && Sighted(old(host.k), old(host.v)) &&
              (old(host.v).user.Some? || (plan.encrypted && old(host.v).mapped.Some?)) ==>
                r == Error(FailedPrecondition) && host.v == old(host.v)
    {
      dev, seen := 0, host.v;
      r := ClearWay(plan, devs);
      if r.OK? {
        r, dev, seen := Build(req, plan);
      }
    }

    /** Past the checks: bring the device up, mount and record it. */
    method Build(req: StageRequest, plan: Plan) returns (r: Reply, ghost dev: Dev, ghost seen: View)
      requires Valid() && host.alive && Unused(host.v) && host.v.loops == {}
      requires plan.encrypted ==> host.v.mapped == None
      modifies state`data, host`k, host`v, host`log, host`alive, host`tick
      modifies host`attached, host`detached, host`strays, host`checked, host`erasures, host`stateFile
      ensures host.Ran(r.OK?) && Touched(old(host.v).disk, host.v.disk, plan) && host.strays == old(host.strays)
      ensures Spared(old(host.v).disk, old(host.erasures), host.erasures)
      ensures r.OK? ==>
                StagedOn(host.subject, seen, dev, plan.encrypted) && host.Passed(seen, host.v) && host.v.loops == {dev}
      ensures r.OK? ==> host.attached == old(host.attached) + [dev] && Finished(old(host.v).disk, host.v.disk, plan)
      ensures r.OK? ==>
                Recorded(host.subject, old(state.data), state.data, host.stateFile,
                         EntryFor(host.subject, req, dev, plan.encrypted))
      ensures !r.OK? ==>
                Forgotten(host.subject, old(state.data), state.data, req, plan.encrypted) &&
                host.stateFile == old(host.stateFile)
      ensures !host.noisy ==> Partial(host.subject, host.v, plan.encrypted)
      ensures !host.faulty ==> (r.OK? <==> Usable(old(host.v).disk, plan))
    {
      seen := host.v;
      var d;
      r, d := BringUp(plan);
      dev := d;
      if r.OK? {
        r, seen := MountTarget(req, d, plan.encrypted);
      }
    }

    /** adoptStage: the staging path is mounted; record the mount if it is this volume's. */
    method AdoptStage(req: StageRequest, plan: Plan, devs: seq<Dev>)
      returns (r: Reply, ghost dev: Dev, ghost seen: View)
      requires Valid() && host.alive && forall d :: d in devs <==> d in host.v.loops
      modifies state`data, host`k, host`v, host`log, host`alive, host`tick, host`stateFile
      ensures host.Ran(r.OK?) && host.Passed(old(host.v), host.v)
      ensures r.OK? ==>
                MountedOver(host.subject, seen, dev, plan.encrypted) && host.Passed(old(host.v), seen) &&
                host.Passed(seen, host.v)
      ensures r.OK? ==>
                Recorded(host.subject, old(state.data), state.data, host.stateFile,
                         EntryFor(host.subject, req, dev, plan.encrypted))
      ensures !r.OK? ==>
                Forgotten(host.subject, old(state.data), state.data, req, plan.encrypted) &&
                host.stateFile == old(host.stateFile)
      ensures !host.faulty && !host.noisy && old(Partial(host.subject, host.v, plan.encrypted)) &&
              old(host.v).stack != [] ==>
                r.OK?
    {
      ghost var a := host.v;
      dev := 0;
      var ok, source := host.StageSource();
      ghost var b := host.v;
      seen := b;
      if !ok {
        return Error(Internal), dev, seen;
      }
      var found := None;
      if plan.encrypted {
        if source == Own(host.subject) {
          var backing;
          ok, backing := host.OwnMapping();
          host.PassedTransitive(a, b, host.v);
          if !ok {
            return Error(Internal), dev, seen;
          }
          if backing.Some? && backing.value in devs {
            found := backing;
          }
        }
      } else if source.OnLoop? && source.dev in devs {
        found := Some(source.dev);
      }
      if found == None {
        return Error(FailedPrecondition), dev, seen;
      }
      dev := found.value;
      OverStillThere(host.subject, a, b, dev, plan.encrypted);
      ghost var c := host.v;
      ok := state.Put(EntryFor(host.subject, req, found.value, plan.encrypted));
      host.PassedTransitive(b, c, host.v);
      host.PassedTransitive(a, c, host.v);
      r := if ok then OK else Error(Internal);
    }

    /** cacheKeys: unless `replace`, a key already held is kept. */
    method CacheKeys(k: Keys, replace: bool)
      modifies `keys
      ensures keys == if replace || host.subject.volume !in old(keys) then old(keys)[host.subject.volume := k]
              else old(keys)
    {
      if replace || host.subject.volume !in keys {
        keys := keys[host.subject.volume := k];
      }
    }

    lemma LessMounted(a: View)
      requires Coherent(host.subject, a) && host.Passed(a, host.v)
      ensures Loose(host.v) <= Loose(a) && (UserMounted(host.v) ==> UserMounted(a))
    {
      LooseShrinks(host.subject, a, host.v);
      if UserMounted(host.v) {
        MountedShrinks(host.subject, a, host.v);
      }
    }

    /** Opens the backing store, stats the image and lists the loops on it. */
    method Survey() returns (r: Reply, devs: seq<Dev>)
      requires Valid()
      modifies host`k, host`v, host`log, host`alive, host`tick
      ensures host.Ran(r.OK?) && host.v.stack <= old(host.v).stack && host.v.disk == old(host.v).disk
      ensures (UserMounted(host.v) ==> UserMounted(old(host.v))) && Loose(host.v) <= Loose(old(host.v))
      ensures !host.noisy ==> host.v == old(host.v) && host.k == old(host.k)
      ensures r.OK? ==> forall d :: d in devs <==> d in host.v.loops
      ensures forall i, j :: 0 <= i < j < |devs| ==> devs[i] != devs[j]
      ensures !host.faulty && old(host.alive) ==> host.alive && (r.OK? <==> old(host.v).disk.Some?)
    {
      ghost var a := host.v;
      var ok := host.Run();
      if !ok {
        return Error(Internal), [];
      }
      ghost var b := host.v;
      ok := host.StatImage();
      host.PassedTransitive(a, b, host.v);
      if !ok {
        LessMounted(a);
        var storeMounted: bool := *;
        return Error(if storeMounted then NotFound else Unavailable), [];
      }
      b := host.v;
      ok, devs := FindBacking(host);
      host.PassedTransitive(a, b, host.v);
      LessMounted(a);
      r := if ok then OK else Error(Internal);
    }

    /** Mounts the backing store and looks at the staging path. */
    method Look(req: StageRequest) returns (r: Reply, mounted: bool)
      requires Valid()
      modifies host`k, host`v, host`log, host`alive, host`tick
      ensures host.Ran(r.OK?) && host.v.stack <= old(host.v).stack && host.v.disk == old(host.v).disk
      ensures (UserMounted(host.v) ==> UserMounted(old(host.v))) && Loose(host.v) <= Loose(old(host.v))
      ensures !host.noisy ==> host.v == old(host.v) && host.k == old(host.k)
      ensures r.OK? ==> req.capable && (mounted <==> host.v.stack != [])
      ensures !host.faulty && old(host.alive) ==> host.alive && (r.OK? <==> req.capable)
    {
      ghost var a := host.v;
      mounted := false;
      var ok := host.Run();
      if !ok {
        return Error(Internal), false;
      }
      if !req.capable {
        return Error(InvalidArgument), false;
      }
      ghost var b := host.v;
      ok, mounted := host.IsStaged();
      host.PassedTransitive(a, b, host.v);
      LessMounted(a);
      r := if ok then OK else Error(Internal);
    }

    /** The stage itself, once the path was looked at and is not a stage already recorded. */
    method StageAnew(req: StageRequest, plan: Plan, mounted: bool) returns (r: Reply, ghost how: How, ghost seen: View)
      requires Valid() && host.alive && (mounted || host.v.stack == [])
      modifies state`data, host`k, host`v, host`log, host`alive, host`tick, host`safe, host`unanswered
      modifies host`attached, host`detached, host`strays, host`checked, host`erasures, host`stateFile
      ensures host.Ran(r.OK?) && Minds({}) && AnewEffect(r, how, seen, req, plan, mounted)
      ensures !host.faulty && !host.noisy && old(Stageable(host.subject, host.v, plan)) &&
              (mounted ==> old(host.v).stack != []) ==>
                r.OK?
    {
      how, seen := Nothing, host.v;
      var devs;
      r, devs := Survey();
      if r.OK? {
        r, how, seen := StageSurveyed(req, plan, mounted, devs);
      }
    }

    method StageSurveyed(req: StageRequest, plan: Plan, mounted: bool, devs: seq<Dev>)
      returns (r: Reply, ghost how: How, ghost seen: View)
      requires Valid() && host.alive && (mounted || host.v.stack == []) && forall d :: d in devs <==> d in host.v.loops
      requires forall i, j :: 0 <= i < j < |devs| ==> devs[i] != devs[j]
      modifies state`data, host`k, host`v, host`log, host`alive, host`tick, host`safe, host`unanswered
      modifies host`attached, host`detached, host`strays, host`checked, host`erasures, host`stateFile
      ensures host.Ran(r.OK?) && Minds({}) && AnewEffect(r, how, seen, req, plan, mounted)
      ensures !host.faulty && !host.noisy && old(Stageable(host.subject, host.v, plan)) &&
              (mounted ==> old(host.v).stack != []) ==>
                r.OK?
    {
      ghost var dev;
      if mounted {
        r, dev, seen := AdoptStage(req, plan, devs);
        how := if r.OK? then Adopted(dev) else Nothing;
      } else {
        r, dev, seen := AttachStage(req, plan, devs);
        how := if r.OK? then Fresh(dev) else Nothing;
      }
    }

    /** What a stage did that was not recorded already. */
    twostate predicate AnewEffect(r: Reply, how: How, seen: View, req: StageRequest, plan: Plan, mounted: bool)
      reads host, state
    {
      && Touched(old(host.v).disk, host.v.disk, plan) && Spared(old(host.v).disk, old(host.erasures), host.erasures)
      && Witnessed(r, how, seen, plan)
      && (how.Fresh? ==>
            host.attached == old(host.attached) + [how.dev] && Finished(old(host.v).disk, host.v.disk, plan))
      && (r.OK? ==> how.Fresh? == !mounted)
      && (if r.OK? then
            Recorded(host.subject, old(state.data), state.data, host.stateFile,
                     EntryFor(host.subject, req, how.dev, plan.encrypted))
          else
            Forgotten(host.subject, old(state.data), state.data, req, plan.encrypted) &&
            host.stateFile == old(host.stateFile))
      && (!host.noisy && old(Partial(host.subject, host.v, plan.encrypted)) ==>
          Partial(host.subject, host.v, plan.encrypted))
    }

    /** What a stage that succeeded without finding itself done saw, and what is left of it now. */
    ghost predicate Witnessed(r: Reply, how: How, seen: View, plan: Plan)
      reads host
    {
      && (r.OK? <==> how != Nothing) && how != AlreadyStaged
      && (r.OK? ==> host.Passed(seen, host.v))
      && (how.Adopted? ==> MountedOver(host.subject, seen, how.dev, plan.encrypted))
      && (how.Fresh? ==> StagedOn(host.subject, seen, how.dev, plan.encrypted) && host.v.loops == {how.dev})
    }

    /**
     What a stage does. On success the volume was seen mounted on its staging
     path: found so, adopted from an unrecorded mount, or attached afresh, and then
     the image has exactly the one loop attached here. A failure leaves the failure
     mark, the keys and the state file as they were.
     */
    twostate predicate StageEffect(r: Reply, how: How, seen: View, req: StageRequest, plan: Plan)
      reads this, host, state, failures
    {
      && Touched(old(host.v).disk, host.v.disk, plan) && Spared(old(host.v).disk, old(host.erasures), host.erasures)
      && (how == AlreadyStaged ==>
            && r.OK? && seen.stack != [] && host.v == seen && (!host.noisy ==> seen == old(host.v))
            && StagedHere(host.subject, old(state.data)) && state.data == old(state.data) &&
               host.stateFile == old(host.stateFile)
            && failures.failed == old(failures.failed) && host.attached == old(host.attached))
      && (how != AlreadyStaged ==> Witnessed(r, how, seen, plan))
      && (how.Fresh? ==>
            host.attached == old(host.attached) + [how.dev] && Finished(old(host.v).disk, host.v.disk, plan))
      && (how.Adopted? || how.Fresh? ==>
            && Recorded(host.subject, old(state.data), state.data, host.stateFile,
                        EntryFor(host.subject, req, how.dev, plan.encrypted))
            && keys == (if plan.encrypted then old(keys)[host.subject.volume := plan.keys] else old(keys))
            && failures.failed == old(failures.failed) - {host.subject.volume})
      && (how == Nothing ==>
            && failures.failed == old(failures.failed) && keys == old(keys)
            && Forgotten(host.subject, old(state.data), state.data, req, plan.encrypted) &&
               host.stateFile == old(host.stateFile))
      && (old(host.v).stack == [] ==> how == Nothing || how.Fresh?)
      && (!host.noisy && old(host.v).stack != [] && StagedHere(host.subject, old(state.data)) ==>
            host.v == old(host.v) && (how == AlreadyStaged || how == Nothing))
      && (!host.noisy && old(Partial(host.subject, host.v, plan.encrypted)) ==>
          Partial(host.subject, host.v, plan.encrypted))
      && (!host.faulty && !host.noisy && old(host.alive) && req.capable &&
          old(Stageable(host.subject, host.v, plan)) ==>
            r.OK?)
    }

    /** stageLocked past the parameter checks. */
    method StagePlanned(req: StageRequest, plan: Plan) returns (r: Reply, ghost how: How, ghost seen: View)
      requires Valid()
      modifies this`keys, state`data, failures`failed, host`k, host`v, host`log, host`alive, host`tick
      modifies host`attached, host`detached, host`strays, host`safe, host`unanswered
      modifies host`checked, host`erasures, host`stateFile
      ensures host.Ran(r.OK?) && StageEffect(r, how, seen, req, plan) && Minds({})
    {
      how, seen := Nothing, host.v;
      var mounted;
      r, mounted := Look(req);
      if r.OK? {
        r, how, seen := StageLooked(req, plan, mounted);
      }
    }

    /** The same, once the staging path was looked at. */
    method StageLooked(req: StageRequest, plan: Plan, mounted: bool)
      returns (r: Reply, ghost how: How, ghost seen: View)
      requires Valid() && host.alive && req.capable && (mounted <==> host.v.stack != [])
      modifies this`keys, state`data, failures`failed, host`k, host`v, host`log, host`alive, host`tick
      modifies host`attached, host`detached, host`strays, host`safe, host`unanswered
      modifies host`checked, host`erasures, host`stateFile
      ensures host.Ran(r.OK?) && StageEffect(r, how, seen, req, plan) && Minds({})
    {
      var existing := state.Get(host.subject.volume);
      if existing.Some? && existing.value.stage == host.subject.stage && mounted {
        if plan.encrypted {
          CacheKeys(plan.keys, false);
        }
        return OK, AlreadyStaged, host.v;
      }
      r, how, seen := StageAnew(req, plan, mounted);
      if r.OK? {
        Settle(plan);
      }
    }

    /** The end of a stage that did something: the key is cached and the failure forgotten. */
    method Settle(plan: Plan)
      modifies `keys, failures`failed
      ensures keys == if plan.encrypted then old(keys)[host.subject.volume := plan.keys] else old(keys)
      ensures failures.failed == old(failures.failed) - {host.subject.volume}
    {
      if plan.encrypted {
        CacheKeys(plan.keys, true);
      }
      failures.Clear(host.subject.volume);
    }

    /** stageLocked. */
    method StageLocked(req: StageRequest) returns (r: Reply, ghost how: How, ghost seen: View)
      requires Valid()
      modifies this`keys, state`data, failures`failed, host`k, host`v, host`log, host`alive, host`tick
      modifies host`attached, host`detached, host`strays, host`safe, host`unanswered
      modifies host`checked, host`erasures, host`stateFile
      ensures host.Ran(r.OK?) && host.Lawful() && Minds({})
      ensures match PlanOf(req)
              case Success(plan) => StageEffect(r, how, seen, req, plan)
              case Failure(code) => r == Error(code) && unchanged(this, host, state, failures)
    {
      match PlanOf(req) {
        case Success(plan) => r, how, seen := StagePlanned(req, plan);
        case Failure(code) => r, how, seen := Error(code), Nothing, host.v;
      }
      host.Kept();
    }

    method PopOne() returns (ok: bool)
      requires Valid()
      modifies host`k, host`v, host`log, host`alive, host`tick
      ensures host.Ran(ok) && Shrinks(host.subject, old(host.v), host.v)
      ensures !host.faulty && old(host.alive) ==> ok
      ensures !host.noisy && ok ==> host.v == Popped(old(host.v))
      ensures !host.noisy && host.v.hidden ==> old(host.v).hidden
    {
      ghost var did, mid;
      ok, did, mid := host.UnmountStage();
      if did {
        PopCoheres(host.subject, mid);
        ShrinksTransitive(host.subject, old(host.v), mid, host.v);
      }
    }

    /** popStageMounts: every mount stacked on the staging path goes, up to MAX_STAGE_UNMOUNTS. */
    method PopStageMounts() returns (r: Reply)
      requires Valid()
      modifies host`k, host`v, host`log, host`alive, host`tick
      ensures host.Ran(r.OK?) && Shrinks(host.subject, old(host.v), host.v)
      ensures r.OK? ==> host.v.stack == []
      ensures !host.faulty && !host.noisy && old(host.alive) ==>
                host.alive && (r.OK? <==> |old(host.v).stack| <= MAX_STAGE_UNMOUNTS)
      ensures !host.noisy && r.OK? ==> host.v == PoppedAll(old(host.v))
      ensures !host.noisy && host.v.hidden ==> old(host.v).hidden
    {
      ghost var a := host.v;
      var i := 0;
      while true
        invariant 0 <= i <= MAX_STAGE_UNMOUNTS
        invariant Valid() && Shrinks(host.subject, a, host.v) && (host.alive ==> old(host.alive))
        invariant !host.faulty && old(host.alive) ==> host.alive
        invariant !host.noisy ==> |host.v.stack| == |a.stack| - i && PoppedAll(host.v) == PoppedAll(a)
        invariant !host.noisy && host.v.hidden ==> a.hidden
        decreases MAX_STAGE_UNMOUNTS - i
      {
        ghost var b := host.v;
        var ok, mounted := host.IsStaged();
        ShrinksTransitive(host.subject, a, b, host.v);
        if !ok {
          return Error(Internal);
        }
        if !mounted {
          return OK;
        }
        if i == MAX_STAGE_UNMOUNTS {
          return Error(Internal);
        }
        b := host.v;
        ok := PopOne();
        ShrinksTransitive(host.subject, a, b, host.v);
        if !ok {
          return Error(Internal);
        }
        i := i + 1;
      }
    }

    /** Closes the mapping the entry names, or, without an entry, tries the volume's own and drops the error. */
    method CloseForUnstage(m: Option<Entry>, ghost dev: Dev, ghost encrypted: bool) returns (ok: bool)
      requires Valid() && host.v.stack == []
      modifies host`k, host`v, host`log, host`alive, host`tick
      ensures Valid() && (host.alive ==> old(host.alive)) && Lesser(old(host.v), host.v)
      ensures ok && m.Some? && m.value.cryptDev.Some? ==> host.v.mapped == None
      ensures !host.faulty && !host.noisy && old(host.alive) &&
              Undoable(host.subject, old(host.v), dev, encrypted, encrypted) ==>
                (m.Some? && m.value.cryptDev.Some? == encrypted ==>
                   ok && host.alive && Unused(host.v) && host.v.loops == old(host.v).loops)
    {
      if encrypted && Undoable(host.subject, host.v, dev, true, true) {
        UndoableCloses(host.subject, host.v, dev);
      }
      ok := true;
      ghost var did, mid := false, host.v;
      if m.Some? {
        if m.value.cryptDev.Some? {
          ok, did, mid := host.Close();
        }
      } else {
        var closed;
        closed, did, mid := host.Close();
      }
      LooseShrinks(host.subject, old(host.v), mid);
    }

    /** The devices an unstage detaches, by what `rows` listed. */
    method FindDetachable(m: Option<Entry>) returns (ok: bool, devs: seq<Dev>, ghost rows: map<Dev, string>)
      requires Valid()
      modifies host`k, host`v, host`log, host`alive, host`tick
      ensures host.Ran(ok) && host.Passed(old(host.v), host.v)
      ensures ok ==> RowsTell(host.subject, host.v, rows)
      ensures ok ==> forall d :: d in devs <==> d in rows && Detachable(host.subject, m, d, rows[d])
      ensures forall i, j :: 0 <= i < j < |devs| ==> devs[i] != devs[j]
      ensures !host.faulty && old(host.alive) ==> ok
    {
      var listed;
      ok, listed := host.ListLoops();
      rows := listed;
      devs := [];
      if ok {
        var subject := host.subject;
        devs := Find(listed, (d: Dev, back: string) => Detachable(subject, m, d, back));
      }
    }

    /** Detaches them one by one; `n` tells how far it got. */
    method DetachEach(devs: seq<Dev>) returns (ok: bool, ghost n: nat)
      requires Valid() && host.alive && forall i, j :: 0 <= i < j < |devs| ==> devs[i] != devs[j]
      modifies host`k, host`v, host`log, host`alive, host`tick, host`detached, host`strays
      ensures host.Ran(ok) && n <= |devs| && host.detached == old(host.detached) + devs[..n] && (ok ==> n == |devs|)
      ensures LettingGo(old(host.v), host.v, devs[..n])
      ensures host.strays <= old(host.strays) + Loose(old(host.v)) + (set d | d in devs && d !in old(host.v).loops)
      ensures !host.faulty ==> ok
    {
      n := 0;
      ghost var a := host.v;
      for i := 0 to |devs|
        invariant Valid() && host.alive && n == i && host.detached == old(host.detached) + devs[..i]
        invariant LettingGo(a, host.v, devs[..i])
        invariant host.strays <= old(host.strays) + Loose(a) + (set d | d in devs && d !in a.loops)
      {
        ghost var b := host.v;
        ghost var did, mid;
        ok, did, mid := host.Detach(devs[i]);
        assert devs[i] in devs && devs[i] !in devs[..i];
        assert devs[..i + 1] == devs[..i] + [devs[i]];
        LettingGoMeanwhile(host.subject, a, b, mid, devs[..i]);
        LettingGoOn(host.subject, a, mid, devs[..i], devs[i]);
        n := if did then n + 1 else n;
        if !ok {
          return;
        }
      }
      ok := true;
    }

    /** The first half of an unstage: unmount everything on the staging path and close the mapping. */
    method TearDown(m: Option<Entry>, ghost dev: Dev, ghost encrypted: bool) returns (r: Reply)
      requires Valid()
      modifies host`k, host`v, host`log, host`alive, host`tick
      ensures Valid() && (host.alive ==> old(host.alive)) && Lesser(old(host.v), host.v)
      ensures r.OK? ==> host.v.stack == []
      ensures !host.faulty && !host.noisy && old(host.alive) && StagedOn(host.subject, old(host.v), dev, encrypted) ==>
                (m.Some? && m.value.cryptDev.Some? == encrypted ==>
                   r.OK? && host.alive && Unused(host.v) && host.v.loops == {dev})
    {
      if StagedOn(host.subject, host.v, dev, encrypted) {
        StagedPops(host.subject, host.v, dev, encrypted);
      }
      r := PopStageMounts();
      LooseShrinks(host.subject, old(host.v), host.v);
      if !r.OK? {
        return;
      }
      ghost var b := host.v;
      var removed := host.Run();
      LooseShrinks(host.subject, b, host.v);
      var ok := CloseForUnstage(m, dev, encrypted);
      r := if ok then OK else Error(Internal);
    }

    /** The second half: `gone` are the devices detached, by what `rows` listed. */
    method DetachImage(m: Option<Entry>) returns (ok: bool, ghost rows: map<Dev, string>, ghost gone: seq<Dev>)
      requires Valid() && host.v.stack == []
      modifies host`k, host`v, host`log, host`alive, host`tick, host`detached, host`strays
      ensures host.Ran(ok) && host.detached == old(host.detached) + gone
      ensures ok ==> host.v.stack == [] && LetGoBut(host.v, m, rows) && host.v.loops <= old(host.v).loops
      ensures forall d :: d in gone ==> d in rows && Detachable(host.subject, m, d, rows[d])
      ensures host.strays <= old(host.strays) + Loose(old(host.v)) + SillyRecorded(m, rows)
      ensures host.v.disk == old(host.v).disk
      ensures !host.faulty && old(host.alive) ==> ok
      ensures ok && old(host.v).user == None ==>
                && host.v.user == None
                && forall d :: d in old(host.v).loops ==>
                     d in rows && (d in host.v.loops <==> !Detachable(host.subject, m, d, rows[d]))
    {
      gone := [];
      var devs;
      ok, devs, rows := FindDetachable(m);
      LooseShrinks(host.subject, old(host.v), host.v);
      if !ok {
        return;
      }
      ghost var a := host.v;
      host.Named();
      forall d | d in rows
        ensures d in devs ==> d in a.loops || d in SillyRecorded(m, rows)
        ensures d !in devs && d in a.loops ==> a.disk == None && SillyRenamed(rows[d]) && d !in Noted(m)
      {
        PickCovers(host.subject, a, m, rows, d);
      }
      ghost var n;
      ok, n := DetachEach(devs);
      gone := devs[..n];
    }

    /**
     NodeUnstageVolume. On success nothing is mounted on the staging path, no loop
     is left on the image but one still in use elsewhere, which goes with its user,
     and the volume is forgotten. If the image was deleted, loops listed under a
     silly name are left too, but for the recorded one. Of others' loops at most
     that one and one that took a loose loop's number are detached.
     */
    method Unstage() returns (r: Reply, ghost rows: map<Dev, string>, ghost gone: seq<Dev>)
      requires Valid()
      modifies this`keys, state`data, failures`failed, host`k, host`v, host`log, host`alive, host`tick
      modifies host`detached, host`strays, host`stateFile
      ensures Valid() && (host.alive ==> old(host.alive)) && host.Lawful()
      ensures r.OK? ==> host.v.stack == [] && LetGoBut(host.v, Recall(old(state.data), host.subject), rows)
      ensures r.OK? && (old(host.v).disk.Some? || old(host.v).loops <= Noted(Recall(old(state.data), host.subject))) ==>
                LetGo(host.v)
      ensures r.OK? ==>
                && state.data == old(state.data) - {host.subject.volume} && keys == old(keys) - {host.subject.volume}
                && failures.failed == old(failures.failed) - {host.subject.volume}
      ensures !r.OK? ==> state.data == old(state.data) && keys == old(keys) && failures.failed == old(failures.failed)
      ensures host.detached == old(host.detached) + gone
      ensures forall d :: d in gone ==>
                d in rows && Detachable(host.subject, Recall(old(state.data), host.subject), d, rows[d])
      ensures host.strays <=
              old(host.strays) + Loose(old(host.v)) + SillyRecorded(Recall(old(state.data), host.subject), rows)
      ensures !host.faulty && !host.noisy && old(host.alive) &&
              old(StagedAsRecorded(host.subject, host.v, state.data)) ==>
                var m, d := Recall(old(state.data), host.subject), old(host.v).busy.value;
                && r.OK? && Unused(host.v) && host.stateFile == state.data && d in rows
                && host.v.loops == if Detachable(host.subject, m, d, rows[d]) then {} else {d}
    {
      rows, gone := map[], [];
      var m := state.Get(host.subject.volume);
      ghost var dev := if host.v.busy.Some? then host.v.busy.value else 0;
      r := TearDown(m, dev, m.Some? && m.value.cryptDev.Some?);
      if r.OK? {
        r, rows, gone := LetGoOfImage(m);
      }
      host.Kept();
    }

    /** The rest of an unstage, once nothing is mounted on the staging path. */
    method LetGoOfImage(m: Option<Entry>) returns (r: Reply, ghost rows: map<Dev, string>, ghost gone: seq<Dev>)
      requires Valid() && host.v.stack == [] && m == Recall(state.data, host.subject)
      modifies this`keys, state`data, failures`failed, host`k, host`v, host`log, host`alive, host`tick
      modifies host`detached, host`strays, host`stateFile
      ensures Valid() && (host.alive ==> old(host.alive))
      ensures r.OK? ==> host.v.stack == [] && LetGoBut(host.v, m, rows)
      ensures r.OK? && (old(host.v).disk.Some? || old(host.v).loops <= Noted(m)) ==> LetGo(host.v)
      ensures r.OK? ==>
                && state.data == old(state.data) - {host.subject.volume} && keys == old(keys) - {host.subject.volume}
                && failures.failed == old(failures.failed) - {host.subject.volume}
      ensures !r.OK? ==> state.data == old(state.data) && keys == old(keys) && failures.failed == old(failures.failed)
      ensures host.detached == old(host.detached) + gone
      ensures forall d :: d in gone ==> d in rows && Detachable(host.subject, m, d, rows[d])
      ensures host.strays <= old(host.strays) + Loose(old(host.v)) + SillyRecorded(m, rows)
      ensures !host.faulty && !host.noisy && old(host.alive) && old(host.v).user == None ==>
                && r.OK? && Unused(host.v) && (m.Some? ==> host.stateFile == state.data)
                && forall d :: d in old(host.v).loops ==>
                     d in rows && (d in host.v.loops <==> !Detachable(host.subject, m, d, rows[d]))
      ensures r.OK? ==> host.v.loops <= old(host.v).loops
    {
      var ok;
      ok, rows, gone := DetachImage(m);
      if !ok {
        return Error(Internal), rows, gone;
      }
      Forget(m, rows);
      r := OK;
    }

    /** The end of an unstage: the volume's key, entry and failure are forgotten. */
    method Forget(m: Option<Entry>, ghost rows: map<Dev, string>)
      requires Valid() && host.v.stack == [] && LetGoBut(host.v, m, rows) && m == Recall(state.data, host.subject)
      modifies this`keys, state`data, failures`failed, host`k, host`v, host`log, host`alive, host`tick, host`stateFile
      ensures Valid() && (host.alive ==> old(host.alive)) && host.v.stack == [] && LetGoBut(host.v, m, rows)
      ensures host.v.disk == old(host.v).disk && host.v.loops <= old(host.v).loops
      ensures host.v.disk.Some? || host.v.loops <= Noted(m) ==> LetGo(host.v)
      ensures state.data == old(state.data) - {host.subject.volume} && keys == old(keys) - {host.subject.volume}
      ensures failures.failed == old(failures.failed) - {host.subject.volume}
      ensures !host.noisy ==> host.v == old(host.v)
      ensures !host.faulty && old(host.alive) && m.Some? ==> host.stateFile == state.data
    {
      keys := keys - {host.subject.volume};
      if m.Some? {
        ghost var b := host.v;
        var deleted := state.Delete(host.subject.volume);
        LetGoButStays(host.subject, b, host.v, m, rows);
      }
      failures.Clear(host.subject.volume);
      NothingLeft(host.v, m, rows);
    }

    /** Closes the volume's mapping. */
    method CloseRecorded() returns (ok: bool)
      requires Valid() && host.v.stack == []
      modifies host`k, host`v, host`log, host`alive, host`tick
      ensures host.Ran(ok) && host.v.stack == [] && (UserMounted(host.v) ==> UserMounted(old(host.v)))
      ensures Loose(host.v) <= Loose(old(host.v)) && (!host.noisy && host.v.hidden ==> old(host.v).hidden)
    {
      ghost var did, mid;
      ok, did, mid := host.Close();
      LooseShrinks(host.subject, old(host.v), mid);
      if UserMounted(mid) {
        MountedShrinks(host.subject, old(host.v), mid);
      }
    }

    /** Lets go of the recorded devices without asking what is on them now. */
    method DropRecorded(m: Entry) returns (ok: bool)
      requires Valid() && host.v.stack == [] && m.loopDev.Some?
      modifies host`k, host`v, host`log, host`alive, host`tick, host`detached, host`strays
      ensures host.Ran(ok) && host.v.stack == [] && (UserMounted(host.v) ==> UserMounted(old(host.v)))
      ensures !host.noisy && host.v.hidden ==> old(host.v).hidden
      ensures host.strays <= old(host.strays) + Noted(Some(m)) && Loose(host.v) <= Loose(old(host.v)) + Noted(Some(m))
    {
      if m.cryptDev.Some? {
        ok := CloseRecorded();
        if !ok {
          return;
        }
      }
      ok := DetachRecorded(m.loopDev.value);
    }

    /** Detaches the recorded loop number, whatever is attached to it now. */
    method DetachRecorded(dev: Dev) returns (ok: bool)
      requires Valid() && host.v.stack == []
      modifies host`k, host`v, host`log, host`alive, host`tick, host`detached, host`strays
      ensures host.Ran(ok) && host.v.stack == [] && (UserMounted(host.v) ==> UserMounted(old(host.v)))
      ensures !host.noisy && host.v.hidden ==> old(host.v).hidden
      ensures host.strays <= old(host.strays) + {dev} && Loose(host.v) <= Loose(old(host.v)) + {dev}
    {
      ghost var did, mid;
      ok, did, mid := host.Detach(dev);
      LooseShrinks(host.subject, old(host.v), mid);
      if UserMounted(mid) {
        MountedShrinks(host.subject, old(host.v), mid);
      }
    }

    /** popStageMounts of a re-stage. */
    method UnmountAll() returns (r: Reply)
      requires Valid()
      modifies host`k, host`v, host`log, host`alive, host`tick
      ensures host.Ran(r.OK?) && (r.OK? ==> host.v.stack == [])
      ensures Loose(host.v) <= Loose(old(host.v)) && (UserMounted(host.v) ==> UserMounted(old(host.v)))
      ensures !host.noisy && host.v.hidden ==> old(host.v).hidden
    {
      r := PopStageMounts();
      LooseShrinks(host.subject, old(host.v), host.v);
      if UserMounted(host.v) {
        MountedShrinks(host.subject, old(host.v), host.v);
      }
    }

    /** The teardown of a re-stage, of a volume no pod publishes: afterwards the entry names no devices. */
    method Release(m: Entry) returns (r: Reply)
      requires Valid() && host.unpublished && Recall(state.data, host.subject) == Some(m)
      requires m.volume == host.subject.volume
      modifies state`data, host`k, host`v, host`log, host`alive, host`tick, host`detached, host`strays, host`stateFile
      ensures host.Ran(r.OK?) && (UserMounted(host.v) ==> UserMounted(old(host.v)))
      ensures !host.noisy && host.v.hidden ==> old(host.v).hidden
      ensures host.strays <= old(host.strays) + Noted(Some(m)) && Loose(host.v) <= Loose(old(host.v)) + Noted(Some(m))
      ensures r.OK? ==> host.v.stack == []
      ensures state.data == old(state.data) ||
              state.data == old(state.data)[host.subject.volume := m.(loopDev := None, cryptDev := None)]
      ensures r.OK? ==> state.data[host.subject.volume].loopDev == None
    {
      r := UnmountAll();
      if !r.OK? || m.loopDev == None {
        return;
      }
      var ok := DropRecorded(m);
      if !ok {
        return Error(Internal);
      }
      ghost var b := host.v;
      ok := state.Put(m.(loopDev := None, cryptDev := None));
      LessMounted(b);
      r := if ok then OK else Error(Internal);
    }

    /** What a re-stage asks of the entry before it touches anything. */
    method CheckRestage(m: Entry) returns (r: Reply)
      requires Valid()
      modifies host`k, host`v, host`log, host`alive, host`tick, host`unpublished
      ensures host.Ran(r.OK?) && host.Passed(old(host.v), host.v)
      ensures r.OK? ==> host.unpublished && RequestOf(m, keys, host.subject).Some?
    {
      var ok, published := host.IsPublished();
      if !ok {
        return Error(Internal);
      }
      if published || m.context == None {
        return Error(Unavailable);
      }
      if Encrypted(m.context.value) && host.subject.volume !in keys {
        return Error(Unavailable);
      }
      return OK;
    }

    /** The stage at the end of a re-stage: nothing is mounted any more, so it attaches or fails. */
    method StageAgain(m: Entry) returns (r: Reply, ghost how: How, ghost seen: View)
      requires Valid() && host.v.stack == [] && RequestOf(m, keys, host.subject).Some?
      requires Recall(state.data, host.subject).Some? && SameRequest(state.data[host.subject.volume], m)
      requires m.stage == host.subject.stage && m.volume == host.subject.volume
      modifies this`keys, state`data, failures`failed, host`k, host`v, host`log, host`alive, host`tick
      modifies host`attached, host`detached, host`strays, host`safe, host`unanswered
      modifies host`checked, host`erasures, host`stateFile
      ensures host.Ran(r.OK?) && Minds({})
      ensures Retained(host.subject, old(state.data), state.data, m) && keys == old(keys)
      ensures r.OK? ==>
                && how.Fresh? && host.attached == old(host.attached) + [how.dev]
                && StagedOn(host.subject, seen, how.dev, state.data[host.subject.volume].cryptDev.Some?)
                && host.Passed(seen, host.v) && host.v.loops == {how.dev}
                && failures.failed == old(failures.failed) - {host.subject.volume}
      ensures !r.OK? ==> failures.failed == old(failures.failed)
    {
      RestagePlan(m, keys, host.subject);
      ghost var was, req := state.data, RequestOf(m, keys, host.subject).value;
      r, how, seen := StageLocked(RequestOf(m, keys, host.subject).value);
      if PlanOf(req).Success? {
        AgainRetains(host.subject, was, state.data, m, req, PlanOf(req).value.encrypted);
      }
    }

    /** The re-stage of a failed volume that has an entry. */
    method RestageEntry(m: Entry) returns (r: Reply, ghost how: How, ghost seen: View)
      requires Valid() && Recall(state.data, host.subject) == Some(m)
      requires m.stage == host.subject.stage && m.volume == host.subject.volume
      modifies this`keys, state`data, failures`failed
      modifies host`k, host`v, host`log, host`alive, host`tick, host`attached, host`detached, host`strays
      modifies host`safe, host`unanswered, host`checked, host`erasures, host`stateFile, host`unpublished
      ensures host.Ran(r.OK?) && Minds(Noted(Some(m)))
      ensures Retained(host.subject, old(state.data), state.data, m) && keys == old(keys)
      ensures r.OK? ==>
                && how.Fresh? && host.attached == old(host.attached) + [how.dev]
                && StagedOn(host.subject, seen, how.dev, state.data[host.subject.volume].cryptDev.Some?)
                && host.Passed(seen, host.v) && host.v.loops == {how.dev}
                && failures.failed == old(failures.failed) - {host.subject.volume}
      ensures !r.OK? ==> failures.failed == old(failures.failed)
    {
      how, seen := Nothing, host.v;
      host.unpublished := false;
      r := CheckRestage(m);
      if r.OK? {
        r, how, seen := Rebuild(m);
      }
    }

    /** Nothing publishes it and the request can be built: tear down and stage again. */
    method Rebuild(m: Entry) returns (r: Reply, ghost how: How, ghost seen: View)
      requires Valid() && Recall(state.data, host.subject) == Some(m)
      requires m.stage == host.subject.stage && m.volume == host.subject.volume
      requires host.unpublished && RequestOf(m, keys, host.subject).Some?
      modifies this`keys, state`data, failures`failed
      modifies host`k, host`v, host`log, host`alive, host`tick, host`attached, host`detached, host`strays
      modifies host`safe, host`unanswered, host`checked, host`erasures, host`stateFile
      ensures host.Ran(r.OK?) && Minds(Noted(Some(m)))
      ensures Retained(host.subject, old(state.data), state.data, m) && keys == old(keys)
      ensures r.OK? ==>
                && how.Fresh? && host.attached == old(host.attached) + [how.dev]
                && StagedOn(host.subject, seen, how.dev, state.data[host.subject.volume].cryptDev.Some?)
                && host.Passed(seen, host.v) && host.v.loops == {how.dev}
                && failures.failed == old(failures.failed) - {host.subject.volume}
      ensures !r.OK? ==> failures.failed == old(failures.failed)
    {
      how, seen := Nothing, host.v;
      r := Release(m);
      if !r.OK? {
        return;
      }
      r, how, seen := StageAgain(m);
      if !r.OK? {
        r := Error(Internal);
      }
    }

    /**
     restageFailed. It succeeds only by attaching a fresh loop after its own
     teardown, never by adopting the broken mount. Whenever it fails, the failure
     mark stays, and so does everything the retry's stage request is built from.
     */
    method RestageFailed() returns (r: Reply, ghost how: How, ghost seen: View)
      requires Valid()
      requires var m := Recall(state.data, host.subject);
               m.Some? ==> m.value.stage == host.subject.stage && m.value.volume == host.subject.volume
      modifies this`keys, state`data, failures`failed
      modifies host`k, host`v, host`log, host`alive, host`tick, host`attached, host`detached, host`strays
      modifies host`safe, host`unanswered, host`checked, host`erasures, host`stateFile, host`unpublished
      ensures Valid() && (host.alive ==> old(host.alive)) && host.Lawful()
      ensures Minds(Noted(Recall(old(state.data), host.subject)))
      ensures host.subject.volume !in old(failures.failed) ==> r.OK? && unchanged(this, host, state, failures)
      ensures r.OK? && host.subject.volume in old(failures.failed) ==>
                && host.subject.volume in state.data && how.Fresh? && host.attached == old(host.attached) + [how.dev]
                && StagedOn(host.subject, seen, how.dev, state.data[host.subject.volume].cryptDev.Some?)
                && host.Passed(seen, host.v) && host.v.loops == {how.dev}
                && failures.failed == old(failures.failed) - {host.subject.volume}
      ensures !r.OK? ==> failures.failed == old(failures.failed) && keys == old(keys)
      ensures var m := Recall(old(state.data), host.subject);
              if m.None? then state.data == old(state.data)
              else Retained(host.subject, old(state.data), state.data, m.value) &&
                   RequestOf(state.data[host.subject.volume], keys, host.subject) ==
                   RequestOf(m.value, old(keys), host.subject)
    {
      how, seen := Nothing, host.v;
      host.Kept();
      var failed := failures.Get(host.subject.volume);
      if failed.None? {
        return OK, how, seen;
      }
      var found := state.Get(host.subject.volume);
      if found.None? {
        return Error(Unavailable), how, seen;
      }
      r, how, seen := RestageEntry(found.value);
      host.Kept();
    }

    /**
     NodePublishVolume: a failed volume is handed out only after it was re-staged over a
     fresh loop, the image's only one at `kept`, when the re-stage let go of the lock.
     The bind takes no lock: what it hands out is what shows at the staging path then.
     */
    method Publish(capable: bool, target: string, there: bool)
      returns (r: Reply, ghost how: How, ghost kept: View, ghost shown: View)
      requires Valid() && target != host.subject.stage
      requires var m := Recall(state.data, host.subject);
               m.Some? ==> m.value.stage == host.subject.stage && m.value.volume == host.subject.volume
      modifies this`keys, state`data, failures`failed
      modifies host`k, host`v, host`log, host`alive, host`tick, host`attached, host`detached, host`strays
      modifies host`safe, host`unanswered, host`checked, host`erasures, host`stateFile, host`unpublished
      ensures Valid() && (host.alive ==> old(host.alive)) && host.Lawful()
      ensures Minds(Noted(Recall(old(state.data), host.subject)))
      ensures r.OK? ==> capable && host.subject.volume !in failures.failed
      ensures r.OK? && !there ==> host.v == Bound(host.subject, shown)
      ensures r.OK? && host.subject.volume in old(failures.failed) ==>
                how.Fresh? && host.attached == old(host.attached) + [how.dev] && kept.loops == {how.dev}
      ensures host.subject.volume !in old(failures.failed) ==>
                unchanged(this, state, failures) && host.attached == old(host.attached)
    {
      how, kept, shown := Nothing, host.v, host.v;
      host.Kept();
      if !capable {
        return Error(InvalidArgument), how, kept, shown;
      }
      var failed := failures.Get(host.subject.volume);
      if failed.Some? {
        ghost var seen;
        r, how, seen := RestageFailed();
        kept := host.v;
        if !r.OK? {
          return;
        }
      }
      r, shown := Bind(target, there);
      host.Kept();
    }

    /** The bind mount itself, skipped when the target is mounted already. */
    method Bind(target: string, there: bool) returns (r: Reply, ghost shown: View)
      requires Valid() && target != host.subject.stage
      modifies host`k, host`v, host`log, host`alive, host`tick
      ensures Valid() && (host.alive ==> old(host.alive))
      ensures r.OK? && !there ==> host.v == Bound(host.subject, shown)
    {
      host.Unlocked();
      var ok := host.Run();
      shown := host.v;
      if !ok {
        return Error(Internal), shown;
      }
      host.Unlocked();
      ok := host.Run();
      if ok && there {
        return OK, shown;
      }
      host.Unlocked();
      ghost var did;
      ok, did, shown := host.BindStage(target);
      r := if ok then OK else Error(Internal);
    }
  }
}
