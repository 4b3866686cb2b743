# fileblock-csi: a verified model of the driver's protocols

fileblock-csi is a Kubernetes CSI driver. Each volume is one image file on a
backing store, attached to a loop device, optionally wrapped in dm-crypt (LUKS2),
and mounted as ext4 on a staging path, from where pods get bind mounts. Most of
what the driver does is a protocol over state it does not own (the loop table, the
open mappings, the mount table, the LUKS header) and may be cut off anywhere.

This project models that protocol in Dafny 4.11 and proves what the driver is
for. `dafny verify dfyconfig.toml` checks all of it.

## How the model is laid out

| file | what it models |
|---|---|
| `Kernel.dfy` | the whole node's loop table, mappings, mounts and image contents; each command as a function; every command keeps every image exclusive |
| `Views.dfy` | what one volume sees of the kernel, each command on that view, and the steps others may take meanwhile (`Shrinks`) |
| `Effects.dfy`, `Runs.dfy` | kernel and view agree command by command; whole runs of any operations; what others do is what a lock holder reckons with |
| `Trace.dfy` | the record that ties an operation's view to the kernel: a run of moves, its own and everybody else's; whose loops its detaches hit |
| `Host.dfy` | the commands as the driver meets them: others move first, the command may fail, the process may die; every command that takes effect goes on record |
| `Luks.dfy`, `Crypt.dfy` | image contents and LUKS headers; Prepare, rotate, isBlank |
| `Node.dfy`, `Failures.dfy` | the state file, stage, adopt, unstage, publish and re-stage; the failure tracker |
| `Reconcile.dfy`, `Recovery.dfy` | the startup reconcile over the whole node; crash and recovery of one volume |
| `Registry.dfy` | the backing-store registry under every interleaving |
| `Monitor.dfy`, `MountInfo.dfy` | the failed-volume monitor; reading mountinfo |
| `StoreConfig.dfy`, `Identity.dfy` | parameters, volume context and cipher format; mount, store and volume IDs |
| `Capacity.dfy` | capacity ranges, image sizes, loop sector sizes |
| `Text.dfy`, `Paths.dfy` | string and path operations of Go's library |

Three conventions run through the operations.

* **Failure and crash.** A host that is `faulty` may report any command failed, and a
  command reported failed (killed at its deadline, say) may have taken effect all the
  same. Its process may die at any point; after that its commands have no effect, so
  the final state of such a run is the state at the crash.
* **Interference.** A host that is `noisy` lets everybody else move before each
  command: any number of moves on the kernel that are allowed when they are made
  (`Runs.Run`) and leave the volume to the holder of its lock (`Runs.LeftTo`). On
  the view such moves only take something away (`Trace.LinkOthers`). Where the driver
  holds no lock, operations on the volume itself move, too (`Trace.LinkAnybody`).
* **The record.** A host holds the kernel, the view, and the log of moves that led
  there. Every command that takes effect appends its own move, which the view must
  allow (`Trace.LinkOwn`); the startup reconcile appends its own, however far it gets
  (`Recovery.LinkReconcile`). So every stage, unstage, re-stage, publish and restart,
  failing or cut off anywhere, ends with a log that is a run in the sense of
  `Runs.AlwaysExclusive` and with every image exclusive, as long as `safe` holds
  (`HostCommands.Host.Kept`). The registry of backing stores keeps a record of the same
  kind (`Registry.Registry.Kept`).

Two things can go wrong, and the contracts say when.

* A loop on the image that is mounted only in other mount namespaces, out of the
  driver's sight, is overlooked if the look at pid 1's mount table fails or that table
  does not show it. Then `safe` goes false and what the model goes on with is what the
  driver believes, not the kernel: `Runs.UnseenMountAdmitsSecondUser` tells what really
  happens. If nothing of the image is mounted when a stage begins, or every look could
  have shown what was there, `safe` stays; without interference it goes false exactly
  when a look fails to show a hidden mount (`Node.NodeServer.RefuseBusy`).
* A detach by number can hit another volume's loop. Every such number goes into
  `strays`. A stage adds none but that of a loop which was marked autoclear and in
  use (`Loose`) when the stage began; `Trace.RecycledExactly` shows that such a number can
  really be recycled, and no other. An unstage adds at most the recorded number
  besides, if it is listed under a silly-renamed file, and a re-stage the recorded
  number. While there are no strays the operation's moves are of the kind that
  `LeftTo` asks of everybody else (`Trace.CarefulIsLeftTo`).

## Assumptions

* findmnt, losetup and sysfs tell the truth at some moment of the call, as far as
  they see. Each cryptsetup command takes effect as a whole or not at all, and so does
  the write of the state file.
* A mount of a backing store that is reported failed mounts nothing, and nobody outside
  the driver mounts on its target. `Registry.MissedIsStacked` tells what becomes of a
  mount the registry does not know of.
* A loop reports its file by its path or by a tail of it that starts at a slash,
  with or without " (deleted)", or, once the file is deleted, by a silly name. What it
  reports may change at any time. A volume ID always names the same image, and no
  attached file of anybody outside the driver bears its name.
* A state entry's mapping, if it names one, is the one that bears its volume's name.
* SHA-256 prefixes do not collide: mapper names are a constructor applied to the
  volume ID, mount and store IDs an injective function of their keys.
* A kubelet uses one staging path per volume, and publish targets are not staging
  paths. While a volume's lock is held nobody outside the driver attaches its image or
  mounts a loop on it that is not mounted. Anybody may unmount, clone a mount namespace
  or let one go, at any time.
* Nothing else acts on the node while the startup reconcile runs. A mapping that
  bears a volume's name is over that volume's image when the record starts; that it
  stays so is proved (`Trace.OrderedRun`).
* The stores root and subDirs are clean paths, and a page is a power of two.

## Where the code and its comments differ

The model follows the code.

* rotate says it leaves exactly the slot of the current key. It frees one slot of
  the previous key. `Luks.RotationOutcome` and `Luks.ConvergesExactly` give the
  exact condition: the previous key is enrolled at most once.
* SectorSizeFor says its result always divides the image size. It does unless 512
  does not (`Capacity.SectorSizeFor`).
* A second reconcile changes nothing, except in one case: a plain entry's loop that
  is marked autoclear and used only by a mapping that no entry names
  (`Reconcile.SecondRunKeepsEntries`, `Reconcile.SecondRunCanDropAnEntry`).
* A re-stage detaches the recorded loop number unchecked; a recycled number costs
  another volume its loop (`Runs.RecycledNumberHarmsOther`). A stage and an unstage
  list loops first and detach by number then, so a listed loop that goes in between
  costs the same (`Trace.RecycledExactly`).
* loopBusy goes on when it cannot read pid 1's mount table, and it asks no other
  namespace's. What passes it is unused unless a loop is mounted out of sight only and
  that look failed or did not show it (`Node.NodeServer.RefuseBusy`).
* AdoptExisting says that a directory it skips costs a redundant mount at worst. If that
  directory is mounted, the next Get stacks a second mount on it
  (`Registry.Registry.AdoptExisting`, `Registry.MissedIsStacked`).
* An unstage of a volume whose image was deleted leaves the loops that are listed
  under silly names, but for the recorded one (`Node.NodeServer.Unstage`).
* A Get can succeed with the subDir made below the bare mountpoint, if the store is
  unmounted from outside in between (`Registry.SubDirOnNoMount`).
* Above 2^63 - 4096 bytes AlignUp wraps, and alignedCapacity returns a negative
  size without an error (`Capacity.AlignedCapacity`).
* Store keys tell stores apart when no field holds a "|"; with one they can
  collide (`Identity.BarsCollide`).

## Model

| member | source | states |
|---|---|---|
| `Runs.AlwaysExclusive` | pkg/driver/node.go:203-341 | In every run of any interleaved moves, wherever operations are cut off, no image ever has two live users (a mounted loop or a mapping over one); that the operations make such runs is `HostCommands.Host.Kept` |
| `Runs.AtMostOneLoopInUse` | pkg/driver/node.go:210-223 | In every such run at most one loop per image is in use |
| `Runs.StepSafe` | pkg/driver/node.go:213-246 | Whatever an operation may issue, going by its own volume's view, keeps the kernel's tables sound and every image exclusive |
| `Runs.OthersShrink` | pkg/driver/node.go:752-762 | A step issued for another volume that detaches none of this one's loops, a publish or an unmount is to a lock holder one that takes something away from its view at most |
| `Runs.MeanwhileShrinks` | pkg/driver/node.go:468-492 | However many such steps happen between two commands of a lock holder, together they are one |
| `Runs.OwnStep` | pkg/driver/node.go:260-320 | A command on the kernel does to its volume's view exactly what the view's command says |
| `Runs.SecondAttachExactly` | pkg/driver/node.go:210-223 | Attaching and mounting a fresh loop keeps images exclusive exactly when nobody uses the image |
| `Runs.PlainStageIsARun` | pkg/driver/node.go:251-320 | Such runs exist: the attach and mount of a plain volume nobody uses are one, and leave its loop in use |
| `Runs.UnseenMountAdmitsSecondUser` | pkg/driver/node.go:732-750 | With a loop on the image mounted in a namespace that loopBusy does not see, going on puts a second live user on the image |
| `Runs.RecycledNumberHarmsOther` | pkg/driver/node.go:546-555 | Detaching a recycled loop number is a step the other volume's operation reckons with exactly when the loop is not its own or is marked already |
| `Trace.LinkOwn` | pkg/driver/node.go:203-341 | A command that the view allows is one more move of the run on record, does to the view what it says, and keeps names telling whose loops are whose |
| `Trace.LinkOthers` | pkg/driver/node.go:752-762 | Whatever the others do between two commands is on record too, and shrinks the view at most |
| `Trace.LinkAnybody` | pkg/driver/node.go:482-491 | So is whatever happens while the lock is free, and names still tell whose loops are whose |
| `Trace.LinkOverlook` | pkg/driver/node.go:738-744 | Taking the image to be free although a loop on it is mounted out of sight ends the record, and nothing else |
| `Trace.LinkUse` | pkg/driver/node.go:732-750 | What the three looks of loopBusy ask the kernel about a loop on the image is what the view says of its user |
| `Trace.LinkTells` | pkg/loop/losetup.go:92-113 | losetup lists every loop on the image under its path or a tail, or a silly name if it was deleted, and nobody else's under its name |
| `Trace.OrderedRun` | pkg/loop/reconcile.go:31-43 | No run of others, nor of careful operations on the volume itself, makes loops report untruthfully, a foreign file bear the image's name, or the volume's mapping lie over a foreign image |
| `Trace.MountsNoneAnew` | pkg/driver/node.go:732-744 | Others never mount a loop that is on the image: what is mounted in this namespace afterwards was before |
| `Trace.ListedStays` | pkg/driver/node.go:239-246 | A listed loop stays on its image through whatever the others do, unless it is marked autoclear and in use by somebody else |
| `Trace.FleetingGoes` | pkg/driver/node.go:239-246 | Such a loop can go by moves of others alone |
| `Trace.RecycledExactly` | pkg/driver/node.go:203-246 | The number of a listed loop can be another volume's by the time it is detached if and only if it was such a loop |
| `Trace.AllCarefulIfEach` | pkg/driver/node.go:442-453 | If each of those who moved detached only loops of its own, so did all together |
| `Trace.CarefulIsLeftTo` | pkg/driver/node.go:752-762 | What such operations on other volumes do leaves a volume to the holder of its lock: the rely is what the operations guarantee |
| `Kernel.OneLoopInUse` | pkg/driver/node.go:210-212 | Exclusive images mean one loop in use per image |
| `Kernel.AttachedSafe` | pkg/loop/losetup.go:28-44 | A new loop keeps tables sound and images exclusive |
| `Kernel.DetachedSafe` | pkg/loop/losetup.go:69-81 | So does a detach, which only marks a loop in use |
| `Kernel.OpenedSafe` | pkg/crypt/crypt.go:143-146 | So does opening a mapping over a loop whose image nobody uses |
| `Kernel.ClosedSafe` | pkg/crypt/crypt.go:304-311 | So does closing an unmounted mapping, which frees an autoclear loop |
| `Kernel.MountedAtSafe` | pkg/mount/mount.go:91-103 | So does mounting a device that is its image's only user |
| `Kernel.BoundAtSafe` | pkg/mount/mount.go:105-116 | A bind mount adds no user to any image |
| `Kernel.UnmountedAtSafe` | pkg/mount/mount.go:118-131 | An unmount keeps tables sound and images exclusive |
| `Kernel.ShiftedSafe` | pkg/driver/node.go:738-744 | So does what happens in other mount namespaces, if it mounts nothing that is not mounted |
| `Effects.SeesOne` | pkg/driver/node.go:752-762 | A kernel with exclusive images shows a volume exactly one view |
| `Effects.SeesCoherent` | pkg/driver/node.go:203-212 | That view is coherent |
| `Effects.AttachSeen` | pkg/loop/losetup.go:28-44 | losetup on the kernel is AttachTo on the view |
| `Effects.DetachSeen` | pkg/loop/losetup.go:69-81 | losetup --detach on the kernel is DetachFrom on the view |
| `Effects.OpenSeen` | pkg/crypt/crypt.go:143-146 | Opening the mapping when the view shows no user finds the image unheld and gives it its one user |
| `Effects.CloseSeen` | pkg/crypt/crypt.go:304-311 | Closing the unmounted mapping is CloseOwn on the view |
| `Effects.MountSeen` | pkg/mount/mount.go:91-103 | Mounting the view's sole user is a safe mount on the kernel, and MountOn on the view |
| `Effects.UnmountSeen` | pkg/mount/mount.go:118-131 | Unmounting the staging path is Popped on the view |
| `Effects.BindSeen` | pkg/mount/mount.go:105-116 | A publish is Bound on the view |
| `Effects.LetsGoShrinks` | pkg/driver/node.go:604-614 | A kernel that only let go of mounts, foreign mappings and autoclear loops shrinks every view |
| `Views.ShrinksTransitive` | pkg/driver/node.go:752-762 | Steps of others compose |
| `Views.SteadyStays` | pkg/driver/node.go:251-290 | While nothing of a volume is mounted, nobody else can change anything about it |
| `HostCommands.Host.Kept` | pkg/driver/node.go:203-341 | In every state an operation reaches, while nothing was overlooked, every image is exclusive and the kernel is what a run of allowed moves makes of the start; while nothing strayed, its own detaches hit its own loops |
| `HostCommands.Host.Begin` | pkg/driver/node.go:203-206 | Between commands others shrink the view at most, a steady view does not change, and no loop of the image comes to be mounted |
| `HostCommands.Host.OthersMove` | pkg/driver/node.go:752-762 | The same of the others' moves, which go on record |
| `HostCommands.Host.Attempt` | pkg/loop/losetup.go:28-44 | A command reported failed may have taken effect, if the process was alive |
| `HostCommands.Host.Unlocked` | pkg/driver/node.go:482-491 | While the lock is free the view may become any other; the record goes on |
| `HostCommands.Host.Act` | pkg/driver/node.go:251-320 | A command the view allows takes effect on kernel and view alike and goes on record |
| `HostCommands.Host.ActDetach` | pkg/loop/losetup.go:69-81 | So does a detach, which strays only if the number is not one of the image's |
| `HostCommands.Host.IsLoopMountedInHost` | pkg/mount/mount.go:73-89 | May fail like any command, and shows only what pid 1's table shows; an answer of no that could have shown a mount means the image's loop is not in use by one that was not seen here before |
| `HostCommands.Host.ListLoops` | pkg/loop/losetup.go:92-113 | Every loop on the image is listed under its path or a tail of it, or a silly name if it was deleted; nobody else's under its name |
| `HostCommands.Host.MountStage` | pkg/driver/node.go:311-320 | Mounts only the image's sole user |
| `HostCommands.Host.Mkfs` | pkg/image/resize.go:20-29 | A failed mkfs may leave any filesystem state but touches no slot or label |
| `Paths.BacksIsIdentity` | pkg/loop/reconcile.go:31-43 | Of a file reported by its path or by any tail of it that starts at a slash, Backs answers exactly whether it is the image, as long as names tell files apart |
| `Paths.ReportKeepsName` | pkg/loop/reconcile.go:31-43 | Every such report bears the file's own name |
| `Paths.SillyIsNoImage` | pkg/loop/reconcile.go:24-29 | A silly name is no image's name |
| `Paths.TailIsDisconnectedImage` | pkg/loop/reconcile.go:19-22 | Every tail of a clean volume-image path is recognised as one of ours |
| `Luks.CutKeepsGoal` | pkg/crypt/crypt.go:106-152 | Cutting an attempt off anywhere does not change where later attempts end |
| `Luks.AttemptsConverge` | pkg/crypt/crypt.go:106-109 | After any number of cut-off attempts a complete one ends where a single one would |
| `Luks.ConvergesExactly` | pkg/crypt/crypt.go:182-223 | Attempts converge if and only if the previous key is enrolled at most once |
| `Luks.RotationNeverLocksOut` | pkg/crypt/crypt.go:182-216 | At every cut a supplied key still opens the header, other slots are untouched, and the previous key goes only once the current one is in |
| `Luks.RotationOutcome` | pkg/crypt/crypt.go:185-223 | After success the current key opens; a distinct previous one does not, exactly when it was enrolled at most once |
| `Luks.SealedForever` | pkg/crypt/crypt.go:154-163 | A finished volume keeps label and filesystem under attempts with any keys |
| `Luks.SuccessSeals` | pkg/crypt/crypt.go:156-171 | Success finishes the volume |
| `Crypt.IsBlank` | pkg/crypt/crypt.go:253-274 | True exactly when the first 16 MiB, or the whole shorter device, are zero, however short the reads |
| `Crypt.LuksLayer.Rotate` | pkg/crypt/crypt.go:182-223 | Whatever fails, the slots are those before, those with the key added, or the target; a wrong key changes nothing |
| `Crypt.LuksLayer.EnsureFilesystem` | pkg/crypt/crypt.go:154-171 | mkfs runs only over a volume labelled as owing it, and the label changes only after it succeeded |
| `Crypt.LuksLayer.FormatAndRotate` | pkg/crypt/crypt.go:110-142 | Formats only a blank header area; reliable runs succeed exactly when the keys are accepted |
| `Crypt.LuksLayer.Prepare` | pkg/crypt/crypt.go:106-152 | Any end leaves contents a cut-off attempt may leave; success leaves what an uninterrupted one does, with the mapping open; a finished volume is never formatted or made a filesystem on |
| `Crypt.LuksLayer.PrepareUntilDone` | pkg/crypt/crypt.go:106-152 | Any number of attempts failing or cut off anywhere, then one without failures, leave exactly what a single uninterrupted attempt leaves |
| `Crypt.LuksLayer.PrepareWithAll` | pkg/crypt/crypt.go:154-163 | Over any attempts with any keys after success, nothing is erased again |
| `Node.SecretsRoundTrip` | pkg/driver/node.go:526-540 | A cached key comes back out of the secrets a re-stage builds from it |
| `Node.State.Put` | pkg/loop/state.go:80-85 | Memory changes first, the file only if it can be written |
| `Node.State.Delete` | pkg/loop/state.go:87-92 | The same for removal |
| `Node.Find` | pkg/loop/losetup.go:130-143 | Exactly the attached devices the predicate picks, each once |
| `Node.FindBacking` | pkg/loop/losetup.go:124-128 | Exactly the loops on the volume's image, if the image is there; never another's |
| `Node.NodeServer.LoopBusy` | pkg/driver/node.go:732-750 | A loop it clears is not the image's busy one, whatever others did between its three looks, unless it is mounted out of sight only and the look at pid 1's table failed or did not show it; a loop that is so mounted and not to be seen there, it does clear |
| `Node.NodeServer.RefuseBusy` | pkg/driver/node.go:210-223 | Past the refusal loop nothing uses the image unless a loop is mounted out of sight only and its look failed or did not show it; without interference exactly then something does |
| `Node.NodeServer.DetachIdle` | pkg/driver/node.go:239-246 | Every idle leftover is detached; a number strays only if it was not one of the image's any more when the detaching began |
| `Node.NodeServer.Undo` | pkg/driver/node.go:267-290 | Taking a failed stage down leaves no loop if its commands succeed, and nothing unexpected if not |
| `Node.NodeServer.BringUp` | pkg/driver/node.go:251-290 | From a clear way to a device over one fresh loop; a refused key leaves nothing attached |
| `Node.NodeServer.MountTarget` | pkg/driver/node.go:292-335 | Checks, grows, mounts and records the device that alone uses the image |
| `Node.NodeServer.Record` | pkg/driver/node.go:322-335 | The entry is in memory and file, or the mount is taken down again |
| `Node.NodeServer.ClearWay` | pkg/driver/node.go:210-249 | Refuses an image in use or an open mapping, and leaves no loop on the image; strays at most the loose loop's number, and stays safe if nothing is mounted or every look could show it |
| `Node.NodeServer.Believe` | pkg/driver/node.go:210-223 | The refusal as the driver takes it: what passes is treated as unused, and really was, unless a hidden mount's look failed or did not show it |
| `Node.NodeServer.AttachStage` | pkg/driver/node.go:210-341 | Success leaves exactly one loop on the image, attached here and named by the entry, with the volume mounted through it; a used image is refused and left alone, if a hidden mount of it can be seen in pid 1's table |
| `Node.OverStillThere` | pkg/driver/node.go:379-391 | A listed loop that shows at the staging path is still the image's, and its user |
| `Node.NodeServer.AdoptStage` | pkg/driver/node.go:359-405 | Adopts only a mount of this volume's own device, and records the loop under it; never mounts anything |
| `Node.NodeServer.CacheKeys` | pkg/driver/node.go:343-357 | A held key stays unless replaced |
| `Node.NodeServer.StageLocked` | pkg/driver/node.go:132-341 | Found staged, adopted or attached afresh; a failure keeps failure mark, keys and file; contents change only as Prepare may; a quiet reliable stage of a stageable volume succeeds. While safe, it ends with exclusive images and a run on record; strays at most the loose loop's number; stays safe if nothing is mounted or every look could show it |
| `Node.NodeServer.PopStageMounts` | pkg/driver/node.go:708-730 | Success leaves nothing mounted on the staging path; without faults it succeeds exactly for at most eight mounts |
| `Node.NodeServer.TearDown` | pkg/driver/node.go:416-434 | Unmounts everything and closes the mapping the entry names; makes no loop loose |
| `Node.NodeServer.DetachEach` | pkg/driver/node.go:449-453 | Every device is detached, or in use and marked autoclear; a number strays only if it was not one of the image's when the detaching began, or was the loose loop's |
| `Node.NodeServer.DetachImage` | pkg/driver/node.go:435-453 | Detaches what is listed under the image's name, or recorded and silly-renamed; strays at most the latter and the loose loop's number; an unused image keeps exactly the loops not picked |
| `Node.PickCovers` | pkg/driver/node.go:442-445 | Of a truthful list the pick misses only silly-named loops of a deleted image other than the recorded one, and takes nobody else's but, at most, a silly-named recorded one |
| `Node.NodeServer.Unstage` | pkg/driver/node.go:407-466 | Success leaves no mount on the path, no entry, key or failure mark, and no loop on the image but one that goes with its user and, of a deleted image, silly-named ones other than the recorded; a quiet unstage undoes a stage, and the loop is gone exactly when its listed name is picked. While safe, it ends with exclusive images and a run on record; strays at most the loose loop's number and a silly-named recorded one |
| `Node.OthersNeverDetached` | pkg/driver/node.go:435-453 | A loop picked by its listed name is not another volume's when it is detached, whatever the others did since, unless it was the loose one, or the recorded one under a silly name |
| `Node.RestagePlan` | pkg/driver/node.go:526-540 | The stage request of a re-stage carries the cached key |
| `Node.NodeServer.Release` | pkg/driver/node.go:541-562 | The teardown leaves nothing mounted, keeps all of the entry but its devices, and strays at most the recorded number |
| `Node.NodeServer.RestageFailed` | pkg/driver/node.go:494-578 | Success means a loop attached after the teardown, never adoption; any failure keeps the failure mark and everything the retry's request is built from. While safe, it ends with exclusive images and a run on record; strays at most the recorded number and the loose loop's |
| `Node.NodeServer.Publish` | pkg/driver/node.go:468-492 | A failed volume is handed out only after it was re-staged over a fresh loop, its image's only one when the re-stage let go of the lock; the bind, under no lock, shows what shows at the staging path then; while safe, it ends with exclusive images and a run on record |
| `FailureTracker.Failures.Mark` | pkg/driver/failures.go:21-30 | The first failure's time stays |
| `FailureTracker.Failures.Clear` | pkg/driver/failures.go:39-43 | Forgets the failure but not the hold-off |
| `Reconcile.Reconciler.DropStale` | pkg/loop/reconcile.go:89-100 | Exactly the stale entries go, in whatever order |
| `Reconcile.Reconciler.CloseOrphans` | pkg/loop/reconcile.go:119-125 | Only orphan mappings are closed, all of them if nothing fails; mounted ones stay |
| `Reconcile.Reconciler.DetachOrphans` | pkg/loop/reconcile.go:127-133 | Only orphan loops are detached, all of them if nothing fails |
| `Reconcile.Reconciler.Reconcile` | pkg/loop/reconcile.go:62-135 | Whatever fails: stale entries dropped, orphan mappings closed, then orphan loops detached, nothing else; tables stay sound and images exclusive |
| `Reconcile.ForeignUntouched` | pkg/loop/reconcile.go:110-133 | Foreign loops and mappings and tracked mappings are exactly as before |
| `Reconcile.TrackedLoopStays` | pkg/loop/reconcile.go:102-109 | A tracked loop is never detached or marked, and is gone exactly when it was marked already and only closed mappings used it |
| `Reconcile.OrphansGone` | pkg/loop/reconcile.go:127-133 | Without failures every untracked loop of ours is gone, or in use and autoclear |
| `Reconcile.NoSharedLoop` | pkg/loop/reconcile.go:89-100 | No two surviving entries share a loop |
| `Reconcile.SurvivorsHold` | pkg/loop/reconcile.go:89-100 | A survivor's loop backs its image afterwards, with its mapping over it, exactly when the loop lasts |
| `Reconcile.SecondRunKeepsEntries` | pkg/loop/reconcile.go:69-135 | A second run drops no entry exactly when every survivor's loop lasts |
| `Reconcile.ReconcileTwice` | pkg/loop/reconcile.go:69-135 | Then a second run changes nothing |
| `Reconcile.SecondRunCanDropAnEntry` | pkg/loop/reconcile.go:89-133 | Otherwise it can drop an entry: a plain one, of a volume whose own unmounted mapping alone uses its marked loop |
| `Reconcile.ReconciledSafe` | pkg/loop/reconcile.go:69-135 | Reconcile keeps tables sound and images exclusive |
| `Recovery.KnownByName` | pkg/loop/reconcile.go:111-117 | Truthful back-files under clean image paths let reconcile tell exactly which loops are a volume's, if its image is there |
| `Recovery.ReconcileSeen` | pkg/loop/reconcile.go:69-135 | What the whole-node reconcile does to one volume's view and entry |
| `Recovery.ReconcileIsARun` | pkg/loop/reconcile.go:119-133 | A reconcile, however far it gets, is a run of allowed moves. Its detaches count as the volume's own if they hit its loops and as somebody else's if not, so on the volume's behalf nothing strays by definition |
| `Recovery.LinkReconcile` | pkg/loop/reconcile.go:69-135 | The record goes on through a reconcile, however far it gets |
| `Recovery.ReconcileKeeps` | pkg/loop/reconcile.go:69-135 | However far it gets, a volume some stage was cut off on stays recoverable |
| `Recovery.EntriesStand` | pkg/loop/reconcile.go:89-100 | So does its entry, in memory and in a file that lags behind |
| `Recovery.ReconcileHost` | cmd/node/main.go:64-69 | The reconcile run at startup, failing or cut off anywhere, goes on record and leaves the volume recoverable; if nothing fails it makes of kernel, view and state file exactly what ReconciledView and Surviving say |
| `Recovery.ReconcileReadies` | pkg/loop/reconcile.go:62-68 | After reconcile a volume some stage was cut off on can be staged again |
| `Recovery.Restart` | cmd/node/main.go:64-69 | After a restart whose reconcile fails or is cut off the volume is recoverable by memory and file; if nothing fails it can be staged |
| `Recovery.StageOnce` | pkg/driver/node.go:207-341 | A stage cut off or failing anywhere leaves the volume recoverable by the file, and overlooks nothing |
| `Recovery.CrashThenRecover` | pkg/driver/node.go:207-341 | Any number of stages cut off or failing anywhere, with a restart after each whose reconcile is cut off or fails likewise, then a restart and the same stage without failures: always staged, on a loop the entry names, and all of it one run of allowed moves |
| `Registry.HashedNaming` | pkg/store/store.go:84-103 | Injective hashes of the keys make store IDs settle mount and subDir |
| `Registry.NeverStacks` | pkg/store/registry.go:117-180 | In every interleaving of Gets of any configurations, guarded by the registry's own maps and by what checks answered, no target is mounted twice, and at most one check per mount runs |
| `Registry.CachesStayRight` | pkg/store/registry.go:154-180 | If their keys are unambiguous every cached store is right, too: its path is its mount's plus its subDir, made on the present mount if there is one |
| `Registry.SubDirOnNoMount` | pkg/store/registry.go:145-179 | A store can be cached as mounted with its subDir made on no mount |
| `Registry.CachedOnLive` | pkg/store/registry.go:161-172 | What the cache says of a mount seen live is true of that mount |
| `Registry.RunIsOthers` | pkg/store/registry.go:385-394 | However much is done under other locks, or under none, it is one move a lock holder reckons with |
| `Registry.Registry.Yield` | pkg/store/registry.go:385-394 | The others' steps, any number of them under other locks or none, go on record and leave the mount to the holder of its lock |
| `Registry.Registry.Take` | pkg/store/registry.go:117-180 | Everything a Get changes is a step enabled then, and goes on record |
| `Registry.Registry.Kept` | pkg/store/registry.go:117-180 | So whatever Gets did, with others in between, is a run in the sense of `NeverStacks` |
| `Registry.MissedIsStacked` | pkg/store/registry.go:136-152 | A mount the registry does not know of is stacked on by the first step of a Get |
| `Registry.StepKeeps` | pkg/store/registry.go:117-195 | Every step of a Get, a check or an outside unmount keeps mounts and checks right, and the caches if the configuration is unambiguous |
| `Registry.StepIsOthers` | pkg/store/registry.go:385-394 | A step under another mount's lock, or under none, is one a lock holder reckons with |
| `Registry.UnderIsOwn` | pkg/store/registry.go:182-195 | What lies at or below a mount's target belongs to that mount, so evicting it evicts no other's stores |
| `Registry.EvictStores` | pkg/store/registry.go:182-195 | Exactly the stores at or below the path are evicted |
| `Registry.Registry.CheckMountPoint` | pkg/store/registry.go:327-377 | At most one check in flight; an abandoned check's answer is never given out; a fresh answer is the truth at a moment of the call |
| `Registry.Registry.StillMounted` | pkg/store/registry.go:298-325 | Says no only when a check of its own said so and nothing is mounted at the target any more |
| `Registry.Registry.MountAnew` | pkg/store/registry.go:136-152 | mount(8) hits an unmounted target only |
| `Registry.Registry.EnsureSubDir` | pkg/store/registry.go:156-173 | Created or skipped, the subDir was made on the present mount, unless nothing is mounted there any more |
| `Registry.Registry.Get` | pkg/store/registry.go:103-180 | Under every interleaving: the target is mounted at most once and what happened is a run on record; the path is the mount's plus the subDir, cached with its configuration, the mount recorded; the subDir was made on the present mount if there still is one, and if the creation was skipped and the mount seen live, on that very mount |
| `Registry.Registry.AdoptExisting` | pkg/store/registry.go:264-296 | Adopts exactly the listed directories found mounted; the registry starts out right if and only if every mount there is was listed and its check answered |
| `Monitor.RoundAdded` | pkg/driver/failures.go:45-57 | A round no earlier than the hold allows keeps all rounds spaced and justified |
| `Monitor.Monitor.UsersOf` | pkg/driver/monitor.go:119-134 | The listed pods that are publish targets of the failed device in the snapshot: none missed, none made up |
| `Monitor.Monitor.NoteFailure` | pkg/driver/monitor.go:101-108 | The first failure's time, or the zero time if the failure was cleared in between |
| `Monitor.Monitor.Remediate` | pkg/driver/monitor.go:155-174 | A round is held, and the volume held off, exactly when some pod may go |
| `Monitor.Monitor.DeletePods` | pkg/driver/monitor.go:155-171 | Tries exactly the pods that have a controller, are not terminating and started before the failure |
| `Monitor.Monitor.HandleFailed` | pkg/driver/monitor.go:100-175 | A round is held exactly when deletion is on, the hold is over, the failure was not cleared and a listed publishing pod may go; rounds stay at least the hold apart and every pod of one justified |
| `Monitor.Monitor.Tick` | pkg/driver/monitor.go:69-98 | The same over every pass in any order, with failures cleared in between |
| `MountInfo.UnescapeOctal` | pkg/mount/mountinfo.go:100-118 | The index-skipping loop computes the recursive definition |
| `MountInfo.UnescapeInvertsEscape` | pkg/mount/mountinfo.go:100-118 | It gives back what the kernel escaped, for every byte string |
| `MountInfo.LastAt` | pkg/mount/mountinfo.go:71-79 | Finds the last row at the path |
| `MountInfo.LastRowIsVisible` | pkg/mount/mountinfo.go:71-79 | Nothing is mounted over that row, and one is found if there is one |
| `MountInfo.PodOfMatches` | pkg/mount/mountinfo.go:84 | A pod read from a path is one the regular expression matches |
| `MountInfo.MatchesPodOf` | pkg/mount/mountinfo.go:84 | And every match is read, with that pod |
| `MountInfo.PublishTargets` | pkg/mount/mountinfo.go:86-98 | Exactly the pod volume mounts on the device |
| `StoreConfig.ResolveSubDir` | pkg/store/parse.go:81-136 | The step-by-step rewrite and checks compute the specification, error by error |
| `StoreConfig.AcceptedIsBelow` | pkg/store/parse.go:117-135 | An accepted subDir is relative, clean and strictly below the mount |
| `StoreConfig.ResolveTwice` | pkg/store/parse.go:81-136 | Resolving an accepted subDir again gives it back, whatever the parameters then |
| `StoreConfig.ConfigRoundTrip` | pkg/store/parse.go:138-170 | Parsing a volume's context gives the configuration back, whatever else the context holds |
| `StoreConfig.WriteStoreContext` | pkg/store/parse.go:138-163 | The map filled entry by entry is the specified context |
| `StoreConfig.ContextRoundTrip` | pkg/driver/encryption.go:48-89 | From the context CreateVolume returns, the node reads the same configuration, encryption choice and cipher format |
| `Identity.Canonicalize` | pkg/store/store.go:105-117 | The in-place filter and the sort compute the canonical options |
| `Identity.CanonicalExactly` | pkg/store/store.go:105-117 | Canonical options are equal exactly when the trimmed nonempty options agree as a multiset |
| `Identity.SameMountExactly` | pkg/store/store.go:45-67 | Mount keys are equal exactly when server, path and the multiset of options agree |
| `Identity.SameStoreExactly` | pkg/store/store.go:69-82 | Store keys are equal exactly when the mount keys and the subDirs are |
| `Identity.BarsCollide` | pkg/store/store.go:51-60 | With the separator inside a field different exports get one key |
| `Identity.NfsIsNotLocal` | pkg/store/store.go:51-67 | An NFS store never has a local store's key |
| `Identity.StoreIdRoundTrip` | pkg/driver/controller.go:300-332 | The store ID comes back out of every volume ID, whatever the name |
| `Identity.ParsesExactly` | pkg/driver/controller.go:317-332 | Exactly the strings of that form parse |
| `Identity.VolumeIdOnce` | pkg/driver/controller.go:310-315 | Volume IDs are injective in store ID and name |
| `Capacity.AlignUpRounds` | pkg/image/image.go:31-32 | Below the overflow bound, the least multiple that is enough |
| `Capacity.AlignUpOverflows` | pkg/image/image.go:31-32 | Above it, negative |
| `Capacity.AlignedCapacity` | pkg/driver/controller.go:130-151 | Below the bound it succeeds exactly when some positive multiple of 4096 meets the range, with one that does; above it the result is negative |
| `Capacity.Images.Truncate` | pkg/image/image.go:188-198 | A failed truncate may leave an empty new file, never a changed old one |
| `Capacity.Images.Create` | pkg/image/image.go:80-118 | An existing file is never touched; a new one has the rounded size |
| `Capacity.Images.Resize` | pkg/image/image.go:165-186 | Grows or leaves the file, never shrinks it |
| `Capacity.Images.CreateVolume` | pkg/driver/controller.go:92-114 | The size returned is a positive multiple of 4096 within the range; existing files keep their size |
| `Capacity.Images.Expand` | pkg/driver/controller.go:253-277 | The same for expanding, and no file shrinks |
| `Capacity.Images.Lifecycle` | pkg/driver/controller.go:253-277 | Over any run of creates and expands, failing or not, a volume's size is always a positive multiple of 4096 and never shrinks |
| `Capacity.SectorSizeFor` | pkg/loop/losetup.go:49-67 | The largest power of two within both bounds that divides the size, or 512 when 512 does not |
| `Capacity.RecordedIsUsable` | pkg/image/resize.go:60-86 | The recorded block size is nothing, or a power of two SectorSizeFor can start from |
| `Capacity.AttachSectorSize` | pkg/driver/node.go:689-706 | A volume made here attaches at 4096-byte sectors |

## Left out

- gRPC wiring, process execution, the Kubernetes client, logging and manifests: no provable core.
- SHA-256, JSON, regular-expression engines and cryptsetup's internals: assumed. luksFormat is atomic here; a half-written header is not modelled.
- NodeExpandVolume, NodeGetVolumeStats, capability checks, topology and ListVolumes: each is one command or one lookup, with no state carried from call to call.
- MountedPaths and ConfigByStoreID: plain map reads.
- lockVolume and lockStore as mutexes, and the wiping of cached keys: a lock is the scope in which others may only shrink the view.
- Events and log lines of the monitor, with the memory that keeps them from repeating: only what gates the deletions is kept.
- The remount that makes a read-only publish read-only, and the state file's temporary file: a publish is one bind, a write is all or nothing.
- ParseMountInfo as a whole line: splitting on Unicode space is not the kernel's format.
- Other volumes' entries in the state file do not change during one operation here; the operations read and write their own volume's entry only.
- Node.NodeServer.StageLocked: promises nothing about the real kernel after a hidden mount was overlooked, because the promise is false then (Runs.UnseenMountAdmitsSecondUser).
- Node.NodeServer.RestageFailed: the view is of the staging path that the entry records, because that path is what restageFailed works on.
- Node.NodeServer.Publish: the path it binds is the recorded staging path too, because a kubelet publishes from where it staged.
- Node.NodeServer.Unstage: does not promise that no loop is left on a deleted image, because a silly-named loop that is not recorded is not picked.
- Registry.Registry.Get: promises nothing about a skipped subDir unless every configuration's key is unambiguous, because keys with the separator inside a field can collide (Identity.BarsCollide).
- Recovery.CrashThenRecover: nobody else acts on the volume meanwhile, because a volume somebody else is using is rightly refused.
- Reconcile.Reconciler.Reconcile: nothing else moves while it runs, because it runs before the plugin serves requests.
- Capacity.Images.CreateVolume: the image's contents are not modelled there, because a retry after a crash adopts an unformatted file.
