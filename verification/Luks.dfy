/**
 The on-disk side of pkg/crypt: what an image holds, what one uninterrupted
 Prepare makes of it, and which contents a Prepare cut off after any command
 can leave behind. Each cryptsetup command is atomic.
 */
module Luks {
  import opened Text

  newtype byte = x: int | 0 <= x < 256

  type Key = string

  datatype Keys = Keys(current: Key, previous: Key)

  datatype Label = Unformatted | Formatted | OtherLabel(text: string)

  /**
   An image's contents. Key slots are a multiset: nothing stops an operator
   from enrolling one passphrase twice, and luksRemoveKey frees one slot.
   `filesystem` says whether a complete ext4 lies inside the mapping.
   */
  datatype Disk =
    | Raw(bytes: seq<byte>)
    | Header(slots: multiset<Key>, tag: Label, filesystem: bool)

  /** Size of the LUKS2 header area, the part isBlank reads. */
  const BLANK_CHECK_BYTES: nat := 16777216

  predicate AllZero(bytes: seq<byte>) {
    forall i :: 0 <= i < |bytes| ==> bytes[i] == 0
  }

  function HeaderArea(bytes: seq<byte>): seq<byte> {
    if |bytes| <= BLANK_CHECK_BYTES then bytes else bytes[..BLANK_CHECK_BYTES]
  }

  /** Nothing but zeros where a header would be. */
  predicate Blank(d: Disk) {
    d.Raw? && AllZero(HeaderArea(d.bytes))
  }

  predicate Opens(d: Disk, key: Key) {
    d.Header? && key in d.slots
  }

  /** A previous key that rotation acts on. */
  predicate Rotates(k: Keys) {
    k.previous != "" && k.previous != k.current
  }

  /** A supplied key opens the header. */
  predicate KeyOpens(d: Disk, k: Keys) {
    Opens(d, k.current) || (Rotates(k) && Opens(d, k.previous))
  }

  /** Prepare goes through when no command fails. */
  predicate Accepts(d: Disk, k: Keys) {
    Blank(d) || KeyOpens(d, k)
  }

  /** The slots rotation aims at: add the current key, then remove the previous one. */
  function Rotated(slots: multiset<Key>, k: Keys): multiset<Key> {
    if !Rotates(k) || k.previous !in slots then slots
    else Added(slots, k) - multiset{k.previous}
  }

  function Added(slots: multiset<Key>, k: Keys): multiset<Key> {
    if k.current in slots then slots else slots + multiset{k.current}
  }

  /** What one uninterrupted Prepare leaves. */
  function Settled(d: Disk, k: Keys): Disk {
    if !Accepts(d, k) then d
    else match d
      case Raw(_) => Header(multiset{k.current}, Formatted, true)
      case Header(slots, tag, fs) =>
        Header(Rotated(slots, k),
             if tag == Unformatted then Formatted else tag,
             tag == Unformatted || fs)
  }

  /** `d` with its slots replaced: a header in the middle of a rotation. */
  function WithSlots(d: Disk, slots: multiset<Key>): Disk
    requires d.Header?
  {
    d.(slots := slots)
  }

  /**
   `b` is what a Prepare with keys `k` may leave of `a`, whether it succeeded,
   failed, or was cut off after any command.
   */
  predicate Reaches(a: Disk, b: Disk, k: Keys) {
    || b == a
    || (Blank(a) && b.Header? && b.slots == multiset{k.current} && (b.tag == Unformatted || b == Settled(a, k)))
    || (a.Header? && KeyOpens(a, k) && Rotates(k) && k.previous in a.slots && b == WithSlots(a, Added(a.slots, k)))
    || (a.Header? && KeyOpens(a, k) && b.Header? && b.slots == Rotated(a.slots, k) &&
        (b == WithSlots(a, b.slots) || (a.tag == Unformatted && (b.tag == Unformatted || b == Settled(a, k)))))
  }

  /** No key that rotation removes is enrolled twice. */
  predicate PreviousOnce(d: Disk, k: Keys) {
    d.Header? && Rotates(k) ==> d.slots[k.previous] <= 1
  }

  /** Cutting an attempt off anywhere does not change where later attempts end up. */
  lemma CutKeepsGoal(a: Disk, b: Disk, k: Keys)
    requires Reaches(a, b, k) && PreviousOnce(a, k)
    ensures Settled(b, k) == Settled(a, k)
    ensures Accepts(b, k) <==> Accepts(a, k)
    ensures PreviousOnce(b, k)
  {
    if a.Header? && KeyOpens(a, k) && Rotates(k) && k.previous in a.slots {
      var add := Added(a.slots, k);
      assert add[k.previous] == 1;
      assert Added(add, k) == add;
      assert Rotated(add, k) == Rotated(a.slots, k);
      assert k.previous !in Rotated(a.slots, k);
    }
  }

  /** A run of attempts with the same keys, each leaving what the next one finds. */
  predicate Attempts(disks: seq<Disk>, k: Keys) {
    |disks| >= 1 && forall i :: 0 <= i < |disks| - 1 ==> Reaches(disks[i], disks[i + 1], k)
  }

  /**
   Convergence: however many attempts were cut off, and wherever, the next
   complete one ends exactly where a single uninterrupted attempt would have.
   */
  lemma {:induction false} AttemptsConverge(disks: seq<Disk>, k: Keys)
    requires Attempts(disks, k) && PreviousOnce(disks[0], k)
    ensures Settled(disks[|disks| - 1], k) == Settled(disks[0], k)
    ensures Accepts(disks[|disks| - 1], k) <==> Accepts(disks[0], k)
    decreases |disks|
  {
    if |disks| > 1 {
      CutKeepsGoal(disks[0], disks[1], k);
      AttemptsConverge(disks[1..], k);
    }
  }

  /** What a rotation interrupted between removing the old key and opening leaves. */
  function AfterRemoval(d: Disk, k: Keys): Disk
    requires d.Header?
  {
    WithSlots(d, Rotated(d.slots, k))
  }

  /**
   The exact condition: attempts converge from a header a supplied key opens if
   and only if the previous key is enrolled at most once.
   */
  lemma ConvergesExactly(a: Disk, k: Keys)
    requires a.Header? && KeyOpens(a, k)
    ensures (forall b :: Reaches(a, b, k) ==> Settled(b, k) == Settled(a, k)) <==> PreviousOnce(a, k)
  {
    if PreviousOnce(a, k) {
      forall b | Reaches(a, b, k) ensures Settled(b, k) == Settled(a, k) {
        CutKeepsGoal(a, b, k);
      }
    } else {
      var b := AfterRemoval(a, k);
      assert Reaches(a, b, k);
      var once, twice := b.slots, Rotated(b.slots, k);
      assert once[k.previous] >= 1 && k.current in once;
      assert twice[k.previous] == once[k.previous] - 1;
      assert Settled(b, k) != Settled(a, k);
    }
  }

  /**
   Rotation never locks a volume out, and touches no slot but its own two: if a
   supplied key opened the header before, one opens it at every cut; the
   previous key goes only once the current one is enrolled.
   */
  lemma RotationNeverLocksOut(a: Disk, b: Disk, k: Keys)
    requires Reaches(a, b, k) && a.Header?
    ensures b.Header?
    ensures KeyOpens(a, k) ==> KeyOpens(b, k)
    ensures forall key :: key != k.current && key != k.previous ==> b.slots[key] == a.slots[key]
    ensures a.slots[k.current] <= b.slots[k.current]
    ensures b.slots[k.previous] < a.slots[k.previous] ==> k.current in b.slots
  {
  }

  /**
   After success the current key opens the header; a distinct previous key no
   longer does, exactly when it was enrolled at most once.
   */
  lemma RotationOutcome(a: Disk, k: Keys)
    requires Accepts(a, k)
    ensures Opens(Settled(a, k), k.current)
    ensures Rotates(k) ==> (!Opens(Settled(a, k), k.previous) <==> PreviousOnce(a, k))
  {
  }

  /** A volume some Prepare has finished with. */
  predicate Sealed(d: Disk) {
    d.Header? && d.tag != Unformatted
  }

  /** A finished volume keeps its filesystem and label under attempts with any keys. */
  lemma SealedForever(a: Disk, b: Disk, k: Keys)
    requires Sealed(a) && Reaches(a, b, k)
    ensures Sealed(b) && b.tag == a.tag && b.filesystem == a.filesystem
  {
  }

  /** Success seals the volume, with a filesystem in it unless it already carried another label. */
  lemma SuccessSeals(a: Disk, k: Keys)
    requires Accepts(a, k)
    ensures Sealed(Settled(a, k))
    ensures !Sealed(a) ==> Settled(a, k).filesystem
  {
  }
}
