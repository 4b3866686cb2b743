/**
 pkg/crypt: the LUKS2 layer between a volume's loop device and its filesystem.
 Prepare formats a fresh image, moves its key slot to the current key, opens it
 and makes the filesystem it still owes, command by command.
 */
module Crypt {
  import opened Text
  import opened Luks
  import opened Kernel
  import opened Views
  import opened Runs
  import opened HostCommands

  datatype Outcome = Unchanged | FreshlyFormatted | RotatedKeys | FinishedInterruptedRotation

  datatype Prepared = Ready(outcome: Outcome) | WrongKey | NotBlank | CommandFailed

  /** Size of the buffer isBlank reads into. */
  const CHUNK: nat := 1048576

  /** isBlank: reads the header area chunk by chunk, however short the reads come. */
  method IsBlank(bytes: seq<byte>) returns (blank: bool)
    ensures blank <==> AllZero(HeaderArea(bytes))
  {
    var read := 0;
    while read < BLANK_CHECK_BYTES
      invariant 0 <= read <= BLANK_CHECK_BYTES && read <= |bytes|
      invariant AllZero(bytes[..read])
    {
      if read == |bytes| {
        break;
      }
      var most := BLANK_CHECK_BYTES - read;
      most := if most < CHUNK then most else CHUNK;
      most := if most < |bytes| - read then most else |bytes| - read;
      var n: nat := *;
      n := if 1 <= n <= most then n else most;
      var chunk := bytes[read..read + n];
      if !AllZero(chunk) {
        var i :| 0 <= i < |chunk| && chunk[i] != 0;
        assert HeaderArea(bytes)[read + i] == chunk[i];
        return false;
      }
      assert bytes[..read + n] == bytes[..read] + chunk;
      read := read + n;
    }
    assert HeaderArea(bytes) == bytes[..read];
    blank := true;
  }

  /** The volume's loop is attached, nothing is mounted and no mapping of the volume is open over it. */
  ghost predicate AttachedIdle(s: Subject, v: View, dev: Dev) {
    Steady(s, v) && dev in v.loops && v.user == None
  }

  /** The volume's mapping is open over the loop, unmounted. */
  ghost predicate OpenOn(s: Subject, v: View, dev: Dev) {
    Steady(s, v) && dev in v.loops && v.user == Some(Own(s)) && v.mapped == Some(dev) && v.busy == Some(dev)
  }

  /**
   From `a` to `b` only erasures happened that may: luksFormat over a blank
   header area, mkfs over a volume still labelled as owing its filesystem.
   */
  ghost predicate Warranted(a: seq<Erasure>, b: seq<Erasure>) {
    |a| <= |b| && b[..|a|] == a &&
    forall i :: |a| <= i < |b| ==>
      (b[i].DidFormat? ==> Blank(b[i].disk)) &&
      (b[i].DidMkfs? ==> b[i].disk.Header? && b[i].disk.tag == Unformatted)
  }

  lemma WarrantedTransitive(a: seq<Erasure>, b: seq<Erasure>, c: seq<Erasure>)
    requires Warranted(a, b) && Warranted(b, c)
    ensures Warranted(a, c)
  {
    assert c[..|a|] == c[..|b|][..|a|];
    assert forall i :: |a| <= i < |b| ==> c[i] == c[..|b|][i];
  }

  /** Right after a format the only slot is the current key, so rotation has nothing to do. */
  lemma FreshRotationIsIdle(keys: Keys)
    ensures Rotated(multiset{keys.current}, keys) == multiset{keys.current}
    ensures KeyOpens(Header(multiset{keys.current}, Unformatted, false), keys)
    ensures Rotates(keys) ==> keys.previous !in multiset{keys.current}
  {
  }

  /** What rotation reports of a header a supplied key opens. */
  function RotationReport(was: Disk, keys: Keys): Outcome {
    if !was.Header? || !Rotates(keys) || keys.previous !in was.slots then Unchanged
    else if keys.current in was.slots then FinishedInterruptedRotation
    else RotatedKeys
  }

  class LuksLayer {
    const host: Host

    constructor (host: Host)
      ensures this.host == host
    {
      this.host := host;
    }

    /** open --test-passphrase. */
    method TestKey(dev: Dev, key: Key) returns (ok: bool, opens: bool)
      requires host.Valid() && AttachedIdle(host.subject, host.v, dev) && host.v.disk.Some?
      modifies host`k, host`v, host`log, host`alive, host`tick
      ensures host.Ran(ok) && host.v == old(host.v)
      ensures !host.faulty && old(host.alive) ==> ok
      ensures ok ==> (opens <==> Opens(host.v.disk.value, key))
    {
      var disk;
      ok, disk := host.ReadDisk(dev);
      opens := Opens(disk, key);
    }

    /**
     rotate: add the current key, then remove the previous one. Whatever goes
     wrong, the slots are those before, those with the key added, or the target.
     */
    method Rotate(dev: Dev, keys: Keys) returns (r: Prepared)
      requires host.Valid() && AttachedIdle(host.subject, host.v, dev) && host.v.disk.Some? && host.v.disk.value.Header?
      modifies host`k, host`v, host`log, host`alive, host`tick
      ensures host.Ran(r.Ready?) && host.v.disk.Some? && host.v == old(host.v).(disk := host.v.disk)
      ensures var was, now := old(host.v).disk.value, host.v.disk.value;
              && (r.Ready? ==>
                    KeyOpens(was, keys) && now == WithSlots(was, Rotated(was.slots, keys)) &&
                    r.outcome == RotationReport(was, keys))
              && (r.WrongKey? ==> !KeyOpens(was, keys) && now == was)
              && (now == was ||
                  (KeyOpens(was, keys) && Rotates(keys) && keys.previous in was.slots &&
                   (now == WithSlots(was, Added(was.slots, keys)) || now == WithSlots(was, Rotated(was.slots, keys)))))
      ensures !host.faulty && old(host.alive) ==>
                host.alive && (if KeyOpens(old(host.v).disk.value, keys) then r.Ready? else r == WrongKey)
      ensures r != NotBlank
    {
      ghost var was := host.v.disk.value;
      var ok, cur := TestKey(dev, keys.current);
      if !ok {
        return CommandFailed;
      }
      if !Rotates(keys) {
        return if cur then Ready(Unchanged) else WrongKey;
      }
      var prev;
      ok, prev := TestKey(dev, keys.previous);
      if !ok {
        return CommandFailed;
      }
      if !cur && !prev {
        return WrongKey;
      }
      if !prev {
        return Ready(Unchanged);
      }
      if !cur {
        ghost var did;
        ok, did := host.RewriteHeader(dev, AddKey(keys.previous, keys.current));
        if !ok {
          return CommandFailed;
        }
      }
      assert host.v.disk.value == WithSlots(was, Added(was.slots, keys));
      ghost var did;
      ok, did := host.RewriteHeader(dev, RemoveKey(keys.previous));
      if !ok {
        return CommandFailed;
      }
      return Ready(if cur then FinishedInterruptedRotation else RotatedKeys);
    }

    /** ensureFilesystem: the label, not a probe, says whether mkfs is still owed. */
    method EnsureFilesystem(dev: Dev) returns (ok: bool)
      requires host.Valid() && OpenOn(host.subject, host.v, dev) && host.v.disk.Some? && host.v.disk.value.Header?
      modifies host`k, host`v, host`log, host`alive, host`tick, host`erasures
      ensures host.Ran(ok) && host.v.disk.Some? && host.v == old(host.v).(disk := host.v.disk)
      ensures !host.faulty && old(host.alive) ==> ok
      ensures var was, now := old(host.v).disk.value, host.v.disk.value;
              if was.tag != Unformatted then now == was
              else if ok then now == Header(was.slots, Formatted, true)
              else
                && now.Header? && now.slots == was.slots
                && (now.tag == Unformatted || now == Header(was.slots, Formatted, true))
      ensures old(host.v).disk.value.tag != Unformatted ==> host.erasures == old(host.erasures)
      ensures Warranted(old(host.erasures), host.erasures)
    {
      var disk;
      ok, disk := host.ReadDisk(dev);
      if !ok || disk.tag != Unformatted {
        return;
      }
      ok := host.Mkfs();
      if !ok {
        return;
      }
      ghost var did;
      ok, did := host.RewriteHeader(dev, SetLabel(Formatted));
    }

    /** The first half of Prepare: a LUKS header with the key slot where it should be. */
    method FormatAndRotate(dev: Dev, keys: Keys) returns (r: Prepared)
      requires host.Valid() && AttachedIdle(host.subject, host.v, dev)
      modifies host`k, host`v, host`log, host`alive, host`tick, host`erasures
      ensures host.Ran(r.Ready?) && host.v == old(host.v).(disk := host.v.disk)
      ensures old(host.v).disk.None? ==> host.v.disk.None? && r == CommandFailed
      ensures !host.faulty && old(host.alive) ==> host.alive
      ensures old(host.v).disk.Some? ==>
                host.v.disk.Some? &&
                var was, now := old(host.v).disk.value, host.v.disk.value;
                && Reaches(was, now, keys)
                && (r.Ready? ==> Accepts(was, keys) && now.Header?)
                && (r.Ready? && was.Raw? ==>
                    now == Header(multiset{keys.current}, Unformatted, false) && r.outcome == FreshlyFormatted)
                && (r.Ready? && was.Header? ==>
                    now == WithSlots(was, Rotated(was.slots, keys)) && r.outcome == RotationReport(was, keys))
                && (!host.faulty && old(host.alive) ==> host.alive && (Accepts(was, keys) <==> r.Ready?))
                && (was.Header? ==> host.erasures == old(host.erasures))
      ensures Warranted(old(host.erasures), host.erasures)
    {
      var ok, disk := host.ReadDisk(dev);
      if !ok {
        return CommandFailed;
      }
      if disk.Raw? {
        var blank := IsBlank(disk.bytes);
        if !blank {
          return NotBlank;
        }
        ghost var did;
        ok, did := host.LuksFormat(dev, keys.current);
        if !ok {
          return CommandFailed;
        }
        FreshRotationIsIdle(keys);
      }
      r := Rotate(dev, keys);
      if r.Ready? && disk.Raw? {
        r := Ready(FreshlyFormatted);
      }
    }

    /**
     Prepare. Whatever happens, the contents are ones an attempt cut off somewhere
     may leave; on success they are what an uninterrupted attempt leaves, and the
     mapping is open. Nothing is erased that a finished volume holds.
     */
    method Prepare(dev: Dev, keys: Keys) returns (r: Prepared)
      requires host.Valid() && AttachedIdle(host.subject, host.v, dev)
      modifies host`k, host`v, host`log, host`alive, host`tick, host`erasures
      ensures host.Ran(r.Ready?)
      ensures r.Ready? ==>
                OpenOn(host.subject, host.v, dev) &&
                host.v == OpenOver(host.subject, old(host.v).(disk := host.v.disk), dev)
      ensures !r.Ready? ==>
                || host.v == old(host.v).(disk := host.v.disk)
                || (OpenOn(host.subject, host.v, dev) &&
                    host.v == OpenOver(host.subject, old(host.v).(disk := host.v.disk), dev))
      ensures !host.faulty && old(host.alive) ==>
                host.alive && (!r.Ready? ==> host.v == old(host.v).(disk := host.v.disk))
      ensures old(host.v).disk.None? ==> host.v.disk.None? && !r.Ready?
      ensures old(host.v).disk.Some? ==>
                host.v.disk.Some? &&
                var was, now := old(host.v).disk.value, host.v.disk.value;
                && Reaches(was, now, keys)
                && (r.Ready? ==> Accepts(was, keys) && now == Settled(was, keys) &&
                                 r.outcome == (if was.Raw? then FreshlyFormatted else RotationReport(was, keys)))
                && (Sealed(was) ==> host.erasures == old(host.erasures))
                && (!host.faulty && old(host.alive) && Accepts(was, keys) && old(host.v).mapped == None ==> r.Ready?)
      ensures Warranted(old(host.erasures), host.erasures)
    {
      r := FormatAndRotate(dev, keys);
      if !r.Ready? {
        return;
      }
      ghost var erased := host.erasures;
      var ok := OpenAndFill(dev, keys.current);
      WarrantedTransitive(old(host.erasures), erased, host.erasures);
      if !ok {
        r := CommandFailed;
      }
    }

    /** The second half: the mapping opened, and a filesystem in it if one is still owed. */
    method OpenAndFill(dev: Dev, key: Key) returns (ok: bool)
      requires host.Valid() && AttachedIdle(host.subject, host.v, dev) && host.v.disk.Some? && host.v.disk.value.Header?
      modifies host`k, host`v, host`log, host`alive, host`tick, host`erasures
      ensures host.Ran(ok) && host.v.disk.Some? && host.v.disk.value.Header?
      ensures var up := OpenOver(host.subject, old(host.v).(disk := host.v.disk), dev);
              if ok then OpenOn(host.subject, host.v, dev) && host.v == up
              else host.v == old(host.v).(disk := host.v.disk) || (OpenOn(host.subject, host.v, dev) && host.v == up)
      ensures !host.faulty && old(host.alive) ==>
                && host.alive && (!ok ==> host.v == old(host.v).(disk := host.v.disk))
                && (old(host.v).mapped == None && Opens(old(host.v).disk.value, key) ==> ok)
      ensures var was, now := old(host.v).disk.value, host.v.disk.value;
              && (ok && was.tag == Unformatted ==> now == Header(was.slots, Formatted, true))
              && (was.tag != Unformatted ==> now == was && host.erasures == old(host.erasures))
              && now.slots == was.slots &&
                 (now.tag == Unformatted || now == was || now == Header(was.slots, Formatted, true))
      ensures Warranted(old(host.erasures), host.erasures)
    {
      ghost var did;
      ok, did := host.Open(dev, key);
      if !ok {
        return;
      }
      ok := EnsureFilesystem(dev);
      if !ok {
        ghost var mid;
        var closed;
        closed, did, mid := host.Close();
      }
    }

    /** What a restart leaves of an attempt: the process lives again and the mapping is closed. */
    method Revive(dev: Dev)
      requires host.Valid() && (AttachedIdle(host.subject, host.v, dev) || OpenOn(host.subject, host.v, dev))
      modifies host`k, host`v, host`log, host`alive
      ensures host.Valid() && host.alive && AttachedIdle(host.subject, host.v, dev) && host.v.disk == old(host.v).disk
      ensures old(host.v).mapped == None || old(host.v).user == Some(Own(host.subject)) ==> host.v.mapped == None
    {
      host.alive := true;
      if host.v.user == Some(Own(host.subject)) {
        host.Act(Step.Close(host.subject.volume));
      }
    }

    /** One attempt that fails or is cut off after any command, and the restart after it. */
    method PrepareCutOff(dev: Dev, keys: Keys)
      requires host.Valid() && AttachedIdle(host.subject, host.v, dev) && host.v.mapped == None && host.v.disk.Some?
      requires Accepts(host.v.disk.value, keys) && PreviousOnce(host.v.disk.value, keys)
      modifies host
      ensures host.Valid() && AttachedIdle(host.subject, host.v, dev) && host.v.mapped == None && host.v.disk.Some?
      ensures Accepts(host.v.disk.value, keys) && PreviousOnce(host.v.disk.value, keys)
      ensures Settled(host.v.disk.value, keys) == Settled(old(host.v).disk.value, keys)
    {
      ghost var was := host.v.disk.value;
      host.faulty, host.alive := true, true;
      var r := Prepare(dev, keys);
      CutKeepsGoal(was, host.v.disk.value, keys);
      Revive(dev);
    }

    /** Any number of such attempts. */
    method PrepareCutOffOften(dev: Dev, keys: Keys, cuts: nat)
      requires host.Valid() && AttachedIdle(host.subject, host.v, dev) && host.v.mapped == None && host.v.disk.Some?
      requires Accepts(host.v.disk.value, keys) && PreviousOnce(host.v.disk.value, keys)
      modifies host
      ensures host.Valid() && AttachedIdle(host.subject, host.v, dev) && host.v.mapped == None && host.v.disk.Some?
      ensures Accepts(host.v.disk.value, keys)
      ensures Settled(host.v.disk.value, keys) == Settled(old(host.v).disk.value, keys)
    {
      for i := 0 to cuts
        invariant host.Valid() && AttachedIdle(host.subject, host.v, dev) && host.v.mapped == None && host.v.disk.Some?
        invariant Accepts(host.v.disk.value, keys) && PreviousOnce(host.v.disk.value, keys)
        invariant Settled(host.v.disk.value, keys) == Settled(old(host.v).disk.value, keys)
      {
        PrepareCutOff(dev, keys);
      }
    }

    /** One attempt without failures. */
    method PrepareAtLast(dev: Dev, keys: Keys) returns (r: Prepared)
      requires host.Valid() && AttachedIdle(host.subject, host.v, dev) && host.v.mapped == None && host.v.disk.Some?
      requires Accepts(host.v.disk.value, keys)
      modifies host
      ensures r.Ready? && OpenOn(host.subject, host.v, dev)
      ensures host.v.disk == Some(Settled(old(host.v).disk.value, keys))
    {
      host.faulty, host.alive := false, true;
      ghost var v := host.v;
      r := Prepare(dev, keys);
      assert v == old(host.v);
    }

    /**
     Any number of attempts with the same keys, each failing or cut off after any
     command, then one without failures: the contents are what a single
     uninterrupted attempt makes of them, if no key to be removed is enrolled twice.
     */
    method PrepareUntilDone(dev: Dev, keys: Keys, cuts: nat) returns (r: Prepared)
      requires host.Valid() && AttachedIdle(host.subject, host.v, dev) && host.v.mapped == None && host.v.disk.Some?
      requires Accepts(host.v.disk.value, keys) && PreviousOnce(host.v.disk.value, keys)
      modifies host
      ensures r.Ready? && OpenOn(host.subject, host.v, dev)
      ensures host.v.disk == Some(Settled(old(host.v).disk.value, keys))
    {
      PrepareCutOffOften(dev, keys, cuts);
      r := PrepareAtLast(dev, keys);
    }

    /**
     Once a volume is finished, no attempt with any keys, however it ends, formats
     it or makes a filesystem on it again.
     */
    method PrepareWithAll(dev: Dev, all: seq<Keys>)
      requires host.Valid() && AttachedIdle(host.subject, host.v, dev) && host.v.mapped == None
      requires host.v.disk.Some? && Sealed(host.v.disk.value)
      modifies host
      ensures host.erasures == old(host.erasures)
      ensures host.v.disk.Some? && Sealed(host.v.disk.value)
      ensures host.v.disk.value.filesystem == old(host.v).disk.value.filesystem
    {
      ghost var start := host.v.disk.value;
      for i := 0 to |all|
        invariant host.Valid() && AttachedIdle(host.subject, host.v, dev) && host.v.mapped == None
        invariant host.v.disk.Some? && Sealed(host.v.disk.value) && host.v.disk.value.filesystem == start.filesystem
        invariant host.erasures == old(host.erasures)
      {
        ghost var was := host.v.disk.value;
        host.faulty, host.alive := *, true;
        var r := Prepare(dev, all[i]);
        SealedForever(was, host.v.disk.value, all[i]);
        Revive(dev);
      }
    }
  }
}
