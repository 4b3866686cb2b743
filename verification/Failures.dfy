/**
 pkg/driver/failures.go: which volumes have a filesystem that was forced
 read-only, and until when remediation of each is held off. Times are
 nanoseconds since the zero time, which a volume never held reads as held until.
 */
module FailureTracker {
  import opened Text

  type Time = nat

  const ZERO_TIME: Time := 0

  function HeldIn(held: map<string, Time>, volume: string): Time {
    if volume in held then held[volume] else ZERO_TIME
  }

  class Failures {
    var failed: map<string, Time>
    var held: map<string, Time>

    constructor ()
      ensures failed == map[] && held == map[]
    {
      failed, held := map[], map[];
    }

    /** Records a failure; the first one's time stays. */
    method Mark(volume: string, t: Time) returns (first: bool)
      modifies `failed
      ensures first <==> volume !in old(failed)
      ensures failed == if first then old(failed)[volume := t] else old(failed)
    {
      first := volume !in failed;
      if first {
        failed := failed[volume := t];
      }
    }

    method Get(volume: string) returns (at: Option<Time>)
      ensures at == if volume in failed then Some(failed[volume]) else None
    {
      at := if volume in failed then Some(failed[volume]) else None;
    }

    /** Forgets the failure but not the hold-off. */
    method Clear(volume: string)
      modifies `failed
      ensures failed == old(failed) - {volume}
    {
      failed := failed - {volume};
    }

    method HeldUntil(volume: string) returns (t: Time)
      ensures t == HeldIn(held, volume)
    {
      t := HeldIn(held, volume);
    }

    method Hold(volume: string, until: Time)
      modifies `held
      ensures held == old(held)[volume := until]
    {
      held := held[volume := until];
    }
  }
}
