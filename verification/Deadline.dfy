/** Monotonic-clock arithmetic: absolute deadlines and the time left until them. */
module Deadline {
  import opened Bytes

  datatype Timespec = Timespec(sec: int, nsec: int)

  const NS: int := 1000000000
  const NS_PER_MS: int := 1000000

  predicate Normal(t: Timespec) {
    0 <= t.nsec < 1000000000
  }

  function Nanos(t: Timespec): int {
    t.sec * 1000000000 + t.nsec
  }

  /** C's integer division by a positive number: it truncates toward zero. */
  function TruncDiv(a: int, b: int): int
    requires b > 0
  {
    if a >= 0 then a / b else -((-a) / b)
  }

  /** deadline_at: `ms` milliseconds after the reading `now`. */
  function DeadlineAt(now: Timespec, ms: nat): Timespec {
    var ns := now.nsec + ms % 1000 * NS_PER_MS;
    Timespec(now.sec + ms / 1000 + ns / NS, ns % NS)
  }

  /** ms_left on a successful reading. */
  function MsLeft(dl: Timespec, now: Timespec): int {
    (dl.sec - now.sec) * 1000 + TruncDiv(dl.nsec - now.nsec, NS_PER_MS)
  }

  /** The deadline is exactly now + ms, and stays normalised. */
  lemma DeadlineIsExact(now: Timespec, ms: nat)
    requires Normal(now)
    ensures Normal(DeadlineAt(now, ms))
    ensures Nanos(DeadlineAt(now, ms)) == Nanos(now) + ms * 1000000
  {
    var ns := now.nsec + ms % 1000 * NS_PER_MS;
    assert ns == ns / NS * NS + ns % NS;
    assert ms == ms / 1000 * 1000 + ms % 1000;
  }

  /** The computed remainder is within one millisecond of the true one; it is positive
      only if time truly remains, and at least a full millisecond always shows. */
  lemma MsLeftIsSound(dl: Timespec, now: Timespec)
    requires Normal(dl) && Normal(now)
    ensures var left := Nanos(dl) - Nanos(now);
            && -1000000 < MsLeft(dl, now) * 1000000 - left < 1000000
            && (MsLeft(dl, now) > 0 ==> left > 0)
            && (left >= 1000000 ==> MsLeft(dl, now) > 0)
  {
    var d := dl.nsec - now.nsec;
    var t := TruncDiv(d, NS_PER_MS);
    assert -NS_PER_MS < t * NS_PER_MS - d < NS_PER_MS;
    if d >= 0 { assert t * NS_PER_MS <= d; } else { assert t <= 0; }
  }

  /** A clock as a run sees it: reading `i` yields an instant or fails. */
  type Clock = nat -> Option<Timespec>

  ghost predicate WellFormed(c: Clock) {
    forall i :: c(i).Some? ==> Normal(c(i).value)
  }

  /** The clock advances by at least one nanosecond every `k` readings. */
  ghost predicate Progressing(c: Clock, k: nat) {
    k > 0 && forall i: nat, j: nat :: i <= j && c(i).Some? && c(j).Some? ==>
      Nanos(c(j).value) - Nanos(c(i).value) >= (j - i) / k
  }

  /** From reading `limit` on, the deadline has passed. */
  ghost predicate PastFrom(c: Clock, dl: Timespec, limit: nat) {
    forall i: nat :: limit <= i && c(i).Some? ==> Nanos(c(i).value) >= Nanos(dl)
  }

  /** How many readings fit into `ms` milliseconds at `k` readings a nanosecond. */
  function ReadingLimit(k: nat, ms: nat): nat {
    k * (ms * NS_PER_MS)
  }

  /** A progressing clock allows only so many readings before any deadline. */
  lemma ReadingsAreBounded(c: Clock, k: nat, start: nat, ms: nat)
    requires Progressing(c, k) && WellFormed(c) && c(start).Some?
    ensures PastFrom(c, DeadlineAt(c(start).value, ms), start + ReadingLimit(k, ms))
  {
    DeadlineIsExact(c(start).value, ms);
    var ns := ms * NS_PER_MS;
    forall i: nat | start + k * ns <= i && c(i).Some? ensures Nanos(c(i).value) >= Nanos(c(start).value) + ns {
      DivAtLeast(i - start, k, ns);
    }
  }

  lemma DivAtLeast(a: nat, k: nat, n: nat)
    requires k > 0 && a >= k * n
    ensures a / k >= n
  {
    if a / k < n {
      assert a == k * (a / k) + a % k;
      MulMonotone(k, a / k + 1, n);
    }
  }

  lemma MulMonotone(k: nat, a: nat, b: nat)
    requires a <= b
    ensures k * a <= k * b
  {
  }
}
