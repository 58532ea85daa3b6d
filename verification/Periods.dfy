/** The period that sleep, usleep and nanosleep pass to the timer, and how long they then last. */
module Periods {
  import opened Words
  import opened Blocking
  import O = Timeouts

  const TWO63: int := 0x8000_0000_0000_0000

  datatype Request =
    | Sleep(seconds: U32)
    | Usleep(usec: U32)
    | Nanosleep(sec: nat, nsec: nat)

  /** The milliseconds of nanosleep do not overflow their signed 64-bit computation. */
  predicate Valid(r: Request) {
    r.Nanosleep? ==> r.sec * 1000 + r.nsec / 1000 / 1000 < TWO63
  }

  /** In milliseconds: sleep multiplies in `unsigned int`, nanosleep stores its value in an `int`. */
  function Period(r: Request): U64
    requires Valid(r)
  {
    match r
    case Sleep(s) => s * 1000 % TWO32
    case Usleep(u) => u / 1000
    case Nanosleep(s, n) =>
      var ms := ToInt(s * 1000 + n / 1000 / 1000);
      if ms < 0 then ms + TWO64 else ms
  }

  /** What was asked for, in nanoseconds. */
  function Asked(r: Request): nat {
    match r
    case Sleep(s) => s * 1_000_000_000
    case Usleep(u) => u * 1000
    case Nanosleep(s, n) => s * 1_000_000_000 + n
  }

  /** The requests that fit. */
  predicate Fits(r: Request) {
    match r
    case Sleep(s) => s * 1000 < TWO32
    case Usleep(_) => true
    case Nanosleep(s, n) => s * 1000 + n / 1_000_000 < TWO31
  }

  /** The period is what was asked for, in whole milliseconds, exactly when the request fits. Otherwise the
      low 32 bits are right: sleep loses the others, and nanosleep extends the sign of bit 31 to 64 bits. */
  lemma PeriodExactly(r: Request)
    requires Valid(r)
    ensures Period(r) == Asked(r) / 1_000_000 <==> Fits(r)
    ensures Period(r) % TWO32 == Asked(r) / 1_000_000 % TWO32
    ensures r.Sleep? ==> Period(r) < TWO32
    ensures r.Nanosleep? ==> Period(r) < TWO31 || TWO64 - TWO31 <= Period(r)
  {
    match r
    case Sleep(s) =>
      assert Asked(r) / 1_000_000 == s * 1000;
    case Usleep(u) =>
      assert Asked(r) / 1_000_000 == u / 1000;
    case Nanosleep(s, n) =>
      assert Asked(r) / 1_000_000 == s * 1000 + n / 1_000_000;
      assert n / 1000 / 1000 == n / 1_000_000;
  }

  /** In every run, a sleep whose request fits, and whose deadline is within the clock, returns no earlier
      than the asked number of milliseconds after it began. */
  lemma LastsAsAsked(n: nat, s: State, c: nat, r: Request)
    requires Reachable(n, s) && c < |s.calls| && s.calls[c].kind == Nap && s.calls[c].outcome != Pending
    requires Valid(r) && Fits(r) && s.calls[c].to == Period(r)
    ensures s.calls[c].timer.Some? && s.calls[c].timer.value in s.timers.all
    ensures var began := s.timers.all[s.calls[c].timer.value].base;
            && began in s.calls[c].waits
            && (began + Period(r) < TWO64 ==> s.now >= began + Asked(r) / 1_000_000)
  {
    PeriodExactly(r);
    O.SleepIsLongEnough(n, s, c);
  }
}
