/** The bound of one live ceremony: continuous time that includes suspension, and exclusive cutoffs. */
module Clock {
  import opened Prelude

  const U64_LIMIT: nat := 0x1_0000_0000_0000_0000
  const NANOS: nat := 1_000_000_000
  const MAX_SECONDS: nat := 120

  datatype Snapshot = Snapshot(utc: nat, ns: nat)

  function Min(a: nat, b: nat): nat { if a <= b then a else b }

  /** Native ticks to nanoseconds through a product no wider than 96 bits. */
  function Scale(ticks: nat, numer: nat, denom: nat): Result<nat> {
    if numer == 0 || denom == 0 then Err(ClockUnavailable)
    else
      var scaled := ticks * numer / denom;
      if scaled < U64_LIMIT then Ok(scaled) else Err(ClockUnavailable)
  }

  /** Exactly the floor of the product, wherever the timebase is real and the floor fits 64 bits. */
  lemma ScaleIsFloor(ticks: nat, numer: nat, denom: nat)
    ensures match Scale(ticks, numer, denom)
      case Ok(r) => numer > 0 && r * denom <= ticks * numer < (r + 1) * denom && r <= 0xffff_ffff_ffff_ffff
      case Err(e) =>
        e == ClockUnavailable
        && (numer == 0 || denom == 0 || ticks * numer >= 0x1_0000_0000_0000_0000 * denom)
  {
    if denom > 0 {
      DivisionBounds(ticks * numer, denom);
      if ticks * numer / denom >= U64_LIMIT { ProductMonotone(U64_LIMIT, ticks * numer / denom, denom); }
    }
  }

  lemma DivisionBounds(n: nat, d: nat)
    requires d > 0
    ensures (n / d) * d <= n < (n / d + 1) * d
  {
    assert n == d * (n / d) + n % d;
  }

  lemma ProductMonotone(a: nat, b: nat, n: nat)
    requires a <= b
    ensures a * n <= b * n
  {
    assert b * n == a * n + (b - a) * n;
  }

  lemma QuotientMonotone(m: nat, n: nat, d: nat)
    requires m <= n && d > 0
    ensures m / d <= n / d
  {
    DivisionBounds(m, d);
    DivisionBounds(n, d);
    if m / d > n / d { ProductMonotone(n / d + 1, m / d, d); }
  }

  /** Within one timebase more ticks never read earlier, and no fewer ticks are refused. */
  lemma ScaleMonotone(a: nat, b: nat, numer: nat, denom: nat)
    requires a <= b && Scale(b, numer, denom).Ok?
    ensures Scale(a, numer, denom).Ok? && Scale(a, numer, denom).value <= Scale(b, numer, denom).value
  {
    ProductMonotone(a, b, numer);
    QuotientMonotone(a * numer, b * numer, denom);
  }

  datatype Deadline = Deadline(cutoff: nat, last: nat, offer: nat, relay: nat)
  {
    /** `check(&mut self)`: the value afterwards, or the refusal that leaves it alone. */
    function Check(now: Snapshot): Result<Deadline> {
      if now.ns < last then Err(ClockUnavailable)
      else if now.ns >= cutoff || now.utc >= offer || now.utc >= relay then Err(Expired)
      else Ok(this.(last := now.ns))
    }
  }

  /** Seconds the ceremony may still take: `checked_sub` refuses an expiry already behind the clock. */
  function Window(start: Snapshot, offer: nat, relay: nat): int {
    if offer < start.utc || relay < start.utc then -1
    else Min(MAX_SECONDS, Min(offer - start.utc, relay - start.utc))
  }

  function NewDeadline(start: Snapshot, offer: nat, relay: nat): Result<Deadline> {
    var seconds := Window(start, offer, relay);
    if seconds <= 0 then Err(Expired)
    else if start.ns + seconds * NANOS >= U64_LIMIT then Err(ClockUnavailable)
    else Ok(Deadline(start.ns + seconds * NANOS, start.ns, offer, relay))
  }

  /**
   The cutoff lies the least of 120 seconds and both remaining times ahead; nothing left refuses as expired, a
   cutoff past 64 bits as no clock.
   */
  lemma NewDeadlineMeans(start: Snapshot, offer: nat, relay: nat)
    ensures match NewDeadline(start, offer, relay)
      case Ok(bound) =>
        var s := bound.cutoff - start.ns;
        && offer > start.utc && relay > start.utc && bound == Deadline(bound.cutoff, start.ns, offer, relay)
        && s <= 120_000_000_000 && s <= (offer - start.utc) * 1_000_000_000
        && s <= (relay - start.utc) * 1_000_000_000 && bound.cutoff <= 0xffff_ffff_ffff_ffff
        && s in {120_000_000_000, (offer - start.utc) * 1_000_000_000, (relay - start.utc) * 1_000_000_000}
      case Err(e) =>
        if offer <= start.utc || relay <= start.utc then e == Expired
        else
          && e == ClockUnavailable
          && exists s :: 0 < s <= 120 && s <= offer - start.utc && s <= relay - start.utc
                         && start.ns + s * 1_000_000_000 > 0xffff_ffff_ffff_ffff
  {}

  /** The bound as its holder keeps it: only the last accepted reading ever moves. */
  class Bound {
    const cutoff: nat
    const offer: nat
    const relay: nat
    var last: nat

    function View(): Deadline
      reads this
    {
      Deadline(cutoff, last, offer, relay)
    }

    constructor (bound: Deadline)
      ensures View() == bound
    {
      cutoff, offer, relay, last := bound.cutoff, bound.offer, bound.relay, bound.last;
    }

    /** `Deadline::new`: both subtractions checked, the least window kept, a zero window refused, the sum checked. */
    static method New(start: Snapshot, offer: nat, relay: nat) returns (r: Result<Bound>)
      ensures NewDeadline(start, offer, relay) == (match r case Ok(bound) => Ok(bound.View()) case Err(e) => Err(e))
      ensures r.Ok? ==> fresh(r.value)
    {
      if offer < start.utc || relay < start.utc { return Err(Expired); }
      var seconds := Min(Min(MAX_SECONDS, offer - start.utc), relay - start.utc);
      if seconds == 0 { return Err(Expired); }
      if seconds * NANOS >= U64_LIMIT || start.ns + seconds * NANOS >= U64_LIMIT { return Err(ClockUnavailable); }
      var bound := new Bound(Deadline(start.ns + seconds * NANOS, start.ns, offer, relay));
      return Ok(bound);
    }

    method Check(now: Snapshot) returns (r: Result<()>)
      modifies this
      ensures match old(View()).Check(now)
        case Ok(next) => r == Ok(()) && View() == next
        case Err(e) => r == Err(e) && View() == old(View())
    {
      if now.ns < last { return Err(ClockUnavailable); }
      if now.ns >= cutoff || now.utc >= offer || now.utc >= relay { return Err(Expired); }
      last := now.ns;
      return Ok(());
    }
  }

  /** A run of checks; a refusal leaves the bound as it was. */
  function After(bound: Deadline, readings: seq<Snapshot>): Deadline {
    if readings == [] then bound
    else
      var before := After(bound, readings[..|readings| - 1]);
      var checked := before.Check(readings[|readings| - 1]);
      if checked.Ok? then checked.value else before
  }

  predicate Accepted(bound: Deadline, readings: seq<Snapshot>, i: nat)
    requires i < |readings|
  {
    After(bound, readings[..i]).Check(readings[i]).Ok?
  }

  lemma {:induction false} BoundIsFixed(bound: Deadline, readings: seq<Snapshot>)
    ensures var b := After(bound, readings);
      && b.cutoff == bound.cutoff && b.offer == bound.offer
      && b.relay == bound.relay
    ensures After(bound, readings).last >= bound.last
  {
    if readings != [] { BoundIsFixed(bound, readings[..|readings| - 1]); }
  }

  lemma {:induction false} LastOnlyRises(bound: Deadline, readings: seq<Snapshot>, i: nat)
    requires i < |readings| && Accepted(bound, readings, i)
    ensures After(bound, readings).last >= readings[i].ns
    decreases |readings|
  {
    var n := |readings| - 1;
    if i < n {
      assert readings[..n][..i] == readings[..i];
      LastOnlyRises(bound, readings[..n], i);
    }
  }

  /**
   For every sequence of checks with arbitrary wall-clock readings: the accepted continuous readings
   never fall, and each lies strictly inside the window fixed at the start and before both expiries,
   so a wall clock set back never lengthens the ceremony.
   */
  lemma WindowHolds(start: Snapshot, offer: nat, relay: nat, readings: seq<Snapshot>, i: nat, j: nat)
    requires NewDeadline(start, offer, relay).Ok? && i <= j < |readings|
    requires Accepted(NewDeadline(start, offer, relay).value, readings, i)
    requires Accepted(NewDeadline(start, offer, relay).value, readings, j)
    ensures start.ns <= readings[i].ns <= readings[j].ns < start.ns + 120 * 1_000_000_000
    ensures readings[j].ns - start.ns < (offer - start.utc) * 1_000_000_000
    ensures readings[j].ns - start.ns < (relay - start.utc) * 1_000_000_000
    ensures readings[j].utc < offer && readings[j].utc < relay
  {
    var bound := NewDeadline(start, offer, relay).value;
    BoundIsFixed(bound, readings[..j]);
    BoundIsFixed(bound, readings[..i]);
    if i < j {
      assert readings[..j][..i] == readings[..i];
      LastOnlyRises(bound, readings[..j], i);
    }
  }

  /** And conversely: of readings that never fall and stay inside, every one is accepted. */
  lemma {:induction false} InsideIsAccepted(bound: Deadline, readings: seq<Snapshot>, j: nat)
    requires j < |readings|
    requires forall k :: 0 <= k <= j ==>
      && bound.last <= readings[k].ns < bound.cutoff
      && readings[k].utc < bound.offer && readings[k].utc < bound.relay
    requires forall i, k :: 0 <= i <= k <= j ==> readings[i].ns <= readings[k].ns
    ensures Accepted(bound, readings, j) && After(bound, readings[..j + 1]).last == readings[j].ns
  {
    assert readings[..j + 1][..j] == readings[..j];
    BoundIsFixed(bound, readings[..j]);
    if j > 0 {
      InsideIsAccepted(bound, readings, j - 1);
      assert readings[..j - 1 + 1] == readings[..j];
    }
  }

  /** At its cutoff a bound refuses for good, whatever the wall clock says. */
  lemma ExpiryIsFinal(bound: Deadline, readings: seq<Snapshot>, i: nat, j: nat)
    requires i <= j < |readings| && bound.cutoff <= readings[i].ns <= readings[j].ns
    ensures !Accepted(bound, readings, j)
  {
    BoundIsFixed(bound, readings[..j]);
  }
}
