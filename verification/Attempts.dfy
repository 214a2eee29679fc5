/** One live pairing attempt: its terminal fence, its clock bound, and the unlocked root it may hold. */
module Attempts {
  import opened Prelude
  import opened Records
  import opened Clock

  /** What the platform answers while the attempt's lock is held: the wallet's root, and the clock. */
  datatype Observation = Observation(root: Option<Opaque>, now: Option<Snapshot>)

  /** The width of the counter of entered effects. */
  const MAX_ENTERED: nat := 0xffff_ffff_ffff_ffff

  datatype Attempt = Attempt(
    terminal: Option<Token>, mode: Flow, tag: Opaque, rootGeneration: Option<Opaque>,
    deadline: Option<Deadline>, entered: nat, custody: Option<Opaque>)
  {
    predicate Live() { terminal.None? }

    /** A terminal attempt holds no unlocked root. */
    predicate Fenced() { terminal.Some? ==> custody.None? }

    function Fail(error: Token): (Result<()>, Attempt) {
      (Err(error), this.(terminal := Some(error), custody := None))
    }

    /** `check_locked`: the fence first, then the root generation, then the clock bound. */
    function Check(o: Observation): (r: (Result<()>, Attempt))
      ensures r.0.Ok? <==> r.1.Live()
      ensures !Live() ==> r.1 == this
      ensures Fenced() ==> r.1.Fenced()
      ensures r.1.mode == mode && r.1.tag == tag && r.1.rootGeneration == rootGeneration
      ensures (r.1.deadline.Some? <==> deadline.Some?) && r.1.entered == entered
      ensures r.0.Ok? ==> r.1.custody == custody
    {
      if terminal.Some? then (Err(terminal.value), this)
      else if rootGeneration.Some? && o.root != rootGeneration then Fail(RootChanged)
      else if mode == LegacyTwoDecision then (Ok(()), this)
      else if o.now.None? then Fail(ClockUnavailable)
      else if deadline.None? then (Ok(()), this)
      else match deadline.value.Check(o.now.value)
        case Err(e) => Fail(e)
        case Ok(next) => (Ok(()), this.(deadline := Some(next)))
    }

    function Cancel(): (a: Attempt)
      ensures !a.Live() && a.Fenced()
    {
      this.(terminal := Some(Cancelled), custody := None)
    }

    /** `clear_custody`: the root is dropped and nothing else moves. */
    function ClearCustody(): Attempt {
      this.(custody := None)
    }

    /** `enter`: checked and counted under the one lock; a count that would overflow refuses. */
    function Enter(o: Observation): (r: (Result<()>, Attempt))
      ensures r.0.Ok? ==> Live() && r.1.Live() && r.1.entered == entered + 1
      ensures r.0.Err? ==> r.1 == Check(o).1
    {
      var (r, a) := Check(o);
      if r.Err? then (r, a)
      else if a.entered >= MAX_ENTERED then (Err(Failed), a)
      else (Ok(()), a.(entered := a.entered + 1))
    }

    /** The entry's own handle is dropped; the fence is untouched. */
    function Leave(): Attempt
      requires entered > 0
    {
      this.(entered := entered - 1)
    }

    /** `bind_deadline`: once, single-link only, and checked again under the new bound. */
    function Bind(o: Observation, o': Observation, start: Snapshot, offer: nat, relay: nat): (Result<()>, Attempt) {
      var (r, a) := Check(o);
      if r.Err? then (r, a)
      else if a.mode != SingleLink || a.deadline.Some? then (Err(WrongPhase), a)
      else match NewDeadline(start, offer, relay)
        case Err(e) => (Err(e), a)
        case Ok(bound) => a.(deadline := Some(bound)).Check(o')
    }

    /** `retain_custody`: only under a bound, and only once. */
    function Retain(o: Observation, root: Opaque): (Result<()>, Attempt) {
      var (r, a) := Check(o);
      if r.Err? then (r, a)
      else if a.deadline.None? || a.custody.Some? then (Err(WrongPhase), a)
      else (Ok(()), a.(custody := Some(root)))
    }
  }

  /**
   What lets the fence fall: a root that is not the attempt's own, and, for a single-link attempt, a clock that
   cannot be read, has gone back, or has reached the cutoff or an expiry. No other check does, and whatever fell it
   is what every later check answers; a cancellation fells it at any time.
   */
  lemma FenceFallsExactlyWhen(a: Attempt, o: Observation, later: Observation)
    ensures var (r, next) := a.Check(o);
      && (next.Live() <==>
          && a.Live() && (a.rootGeneration.Some? ==> o.root == a.rootGeneration)
          && (a.mode == SingleLink ==>
              && o.now.Some?
              && (a.deadline.Some? ==>
                  var now, bound := o.now.value, a.deadline.value;
                  bound.last <= now.ns < bound.cutoff && now.utc < bound.offer && now.utc < bound.relay)))
      && r == (if next.Live() then Ok(()) else Err(next.terminal.value))
      && (a.Live() && !next.Live() ==>
          && next.custody.None?
          && next.terminal.value ==
            if a.rootGeneration.Some? && o.root != a.rootGeneration then RootChanged
            else if o.now.None? || o.now.value.ns < a.deadline.value.last then ClockUnavailable
            else Expired)
      && (!next.Live() ==> next.Check(later) == (Err(next.terminal.value), next))
      && (next.Live() && a.mode == SingleLink && a.deadline.Some? ==> next.deadline.value.last == o.now.value.ns)
    ensures a.Cancel().Check(o) == (Err(Cancelled), a.Cancel()) && a.Cancel().custody.None?
  {}

  /** An entry, a bound and a retained root are each granted exactly behind a check that passes. */
  lemma GrantedExactlyWhen(a: Attempt, o: Observation, o': Observation, start: Snapshot, offer: nat, relay: nat,
                           root: Opaque)
    ensures a.Enter(o).0.Ok? <==> a.Check(o).0.Ok? && a.entered < 0xffff_ffff_ffff_ffff
    ensures a.Enter(o).0.Ok? ==> a.Enter(o).1 == a.Check(o).1.(entered := a.entered + 1)
    ensures a.Bind(o, o', start, offer, relay).0.Ok? <==>
      && a.Check(o).0.Ok? && a.mode == SingleLink && a.deadline.None? && NewDeadline(start, offer, relay).Ok?
      && a.(deadline := Some(NewDeadline(start, offer, relay).value)).Check(o').0.Ok?
    ensures a.Retain(o, root).0.Ok? <==> a.Check(o).0.Ok? && a.deadline.Some? && a.custody.None?
    ensures a.Retain(o, root).0.Ok? ==> a.Retain(o, root).1 == a.Check(o).1.(custody := Some(root))
    ensures a.ClearCustody() == a.(custody := None) && (a.entered > 0 ==> a.Leave() == a.(entered := a.entered - 1))
  {}

  /**
   A touch. Each entry granted is left once, by its own handle; the expiry watchdog of a retained root is
   nothing but further checks.
   */
  datatype Touch =
    | TouchCheck(o: Observation)
    | TouchCancel
    | TouchClear
    | TouchEnter(o: Observation)
    | TouchLeave
    | TouchBind(o: Observation, o': Observation, start: Snapshot, offer: nat, relay: nat)
    | TouchRetain(o: Observation, root: Opaque)

  function Touched(a: Attempt, t: Touch): Attempt {
    match t
    case TouchCheck(o) => a.Check(o).1
    case TouchCancel => a.Cancel()
    case TouchClear => a.ClearCustody()
    case TouchEnter(o) => a.Enter(o).1
    case TouchLeave => if a.entered > 0 then a.Leave() else a
    case TouchBind(o, o', start, offer, relay) => a.Bind(o, o', start, offer, relay).1
    case TouchRetain(o, root) => a.Retain(o, root).1
  }

  function TouchedBy(a: Attempt, ts: seq<Touch>): Attempt {
    if ts == [] then a else Touched(TouchedBy(a, ts[..|ts| - 1]), ts[|ts| - 1])
  }

  /** Every state of a fresh single-link attempt: the root is held only under the live bound it was unlocked in. */
  predicate CustodyBounded(a: Attempt) {
    a.Fenced() && (a.custody.Some? ==> a.Live() && a.deadline.Some?)
  }

  lemma TouchKeeps(a: Attempt, t: Touch)
    requires CustodyBounded(a)
    ensures CustodyBounded(Touched(a, t))
    ensures !a.Live() ==> !Touched(a, t).Live() && Touched(a, t).entered <= a.entered
  {}

  /**
   Over any run of operations the fence is never lifted, an unlocked root never outlives it, and nothing is
   entered after it: the entries still counted then are of those made before.
   */
  lemma {:induction false} FenceIsFinal(a: Attempt, ts: seq<Touch>, k: nat)
    requires CustodyBounded(a) && k <= |ts|
    ensures CustodyBounded(TouchedBy(a, ts))
    ensures !TouchedBy(a, ts[..k]).Live() ==>
              && !TouchedBy(a, ts).Live() && TouchedBy(a, ts).custody.None?
              && TouchedBy(a, ts).entered <= TouchedBy(a, ts[..k]).entered
    decreases |ts|
  {
    if ts == [] {
      assert ts[..k] == ts;
    } else {
      var n := |ts| - 1;
      if k == |ts| {
        assert ts[..k] == ts;
        FenceIsFinal(a, ts[..n], n);
      } else {
        assert ts[..n][..k] == ts[..k];
        FenceIsFinal(a, ts[..n], k);
      }
      TouchKeeps(TouchedBy(a, ts[..n]), ts[n]);
    }
  }
}
