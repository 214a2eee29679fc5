/**
 How a pair comes to be trusted. A recognised invitation becomes a single-use contact capability
 either through the person's decision on the pair, through a pair trusted before, or through the
 ceremony gesture; only a capability newly approved for exactly its pair ever writes the table.
 */
module Claimant {
  import opened Prelude
  import opened Records
  import opened Policy
  import opened TrustRuns

  datatype Provenance = CeremonyGesture | LegacyExistingTrust | LegacyNewPairApproval

  /** The live profile and the origins of the pairing relays it declares. */
  datatype Fetched = Fetched(profile: Profile, relays: seq<string>, selectsAccount: bool)

  datatype Decision = ExistingTrust | Approve | Decline

  datatype ConsentPlan = ConsentPlan(carrier: Carrier, fetched: Fetched, trusted: bool)

  datatype Capability = Capability(carrier: Carrier, fetched: Fetched, provenance: Provenance)

  function PairOf(carrier: Carrier): Row {
    Row(carrier.application, carrier.relay)
  }

  function Declared(relays: seq<string>, relay: string): nat {
    if relays == [] then 0 else (if relays[0] == relay then 1 else 0) + Declared(relays[1..], relay)
  }

  /** The profile is the carrier's application and declares its relay exactly once. */
  predicate Candidate(carrier: Carrier, fetched: Fetched) {
    fetched.profile.application == carrier.application && Declared(fetched.relays, carrier.relay) == 1
  }

  function RequireCandidate(carrier: Carrier, fetched: Fetched): Result<()> {
    if fetched.profile.application != carrier.application then Err(ProfileUnavailable)
    else if Declared(fetched.relays, carrier.relay) != 1 then Err(RelayRefused)
    else Ok(())
  }

  /** `authorise_claimant_relay`: None is the person's refusal. */
  function Authorise(plan: ConsentPlan, decision: Decision): Result<Option<Capability>> {
    match (plan.trusted, decision)
    case (true, ExistingTrust) => Ok(Some(Capability(plan.carrier, plan.fetched, LegacyExistingTrust)))
    case (false, Approve) => Ok(Some(Capability(plan.carrier, plan.fetched, LegacyNewPairApproval)))
    case (_, Decline) => Ok(None)
    case _ => Err(RelayRefused)
  }

  predicate OnlyAt(relays: seq<string>, relay: string, i: nat) {
    i < |relays| && relays[i] == relay && relay !in relays[..i] && relay !in relays[i + 1..]
  }

  lemma {:induction false} DeclaredOnce(relays: seq<string>, relay: string)
    ensures Declared(relays, relay) == 0 <==> relay !in relays
    ensures Declared(relays, relay) == 1 <==> exists i: nat :: OnlyAt(relays, relay, i)
  {
    if relays != [] {
      DeclaredOnce(relays[1..], relay);
      assert relays == [relays[0]] + relays[1..];
      if relays[0] == relay {
        assert OnlyAt(relays, relay, 0) <==> relay !in relays[1..];
        forall i: nat | 0 < i < |relays| ensures !OnlyAt(relays, relay, i) { assert relays[..i][0] == relay; }
      } else {
        forall i: nat | i < |relays| - 1
          ensures OnlyAt(relays, relay, i + 1) <==> OnlyAt(relays[1..], relay, i)
        {
          assert relays[..i + 1] == [relays[0]] + relays[1..][..i] && relays[i + 1 + 1..] == relays[1..][i + 1..];
        }
        if i: nat :| OnlyAt(relays, relay, i) { assert OnlyAt(relays[1..], relay, i - 1); }
        if i: nat :| OnlyAt(relays[1..], relay, i) { assert OnlyAt(relays, relay, i + 1); }
      }
    }
  }

  /** Who may go on to bind: a carrier whose application the profile is of, and whose relay it declares just once. */
  lemma CandidateMeans(carrier: Carrier, fetched: Fetched)
    ensures RequireCandidate(carrier, fetched).Ok? <==> Candidate(carrier, fetched)
    ensures Candidate(carrier, fetched) <==>
      && fetched.profile.application == carrier.application
      && exists i: nat :: OnlyAt(fetched.relays, carrier.relay, i)
  {
    DeclaredOnce(fetched.relays, carrier.relay);
  }

  /**
   The person's decision on a pair: a pair not yet trusted goes on only by approval, and then as newly approved; a
   trusted one only as trusted before; either may be declined, and every other decision is refused.
   */
  lemma AuthoriseMeans(plan: ConsentPlan, decision: Decision)
    ensures var r := Authorise(plan, decision);
      && (r == Ok(None) <==> decision == Decline)
      && (r.Ok? && r.value.Some? ==>
          var c := r.value.value;
          && c.carrier == plan.carrier && c.fetched == plan.fetched
          && (c.provenance == LegacyNewPairApproval <==> !plan.trusted && decision == Approve)
          && (c.provenance == LegacyExistingTrust <==> plan.trusted && decision == ExistingTrust))
      && (r.Err? <==> decision == if plan.trusted then Approve else ExistingTrust)
      && (r.Err? ==> r.error == RelayRefused)
  {}

  /**
   What binding the finished profile may do to the table: nothing, look the existing pair up, or one
   insert of exactly the capability's pair, whatever others save in between.
   */
  ghost predicate Binds(ok: Grammar, calls: Calls, e: Option<PolicyText>, calls': Calls, e': Option<PolicyText>,
                        c: Capability, r: Result<Option<Opaque>>)
  {
    || (calls' == calls && e' == e && (r.Ok? ==> c.provenance == CeremonyGesture))
    || (c.provenance == LegacyExistingTrust && e' == e
        && calls'.Called? && calls'.last.Looked?
           && calls' == Called(calls, Looked(e, e, PairOf(c.carrier), calls'.last.trusted))
        && Readable(ok, e) && (calls'.last.trusted <==> PairOf(c.carrier) in Trusted(ok, e))
           && (r.Ok? ==> calls'.last.trusted))
    || (c.provenance == LegacyNewPairApproval && calls'.Called? && calls'.last.Answered?
        && Finished(ok, calls, e, calls', e', Accept(PairOf(c.carrier)), calls'.last.result)
        && (r.Ok? ==> calls'.last.result.Ok?))
  }

  class PreparedClaimant {
    const capability: Capability
    /** The reducer waits for its verifier until this turns false. */
    var awaiting: bool
    var selection: Option<Opaque>

    /** `prepare_claimant` consumes the capability. */
    constructor (capability: Capability)
      ensures this.capability == capability && awaiting && selection == None
    {
      this.capability, awaiting, selection := capability, true, None;
    }

    /**
     `bind_finished_profile`, after both Finished values. `scope` is the installed account's, read
     only when the profile advertises account selection. The profile and the carrier agree, as
     `require_profile_candidate` saw to before the capability existed.
     */
    method BindFinishedProfile(trust: TrustStore, scope: Result<Opaque>) returns (r: Result<Option<Opaque>>)
      requires Candidate(capability.carrier, capability.fetched)
      modifies this, trust
      ensures Binds(trust.ok, old(trust.calls), old(trust.entry), trust.calls, trust.entry, capability, r)
      ensures r.Ok? ==> old(awaiting) && old(selection).None? && !awaiting && selection == r.value
      ensures r.Ok? ==>
        && (r.value.Some? <==> capability.fetched.selectsAccount)
        && (r.value.Some? ==> scope == Ok(r.value.value))
      ensures r.Err? ==> selection == old(selection)
      ensures !old(awaiting) ==> r.Err? && trust.entry == old(trust.entry) && trust.calls == old(trust.calls)
    {
      if !awaiting || selection.Some? { return Err(Failed); }
      var chosen: Option<Opaque> := None;
      if capability.fetched.selectsAccount {
        if scope.Err? { return Err(scope.error); }
        chosen := Some(scope.value);
      }
      if * { return Err(Failed); }
      var row := Row(capability.fetched.profile.application, capability.carrier.relay);
      if capability.provenance == LegacyNewPairApproval {
        var inserted := trust.Insert(row);
        if inserted.Err? { return Err(inserted.error); }
      } else if capability.provenance == LegacyExistingTrust {
        var state := trust.State(row);
        if state.Err? { return Err(state.error); }
        if !state.value { return Err(PolicyUnavailable); }
      }
      if * { return Err(Failed); }
      awaiting := false;
      if * { return Err(Failed); }
      selection := chosen;
      return Ok(chosen);
    }
  }

  // ---- histories of the whole trust boundary ----

  /**
   The table and the calls on it that have loaded and not saved, every plan and capability handed out so
   far, the pairs a person approved as new, and the pairs some unlink looked up as trusted, which its
   rollback may put back.
   */
  datatype Boundary = Boundary(
    table: Table, plans: set<ConsentPlan>, capabilities: set<Capability>, approved: set<Row>, seen: set<Row>)

  datatype Act =
    | Recognise(carrier: Carrier, fetched: Fetched, trusted: Result<bool>)
    | Decide(plan: ConsentPlan, decision: Decision)
    | Gesture(carrier: Carrier, fetched: Fetched)
    /** The load of the insert a capability's binding makes. */
    | Bind(capability: Capability, call: nat, r: Result<()>)
    /** An unlink looks a pair up, loads to remove one, or loads to put one back. */
    | Sample(row: Row)
    | Forget(row: Row, call: nat, r: Result<()>)
    | Restore(row: Row, call: nat, r: Result<()>)
    /** The save of whichever of these calls. */
    | Save(call: nat, r: Result<()>)
    | Destroy(r: Result<()>)

  predicate TableActs(ok: Grammar, b: Boundary, b': Boundary, s: Section, r: Result<()>) {
    Sections(ok, b.table, b'.table, s, r) && b' == b.(table := b'.table)
  }

  predicate Acts(ok: Grammar, b: Boundary, b': Boundary, act: Act) {
    match act
    case Recognise(carrier, fetched, trusted) =>
      if RequireCandidate(carrier, fetched).Ok? && trusted.Ok?
      then Readable(ok, b.table.entry) && (trusted.value <==> PairOf(carrier) in Trusted(ok, b.table.entry))
        && b' == b.(plans := b.plans + {ConsentPlan(carrier, fetched, trusted.value)})
      else b' == b
    case Decide(plan, decision) =>
      if plan in b.plans && Authorise(plan, decision).Ok? && Authorise(plan, decision).value.Some?
      then b' == b.(capabilities := b.capabilities + {Authorise(plan, decision).value.value},
                    approved := if decision == Approve then b.approved + {PairOf(plan.carrier)} else b.approved)
      else b' == b
    case Gesture(carrier, fetched) =>
      if RequireCandidate(carrier, fetched).Ok?
      then b' == b.(capabilities := b.capabilities + {Capability(carrier, fetched, CeremonyGesture)})
      else b' == b
    case Bind(capability, call, r) =>
      if capability in b.capabilities && capability.provenance == LegacyNewPairApproval
      then TableActs(ok, b, b', LoadFor(call, Accept(PairOf(capability.carrier))), r)
      else b' == b
    case Sample(row) =>
      if Readable(ok, b.table.entry) && row in Trusted(ok, b.table.entry) then b' == b.(seen := b.seen + {row})
        else b' == b
    case Forget(row, call, r) => TableActs(ok, b, b', LoadFor(call, Withdraw(row)), r)
    case Restore(row, call, r) => if row in b.seen then TableActs(ok, b, b', LoadFor(call, Accept(row)), r) else b' == b
    case Save(call, r) => TableActs(ok, b, b', SaveOf(call), r)
    case Destroy(r) => TableActs(ok, b, b', PurgeAll, r)
  }

  ghost predicate History(ok: Grammar, bs: seq<Boundary>, acts: seq<Act>) {
    && |bs| == |acts| + 1 && bs[0] == Boundary(Table(None, map[]), {}, {}, {}, {})
    && forall i :: 0 <= i < |acts| ==> Acts(ok, bs[i], bs[i + 1], acts[i])
  }

  /** The pair is in the table, in a table some call has loaded, or on its way in, or an unlink has seen it trusted. */
  predicate InReach(ok: Grammar, b: Boundary, row: Row)
    requires TableKept(ok, b.table)
  {
    || row in Trusted(ok, b.table.entry) || row in b.seen
    || exists c ::
       && c in b.table.loaded
       && (row in Trusted(ok, b.table.loaded[c].text) || b.table.loaded[c].op == Accept(row))
  }

  /** Everything that could make a pair trusted was approved, and every capability is of a candidate. */
  ghost predicate Warranted(ok: Grammar, b: Boundary) {
    && TableKept(ok, b.table) && (forall row :: InReach(ok, b, row) ==> row in b.approved)
    && (forall c: Capability :: c in b.capabilities ==> Candidate(c.carrier, c.fetched))
    && (forall p :: p in b.plans ==> Candidate(p.carrier, p.fetched))
    && forall c :: c in b.capabilities && c.provenance == LegacyNewPairApproval ==> PairOf(c.carrier) in b.approved
  }

  /** The act is the person's approval of this pair as a new one. */
  predicate Approves(act: Act, row: Row) {
    act.Decide? && act.decision == Approve && !act.plan.trusted && PairOf(act.plan.carrier) == row
  }

  /** The act begins to bind a capability newly approved for this pair. */
  predicate BindsNew(act: Act, row: Row) {
    act.Bind? && act.capability.provenance == LegacyNewPairApproval && PairOf(act.capability.carrier) == row
  }

  /** A pair comes into reach of the table only as a new-pair capability begins to bind it. */
  lemma NewlyHeld(ok: Grammar, b: Boundary, b': Boundary, act: Act, row: Row)
    requires TableKept(ok, b.table) && Acts(ok, b, b', act)
    ensures TableKept(ok, b'.table)
    ensures InReach(ok, b', row) && !InReach(ok, b, row) ==> BindsNew(act, row) && act.capability in b.capabilities
  {}

  lemma ActWarranted(ok: Grammar, b: Boundary, b': Boundary, act: Act)
    requires Warranted(ok, b) && Acts(ok, b, b', act)
    ensures Warranted(ok, b')
    ensures forall row :: row in b'.approved && row !in b.approved ==> Approves(act, row)
  {
    forall row
      ensures InReach(ok, b', row) && !InReach(ok, b, row) ==> BindsNew(act, row) && act.capability in b.capabilities
    {
      NewlyHeld(ok, b, b', act, row);
    }
  }

  /**
   Over every history, with loads and saves of binds, unlinks and their rollbacks interleaved anyhow: a pair
   trusted now, or in a table some call may yet save, was approved as new for exactly that application and
   relay, and a capability of that approval then began to bind it. A lost update brings back only such a
   pair, and the gesture never widens the table.
   */
  lemma {:induction false} TrustIsApproved(ok: Grammar, bs: seq<Boundary>, acts: seq<Act>, row: Row)
    requires History(ok, bs, acts)
    ensures Warranted(ok, bs[|acts|])
    ensures InReach(ok, bs[|acts|], row) ==> exists i, j ::
      && 0 <= i < j < |acts| && Approves(acts[i], row)
      && BindsNew(acts[j], row)
    ensures row in bs[|acts|].approved ==> exists i :: 0 <= i < |acts| && Approves(acts[i], row)
    decreases |acts|
  {
    if acts == [] {
      assert TableKept(ok, bs[0].table);
    } else {
      var n := |acts| - 1;
      var before := acts[..n];
      TrustIsApproved(ok, bs[..n + 1], before, row);
      assert Acts(ok, bs[n], bs[n + 1], acts[n]);
      ActWarranted(ok, bs[n], bs[n + 1], acts[n]);
      NewlyHeld(ok, bs[n], bs[n + 1], acts[n], row);
      assert forall i :: 0 <= i < n ==> before[i] == acts[i];
      if InReach(ok, bs[n], row) {
        var i, j :| 0 <= i < j < n && Approves(before[i], row) && BindsNew(before[j], row);
        assert Approves(acts[i], row) && BindsNew(acts[j], row);
      } else if InReach(ok, bs[n + 1], row) {
        var i :| 0 <= i < n && Approves(before[i], row);
        assert Approves(acts[i], row) && BindsNew(acts[n], row);
      }
    }
  }

  /**
   Until a pair is first trusted no table that was loaded has it, no unlink has seen it, and only a binding is
   putting it in.
   */
  lemma {:induction false} NotYetHeld(ok: Grammar, bs: seq<Boundary>, acts: seq<Act>, row: Row, m: nat)
    requires History(ok, bs, acts) && m <= |acts|
    requires forall i :: 0 <= i <= m ==> Readable(ok, bs[i].table.entry) && row !in Trusted(ok, bs[i].table.entry)
    ensures TableKept(ok, bs[m].table) && row !in bs[m].seen
    ensures forall c :: c in bs[m].table.loaded ==> row !in Trusted(ok, bs[m].table.loaded[c].text)
    ensures forall c :: c in bs[m].table.loaded && bs[m].table.loaded[c].op == Accept(row) ==>
              exists j :: 0 <= j < m && BindsNew(acts[j], row) && acts[j].call == c
                && acts[j].capability in bs[j].capabilities
  {
    if m > 0 {
      NotYetHeld(ok, bs, acts, row, m - 1);
      assert Acts(ok, bs[m - 1], bs[m], acts[m - 1]);
      NewlyHeld(ok, bs[m - 1], bs[m], acts[m - 1], row);
      var before, after := bs[m - 1].table.loaded, bs[m].table.loaded;
      forall c | c in after && after[c].op == Accept(row)
        ensures exists j ::
          && 0 <= j < m && BindsNew(acts[j], row) && acts[j].call == c
          && acts[j].capability in bs[j].capabilities
      {
        if c in before && before[c] == after[c] {
          var j :| 0 <= j < m - 1 && BindsNew(acts[j], row) && acts[j].call == c
            && acts[j].capability in bs[j].capabilities;
        } else {
          assert BindsNew(acts[m - 1], row) && acts[m - 1].call == c;
        }
      }
    }
  }

  /**
   The first time a pair is in the table it is by the save of a binding newly approved for it, never by a
   rollback or a stale save.
   */
  lemma FirstEntryIsBound(ok: Grammar, bs: seq<Boundary>, acts: seq<Act>, row: Row, m: nat)
    requires History(ok, bs, acts) && m < |acts|
    requires forall i :: 0 <= i <= m ==> Readable(ok, bs[i].table.entry) && row !in Trusted(ok, bs[i].table.entry)
    requires Readable(ok, bs[m + 1].table.entry) && row in Trusted(ok, bs[m + 1].table.entry)
    ensures acts[m].Save?
    ensures exists i, j ::
      && 0 <= i < j < m && Approves(acts[i], row) && BindsNew(acts[j], row)
      && acts[j].call == acts[m].call
  {
    NotYetHeld(ok, bs, acts, row, m);
    assert Acts(ok, bs[m], bs[m + 1], acts[m]);
    var j :| 0 <= j < m && BindsNew(acts[j], row) && acts[j].call == acts[m].call
      && acts[j].capability in bs[j].capabilities;
    TrustIsApproved(ok, bs[..j + 1], acts[..j], row);
    assert row in bs[j].approved;
    var i :| 0 <= i < |acts[..j]| && Approves(acts[..j][i], row);
    assert Approves(acts[i], row) && BindsNew(acts[j], row);
  }
}
