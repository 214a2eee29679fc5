/**
 The write-ahead executor behind a final approval. Fifteen ordered boundaries interleave durable
 replacements of the pending record with effects nothing can take back; revocation and expiry may
 land between any two of its actions, and so may a crash.
 */
module Executor {
  import opened Prelude
  import opened Records
  import opened Links
  import opened LinkSpec
  import opened LinkStore
  import opened StoreRuns
  import opened Transaction
  import opened Attempts

  datatype Boundary =
    | FinalApprovalRelease | AcknowledgementRead | AcknowledgementRecognition
    | AcknowledgementCheckpointReplacement | AcknowledgementCheckpointCommit | PlanConstruction
    | PlannedStageReplacement | IssuerCustody | IssuerStageReplacement | IssuerPublication
    | ResolverVerification | GrantConstruction | ProvisionedStageReplacement | PayloadConstruction
    | PayloadCheckpointPreparation

  const BOUNDARIES: seq<Boundary> := [
    FinalApprovalRelease, AcknowledgementRead, AcknowledgementRecognition,
    AcknowledgementCheckpointReplacement, AcknowledgementCheckpointCommit, PlanConstruction,
    PlannedStageReplacement, IssuerCustody, IssuerStageReplacement, IssuerPublication,
    ResolverVerification, GrantConstruction, ProvisionedStageReplacement, PayloadConstruction,
    PayloadCheckpointPreparation]

  /** Where the fence is passed: at a numbered boundary, or at one of the attempt's own guarded runs. */
  datatype Gate = At(boundary: Boundary) | RunBegin | RunSend | RunIo | RunCommit | RunRelease

  datatype Event =
    | Entered(gate: Gate)
    | Stored(record: Pending)
    | SentFinalApprove(object: Object)
    | SentPayload(hash: Opaque)
    | IssuerSigned(did: Opaque)
    | Published(did: Opaque, closure: Closure)
    | Resolved(did: Opaque)
    | GrantSigned(grant: Grant)

  /** Everything the executor is told by the clock, custody, the protocol core and the network. */
  datatype Facts = Facts(
    initial: Pending, openedAt: nat, derivedDid: Opaque,
    ackGeneration: nat, ackCheckpoint: seq<Opaque>,
    effectTime: nat, grantId: Opaque, issuerDid: Opaque, closure: Closure,
    acknowledged: bool, resolvedMatches: bool, grant: Grant,
    payloadHash: Opaque, payloadAt: nat, payloadGeneration: nat, payloadCheckpoint: seq<Opaque>)

  // ---- the one order the events can have ----

  /** What may still happen, next event first. */
  datatype Plan = Done | Then(next: Event, rest: Plan)

  /** What has happened, latest event last. */
  datatype History = Start | After(past: History, last: Event)

  /** The plan a history and the rest of its plan came from. */
  function Replay(done: History, todo: Plan): Plan {
    match done
    case Start => todo
    case After(past, e) => Replay(past, Then(e, todo))
  }

  function Enter(gate: Gate, rest: Plan): Plan { Then(Entered(gate), rest) }

  /** The whole ceremony; a refused transition, a late clock or a foreign refusal ends it early. */
  function Script(f: Facts): Plan {
    if f.openedAt >= f.initial.offerExpiresAt || f.derivedDid != f.initial.previewIssuer then Done
    else Enter(RunBegin, Then(Stored(f.initial), Rest(Begun, f, f.initial)))
  }

  /** Where the executor can stand between two of its durable or irrevocable actions. */
  datatype Stop = Begun | Acknowledging | Planning | Issuing | Publishing | Resolving | Granting | Paying
  {
    function Left(): nat {
      match this
      case Begun => 7
      case Acknowledging => 6
      case Planning => 5
      case Issuing => 4
      case Publishing => 3
      case Resolving => 2
      case Granting => 1
      case Paying => 0
    }
  }

  /** What may still happen from a stop, with `p` the latest durable record. */
  function Rest(stop: Stop, f: Facts, p: Pending): Plan
    decreases stop.Left()
  {
    match stop
    case Begun =>
      Enter(At(FinalApprovalRelease), Enter(RunSend, Then(SentFinalApprove(f.initial.finalApprove),
      Enter(At(AcknowledgementRead), Enter(At(AcknowledgementRecognition), Rest(Acknowledging, f, p))))))
    case Acknowledging =>
      (match p.WithCheckpoint(f.ackGeneration, f.ackCheckpoint)
       case Err(_) => Done
       case Ok(acknowledged) =>
         Enter(At(AcknowledgementCheckpointReplacement), Then(Stored(acknowledged),
         Enter(At(AcknowledgementCheckpointCommit), Enter(At(PlanConstruction), Rest(Planning, f, acknowledged))))))
    case Planning =>
      if f.effectTime >= f.initial.offerExpiresAt then Done
      else (match p.Plan(f.effectTime, f.grantId)
        case Err(_) => Done
        case Ok(planned) =>
          Enter(At(PlannedStageReplacement), Then(Stored(planned),
          Enter(At(IssuerCustody), Then(IssuerSigned(f.issuerDid), Rest(Issuing, f, planned))))))
    case Issuing =>
      (match p.CreateIssuer(f.issuerDid, f.closure)
       case Err(_) => Done
       case Ok(created) =>
         Enter(At(IssuerStageReplacement), Then(Stored(created),
         Enter(At(IssuerPublication), Enter(RunIo, Then(Published(f.issuerDid, f.closure),
                                                        Rest(Publishing, f, created)))))))
    case Publishing =>
      if !f.acknowledged then Done
      else Enter(At(ResolverVerification), Enter(RunIo, Then(Resolved(f.issuerDid), Rest(Resolving, f, p))))
    case Resolving =>
      if !f.resolvedMatches then Done
      else Enter(At(GrantConstruction), Then(GrantSigned(f.grant), Rest(Granting, f, p)))
    case Granting =>
      (match p.Provision(f.grantId, f.grant)
       case Err(_) => Done
       case Ok(provisioned) =>
         Enter(At(ProvisionedStageReplacement), Then(Stored(provisioned),
         Enter(At(PayloadConstruction), Enter(At(PayloadCheckpointPreparation), Rest(Paying, f, provisioned))))))
    case Paying =>
      if f.payloadAt >= f.initial.offerExpiresAt then Done
      else (match PayloadRecord(f, p)
        case Err(_) => Done
        case Ok(payload) => Enter(RunCommit, Then(Stored(payload), AfterCommit(f))))
  }

  /** The payload is durable: what is left is its frame. */
  function AfterCommit(f: Facts): Plan {
    Enter(RunRelease, Enter(RunSend, Then(SentPayload(f.payloadHash), Done)))
  }

  function PayloadRecord(f: Facts, provisioned: Pending): Result<Pending> {
    match provisioned.PreparePayload(f.payloadHash)
    case Err(e) => Err(e)
    case Ok(prepared) => prepared.WithCheckpoint(f.payloadGeneration, f.payloadCheckpoint)
  }

  // ---- what the order means ----

  /** The record a crash now would leave to recovery. */
  function Durable(h: History): Option<Pending> {
    match h
    case Start => None
    case After(past, e) => if e.Stored? then Some(e.record) else Durable(past)
  }

  predicate Happened(h: History, e: Event) {
    h.After? && (h.last == e || Happened(h.past, e))
  }

  predicate JustEntered(h: History, gate: Gate) {
    h.After? && h.last == Entered(gate)
  }

  /** The pending record an irrevocable effect needs to find durable. */
  predicate Needs(e: Event, p: Pending, f: Facts) {
    var preview := f.initial.previewIssuer;
    match e
    case Entered(_) => true
    case Stored(_) => true
    case SentFinalApprove(approval) => p == f.initial && approval == f.initial.finalApprove
    case IssuerSigned(_) =>
      p.stage == Planned(f.effectTime, f.grantId) && p.generation == f.ackGeneration && p.checkpoint == f.ackCheckpoint
    case Published(did, closure) => did == preview && p.stage == IssuerCreated(f.effectTime, f.grantId, did, closure)
    case Resolved(_) => p.stage == IssuerCreated(f.effectTime, f.grantId, preview, f.closure)
    case GrantSigned(_) => p.stage == IssuerCreated(f.effectTime, f.grantId, preview, f.closure)
    case SentPayload(hash) =>
      && p.stage == PayloadPrepared(f.effectTime, f.grantId, preview, f.grant, f.closure, hash)
      && p.generation == f.payloadGeneration && p.checkpoint == f.payloadCheckpoint
  }

  /** What must already be stored, already have happened, and just have been entered, when an effect takes place. */
  predicate Allowed(e: Event, h: History, f: Facts) {
    var preview := f.initial.previewIssuer;
    e.Entered? ||
    (h.After? && h.last.Entered? &&
     (e.Stored? ||
      (Durable(h).Some? && Needs(e, Durable(h).value, f) && match e
       case SentFinalApprove(_) => JustEntered(h, RunSend) && f.derivedDid == preview
       case IssuerSigned(_) => JustEntered(h, At(IssuerCustody))
       case Published(_, _) => JustEntered(h, RunIo)
       case Resolved(_) => JustEntered(h, RunIo) && Happened(h, Published(preview, f.closure))
       case GrantSigned(_) =>
         JustEntered(h, At(GrantConstruction)) && Happened(h, Published(preview, f.closure))
           && Happened(h, Resolved(preview))
       case SentPayload(_) => JustEntered(h, RunSend) && f.payloadAt < f.initial.offerExpiresAt)))
  }

  /** Durable before irrevocable, at every moment of the history and so for a crash at any of them. */
  predicate WriteAhead(h: History, f: Facts) {
    h.After? ==> Allowed(h.last, h.past, f) && WriteAhead(h.past, f)
  }

  /** The rest of the plan keeps to the write-ahead rule after `h`. */
  predicate Guarded(h: History, todo: Plan, f: Facts)
    decreases todo
  {
    todo.Then? ==> Allowed(todo.next, h, f) && Guarded(After(h, todo.next), todo.rest, f)
  }

  /** A plan keeps the rule if its next event does and the rest does after it. */
  lemma Guards(h: History, e: Event, rest: Plan, f: Facts)
    requires Allowed(e, h, f) && Guarded(After(h, e), rest, f)
    ensures Guarded(h, Then(e, rest), f)
  {}

  /** Two guarded entries in a row cost nothing. */
  lemma GuardsEntries(h: History, a: Gate, b: Gate, rest: Plan, f: Facts)
    requires Guarded(After(After(h, Entered(a)), Entered(b)), rest, f)
    ensures Guarded(h, Enter(a, Enter(b, rest)), f)
    ensures Durable(After(After(h, Entered(a)), Entered(b))) == Durable(h)
  {
    Guards(After(h, Entered(a)), Entered(b), rest, f);
    assert Durable(After(h, Entered(a))) == Durable(h);
  }

  /** A boundary and the replacement behind it. */
  lemma GuardsStore(h: History, gate: Gate, p: Pending, rest: Plan, f: Facts)
    requires Guarded(After(After(h, Entered(gate)), Stored(p)), rest, f)
    ensures Guarded(h, Enter(gate, Then(Stored(p), rest)), f)
  {
    Guards(After(h, Entered(gate)), Stored(p), rest, f);
  }

  lemma GuardedAfterPayload(h: History, provisioned: Pending, f: Facts)
    requires provisioned.stage == Provisioned(f.effectTime, f.grantId, f.initial.previewIssuer, f.grant, f.closure)
    ensures Guarded(h, Rest(Paying, f, provisioned), f)
  {
    if f.payloadAt < f.initial.offerExpiresAt && PayloadRecord(f, provisioned).Ok? {
      var payload := PayloadRecord(f, provisioned).value;
      var h1 := After(After(h, Entered(RunCommit)), Stored(payload));
      var h2 := After(After(h1, Entered(RunRelease)), Entered(RunSend));
      assert Durable(h2) == Durable(h1) by { assert Durable(After(h1, Entered(RunRelease))) == Durable(h1); }
      Guards(h2, SentPayload(f.payloadHash), Done, f);
      GuardsEntries(h1, RunRelease, RunSend, Then(SentPayload(f.payloadHash), Done), f);
      GuardsStore(h, RunCommit, payload, AfterCommit(f), f);
    }
  }

  lemma GuardedAfterGrant(h: History, created: Pending, f: Facts)
    requires created.stage == IssuerCreated(f.effectTime, f.grantId, f.initial.previewIssuer, f.closure)
    ensures Guarded(h, Rest(Granting, f, created), f)
  {
    if created.Provision(f.grantId, f.grant).Ok? {
      var provisioned := created.Provision(f.grantId, f.grant).value;
      var h1 := After(After(h, Entered(At(ProvisionedStageReplacement))), Stored(provisioned));
      GuardedAfterPayload(After(After(h1, Entered(At(PayloadConstruction))),
                                Entered(At(PayloadCheckpointPreparation))), provisioned, f);
      GuardsEntries(h1, At(PayloadConstruction), At(PayloadCheckpointPreparation), Rest(Paying, f, provisioned), f);
      GuardsStore(h, At(ProvisionedStageReplacement), provisioned,
        Enter(At(PayloadConstruction), Enter(At(PayloadCheckpointPreparation), Rest(Paying, f, provisioned))), f);
    }
  }

  lemma GuardedAfterPublication(h: History, created: Pending, f: Facts)
    requires Durable(h) == Some(created) && f.issuerDid == f.initial.previewIssuer
    requires created.stage == IssuerCreated(f.effectTime, f.grantId, f.initial.previewIssuer, f.closure)
    requires Happened(h, Published(f.issuerDid, f.closure))
    ensures Guarded(h, Rest(Publishing, f, created), f)
  {
    if f.acknowledged {
      var h1 := After(After(h, Entered(At(ResolverVerification))), Entered(RunIo));
      var h2 := After(h1, Resolved(f.issuerDid));
      assert Durable(h1) == Durable(h) by { assert Durable(After(h, Entered(At(ResolverVerification)))) == Durable(h); }
      assert Happened(h1, Published(f.issuerDid, f.closure)) by {
        assert Happened(After(h, Entered(At(ResolverVerification))), Published(f.issuerDid, f.closure));
      }
      if f.resolvedMatches {
        var h3 := After(h2, Entered(At(GrantConstruction)));
        assert Happened(h3, Published(f.issuerDid, f.closure));
        assert Durable(h3) == Durable(h1) by { assert Durable(h2) == Durable(h1); }
        GuardedAfterGrant(After(h3, GrantSigned(f.grant)), created, f);
        Guards(h3, GrantSigned(f.grant), Rest(Granting, f, created), f);
        Guards(h2, Entered(At(GrantConstruction)), Then(GrantSigned(f.grant), Rest(Granting, f, created)), f);
      }
      Guards(h1, Resolved(f.issuerDid), Rest(Resolving, f, created), f);
      GuardsEntries(h, At(ResolverVerification), RunIo, Then(Resolved(f.issuerDid), Rest(Resolving, f, created)), f);
    }
  }

  lemma GuardedAfterIssuer(h: History, planned: Pending, f: Facts)
    requires planned.stage == Planned(f.effectTime, f.grantId) && planned.previewIssuer == f.initial.previewIssuer
    ensures Guarded(h, Rest(Issuing, f, planned), f)
  {
    if planned.CreateIssuer(f.issuerDid, f.closure).Ok? {
      var created := planned.CreateIssuer(f.issuerDid, f.closure).value;
      var published := Published(f.issuerDid, f.closure);
      var h1 := After(After(h, Entered(At(IssuerStageReplacement))), Stored(created));
      var h2 := After(After(h1, Entered(At(IssuerPublication))), Entered(RunIo));
      assert Durable(h2) == Durable(h1) by { assert Durable(After(h1, Entered(At(IssuerPublication)))) == Durable(h1); }
      GuardedAfterPublication(After(h2, published), created, f);
      Guards(h2, published, Rest(Publishing, f, created), f);
      GuardsEntries(h1, At(IssuerPublication), RunIo, Then(published, Rest(Publishing, f, created)), f);
      GuardsStore(h, At(IssuerStageReplacement), created,
        Enter(At(IssuerPublication), Enter(RunIo, Then(published, Rest(Publishing, f, created)))), f);
    }
  }

  lemma GuardedAfterPlan(h: History, acknowledged: Pending, f: Facts)
    requires acknowledged.previewIssuer == f.initial.previewIssuer
    requires acknowledged.generation == f.ackGeneration && acknowledged.checkpoint == f.ackCheckpoint
    ensures Guarded(h, Rest(Planning, f, acknowledged), f)
  {
    if f.effectTime < f.initial.offerExpiresAt && acknowledged.Plan(f.effectTime, f.grantId).Ok? {
      var planned := acknowledged.Plan(f.effectTime, f.grantId).value;
      var signed := IssuerSigned(f.issuerDid);
      var h1 := After(After(h, Entered(At(PlannedStageReplacement))), Stored(planned));
      var h2 := After(h1, Entered(At(IssuerCustody)));
      assert Durable(h2) == Durable(h1);
      GuardedAfterIssuer(After(h2, signed), planned, f);
      Guards(h2, signed, Rest(Issuing, f, planned), f);
      Guards(h1, Entered(At(IssuerCustody)), Then(signed, Rest(Issuing, f, planned)), f);
      GuardsStore(h, At(PlannedStageReplacement), planned,
                  Enter(At(IssuerCustody), Then(signed, Rest(Issuing, f, planned))), f);
    }
  }

  lemma GuardedAfterAcknowledgement(h: History, f: Facts)
    ensures Guarded(h, Rest(Acknowledging, f, f.initial), f)
  {
    var acknowledged := f.initial.WithCheckpoint(f.ackGeneration, f.ackCheckpoint);
    if acknowledged.Ok? {
      var rest := Rest(Planning, f, acknowledged.value);
      var h1 := After(After(h, Entered(At(AcknowledgementCheckpointReplacement))), Stored(acknowledged.value));
      GuardedAfterPlan(After(After(h1, Entered(At(AcknowledgementCheckpointCommit))), Entered(At(PlanConstruction))),
                       acknowledged.value, f);
      GuardsEntries(h1, At(AcknowledgementCheckpointCommit), At(PlanConstruction), rest, f);
      GuardsStore(h, At(AcknowledgementCheckpointReplacement), acknowledged.value,
        Enter(At(AcknowledgementCheckpointCommit), Enter(At(PlanConstruction), rest)), f);
    }
  }

  lemma ScriptIsGuarded(f: Facts)
    ensures Guarded(Start, Script(f), f)
  {
    if f.openedAt < f.initial.offerExpiresAt && f.derivedDid == f.initial.previewIssuer {
      var sent := SentFinalApprove(f.initial.finalApprove);
      var h1 := After(After(Start, Entered(RunBegin)), Stored(f.initial));
      var h2 := After(After(h1, Entered(At(FinalApprovalRelease))), Entered(RunSend));
      assert Durable(h2) == Durable(h1) by {
        assert Durable(After(h1, Entered(At(FinalApprovalRelease)))) == Durable(h1);
      }
      var h3 := After(h2, sent);
      GuardedAfterAcknowledgement(After(After(h3, Entered(At(AcknowledgementRead))),
                                        Entered(At(AcknowledgementRecognition))), f);
      var rest := Enter(At(AcknowledgementRead),
                        Enter(At(AcknowledgementRecognition), Rest(Acknowledging, f, f.initial)));
      GuardsEntries(h3, At(AcknowledgementRead), At(AcknowledgementRecognition), Rest(Acknowledging, f, f.initial), f);
      Guards(h2, sent, rest, f);
      GuardsEntries(h1, At(FinalApprovalRelease), RunSend, Then(sent, rest), f);
      GuardsStore(Start, RunBegin, f.initial, Rest(Begun, f, f.initial), f);
    }
  }

  /** Every history the plan can produce keeps the write-ahead rule, and so does whatever follows it. */
  lemma {:induction false} HistoryIsWriteAhead(done: History, todo: Plan, f: Facts)
    requires Replay(done, todo) == Script(f)
    ensures WriteAhead(done, f) && Guarded(done, todo, f)
  {
    match done
    case Start => ScriptIsGuarded(f);
    case After(past, e) => HistoryIsWriteAhead(past, Then(e, todo), f);
  }

  // ---- what the facts must be for an event to happen at all ----

  /**
   No event follows an expired offer or a changed identity; none from the plan on follows a late effect time;
   the resolver is asked only about an acknowledged publication, and the grant is signed only for an issuer
   it confirmed; and the payload is in time.
   */
  predicate Heeds(e: Event, f: Facts) {
    && f.openedAt < f.initial.offerExpiresAt && f.derivedDid == f.initial.previewIssuer
    && match e
       case Entered(_) => true
       case Stored(p) =>
         && (p.stage.Rank() >= 1 ==> f.effectTime < f.initial.offerExpiresAt)
         && (p.stage.Rank() >= 2 ==> f.issuerDid == f.initial.previewIssuer)
         && (p.stage.Rank() >= 3 ==> f.acknowledged && f.resolvedMatches)
         && (p.stage.Rank() >= 4 ==> f.payloadAt < f.initial.offerExpiresAt)
       case SentFinalApprove(_) => true
       case IssuerSigned(_) => f.effectTime < f.initial.offerExpiresAt
       case Published(did, _) => f.effectTime < f.initial.offerExpiresAt && did == f.initial.previewIssuer
       case Resolved(did) => f.acknowledged && did == f.initial.previewIssuer
       case GrantSigned(_) => f.acknowledged && f.resolvedMatches
       case SentPayload(_) => f.acknowledged && f.resolvedMatches && f.payloadAt < f.initial.offerExpiresAt
  }

  predicate AllHeed(todo: Plan, f: Facts)
    decreases todo
  {
    todo.Then? ==> Heeds(todo.next, f) && AllHeed(todo.rest, f)
  }

  predicate Heeded(h: History, f: Facts) {
    h.After? ==> Heeds(h.last, f) && Heeded(h.past, f)
  }

  lemma HeedAfterGrant(f: Facts, created: Pending)
    requires created.stage.Rank() == 2 && f.acknowledged && f.resolvedMatches && f.effectTime < f.initial.offerExpiresAt
    requires f.openedAt < f.initial.offerExpiresAt && f.derivedDid == f.issuerDid == f.initial.previewIssuer
    ensures AllHeed(Rest(Granting, f, created), f)
  {
    if created.Provision(f.grantId, f.grant).Ok? {
      var provisioned := created.Provision(f.grantId, f.grant).value;
      if f.payloadAt < f.initial.offerExpiresAt {
        assert AllHeed(Enter(RunSend, Then(SentPayload(f.payloadHash), Done)), f);
        assert AllHeed(AfterCommit(f), f);
      }
      assert AllHeed(Rest(Paying, f, provisioned), f);
      var tail := Enter(At(PayloadCheckpointPreparation), Rest(Paying, f, provisioned));
      assert AllHeed(Enter(At(PayloadConstruction), tail), f);
    }
  }

  lemma HeedAfterIssuer(f: Facts, planned: Pending)
    requires planned.previewIssuer == f.initial.previewIssuer && f.effectTime < f.initial.offerExpiresAt
    requires f.openedAt < f.initial.offerExpiresAt && f.derivedDid == f.initial.previewIssuer
    ensures AllHeed(Rest(Issuing, f, planned), f)
  {
    if planned.CreateIssuer(f.issuerDid, f.closure).Ok? {
      var created := planned.CreateIssuer(f.issuerDid, f.closure).value;
      if f.acknowledged && f.resolvedMatches { HeedAfterGrant(f, created); }
      assert AllHeed(Rest(Resolving, f, created), f) || !f.acknowledged;
      assert AllHeed(Enter(RunIo, Then(Resolved(f.issuerDid), Rest(Resolving, f, created))), f) || !f.acknowledged;
      assert AllHeed(Rest(Publishing, f, created), f);
      var tail := Enter(RunIo, Then(Published(f.issuerDid, f.closure), Rest(Publishing, f, created)));
      assert AllHeed(Enter(At(IssuerPublication), tail), f);
    }
  }

  lemma ScriptHeeds(f: Facts)
    requires f.initial.stage == FinalApproval
    ensures AllHeed(Script(f), f)
  {
    var acknowledged := f.initial.WithCheckpoint(f.ackGeneration, f.ackCheckpoint);
    if f.openedAt < f.initial.offerExpiresAt && f.derivedDid == f.initial.previewIssuer && Script(f).Then? {
      if acknowledged.Ok? {
        var planned := acknowledged.value.Plan(f.effectTime, f.grantId);
        if planned.Ok? && f.effectTime < f.initial.offerExpiresAt {
          HeedAfterIssuer(f, planned.value);
          var signing := Enter(At(IssuerCustody), Then(IssuerSigned(f.issuerDid), Rest(Issuing, f, planned.value)));
          assert AllHeed(signing, f);
        }
        assert AllHeed(Rest(Planning, f, acknowledged.value), f);
        var committing := Enter(At(PlanConstruction), Rest(Planning, f, acknowledged.value));
        assert AllHeed(Enter(At(AcknowledgementCheckpointCommit), committing), f);
      }
      assert AllHeed(Rest(Acknowledging, f, f.initial), f);
      var reading := Enter(At(AcknowledgementRecognition), Rest(Acknowledging, f, f.initial));
      assert AllHeed(Enter(At(AcknowledgementRead), reading), f);
      assert AllHeed(Rest(Begun, f, f.initial), f);
    }
  }

  /** Every event of every history had the facts on its side. */
  lemma {:induction false} HistoryHeeds(done: History, todo: Plan, f: Facts)
    requires Replay(done, todo) == Script(f) && f.initial.stage == FinalApproval
    ensures Heeded(done, f) && AllHeed(todo, f)
  {
    match done
    case Start => ScriptHeeds(f);
    case After(past, e) => HistoryHeeds(past, Then(e, todo), f);
  }

  predicate InPlan(todo: Plan, e: Event)
    decreases todo
  {
    todo.Then? && (todo.next == e || InPlan(todo.rest, e))
  }

  /** What has happened is what the finished script had in it. */
  lemma {:induction false} ReplayedIn(done: History, todo: Plan, e: Event)
    ensures InPlan(Replay(done, todo), e) <==> Happened(done, e) || InPlan(todo, e)
  {
    match done
    case Start =>
    case After(past, last) => ReplayedIn(past, Then(last, todo), e);
  }

  /** A history that went no further than one effect already entered when the fence fell. */
  /**
   What an entry made before the fence fell may still bring about behind it: a frame, a record, and in the
   earlier flow, whose root is not held by the attempt, a signature. A request is polled only behind a check.
   */
  predicate Outruns(e: Event, mode: Flow) {
    || e.Stored? || e.SentFinalApprove? || e.SentPayload?
    || (mode == LegacyTwoDecision && (e.IssuerSigned? || e.GrantSigned?))
  }

  predicate StoppedAt(fence: History, done: History, mode: Flow) {
    done == fence || (done.After? && done.past == fence && Outruns(done.last, mode))
  }

  /**
   Revocation or expiry at any instant: whatever effect happens after it is the single one already
   entered. No Payload frame, in particular, leaves unless its own send had been entered before.
   */
  lemma EffectsStopAtFence(fence: History, done: History, f: Facts, e: Event, mode: Flow)
    requires StoppedAt(fence, done, mode) && WriteAhead(done, f)
    requires Happened(done, e) && !Happened(fence, e)
    ensures done == After(fence, e) && fence.After? && fence.last.Entered?
    ensures !e.Entered? && !e.Published? && !e.Resolved?
    ensures e.IssuerSigned? || e.GrantSigned? ==> mode == LegacyTwoDecision
    ensures e.SentPayload? ==>
      && fence.last == Entered(RunSend) && Durable(fence).Some?
      && Durable(fence).value.stage.PayloadPrepared?
  {}

  // ---- what the store itself held ----

  /** Every event beside the store as it stood when the event happened, and whether no other command had touched it. */
  datatype Evidence = Nothing | Moment(past: Evidence, event: Event, held: Disk, alone: bool)

  function Events(v: Evidence): History {
    match v
    case Nothing => Start
    case Moment(past, e, _, _) => After(Events(past), e)
  }

  /** The store held the record just stored; and, if left alone, the record the effect needs. */
  predicate Backs(e: Event, held: Disk, alone: bool, f: Facts) {
    var stored := PendingOf(held, f.initial.application);
    if e.Entered? then true
    else if e.Stored? then stored == Ok(e.record)
    else alone ==> stored.Ok? && Needs(e, stored.value, f)
  }

  predicate Backed(v: Evidence, f: Facts) {
    v.Moment? ==> Backs(v.event, v.held, v.alone, f) && Backed(v.past, f)
  }

  /** The latest moment at which the run noted a record as stored. */
  function LastStored(v: Evidence): (w: Evidence)
    ensures w.Moment? ==> w.event.Stored?
  {
    if v.Nothing? || v.event.Stored? then v else LastStored(v.past)
  }

  lemma {:induction false} LastStoredIsDurable(v: Evidence, f: Facts)
    requires Backed(v, f)
    ensures var w := LastStored(v);
      if w.Nothing? then Durable(Events(v)) == None
      else Durable(Events(v)) == Some(w.event.record) && PendingOf(w.held, f.initial.application) == Ok(w.event.record)
  {
    if v.Moment? && !v.event.Stored? { LastStoredIsDurable(v.past, f); }
  }

  /**
   Whatever other commands do to the store: every irrevocable effect comes after a replacement the run
   committed, which left the store holding the record this effect needs.
   */
  lemma EffectFollowsCommit(v: Evidence, f: Facts)
    requires v.Moment? && Backed(v, f) && WriteAhead(Events(v), f) && !v.event.Entered? && !v.event.Stored?
    ensures var w := LastStored(v.past);
      && w.Moment? && w.event.Stored? && Needs(v.event, w.event.record, f)
      && PendingOf(w.held, f.initial.application) == Ok(w.event.record)
  {
    LastStoredIsDurable(v.past, f);
  }

  lemma PendingOfExtends(base: Disk, d: Disk, p: Pending)
    requires Extends(base, d, p)
    ensures PendingOf(d, p.application) == Ok(p)
  {
    ExtendsShape(base, d, p);
  }

  /** The numbered boundaries passed, in order. */
  function Visited(h: History): seq<Boundary> {
    match h
    case Start => []
    case After(past, e) => Visited(past) + (if e.Entered? && e.gate.At? then [e.gate.boundary] else [])
  }

  function Ahead(todo: Plan): seq<Boundary> {
    match todo
    case Done => []
    case Then(e, rest) => (if e.Entered? && e.gate.At? then [e.gate.boundary] else []) + Ahead(rest)
  }

  lemma {:induction false} VisitedThenAhead(done: History, todo: Plan)
    ensures Visited(done) + Ahead(todo) == Ahead(Replay(done, todo))
  {
    match done
    case Start => assert Visited(done) + Ahead(todo) == Ahead(todo);
    case After(past, e) => VisitedThenAhead(past, Then(e, todo));
  }

  /** The plan passes no boundary but those from the `k`th on, in their order. */
  predicate InOrder(todo: Plan, k: nat)
    decreases todo
  {
    match todo
    case Done => true
    case Then(e, rest) =>
      if e.Entered? && e.gate.At? then k < |BOUNDARIES| && e.gate.boundary == BOUNDARIES[k] && InOrder(rest, k + 1)
      else InOrder(rest, k)
  }

  lemma {:induction false} InOrderMeans(todo: Plan, k: nat)
    requires InOrder(todo, k) && k <= |BOUNDARIES|
    ensures Ahead(todo) <= BOUNDARIES[k..]
  {
    match todo
    case Done =>
    case Then(e, rest) =>
      if e.Entered? && e.gate.At? {
        InOrderMeans(rest, k + 1);
        assert BOUNDARIES[k..] == [BOUNDARIES[k]] + BOUNDARIES[k + 1..];
      } else {
        InOrderMeans(rest, k);
      }
  }

  lemma OrderAfterGrant(f: Facts, created: Pending)
    ensures InOrder(Rest(Granting, f, created), 12)
  {
    if created.Provision(f.grantId, f.grant).Ok? {
      var provisioned := created.Provision(f.grantId, f.grant).value;
      assert InOrder(Enter(RunSend, Then(SentPayload(f.payloadHash), Done)), 15);
      assert InOrder(AfterCommit(f), 15);
      assert InOrder(Rest(Paying, f, provisioned), 15);
      assert InOrder(Enter(At(PayloadConstruction),
                           Enter(At(PayloadCheckpointPreparation), Rest(Paying, f, provisioned))), 13);
    }
  }

  lemma OrderAfterPublication(f: Facts, created: Pending)
    ensures InOrder(Rest(Publishing, f, created), 10)
  {
    OrderAfterGrant(f, created);
    assert InOrder(Rest(Resolving, f, created), 11);
    assert InOrder(Then(Resolved(f.issuerDid), Rest(Resolving, f, created)), 11);
  }

  lemma OrderAfterPlan(f: Facts, acknowledged: Pending)
    ensures InOrder(Rest(Planning, f, acknowledged), 6)
  {
    if f.effectTime < f.initial.offerExpiresAt && acknowledged.Plan(f.effectTime, f.grantId).Ok? {
      var planned := acknowledged.Plan(f.effectTime, f.grantId).value;
      if planned.CreateIssuer(f.issuerDid, f.closure).Ok? {
        var created := planned.CreateIssuer(f.issuerDid, f.closure).value;
        OrderAfterPublication(f, created);
        assert InOrder(Enter(RunIo, Then(Published(f.issuerDid, f.closure), Rest(Publishing, f, created))), 10);
        assert InOrder(Then(Stored(created),
                            Enter(At(IssuerPublication), Enter(RunIo, Then(Published(f.issuerDid, f.closure),
                                                                           Rest(Publishing, f, created))))), 9);
      }
      assert InOrder(Rest(Issuing, f, planned), 8);
      assert InOrder(Enter(At(IssuerCustody), Then(IssuerSigned(f.issuerDid), Rest(Issuing, f, planned))), 7);
    }
  }

  lemma ScriptInOrder(f: Facts)
    ensures InOrder(Script(f), 0)
  {
    var acknowledged := f.initial.WithCheckpoint(f.ackGeneration, f.ackCheckpoint);
    if acknowledged.Ok? {
      OrderAfterPlan(f, acknowledged.value);
      assert InOrder(Enter(At(PlanConstruction), Rest(Planning, f, acknowledged.value)), 5);
      assert InOrder(Enter(At(AcknowledgementCheckpointCommit),
                           Enter(At(PlanConstruction), Rest(Planning, f, acknowledged.value))), 4);
    }
    assert InOrder(Rest(Acknowledging, f, f.initial), 3);
    assert InOrder(Enter(At(AcknowledgementRead),
                         Enter(At(AcknowledgementRecognition), Rest(Acknowledging, f, f.initial))), 1);
    assert InOrder(Rest(Begun, f, f.initial), 0);
  }

  /** Over every run the boundaries passed are a prefix of the fifteen, in their order. */
  lemma VisitedInOrder(done: History, todo: Plan, f: Facts)
    requires Replay(done, todo) == Script(f)
    ensures Visited(done) <= BOUNDARIES
  {
    VisitedThenAhead(done, todo);
    ScriptInOrder(f);
    InOrderMeans(Script(f), 0);
    assert Visited(done) <= Visited(done) + Ahead(todo);
  }

  // ---- what a delivered payload implies ----

  /** Every effect of the ceremony, and each of its six records, is in the plan. */
  predicate Whole(todo: Plan, f: Facts) {
    var preview := f.initial.previewIssuer;
    && InPlan(todo, SentFinalApprove(f.initial.finalApprove)) && InPlan(todo, IssuerSigned(preview))
    && InPlan(todo, Published(preview, f.closure)) && InPlan(todo, Resolved(preview))
    && InPlan(todo, GrantSigned(f.grant)) && InPlan(todo, SentPayload(f.payloadHash))
    && Ahead(todo) == BOUNDARIES
  }

  /** An event not asked for changes nothing of what is asked. */
  lemma Beyond(e: Event, rest: Plan, x: Event)
    requires e != x
    ensures InPlan(Then(e, rest), x) <==> InPlan(rest, x)
  {}

  lemma BeyondStore(gate: Gate, p: Pending, rest: Plan, x: Event)
    requires !x.Entered? && !x.Stored?
    ensures InPlan(Enter(gate, Then(Stored(p), rest)), x) <==> InPlan(rest, x)
    ensures Ahead(Enter(gate, Then(Stored(p), rest))) == (if gate.At? then [gate.boundary] else []) + Ahead(rest)
  {
    Beyond(Entered(gate), Then(Stored(p), rest), x);
    Beyond(Stored(p), rest, x);
  }

  lemma BeyondTwo(a: Gate, b: Gate, rest: Plan, x: Event)
    requires !x.Entered?
    ensures InPlan(Enter(a, Enter(b, rest)), x) <==> InPlan(rest, x)
    ensures Ahead(Enter(a, Enter(b, rest))) ==
            (if a.At? then [a.boundary] else []) + (if b.At? then [b.boundary] else []) + Ahead(rest)
  {
    Beyond(Entered(a), Enter(b, rest), x);
    Beyond(Entered(b), rest, x);
    assert Ahead(Enter(b, rest)) == (if b.At? then [b.boundary] else []) + Ahead(rest);
  }

  lemma PaidAfterGrant(f: Facts, created: Pending)
    requires InPlan(Rest(Granting, f, created), SentPayload(f.payloadHash))
    ensures Ahead(Rest(Granting, f, created)) == BOUNDARIES[12..]
  {
    var paid, provisioned := SentPayload(f.payloadHash), created.Provision(f.grantId, f.grant).value;
    var paying := Rest(Paying, f, provisioned);
    var building := Enter(At(PayloadConstruction), Enter(At(PayloadCheckpointPreparation), paying));
    BeyondStore(At(ProvisionedStageReplacement), provisioned, building, paid);
    BeyondTwo(At(PayloadConstruction), At(PayloadCheckpointPreparation), paying, paid);
    var payload := PayloadRecord(f, provisioned).value;
    BeyondStore(RunCommit, payload, AfterCommit(f), paid);
    BeyondTwo(RunRelease, RunSend, Then(paid, Done), paid);
  }

  lemma PaidAfterIssuer(f: Facts, planned: Pending)
    requires planned.previewIssuer == f.initial.previewIssuer
    requires InPlan(Rest(Issuing, f, planned), SentPayload(f.payloadHash))
    ensures var rest, preview := Rest(Issuing, f, planned), f.initial.previewIssuer;
      && f.issuerDid == preview && InPlan(rest, Published(preview, f.closure)) && InPlan(rest, Resolved(preview))
      && InPlan(rest, GrantSigned(f.grant)) && Ahead(rest) == BOUNDARIES[8..]
  {
    var paid, created := SentPayload(f.payloadHash), planned.CreateIssuer(f.issuerDid, f.closure).value;
    var published, resolved, granted := Published(f.issuerDid, f.closure), Resolved(f.issuerDid), GrantSigned(f.grant);
    var publishing := Rest(Publishing, f, created);
    var going := Enter(At(IssuerPublication), Enter(RunIo, Then(published, publishing)));
    assert Rest(Issuing, f, planned) == Enter(At(IssuerStageReplacement), Then(Stored(created), going));
    forall x | x in {paid, published, resolved, granted}
      ensures InPlan(Rest(Issuing, f, planned), x) <==> x == published || InPlan(publishing, x)
    {
      BeyondStore(At(IssuerStageReplacement), created, going, x);
      BeyondTwo(At(IssuerPublication), RunIo, Then(published, publishing), x);
      if x != published { Beyond(published, publishing, x); }
    }
    PaidAfterPublication(f, created);
    BeyondStore(At(IssuerStageReplacement), created, going, paid);
    BeyondTwo(At(IssuerPublication), RunIo, Then(published, publishing), paid);
  }

  lemma PaidAfterPublication(f: Facts, created: Pending)
    requires InPlan(Rest(Publishing, f, created), SentPayload(f.payloadHash))
    ensures var rest := Rest(Publishing, f, created);
      && InPlan(rest, Resolved(f.issuerDid)) && InPlan(rest, GrantSigned(f.grant)) && Ahead(rest) == BOUNDARIES[10..]
  {
    var paid, resolved, granted := SentPayload(f.payloadHash), Resolved(f.issuerDid), GrantSigned(f.grant);
    var resolving, granting := Rest(Resolving, f, created), Rest(Granting, f, created);
    forall x | x in {paid, resolved, granted}
      ensures InPlan(Rest(Publishing, f, created), x) <==> x == resolved || InPlan(resolving, x)
    {
      BeyondTwo(At(ResolverVerification), RunIo, Then(resolved, resolving), x);
      if x != resolved { Beyond(resolved, resolving, x); }
    }
    Beyond(Entered(At(GrantConstruction)), Then(granted, granting), paid);
    Beyond(Entered(At(GrantConstruction)), Then(granted, granting), granted);
    Beyond(granted, granting, paid);
    PaidAfterGrant(f, created);
    BeyondTwo(At(ResolverVerification), RunIo, Then(resolved, resolving), paid);
    assert Ahead(Then(granted, granting)) == Ahead(granting);
  }

  lemma PaidAfterPlan(f: Facts, acknowledged: Pending)
    requires acknowledged.previewIssuer == f.initial.previewIssuer
    requires InPlan(Rest(Planning, f, acknowledged), SentPayload(f.payloadHash))
    ensures var rest, preview := Rest(Planning, f, acknowledged), f.initial.previewIssuer;
      && InPlan(rest, IssuerSigned(preview)) && InPlan(rest, Published(preview, f.closure))
      && InPlan(rest, Resolved(preview)) && InPlan(rest, GrantSigned(f.grant)) && Ahead(rest) == BOUNDARIES[6..]
  {
    var paid, signed, preview := SentPayload(f.payloadHash), IssuerSigned(f.issuerDid), f.initial.previewIssuer;
    var planned := acknowledged.Plan(f.effectTime, f.grantId).value;
    var issuing := Rest(Issuing, f, planned);
    var signing := Enter(At(IssuerCustody), Then(signed, issuing));
    forall x | x in {paid, signed, Published(preview, f.closure), Resolved(preview), GrantSigned(f.grant)}
      ensures InPlan(Rest(Planning, f, acknowledged), x) <==> x == signed || InPlan(issuing, x)
    {
      BeyondStore(At(PlannedStageReplacement), planned, signing, x);
      Beyond(Entered(At(IssuerCustody)), Then(signed, issuing), x);
      if x != signed { Beyond(signed, issuing, x); }
    }
    PaidAfterIssuer(f, planned);
    BeyondStore(At(PlannedStageReplacement), planned, signing, paid);
    assert Ahead(Then(signed, issuing)) == Ahead(issuing);
  }

  /** The approval and what is read after it. */
  lemma BeyondApproval(f: Facts, rest: Plan, x: Event)
    requires !x.Entered? && !x.Stored?
    ensures var sent := SentFinalApprove(f.initial.finalApprove);
      var reading := Enter(At(AcknowledgementRead), Enter(At(AcknowledgementRecognition), rest));
      var all := Enter(At(FinalApprovalRelease), Enter(RunSend, Then(sent, reading)));
      && (InPlan(all, x) <==> x == sent || InPlan(rest, x))
      && Ahead(all) == [FinalApprovalRelease, AcknowledgementRead, AcknowledgementRecognition] + Ahead(rest)
  {
    var sent := SentFinalApprove(f.initial.finalApprove);
    var reading := Enter(At(AcknowledgementRead), Enter(At(AcknowledgementRecognition), rest));
    BeyondTwo(At(FinalApprovalRelease), RunSend, Then(sent, reading), x);
    if x != sent { Beyond(sent, reading, x); }
    BeyondTwo(At(AcknowledgementRead), At(AcknowledgementRecognition), rest, x);
    assert Ahead(Then(sent, reading)) == Ahead(reading);
  }

  lemma PaidAfterBegin(f: Facts)
    requires InPlan(Rest(Begun, f, f.initial), SentPayload(f.payloadHash))
    ensures Whole(Rest(Begun, f, f.initial), f)
  {
    var preview, acknowledging := f.initial.previewIssuer, Rest(Acknowledging, f, f.initial);
    BeyondApproval(f, acknowledging, SentPayload(f.payloadHash));
    PaidAfterApproval(f);
    BeyondApproval(f, acknowledging, SentFinalApprove(f.initial.finalApprove));
    BeyondApproval(f, acknowledging, IssuerSigned(preview));
    BeyondApproval(f, acknowledging, Published(preview, f.closure));
    BeyondApproval(f, acknowledging, Resolved(preview));
    BeyondApproval(f, acknowledging, GrantSigned(f.grant));
  }

  /** The acknowledgement's record and the two boundaries behind it. */
  lemma BeyondSeal(acknowledged: Pending, rest: Plan, x: Event)
    requires !x.Entered? && !x.Stored?
    ensures var committing := Enter(At(AcknowledgementCheckpointCommit), Enter(At(PlanConstruction), rest));
      var all := Enter(At(AcknowledgementCheckpointReplacement), Then(Stored(acknowledged), committing));
      && (InPlan(all, x) <==> InPlan(rest, x))
      && Ahead(all) ==
         [AcknowledgementCheckpointReplacement, AcknowledgementCheckpointCommit, PlanConstruction] + Ahead(rest)
  {
    var committing := Enter(At(AcknowledgementCheckpointCommit), Enter(At(PlanConstruction), rest));
    BeyondStore(At(AcknowledgementCheckpointReplacement), acknowledged, committing, x);
    BeyondTwo(At(AcknowledgementCheckpointCommit), At(PlanConstruction), rest, x);
  }

  lemma PaidAfterApproval(f: Facts)
    requires InPlan(Rest(Acknowledging, f, f.initial), SentPayload(f.payloadHash))
    ensures var rest, preview := Rest(Acknowledging, f, f.initial), f.initial.previewIssuer;
      && InPlan(rest, IssuerSigned(preview)) && InPlan(rest, Published(preview, f.closure))
      && InPlan(rest, Resolved(preview)) && InPlan(rest, GrantSigned(f.grant)) && Ahead(rest) == BOUNDARIES[3..]
  {
    var preview := f.initial.previewIssuer;
    var acknowledged := f.initial.WithCheckpoint(f.ackGeneration, f.ackCheckpoint).value;
    var planning := Rest(Planning, f, acknowledged);
    BeyondSeal(acknowledged, planning, SentPayload(f.payloadHash));
    PaidAfterPlan(f, acknowledged);
    BeyondSeal(acknowledged, planning, IssuerSigned(preview));
    BeyondSeal(acknowledged, planning, Published(preview, f.closure));
    BeyondSeal(acknowledged, planning, Resolved(preview));
    BeyondSeal(acknowledged, planning, GrantSigned(f.grant));
  }

  lemma BeyondBegin(f: Facts, x: Event)
    requires Script(f).Then? && !x.Entered? && !x.Stored?
    ensures InPlan(Script(f), x) <==> InPlan(Rest(Begun, f, f.initial), x)
    ensures Ahead(Script(f)) == Ahead(Rest(Begun, f, f.initial))
  {
    BeyondStore(RunBegin, f.initial, Rest(Begun, f, f.initial), x);
  }

  lemma PaidScript(f: Facts)
    requires InPlan(Script(f), SentPayload(f.payloadHash))
    ensures Whole(Script(f), f)
  {
    var preview := f.initial.previewIssuer;
    BeyondBegin(f, SentPayload(f.payloadHash));
    PaidAfterBegin(f);
    BeyondBegin(f, SentFinalApprove(f.initial.finalApprove));
    BeyondBegin(f, IssuerSigned(preview));
    BeyondBegin(f, Published(preview, f.closure));
    BeyondBegin(f, Resolved(preview));
    BeyondBegin(f, GrantSigned(f.grant));
  }

  /**
   What a delivered Payload frame implies: the approval was sent, the issuer signed, published and resolved,
   the grant signed, and all fifteen boundaries passed in their order.
   */
  lemma DeliveredWhole(done: History, f: Facts)
    requires Replay(done, Done) == Script(f) && Happened(done, SentPayload(f.payloadHash))
    ensures Visited(done) == BOUNDARIES && Happened(done, SentFinalApprove(f.initial.finalApprove))
    ensures var preview := f.initial.previewIssuer;
      && Happened(done, IssuerSigned(preview)) && Happened(done, Published(preview, f.closure))
      && Happened(done, Resolved(preview)) && Happened(done, GrantSigned(f.grant))
  {
    var preview := f.initial.previewIssuer;
    ReplayedIn(done, Done, SentPayload(f.payloadHash));
    PaidScript(f);
    ReplayedIn(done, Done, SentFinalApprove(f.initial.finalApprove));
    ReplayedIn(done, Done, IssuerSigned(preview));
    ReplayedIn(done, Done, Published(preview, f.closure));
    ReplayedIn(done, Done, Resolved(preview));
    ReplayedIn(done, Done, GrantSigned(f.grant));
    VisitedThenAhead(done, Done);
    assert Visited(done) == Visited(done) + Ahead(Done);
  }

  // ---- what the run's own writes touch ----

  /** The slots that are not a pending of this attempt. */
  function Foreign(slots: seq<Slot>, own: Pending): seq<Slot> {
    if slots == [] then []
    else
      (if slots[0].PendingSlot? && SameAttempt(slots[0].pending, own) then []
       else [slots[0]]) + Foreign(slots[1..], own)
  }

  lemma {:induction false} ForeignJoins(a: seq<Slot>, b: seq<Slot>, own: Pending)
    ensures Foreign(a + b, own) == Foreign(a, own) + Foreign(b, own)
  {
    if a == [] {
      assert a + b == b;
    } else {
      assert (a + b)[1..] == a[1..] + b;
      ForeignJoins(a[1..], b, own);
    }
  }

  /** Every other application's entry, and every slot but a pending of this attempt, is as it was. */
  predicate TouchesOwn(d: Disk, d': Disk, own: Pending) {
    var app := own.application;
    && d'.links - {app} == d.links - {app}
    && (d'.links == d.links
        || (ReadSlots(d, app).Ok? && ReadSlots(d', app).Ok?
            && Foreign(ReadSlots(d, app).value, own) == Foreign(ReadSlots(d', app).value, own)))
  }

  /** Writing a list that differs only in pendings of the attempt. */
  lemma WriteTouches(d: Disk, d': Disk, own: Pending, slots: seq<Slot>, r: Result<()>)
    requires WriteSlots(d, d', own.application, slots, r) && ReadSlots(d, own.application).Ok?
    requires Foreign(ReadSlots(d, own.application).value, own) == Foreign(slots, own)
    ensures TouchesOwn(d, d', own)
  {
    var app := own.application;
    if d' != d && d'.links != d.links {
      GoalReads(d, d', app, slots);
      assert d'.links - {app} == d.links - {app};
    }
  }

  lemma PersistTouches(d: Disk, d': Disk, p: Pending, r: Result<()>, own: Pending)
    requires Persist(d, d', p, r) && SameAttempt(own, p)
    ensures TouchesOwn(d, d', own)
    ensures r.Ok? ==> PendingOf(d', p.application) == Ok(p)
  {
    if d'.links != d.links || (r.Ok? && d' != d) {
      var app, slots := p.application, ReadSlots(d, p.application).value;
      PersistWrites(d, d', p, r);
      ForeignJoins(slots, [PendingSlot(p)], own);
      FirstPendingAppended(slots, p);
      assert d'.links - {app} == d.links - {app};
    }
  }

  /** A first write that changed the entries, or succeeded beside none, appended its record. */
  lemma PersistWrites(d: Disk, d': Disk, p: Pending, r: Result<()>)
    requires Persist(d, d', p, r) && (d'.links != d.links || (r.Ok? && d' != d))
    ensures ReadSlots(d, p.application).Ok?
    ensures var slots := ReadSlots(d, p.application).value;
      && FirstPending(slots) == |slots| && ReadSlots(d', p.application) == Ok(slots + [PendingSlot(p)])
      && d'.links == d.links[p.application := Canonical(slots + [PendingSlot(p)]).value]
  {
    GoalReads(d, d', p.application, ReadSlots(d, p.application).value + [PendingSlot(p)]);
  }

  lemma ReplaceTouches(d: Disk, d': Disk, e: Pending, n: Pending, r: Result<()>, own: Pending)
    requires Replace(d, d', e, n, r) && SameAttempt(own, e) && SameAttempt(own, n)
    ensures TouchesOwn(d, d', own)
    ensures r.Ok? || d' != d ==> PendingOf(d', own.application) == Ok(n)
  {
    if r.Ok? || d' != d {
      var app, slots := e.application, ReadSlots(d, e.application).value;
      var k := FirstEqual(slots, PendingSlot(e));
      var next := slots[k := PendingSlot(n)];
      assert slots == slots[..k] + [PendingSlot(e)] + slots[k + 1..]
        && next == slots[..k] + [PendingSlot(n)] + slots[k + 1..];
      ForeignAround(slots[..k], PendingSlot(e), PendingSlot(n), slots[k + 1..], own);
      WriteTouches(d, d', own, next, r);
      GoalReads(d, d', app, next);
      SoleIsFirst(app, next, k);
    }
  }

  lemma CompensateTouches(d: Disk, d': Disk, anchor: Pending, r: Result<()>, own: Pending)
    requires Compensate(d, d', anchor, r) && SameAttempt(own, anchor)
    ensures TouchesOwn(d, d', own)
  {
    if d' != d {
      var slots := ReadSlots(d, anchor.application).value;
      var k := FirstPending(slots);
      ForeignWithout(slots, k, own);
      WriteTouches(d, d', own, Removed(slots, k), r);
    }
  }

  lemma ForeignWithout(slots: seq<Slot>, k: nat, own: Pending)
    requires k < |slots| && slots[k].PendingSlot? && SameAttempt(slots[k].pending, own)
    ensures Foreign(Removed(slots, k), own) == Foreign(slots, own)
  {
    assert slots == slots[..k] + [slots[k]] + slots[k + 1..] && Removed(slots, k) == slots[..k] + slots[k + 1..];
    ForeignJoins(slots[..k], slots[k + 1..], own);
    ForeignJoins(slots[..k] + [slots[k]], slots[k + 1..], own);
    ForeignJoins(slots[..k], [slots[k]], own);
  }

  lemma ForeignAround(a: seq<Slot>, x: Slot, y: Slot, b: seq<Slot>, own: Pending)
    requires x.PendingSlot? && SameAttempt(x.pending, own) && y.PendingSlot? && SameAttempt(y.pending, own)
    ensures Foreign(a + [x] + b, own) == Foreign(a + [y] + b, own)
  {
    ForeignJoins(a + [x], b, own);
    ForeignJoins(a + [y], b, own);
    ForeignJoins(a, [x], own);
    ForeignJoins(a, [y], own);
  }

  /** An admitted list has at most one pending. */
  lemma SoleIsFirst(app: string, slots: seq<Slot>, k: nat)
    requires ValidSlots(app, slots) && k < |slots| && slots[k].PendingSlot?
    ensures FirstPending(slots) == k
  {
    forall j | 0 <= j < k ensures slots[j].InstalledSlot? { assert Siblings(slots[j], slots[k]); }
  }

  /** The store from the run's beginning: others' operations and the run's own writes, in turn. */
  datatype Trail = Began(at: Disk) | ByOthers(past: Trail, ops: seq<Op>, at: Disk) | ByRun(past: Trail, at: Disk)

  ghost predicate Tracked(trail: Trail, own: Pending) {
    match trail
    case Began(_) => true
    case ByOthers(past, ops, at) => Reached(past.at, at, ops) && Tracked(past, own)
    case ByRun(past, at) => TouchesOwn(past.at, at, own) && Tracked(past, own)
  }

  predicate Alone(trail: Trail) {
    !trail.Began? ==> trail.ByRun? && Alone(trail.past)
  }

  function Origin(trail: Trail): Disk {
    if trail.Began? then trail.at else Origin(trail.past)
  }

  /** The run's own write left the store so. */
  predicate LeftBehind(trail: Trail, d: Disk) {
    !trail.Began? && ((trail.ByRun? && trail.at == d) || LeftBehind(trail.past, d))
  }

  // ---- the transaction guard ----

  /** One compensation ran between `d` and `d'`, and its answer is on record. */
  predicate Compensated(before: seq<Result<()>>, after: seq<Result<()>>, d: Disk, d': Disk, anchor: Pending) {
    |after| == |before| + 1 && after[..|before|] == before && Compensate(d, d', anchor, after[|before|])
  }

  /** The one compensation of a run was itself refused by the store. */
  predicate CompensationRefused(before: seq<Result<()>>, after: seq<Result<()>>) {
    after == before + [Err(CheckpointUnavailable)]
  }

  lemma CompensatedDrops(before: seq<Result<()>>, after: seq<Result<()>>, d: Disk, d': Disk, anchor: Pending)
    requires Compensated(before, after, d, d', anchor)
    ensures Dropped(d, d', anchor) || CompensationRefused(before, after)
  {
    if after[|before|] == Err(CheckpointUnavailable) { assert after == before + [after[|before|]]; }
  }

  /** A durable payload is left alone by whatever compensation follows, refused or not. */
  lemma CompensationKeepsPayload(base: Disk, d: Disk, d': Disk, p: Pending, anchor: Pending, r: Result<()>)
    requires Extends(base, d, p) && p.stage.PayloadPrepared? && SameAttempt(p, anchor) && Compensate(d, d', anchor, r)
    ensures d' == d
  {
    ExtendsShape(base, d, p);
  }

  class PrePayloadTransaction {
    const store: LinkStore
    var current: Pending
    var cleanup: Option<Pending>

    constructor (store: LinkStore, initial: Pending)
      ensures this.store == store && current == initial && cleanup == Some(initial)
    {
      this.store, current, cleanup := store, initial, Some(initial);
    }

    /** `begin`: the guard is armed before the store call, so a write that commits and then fails is undone. */
    static method Begin(store: LinkStore, initial: Pending)
      returns (r: Result<PrePayloadTransaction>, ghost written: Disk, ghost found: Disk)
      modifies store
      ensures r.Ok? ==>
        && fresh(r.value) && r.value.store == store && r.value.current == initial
        && r.value.cleanup == Some(initial)
      ensures r.Ok? ==>
        && written == store.View() && store.compensated == old(store.compensated)
        && store.others == old(store.others)
      ensures Persist(old(store.View()), written, initial, if r.Ok? then Ok(()) else Err(r.error))
      ensures old(store.others) <= store.others && Reached(written, found, store.others[|old(store.others)|..])
      ensures r.Err? ==> Compensated(old(store.compensated), store.compensated, found, store.View(), initial)
    {
      var transaction := new PrePayloadTransaction(store, initial);
      var persisted := store.PersistPending(initial);
      written, found := store.View(), store.View();
      assert store.others[|old(store.others)|..] == [];
      if persisted.Err? {
        store.Elsewhere();
        found := store.View();
        transaction.Drop();
        return Err(persisted.error), written, found;
      }
      return Ok(transaction), written, found;
    }

    /** The destructor: compensation if still armed, its own error discarded. */
    method Drop()
      modifies this`cleanup, store`links, store`index, store`compensated
      ensures cleanup == None
      ensures old(cleanup).None? ==> store.View() == old(store.View()) && store.compensated == old(store.compensated)
      ensures old(cleanup).Some? ==>
        Compensated(old(store.compensated), store.compensated, old(store.View()), store.View(), old(cleanup).value)
    {
      if cleanup.Some? {
        var discarded := store.RemovePrePayloadAttempt(cleanup.value);
      }
      cleanup := None;
    }

    method ReplaceCurrent(replacement: Pending) returns (r: Result<()>)
      modifies this, store`links, store`index
      ensures Replace(old(store.View()), store.View(), old(current), replacement, r)
      ensures if r.Ok? then current == replacement && cleanup == Some(replacement)
              else current == old(current) && cleanup == old(cleanup)
    {
      r := store.ReplacePending(current, replacement);
      if r.Ok? { current, cleanup := replacement, Some(replacement); }
    }

    /** `commit_payload` consumes the transaction: disarmed on success, dropped on every failure. */
    method CommitPayload(payload: Pending) returns (r: Result<()>, ghost written: Disk, ghost found: Disk)
      requires cleanup == Some(current)
      modifies this, store
      ensures cleanup == None
      ensures r.Ok? ==> payload.stage.PayloadPrepared? && written == store.View()
      ensures r.Ok? ==> store.compensated == old(store.compensated) && store.others == old(store.others)
      ensures payload.stage.PayloadPrepared? ==> Replace(old(store.View()), written, old(current), payload, r)
      ensures !payload.stage.PayloadPrepared? ==> written == old(store.View()) && r == Err(CheckpointRefused)
      ensures old(store.others) <= store.others && Reached(written, found, store.others[|old(store.others)|..])
      ensures r.Err? ==> Compensated(old(store.compensated), store.compensated, found, store.View(), old(current))
    {
      written := store.View();
      r := Err(CheckpointRefused);
      if payload.stage.PayloadPrepared? { r := store.ReplacePending(current, payload); }
      written, found := store.View(), store.View();
      assert store.others[|old(store.others)|..] == [];
      if r.Err? {
        store.Elsewhere();
        found := store.View();
        Drop();
        return;
      }
      current, cleanup := payload, None;
    }
  }

  // ---- the executor ----

  /** The store is the one the run began with, and after its slots a value of the run's own attempt. */
  ghost predicate Shows(base: Disk, d: Disk, p: Pending, f: Facts) {
    SameAttempt(f.initial, p) && Extends(base, d, p)
  }

  /** What the store holds of the run: nothing yet, its last durable record, or whatever its compensation left. */
  datatype Keeping = Idle | Holding | Closed

  class Executor {
    const store: LinkStore
    const facts: Facts
    var attempt: Attempt
    ghost var done: History
    ghost var todo: Plan
    /** The history at the instant the attempt became terminal. */
    ghost var fence: Option<History>

    /** The store when the run began, what it holds of the run since, and every event beside the store of its moment. */
    ghost var base: Disk
    ghost var shown: Disk
    ghost var keeping: Keeping
    ghost var evidence: Evidence
    ghost var trail: Trail
    ghost const mode: Flow
    /** How many operations of other commands the store had seen when the run began. */
    ghost const joined: nat

    constructor (store: LinkStore, facts: Facts, attempt: Attempt)
      ensures this.store == store && this.facts == facts && Inv() && done == Start && keeping == Idle
    {
      this.store, this.facts, this.attempt, mode := store, facts, attempt, attempt.mode;
      done, todo, fence := Start, Script(facts), if attempt.Live() then None else Some(Start);
      base, shown, keeping, evidence := store.View(), store.View(), Idle, Nothing;
      trail, joined := Began(store.View()), |store.others|;
    }

    /** The history is on script, stopped at its fence, and backed by the store at each of its moments. */
    ghost predicate Ordered()
      reads `attempt, `fence, `done, `todo, `evidence
    {
      && Replay(done, todo) == Script(facts)
      && (fence.Some? <==> !attempt.Live())
      && attempt.mode == mode && (fence.Some? ==> StoppedAt(fence.value, done, mode))
      && Events(evidence) == done && Backed(evidence, facts)
    }

    /**
     The store came to be as it is by others' operations and the run's own writes, which touch only its own
     pendings.
     */
    ghost predicate Traced()
      reads `trail, `base, store`links, store`index, store`others
    {
      && trail.at == store.View() && Tracked(trail, facts.initial) && Origin(trail) == base
      && joined <= |store.others| && (Alone(trail) <==> |store.others| == joined)
    }

    /**
     What the store holds now, if left alone: nothing of this run, or exactly its last durable record on top of
     `base`.
     */
    ghost predicate Kept()
      reads `keeping, `done, `trail, `base, `shown, store`links, store`index
    {
      match keeping
      case Idle => Durable(done).None? && (Alone(trail) ==> store.View() == base)
      case Holding =>
        && Durable(done).Some? && SameAttempt(facts.initial, Durable(done).value)
        && (Alone(trail) ==> shown == store.View() && Shows(base, shown, Durable(done).value, facts))
      case Closed => true
    }

    ghost predicate Inv()
      reads this, store
    {
      Ordered() && Traced() && Kept()
    }

    /** Other commands may do anything to the store, which is locked for one operation at a time. */
    method Others()
      requires Inv()
      modifies `trail, store`links, store`index, store`others
      ensures Inv()
    {
      store.Elsewhere();
      ghost var ops := store.others[|old(store.others)|..];
      if ops != [] { trail := ByOthers(trail, ops, store.View()); }
    }

    /** Another thread may cancel, background or replace the root at any instant. */
    method Interfere()
      requires Inv()
      modifies `attempt, `fence
      ensures Inv() && (attempt == old(attempt) || !attempt.Live())
    {
      if * {
        if attempt.Live() { fence := Some(done); }
        attempt := attempt.Cancel();
      }
    }

    /** `check`: the fence, the root generation and the clock, under the attempt's lock. */
    method Check() returns (r: Result<()>)
      requires Inv()
      modifies `attempt, `fence
      ensures Inv() && (r.Ok? <==> attempt.Live())
      ensures r.Ok? ==>
        && old(attempt).Live() && attempt.custody == old(attempt).custody
        && attempt.mode == old(attempt).mode
    {
      var o: Observation := *;
      var (checked, next) := attempt.Check(o);
      if attempt.Live() && !next.Live() { fence := Some(done); }
      r, attempt := checked, next;
    }

    /** The next event of the script is put on the history, beside the store it happened with. */
    ghost method KeepOrder(e: Event, held: Disk)
      requires Ordered() && todo.Then? && todo.next == e && Backs(e, held, Alone(trail), facts)
      requires attempt.Live() || Outruns(e, mode)
      requires e.Entered? || (done.After? && done.last.Entered?)
      modifies `done, `todo, `evidence
      ensures Ordered() && done == After(old(done), e) && todo == old(todo).rest
      ensures evidence == Moment(old(evidence), e, held, Alone(trail))
    {
      evidence := Moment(evidence, e, held, Alone(trail));
      done, todo := After(done, e), todo.rest;
    }

    /** An entry or an effect; the store, if left alone, holds at this moment what the effect needs. */
    ghost method Advance(e: Event)
      requires Inv() && todo.Then? && todo.next == e && !e.Stored? && keeping != Closed
      requires attempt.Live() || Outruns(e, mode)
      requires e.Entered? || (done.After? && done.last.Entered?)
      modifies `done, `todo, `evidence
      ensures Inv() && done == After(old(done), e) && todo == old(todo).rest && Durable(done) == Durable(old(done))
      ensures evidence == Moment(old(evidence), e, store.View(), Alone(trail))
    {
      HistoryIsWriteAhead(done, todo, facts);
      if !e.Entered? && Alone(trail) { PendingOfExtends(base, store.View(), Durable(done).value); }
      KeepOrder(e, store.View());
    }

    /** A record is on the history only once the run's own write left the store holding it. */
    ghost method NoteStored(p: Pending, held: Disk)
      requires Ordered() && Traced() && keeping != Closed && todo.Then? && todo.next == Stored(p)
      requires done.After? && done.last.Entered? && SameAttempt(facts.initial, p)
      requires LeftBehind(trail, held) && PendingOf(held, facts.initial.application) == Ok(p)
      requires Alone(trail) ==> Shows(base, store.View(), p, facts)
      modifies `done, `todo, `evidence, `keeping, `shown
      ensures Inv() && keeping == Holding && done == After(old(done), Stored(p)) && todo == old(todo).rest
      ensures evidence == Moment(old(evidence), Stored(p), held, Alone(trail))
    {
      KeepOrder(Stored(p), held);
      keeping, shown := Holding, store.View();
    }

    /** `enter`: checked and counted under one lock, so no revocation can fall between the two. */
    method Enter(gate: Gate) returns (r: Result<()>)
      requires Inv() && keeping != Closed && todo.Then? && todo.next == Entered(gate)
      modifies `attempt, `fence, `done, `todo, `evidence
      ensures Inv()
      ensures r.Ok? ==> old(attempt).Live()
      ensures r.Ok? ==> done == After(old(done), Entered(gate)) && todo == old(todo).rest
      ensures r.Err? ==> done == old(done) && todo == old(todo)
      ensures Durable(done) == Durable(old(done))
    {
      Interfere();
      r := Check();
      if r.Err? { return; }
      Advance(Entered(gate));
      Interfere();
    }

    /** `before`: the fence, then whatever fault is injected there, then the boundary is entered. */
    method Before(boundary: Boundary) returns (r: Result<()>)
      requires Inv() && keeping != Closed && todo.Then? && todo.next == Entered(At(boundary))
      modifies `attempt, `fence, `done, `todo, `evidence
      ensures Inv()
      ensures r.Ok? ==> done == After(old(done), Entered(At(boundary))) && todo == old(todo).rest
      ensures r.Err? ==> done == old(done) && todo == old(todo)
      ensures Durable(done) == Durable(old(done))
    {
      r := Check();
      if r.Err? { return; }
      if * { return Err(ForeignFailure); }
      r := Enter(At(boundary));
    }

    /** An effect behind an entry: it may be refused, take place, or take place and report failure. */
    method Effect(e: Event) returns (r: Result<()>)
      requires Inv() && keeping != Closed && todo.Then? && todo.next == e && !e.Entered? && !e.Stored?
      requires done.After? && done.last.Entered? && (attempt.Live() || Outruns(e, mode))
      modifies `attempt, `fence, `done, `todo, `evidence, `trail, store`links, store`index, store`others
      ensures Inv()
      ensures attempt == old(attempt) || !attempt.Live()
      ensures r.Ok? ==> done == After(old(done), e) && todo == old(todo).rest
      ensures Durable(done) == Durable(old(done))
    {
      if * { return Err(ForeignFailure); }
      Others();
      Advance(e);
      Interfere();
      if * { return Err(ForeignFailure); }
      return Ok(());
    }

    /** `try_step` around an action that signs or sends nothing. */
    method Step(boundary: Boundary) returns (r: Result<()>)
      requires Inv() && keeping != Closed && todo.Then? && todo.next == Entered(At(boundary))
      modifies `attempt, `fence, `done, `todo, `evidence
      ensures Inv() && Durable(done) == Durable(old(done))
      ensures r.Ok? ==> todo == old(todo).rest && attempt.Live()
    {
      r := Before(boundary);
      if r.Err? { return; }
      if * { return Err(ForeignFailure); }
      r := Check();
    }

    /** `try_step` around a signature: the root is used under the attempt's lock, checked before and after. */
    method Sign(boundary: Boundary, e: Event) returns (r: Result<()>)
      requires Inv() && keeping != Closed && todo.Then? && todo.next == Entered(At(boundary))
      requires todo.rest.Then? && todo.rest.next == e && (e.IssuerSigned? || e.GrantSigned?)
      modifies `attempt, `fence, `done, `todo, `evidence, `trail, store`links, store`index, store`others
      ensures Inv() && Durable(done) == Durable(old(done))
      ensures r.Ok? ==> todo == old(todo).rest.rest && done.After? && done.last == e && attempt.Live()
      ensures r.Ok? && attempt.mode == SingleLink ==> attempt.custody.Some?
    {
      r := Before(boundary);
      if r.Err? { return; }
      if attempt.mode == SingleLink {
        r := Check();
        if r.Err? { return; }
        if attempt.custody.None? { return Err(Expired); }
      } else if * {
        return Err(Expired);
      }
      r := Effect(e);
      if r.Err? { return; }
      r := Check();
    }

    /** `send_effects` with one frame: the send is its own guarded run. */
    method Send(e: Event) returns (r: Result<()>)
      requires Inv() && keeping != Closed && todo.Then? && todo.next == Entered(RunSend)
      requires todo.rest.Then? && todo.rest.next == e && (e.SentFinalApprove? || e.SentPayload?)
      modifies `attempt, `fence, `done, `todo, `evidence, `trail, store`links, store`index, store`others
      ensures Inv() && Durable(done) == Durable(old(done))
      ensures r.Ok? ==> todo == old(todo).rest.rest && done.After? && done.last == e && attempt.Live()
    {
      r := Check();
      if r.Err? { return; }
      r := Enter(RunSend);
      if r.Err? { return; }
      r := Effect(e);
      if r.Err? { return; }
      r := Check();
    }

    /** `before_async` and the awaited `io` behind it. */
    method Io(boundary: Boundary, e: Event) returns (r: Result<()>)
      requires Inv() && keeping != Closed && todo.Then? && todo.next == Entered(At(boundary))
      requires todo.rest.Then? && todo.rest.next == Entered(RunIo)
      requires todo.rest.rest.Then? && todo.rest.rest.next == e && (e.Published? || e.Resolved?)
      modifies `attempt, `fence, `done, `todo, `evidence, `trail, store`links, store`index, store`others
      ensures Inv() && Durable(done) == Durable(old(done))
      ensures r.Ok? ==> todo == old(todo).rest.rest.rest && attempt.Live()
    {
      r := Before(boundary);
      if r.Err? { return; }
      r := Enter(RunIo);
      if r.Err? { return; }
      r := Check();
      if r.Err? { return; }
      r := Effect(e);
      if r.Err? { return; }
      r := Check();
    }

    // ---- the phases of `complete_approved` ----

    /** The armed guard's value is the last durable record, still before the payload. */
    ghost predicate Tied(transaction: PrePayloadTransaction)
      reads `done, `keeping, transaction
    {
      && transaction.store == store && keeping == Holding && Durable(done) == Some(transaction.current)
      && transaction.cleanup == Some(transaction.current) && transaction.current.Valid()
         && !transaction.current.stage.PayloadPrepared?
    }

    /** Dropping the guard removes the last durable record, which may be newer than the guard's own. */
    ghost predicate Undoable(transaction: PrePayloadTransaction)
      reads `done, `keeping, transaction
    {
      && transaction.store == store && keeping == Holding && Durable(done).Some?
         && !Durable(done).value.stage.PayloadPrepared?
      && transaction.cleanup.Some? && transaction.cleanup.value.Valid()
         && SameAttempt(Durable(done).value, transaction.cleanup.value)
    }

    method ReplaceAt(transaction: PrePayloadTransaction, boundary: Boundary, next: Pending) returns (r: Result<()>)
      requires Inv() && Tied(transaction)
      requires todo.Then? && todo.next == Entered(At(boundary)) && todo.rest.Then? && todo.rest.next == Stored(next)
      requires Steady(transaction.current, next)
      modifies `attempt, `fence, `done, `todo, `evidence, `keeping, `shown, `trail, transaction, store`links,
        store`index, store`others
      ensures Inv()
      ensures r.Ok? ==>
        Tied(transaction) && transaction.current == next && todo == old(todo).rest.rest && attempt.Live()
      ensures r.Err? ==> Undoable(transaction)
    {
      r := Before(boundary);
      if r.Err? { return; }
      r := Swap(transaction, next);
      Interfere();
      if r.Err? { return; }
      r := Check();
    }

    /** The durable replacement itself, noted only if the store now holds it. */
    method Swap(transaction: PrePayloadTransaction, next: Pending) returns (r: Result<()>)
      requires Inv() && Tied(transaction) && Steady(transaction.current, next)
      requires done.After? && done.last.Entered? && todo.Then? && todo.next == Stored(next)
      modifies `done, `todo, `evidence, `keeping, `shown, `trail, transaction, store`links, store`index, store`others
      ensures Inv()
      ensures r.Ok? ==> Tied(transaction) && transaction.current == next && todo == old(todo).rest
      ensures r.Err? ==> Undoable(transaction)
    {
      Others();
      ghost var wrote;
      r, wrote := WriteNext(transaction, next);
      if wrote { NoteStored(next, store.View()); }
    }

    lemma NextWritten(before: Disk, after: Disk, current: Pending, next: Pending, r: Result<()>)
      requires Replace(before, after, current, next, r) && SameAttempt(facts.initial, current) && Steady(current, next)
      ensures TouchesOwn(before, after, facts.initial)
      ensures r.Ok? || after != before ==> PendingOf(after, facts.initial.application) == Ok(next)
      ensures r.Ok? ==> next.Valid()
      ensures (r.Ok? || after != before) && Shows(base, before, current, facts) ==> Shows(base, after, next, facts)
    {
      ReplaceTouches(before, after, current, next, r, facts.initial);
      if Shows(base, before, current, facts) { ReplaceMoves(base, before, after, current, next, r); }
    }

    /** The write of a replacement, put on the trail. */
    method WriteNext(transaction: PrePayloadTransaction, next: Pending) returns (r: Result<()>, ghost wrote: bool)
      requires Inv() && Tied(transaction) && Steady(transaction.current, next)
      modifies `trail, transaction, store`links, store`index
      ensures Ordered() && Traced()
      ensures if r.Ok? then transaction.current == next && transaction.cleanup == Some(next)
              else transaction.current == old(transaction.current) && transaction.cleanup == old(transaction.cleanup)
      ensures r.Ok? ==> wrote && next.Valid()
      ensures wrote ==>
        && LeftBehind(trail, store.View())
        && PendingOf(store.View(), facts.initial.application) == Ok(next)
      ensures wrote && Alone(trail) ==> Shows(base, store.View(), next, facts)
      ensures !wrote ==> Kept()
    {
      ghost var before, current := store.View(), transaction.current;
      r := transaction.ReplaceCurrent(next);
      wrote := r.Ok? || store.View() != before;
      NextWritten(before, store.View(), current, next, r);
      trail := ByRun(trail, store.View());
    }

    method ReleaseApproval(transaction: PrePayloadTransaction) returns (r: Result<()>)
      requires Inv() && Tied(transaction) && transaction.current == facts.initial
        && todo == Rest(Begun, facts, facts.initial)
      modifies `attempt, `fence, `done, `todo, `evidence, `trail, store`links, store`index, store`others
      ensures Inv()
      ensures r.Ok? ==> Tied(transaction) && todo == Rest(Acknowledging, facts, facts.initial)
      ensures r.Err? ==> Undoable(transaction)
    {
      r := Before(FinalApprovalRelease);
      if r.Err? { return; }
      if * { return Err(ForeignFailure); }
      r := Send(SentFinalApprove(facts.initial.finalApprove));
      if r.Err? { return; }
      r := Check();
      if r.Err? { return; }
      r := ReadAcknowledgement(transaction);
    }

    method ReadAcknowledgement(transaction: PrePayloadTransaction) returns (r: Result<()>)
      requires Inv() && Tied(transaction)
      requires todo == Then(Entered(At(AcknowledgementRead)),
                            Then(Entered(At(AcknowledgementRecognition)), Rest(Acknowledging, facts, facts.initial)))
      modifies `attempt, `fence, `done, `todo, `evidence
      ensures Inv() && Durable(done) == Durable(old(done))
      ensures r.Ok? ==> todo == Rest(Acknowledging, facts, facts.initial)
    {
      r := Step(AcknowledgementRead);
      if r.Err? { return; }
      r := Step(AcknowledgementRecognition);
    }

    method Acknowledge(transaction: PrePayloadTransaction) returns (r: Result<()>)
      requires Inv() && Tied(transaction) && transaction.current == facts.initial
        && todo == Rest(Acknowledging, facts, facts.initial)
      modifies `attempt, `fence, `done, `todo, `evidence, `keeping, `shown, `trail, transaction, store`links,
        store`index, store`others
      ensures Inv()
      ensures r.Ok? ==> Tied(transaction) && todo == Rest(Planning, facts, transaction.current)
      ensures r.Err? ==> Undoable(transaction)
    {
      var acknowledged := transaction.current.WithCheckpoint(facts.ackGeneration, facts.ackCheckpoint);
      if acknowledged.Err? { return Err(acknowledged.error); }
      r := ReplaceAt(transaction, AcknowledgementCheckpointReplacement, acknowledged.value);
      if r.Err? { return; }
      r := Step(AcknowledgementCheckpointCommit);
      if r.Err? { return; }
      r := Step(PlanConstruction);
    }

    method SignIssuer(transaction: PrePayloadTransaction) returns (r: Result<()>)
      requires Inv() && Tied(transaction) && todo == Rest(Planning, facts, transaction.current)
      modifies `attempt, `fence, `done, `todo, `evidence, `keeping, `shown, `trail, transaction, store`links,
        store`index, store`others
      ensures Inv()
      ensures r.Ok? ==> Tied(transaction) && todo == Rest(Issuing, facts, transaction.current)
      ensures r.Err? ==> Undoable(transaction)
    {
      if facts.effectTime >= facts.initial.offerExpiresAt { return Err(Expired); }
      var planned := transaction.current.Plan(facts.effectTime, facts.grantId);
      if planned.Err? { return Err(planned.error); }
      r := ReplaceAt(transaction, PlannedStageReplacement, planned.value);
      if r.Err? { return; }
      r := Sign(IssuerCustody, IssuerSigned(facts.issuerDid));
    }

    method PublishIssuer(transaction: PrePayloadTransaction) returns (r: Result<()>)
      requires Inv() && Tied(transaction) && todo == Rest(Issuing, facts, transaction.current)
      modifies `attempt, `fence, `done, `todo, `evidence, `keeping, `shown, `trail, transaction, store`links,
        store`index, store`others
      ensures Inv()
      ensures r.Ok? ==> Tied(transaction) && todo == Rest(Publishing, facts, transaction.current)
      ensures r.Err? ==> Undoable(transaction)
    {
      var created := transaction.current.CreateIssuer(facts.issuerDid, facts.closure);
      if created.Err? { return Err(created.error); }
      r := ReplaceAt(transaction, IssuerStageReplacement, created.value);
      if r.Err? { return; }
      r := Io(IssuerPublication, Published(facts.issuerDid, facts.closure));
    }

    method VerifyIssuer(transaction: PrePayloadTransaction) returns (r: Result<()>)
      requires Inv() && Tied(transaction) && todo == Rest(Publishing, facts, transaction.current)
      modifies `attempt, `fence, `done, `todo, `evidence, `trail, store`links, store`index, store`others
      ensures Inv() && Durable(done) == Durable(old(done))
      ensures r.Ok? ==> facts.resolvedMatches && todo == Rest(Resolving, facts, transaction.current)
    {
      r := Check();
      if r.Err? { return; }
      if !facts.acknowledged { return Err(ForeignFailure); }
      r := Io(ResolverVerification, Resolved(facts.issuerDid));
      if r.Err? { return; }
      r := Check();
      if r.Err? { return; }
      if !facts.resolvedMatches { return Err(ForeignFailure); }
    }

    method SignGrant(transaction: PrePayloadTransaction) returns (r: Result<()>)
      requires Inv() && Tied(transaction) && facts.resolvedMatches
        && todo == Rest(Resolving, facts, transaction.current)
      modifies `attempt, `fence, `done, `todo, `evidence, `keeping, `shown, `trail, transaction, store`links,
        store`index, store`others
      ensures Inv()
      ensures r.Ok? ==> Tied(transaction) && todo == Rest(Paying, facts, transaction.current)
      ensures r.Err? ==> Undoable(transaction)
    {
      r := Sign(GrantConstruction, GrantSigned(facts.grant));
      if r.Err? { return; }
      r := ProvisionGrant(transaction);
    }

    method ProvisionGrant(transaction: PrePayloadTransaction) returns (r: Result<()>)
      requires Inv() && Tied(transaction) && todo == Rest(Granting, facts, transaction.current)
      modifies `attempt, `fence, `done, `todo, `evidence, `keeping, `shown, `trail, transaction, store`links,
        store`index, store`others
      ensures Inv()
      ensures r.Ok? ==> Tied(transaction) && todo == Rest(Paying, facts, transaction.current)
      ensures r.Err? ==> Undoable(transaction)
    {
      var provisioned := transaction.current.Provision(facts.grantId, facts.grant);
      if provisioned.Err? { return Err(provisioned.error); }
      r := ReplaceAt(transaction, ProvisionedStageReplacement, provisioned.value);
      if r.Err? { return; }
      r := BuildPayload(transaction);
    }

    method BuildPayload(transaction: PrePayloadTransaction) returns (r: Result<()>)
      requires Inv() && Tied(transaction)
      requires todo == Then(Entered(At(PayloadConstruction)),
                            Then(Entered(At(PayloadCheckpointPreparation)), Rest(Paying, facts, transaction.current)))
      modifies `attempt, `fence, `done, `todo, `evidence
      ensures Inv() && Durable(done) == Durable(old(done))
      ensures r.Ok? ==> todo == Rest(Paying, facts, transaction.current)
    {
      r := Step(PayloadConstruction);
      if r.Err? { return; }
      r := Step(PayloadCheckpointPreparation);
    }

    /**
     The payload record is the last of the history and, if left alone, durable on top of everything the run
     began with.
     */
    ghost predicate Retained()
      reads `keeping, `done, `trail, `base, store`links, store`index
    {
      && keeping == Holding && Durable(done).Some? && Durable(done).value.stage.PayloadPrepared?
      && (Alone(trail) ==> Shows(base, store.View(), Durable(done).value, facts))
    }

    /** How a failed run leaves a store left alone: as it began, with the payload, or with its compensation refused. */
    ghost predicate Settled(before: seq<Result<()>>)
      reads `keeping, `done, `trail, `base, store`links, store`index, store`compensated
    {
      Alone(trail) ==> store.View().links == base.links || Retained() || CompensationRefused(before, store.compensated)
    }

    /** The payload's durable replacement, which disarms the guard in the same call. */
    method CommitPayload(transaction: PrePayloadTransaction, payload: Pending) returns (r: Result<()>)
      requires Inv() && Tied(transaction) && SameAttempt(transaction.current, payload) && payload.stage.PayloadPrepared?
      requires done.After? && done.last.Entered? && todo == Then(Stored(payload), AfterCommit(facts))
      modifies `attempt, `fence, `done, `todo, `evidence, `keeping, `shown, `trail, transaction, store
      ensures Inv()
      ensures r.Ok? ==> Retained() && todo == AfterCommit(facts) && store.compensated == old(store.compensated)
      ensures r.Err? ==> Settled(old(store.compensated))
    {
      Others();
      ghost var wrote, written;
      r, wrote, written := WritePayload(transaction, payload);
      if wrote { NoteStored(payload, written); } else { keeping := Closed; }
      Interfere();
    }

    /** The payload's write and, if it failed, the compensation, put on the trail. */
    method WritePayload(transaction: PrePayloadTransaction, payload: Pending)
      returns (r: Result<()>, ghost wrote: bool, ghost written: Disk)
      requires Inv() && Tied(transaction) && SameAttempt(transaction.current, payload) && payload.stage.PayloadPrepared?
      modifies `trail, transaction, store
      ensures Ordered() && Traced() && (r.Ok? ==> wrote && store.compensated == old(store.compensated))
      ensures wrote ==> LeftBehind(trail, written) && PendingOf(written, facts.initial.application) == Ok(payload)
      ensures wrote && Alone(trail) ==> Shows(base, store.View(), payload, facts)
      ensures !wrote && Alone(trail) ==>
        || store.View().links == base.links
        || CompensationRefused(old(store.compensated), store.compensated)
    {
      ghost var before, current, answers, prior := store.View(), transaction.current, store.compensated, store.others;
      ghost var found;
      r, written, found := transaction.CommitPayload(payload);
      ReplaceTouches(before, written, current, payload, r, facts.initial);
      trail := ByRun(trail, written);
      if r.Err? { TrackCompensation(written, found, prior, current, answers); }
      if Alone(trail) { PayloadKept(before, written, store.View(), current, payload, r, answers, store.compensated); }
      wrote := r.Ok? || written != before;
    }

    /**
     Left alone, a payload write that committed stays, and one that did not is compensated or on record as
     refused.
     */
    lemma PayloadKept(before: Disk, written: Disk, after: Disk, current: Pending, payload: Pending, r: Result<()>,
                      answers: seq<Result<()>>, answered: seq<Result<()>>)
      requires Extends(base, before, current) && current.Valid() && !current.stage.PayloadPrepared?
      requires SameAttempt(current, payload) && payload.stage.PayloadPrepared?
        && Replace(before, written, current, payload, r)
      requires if r.Ok? then after == written else Compensated(answers, answered, written, after, current)
      ensures r.Ok? || written != before ==> after == written && Extends(base, after, payload)
      ensures r.Err? && written == before ==> after.links == base.links || CompensationRefused(answers, answered)
    {
      ReplaceMoves(base, before, written, current, payload, r);
      if r.Err? {
        if written != before {
          CompensationKeepsPayload(base, written, after, payload, current, answered[|answers|]);
        } else {
          CompensatedDrops(answers, answered, before, after, current);
          if Dropped(before, after, current) { DropUndoes(base, before, after, current, current); }
        }
      }
    }

    /** Others' operations since the failed write, and then the compensation, on the trail. */
    ghost method TrackCompensation(written: Disk, found: Disk, prior: seq<Op>, anchor: Pending,
                                   answers: seq<Result<()>>)
      requires trail.at == written && Tracked(trail, facts.initial) && Origin(trail) == base
      requires joined <= |prior| && (Alone(trail) <==> |prior| == joined)
      requires prior <= store.others && Reached(written, found, store.others[|prior|..])
      requires Compensated(answers, store.compensated, found, store.View(), anchor)
        && SameAttempt(facts.initial, anchor)
      modifies `trail
      ensures Traced() && (Alone(trail) ==> found == written)
      ensures forall d :: LeftBehind(old(trail), d) ==> LeftBehind(trail, d)
    {
      var ops := store.others[|prior|..];
      if ops != [] { trail := ByOthers(trail, ops, found); }
      CompensateTouches(found, store.View(), anchor, store.compensated[|answers|], facts.initial);
      trail := ByRun(trail, store.View());
    }

    /** The whole script ran, and its last effect was the Payload frame. */
    ghost predicate Delivered()
      reads `todo, `done
    {
      todo == Done && done.After? && done.last == SentPayload(facts.payloadHash)
    }

    method CommitAndRelease(transaction: PrePayloadTransaction) returns (r: Result<()>)
      requires Inv() && Tied(transaction) && todo == Rest(Paying, facts, transaction.current)
      modifies `attempt, `fence, `done, `todo, `evidence, `keeping, `shown, `trail, transaction, store
      ensures Inv()
      ensures r.Ok? ==> Delivered() && Retained() && store.compensated == old(store.compensated)
      ensures r.Err? ==> Settled(old(store.compensated))
    {
      if facts.payloadAt >= facts.initial.offerExpiresAt || PayloadRecord(facts, transaction.current).Err? {
        Abandon(transaction);
        return Err(CheckpointRefused);
      }
      var payload := PayloadRecord(facts, transaction.current).value;
      r := Enter(RunCommit);
      if r.Err? {
        Abandon(transaction);
        return;
      }
      r := CommitPayload(transaction, payload);
      if r.Err? { return; }
      r := Release();
    }

    /** The frame: reducer release under its own entry, then the send under another. */
    method Release() returns (r: Result<()>)
      requires Inv() && keeping == Holding && todo == AfterCommit(facts)
      modifies `attempt, `fence, `done, `todo, `evidence, `trail, store`links, store`index, store`others
      ensures Inv() && Durable(done) == Durable(old(done)) && (r.Ok? ==> Delivered())
    {
      r := Check();
      if r.Err? { return; }
      r := Enter(RunRelease);
      if r.Err? { return; }
      if * { return Err(ForeignFailure); }
      r := Check();
      if r.Err? { return; }
      r := Send(SentPayload(facts.payloadHash));
    }

    /** Dropping the guard on an early return; nothing happens after it. */
    method Abandon(transaction: PrePayloadTransaction)
      requires Inv() && Undoable(transaction)
      modifies `keeping, `trail, transaction`cleanup, store
      ensures Inv() && Settled(old(store.compensated))
    {
      Others();
      ghost var before, anchor, answers, prior := store.View(), transaction.cleanup.value, store.compensated,
        store.others;
      ghost var p := Durable(done).value;
      transaction.Drop();
      assert store.others[|prior|..] == [];
      TrackCompensation(before, before, prior, anchor, answers);
      if Alone(trail) {
        CompensatedDrops(answers, store.compensated, before, store.View(), anchor);
        if Dropped(before, store.View(), anchor) { DropUndoes(base, before, store.View(), p, anchor); }
      }
      keeping := Closed;
    }

    /**
     The whole of `complete_approved`, with other commands free to act on the store before each of its own
     sections. Nothing happens to an expired offer or under a changed identity; every event had the facts on
     its side (`Heeds`); success passed all fifteen boundaries and made every effect. Whatever fails, and
     whenever the fence falls: the history is a prefix of the one script; every record was noted beside a
     store the run's own write had left holding it; and those writes touched nothing but pendings of its own
     attempt. If the store was left alone, it held the record each effect needs at the very moment of the
     effect, and ends with the entries as they were, or with exactly the payload record added, unless the one
     compensation made was itself refused by the store.
     */
    method CompleteApproved() returns (r: Result<()>)
      requires Inv() && done == Start && keeping == Idle && trail == Began(base)
      requires Sound(base) && facts.initial.stage == FinalApproval
      requires !HoldsOwn(SlotsOf(base, facts.initial.application), facts.initial)
      modifies this, store
      ensures Inv() && base == old(store.View())
      ensures Events(evidence) == done && Backed(evidence, facts) && WriteAhead(done, facts)
        && Visited(done) <= BOUNDARIES
      ensures Heeded(done, facts) && (fence.Some? ==> StoppedAt(fence.value, done, mode))
      ensures facts.openedAt >= facts.initial.offerExpiresAt || facts.derivedDid != facts.initial.previewIssuer ==>
        r.Err? && done == Start && trail == old(trail)
      ensures r.Ok? ==>
        var preview := facts.initial.previewIssuer;
        && Visited(done) == BOUNDARIES && Happened(done, SentFinalApprove(facts.initial.finalApprove))
        && Happened(done, IssuerSigned(preview)) && Happened(done, Published(preview, facts.closure))
        && Happened(done, Resolved(preview)) && Happened(done, GrantSigned(facts.grant))
      ensures Tracked(trail, facts.initial) && Origin(trail) == old(store.View()) && trail.at == store.View()
      ensures Alone(trail) <==> |store.others| == |old(store.others)|
      ensures r.Ok? ==> Delivered() && Retained() && store.compensated == old(store.compensated)
      ensures r.Err? ==> Settled(old(store.compensated))
    {
      r := Execute();
      HistoryIsWriteAhead(done, todo, facts);
      HistoryHeeds(done, todo, facts);
      VisitedInOrder(done, todo, facts);
      if r.Ok? { DeliveredWhole(done, facts); }
    }

    method Execute() returns (r: Result<()>)
      requires Inv() && done == Start && keeping == Idle
      requires Sound(base) && facts.initial.stage == FinalApproval
      requires !HoldsOwn(SlotsOf(base, facts.initial.application), facts.initial)
      modifies `attempt, `fence, `done, `todo, `evidence, `keeping, `shown, `trail, store
      ensures Inv()
      ensures facts.openedAt >= facts.initial.offerExpiresAt || facts.derivedDid != facts.initial.previewIssuer ==>
        r.Err? && done == old(done) && trail == old(trail)
      ensures r.Ok? ==> Delivered() && Retained() && store.compensated == old(store.compensated)
      ensures r.Err? ==> Settled(old(store.compensated))
    {
      r := Check();
      if r.Err? { return; }
      if facts.openedAt >= facts.initial.offerExpiresAt { return Err(Expired); }
      if facts.derivedDid != facts.initial.previewIssuer { return Err(ForeignFailure); }
      r := Enter(RunBegin);
      if r.Err? { return; }
      var begun := Open();
      if begun.Err? { return Err(begun.error); }
      r := Proceed(begun.value);
    }

    /** The first durable record. A begin that fails is undone inside the call, and nothing follows it. */
    method Open() returns (r: Result<PrePayloadTransaction>)
      requires Inv() && keeping == Idle && done.After? && done.last.Entered? && todo.Then?
        && todo.next == Stored(facts.initial)
      requires Sound(base) && facts.initial.stage == FinalApproval
      requires !HoldsOwn(SlotsOf(base, facts.initial.application), facts.initial)
      modifies `attempt, `fence, `done, `todo, `evidence, `keeping, `shown, `trail, store
      ensures Inv()
      ensures r.Ok? ==> fresh(r.value) && Tied(r.value) && r.value.current == facts.initial && todo == old(todo).rest
      ensures r.Ok? ==> store.compensated == old(store.compensated)
      ensures r.Err? ==> Settled(old(store.compensated))
    {
      Others();
      ghost var written;
      r, written := WriteFirst();
      if r.Ok? { NoteStored(facts.initial, written); } else { keeping := Closed; }
      Interfere();
    }

    /** The first write and, if it failed, the compensation, put on the trail. */
    method WriteFirst() returns (r: Result<PrePayloadTransaction>, ghost written: Disk)
      requires Inv() && keeping == Idle && Sound(base) && facts.initial.stage == FinalApproval
      requires !HoldsOwn(SlotsOf(base, facts.initial.application), facts.initial)
      modifies `trail, store
      ensures Ordered() && Traced()
      ensures r.Ok? ==>
        && fresh(r.value) && r.value.store == store && r.value.current == facts.initial
           && r.value.cleanup == Some(facts.initial)
        && facts.initial.Valid() && store.compensated == old(store.compensated)
        && LeftBehind(trail, written) && PendingOf(written, facts.initial.application) == Ok(facts.initial)
        && (Alone(trail) ==> Shows(base, store.View(), facts.initial, facts))
      ensures r.Err? && Alone(trail) ==>
        store.View().links == base.links || CompensationRefused(old(store.compensated), store.compensated)
    {
      ghost var before, answers, prior := store.View(), store.compensated, store.others;
      ghost var found;
      r, written, found := PrePayloadTransaction.Begin(store, facts.initial);
      ghost var answer := if r.Ok? then Ok(()) else Err(r.error);
      PersistTouches(before, written, facts.initial, answer, facts.initial);
      trail := ByRun(trail, written);
      if r.Ok? {
        if Alone(trail) { PersistExtends(base, written, facts.initial, answer); }
      } else {
        TrackCompensation(written, found, prior, facts.initial, answers);
        if Alone(trail) {
          BeginCompensated(base, written, store.View(), facts.initial, r.error, answers, store.compensated);
        }
      }
    }

    method Proceed(transaction: PrePayloadTransaction) returns (r: Result<()>)
      requires Inv() && Tied(transaction) && transaction.current == facts.initial
        && todo == Rest(Begun, facts, facts.initial)
      modifies `attempt, `fence, `done, `todo, `evidence, `keeping, `shown, `trail, transaction, store
      ensures Inv()
      ensures r.Ok? ==> Delivered() && Retained() && store.compensated == old(store.compensated)
      ensures r.Err? ==> Settled(old(store.compensated))
    {
      r := Prepare(transaction);
      if r.Err? {
        Abandon(transaction);
        return;
      }
      r := CommitAndRelease(transaction);
    }

    /** Everything between `begin` and the payload's commit. */
    method Prepare(transaction: PrePayloadTransaction) returns (r: Result<()>)
      requires Inv() && Tied(transaction) && transaction.current == facts.initial
        && todo == Rest(Begun, facts, facts.initial)
      modifies `attempt, `fence, `done, `todo, `evidence, `keeping, `shown, `trail, transaction, store`links,
        store`index, store`others
      ensures Inv()
      ensures r.Ok? ==> Tied(transaction) && todo == Rest(Paying, facts, transaction.current)
      ensures r.Err? ==> Undoable(transaction)
    {
      r := Check();
      if r.Err? { return; }
      r := Approve(transaction);
      if r.Err? { return; }
      r := Found(transaction);
      if r.Err? { return; }
      r := Provide(transaction);
    }

    /** The final approval, and its relay acknowledgement. */
    method Approve(transaction: PrePayloadTransaction) returns (r: Result<()>)
      requires Inv() && Tied(transaction) && transaction.current == facts.initial
        && todo == Rest(Begun, facts, facts.initial)
      modifies `attempt, `fence, `done, `todo, `evidence, `keeping, `shown, `trail, transaction, store`links,
        store`index, store`others
      ensures Inv()
      ensures r.Ok? ==> Tied(transaction) && todo == Rest(Planning, facts, transaction.current)
      ensures r.Err? ==> Undoable(transaction)
    {
      r := ReleaseApproval(transaction);
      if r.Err? { return; }
      r := Acknowledge(transaction);
    }

    /** The issuer: planned, signed, durable, and only then public. */
    method Found(transaction: PrePayloadTransaction) returns (r: Result<()>)
      requires Inv() && Tied(transaction) && todo == Rest(Planning, facts, transaction.current)
      modifies `attempt, `fence, `done, `todo, `evidence, `keeping, `shown, `trail, transaction, store`links,
        store`index, store`others
      ensures Inv()
      ensures r.Ok? ==> Tied(transaction) && todo == Rest(Publishing, facts, transaction.current)
      ensures r.Err? ==> Undoable(transaction)
    {
      r := SignIssuer(transaction);
      if r.Err? { return; }
      r := PublishIssuer(transaction);
    }

    /** The grant, behind the resolved issuer, and the payload built from it. */
    method Provide(transaction: PrePayloadTransaction) returns (r: Result<()>)
      requires Inv() && Tied(transaction) && todo == Rest(Publishing, facts, transaction.current)
      modifies `attempt, `fence, `done, `todo, `evidence, `keeping, `shown, `trail, transaction, store`links,
        store`index, store`others
      ensures Inv()
      ensures r.Ok? ==> Tied(transaction) && todo == Rest(Paying, facts, transaction.current)
      ensures r.Err? ==> Undoable(transaction)
    {
      r := VerifyIssuer(transaction);
      if r.Err? { return; }
      r := SignGrant(transaction);
    }
  }

  lemma BeginCompensated(base: Disk, written: Disk, d': Disk, initial: Pending, e: Token, answers: seq<Result<()>>,
                         answered: seq<Result<()>>)
    requires Sound(base) && !initial.stage.PayloadPrepared? && !HoldsOwn(SlotsOf(base, initial.application), initial)
    requires Persist(base, written, initial, Err(e)) && Compensated(answers, answered, written, d', initial)
    ensures d'.links == base.links || CompensationRefused(answers, answered)
  {
    CompensatedDrops(answers, answered, written, d', initial);
    if Dropped(written, d', initial) { BeginUndone(base, written, d', initial, e); }
  }

  lemma BeginUndone(base: Disk, written: Disk, d': Disk, initial: Pending, e: Token)
    requires Sound(base) && !initial.stage.PayloadPrepared? && !HoldsOwn(SlotsOf(base, initial.application), initial)
    requires Persist(base, written, initial, Err(e)) && Dropped(written, d', initial)
    ensures d'.links == base.links
  {
    assert Transacted(base, d', initial, [], Abandoned);
    TransactionRestores(base, d', initial, [], Abandoned);
  }
}
