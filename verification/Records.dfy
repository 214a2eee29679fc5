/**
 The durable records of one device link: the pending ceremony with its five stages, and the
 installed capability it becomes. Digests, DIDs, signatures and sealed checkpoints are values
 with equality only; each function keeps the order of checks of the record it models.
 */
module Records {
  import opened Prelude

  type Opaque = nat

  const SLOT_VERSION: nat := 1

  datatype Flow = SingleLink | LegacyTwoDecision

  datatype SigningKey = SigningKey(kid: Opaque, jwk: Opaque)

  datatype Profile = Profile(application: string, digest: Opaque, authority: string, keys: seq<SigningKey>)

  datatype Carrier = Carrier(ceremony: Opaque, application: string, relay: string, relayExpiresAt: nat)

  datatype Kind =
    | Offer | IntentApprove | Preparation | ComparisonConfirmed | BindingConfirmed
    | FinalApprove | Payload | Receipt

  datatype OfferFacts = OfferFacts(
    requestId: Opaque, kid: Opaque, principal: Opaque, scope: Opaque, device: Opaque,
    coreDigest: Opaque, permissions: seq<Opaque>)

  /** What the hub signs when it finalizes a ceremony. */
  datatype StatusFacts = StatusFacts(
    application: string, ceremony: Opaque, requestId: Opaque, principal: Opaque, scope: Opaque,
    device: Opaque, coreDigest: Opaque, payloadDigest: Opaque, grantId: Opaque, issuer: Opaque,
    commitment: Opaque, finalizedAt: nat)

  datatype FinalStatus = FinalStatus(facts: StatusFacts, kid: Opaque, digest: Opaque)

  datatype Body = OfferBody(offer: OfferFacts) | ReceiptBody(status: FinalStatus) | OtherBody(octets: Opaque)

  datatype Object = Object(kind: Kind, intentDigest: Opaque, body: Body)

  datatype Account = Account(issuer: Opaque, authority: string)

  datatype Grant = Grant(
    id: Opaque, issuer: Opaque, token: Opaque, application: string, account: Account,
    device: Opaque, permissions: seq<Opaque>, digest: Opaque)

  /** A signed resolver closure: the DID every delta names, and whether the closure is complete. */
  datatype Closure = Closure(did: Opaque, complete: bool)

  datatype Stage =
    | FinalApproval
    | Planned(effectTime: int, grantId: Opaque)
    | IssuerCreated(effectTime: int, grantId: Opaque, issuer: Opaque, closure: Closure)
    | Provisioned(effectTime: int, grantId: Opaque, issuer: Opaque, grant: Grant, closure: Closure)
    | PayloadPrepared(effectTime: int, grantId: Opaque, issuer: Opaque, grant: Grant, closure: Closure,
                      payloadHash: Opaque)
  {
    predicate Valid(preview: Opaque) {
      match this
      case FinalApproval => true
      case Planned(t, _) => t > 0
      case IssuerCreated(t, _, issuer, closure) =>
        t > 0 && issuer == preview && ClosureNames(closure, issuer)
      case Provisioned(t, id, issuer, grant, closure) =>
        t > 0 && issuer == preview && grant.issuer == issuer && grant.token == id && ClosureNames(closure, issuer)
      case PayloadPrepared(t, id, issuer, grant, closure, _) =>
        t > 0 && issuer == preview && grant.issuer == issuer && grant.token == id && ClosureNames(closure, issuer)
    }

    function Rank(): nat {
      match this
      case FinalApproval => 0
      case Planned(_, _) => 1
      case IssuerCreated(_, _, _, _) => 2
      case Provisioned(_, _, _, _, _) => 3
      case PayloadPrepared(_, _, _, _, _, _) => 4
    }
  }

  predicate ClosureNames(closure: Closure, issuer: Opaque) {
    closure.complete && closure.did == issuer
  }

  datatype Pending = Pending(
    version: nat, flow: Flow, rootGeneration: Opaque, application: string, relay: string,
    profileDigest: Opaque, offerProfile: Profile, carrier: Carrier, offer: Object,
    intentApprove: Object, comparison: Object, finalApprove: Object, previewIssuer: Opaque,
    offerExpiresAt: nat, generation: nat, checkpoint: seq<Opaque>, stage: Stage)
  {
    predicate Valid() {
      && version == SLOT_VERSION && offerExpiresAt != 0 && generation != 0
      && offerProfile.application == application && offerProfile.digest == profileDigest
      && carrier.application == application && carrier.relay == relay
      && offer.kind == Offer && intentApprove.kind == IntentApprove
      && comparison.kind in {ComparisonConfirmed, BindingConfirmed} && finalApprove.kind == FinalApprove
      && offer.intentDigest == intentApprove.intentDigest == comparison.intentDigest == finalApprove.intentDigest
      && checkpoint != [] && stage.Valid(previewIssuer)
    }

    /** Deliver the record only if it validates, as every constructor and transition does last. */
    function Checked(): Result<Pending> {
      if Valid() then Ok(this) else Err(CheckpointRefused)
    }

    function Plan(effectTime: int, grantId: Opaque): Result<Pending> {
      if stage != FinalApproval || effectTime <= 0 then Err(CheckpointRefused)
      else this.(stage := Planned(effectTime, grantId)).Checked()
    }

    function CreateIssuer(did: Opaque, closure: Closure): Result<Pending> {
      if !stage.Planned? || did != previewIssuer then Err(CheckpointRefused)
      else this.(stage := IssuerCreated(stage.effectTime, stage.grantId, did, closure)).Checked()
    }

    function Provision(grantId: Opaque, grant: Grant): Result<Pending> {
      if !stage.IssuerCreated? || stage.grantId != grantId then Err(CheckpointRefused)
      else this.(stage := Provisioned(stage.effectTime, stage.grantId, stage.issuer, grant, stage.closure)).Checked()
    }

    function PreparePayload(hash: Opaque): Result<Pending> {
      if !stage.Provisioned? then Err(CheckpointRefused)
      else this.(stage := PayloadPrepared(stage.effectTime, stage.grantId, stage.issuer, stage.grant, stage.closure,
                                          hash)).Checked()
    }

    function WithCheckpoint(newGeneration: nat, newCheckpoint: seq<Opaque>): Result<Pending> {
      if newGeneration <= generation || newCheckpoint == [] then Err(CheckpointRefused)
      else this.(generation := newGeneration, checkpoint := newCheckpoint).Checked()
    }
  }

  /** The thirteen fields `remove_pre_payload_attempt` compares before it deletes a stored value. */
  predicate SameAttempt(a: Pending, b: Pending) {
    && a.flow == b.flow && a.rootGeneration == b.rootGeneration && a.application == b.application
    && a.relay == b.relay && a.profileDigest == b.profileDigest && a.offerProfile == b.offerProfile
    && a.carrier == b.carrier && a.offer == b.offer && a.intentApprove == b.intentApprove
    && a.comparison == b.comparison && a.finalApprove == b.finalApprove
    && a.previewIssuer == b.previewIssuer && a.offerExpiresAt == b.offerExpiresAt
  }

  /** The nine fields `replace_pending` insists on; flow, relay, profile digest and offer expiry are not among them. */
  predicate SameReplacement(a: Pending, b: Pending) {
    && a.application == b.application && a.rootGeneration == b.rootGeneration
    && a.offerProfile == b.offerProfile && a.carrier == b.carrier && a.offer == b.offer
    && a.intentApprove == b.intentApprove && a.comparison == b.comparison
    && a.finalApprove == b.finalApprove && a.previewIssuer == b.previewIssuer
  }

  /**
   The compensation compares everything but the version, the sealed checkpoint and the stage; a replacement is
   not even compared on flow, relay, profile digest and offer expiry.
   */
  lemma ComparedFields(a: Pending, b: Pending)
    ensures SameAttempt(a, b) <==>
      b.(version := a.version, generation := a.generation, checkpoint := a.checkpoint, stage := a.stage) == a
    ensures SameReplacement(a, b) <==>
      b.(version := a.version, flow := a.flow, relay := a.relay, profileDigest := a.profileDigest,
         offerExpiresAt := a.offerExpiresAt, generation := a.generation, checkpoint := a.checkpoint,
         stage := a.stage) == a
  {}

  /** What a validated replacement can still change of the attempt: exactly its flow and its offer expiry. */
  lemma ReplacementGap(a: Pending, b: Pending)
    requires a.Valid() && b.Valid() && SameReplacement(a, b)
    ensures SameAttempt(a, b) <==> a.flow == b.flow && a.offerExpiresAt == b.offerExpiresAt
  {}

  // ---- what validation ties together ----

  /** Of a valid record no tied value can be altered alone. */
  lemma TamperedPendingIsRefused(p: Pending, text: string, value: Opaque, other: Object, stage: Stage)
    requires p.Valid() && text != p.application && value != p.profileDigest && other.kind == Receipt
    ensures !p.(version := 2).Valid() && !p.(offerExpiresAt := 0).Valid() && !p.(generation := 0).Valid()
      && !p.(checkpoint := []).Valid()
    ensures !p.(application := text).Valid() && !p.(profileDigest := value).Valid()
    ensures !p.(offerProfile := p.offerProfile.(application := text)).Valid()
      && !p.(offerProfile := p.offerProfile.(digest := value)).Valid()
      && !p.(carrier := p.carrier.(application := text)).Valid()
    ensures p.relay + "." != p.relay && !p.(relay := p.relay + ".").Valid()
    ensures !p.(offer := other).Valid() && !p.(intentApprove := other).Valid() && !p.(comparison := other).Valid()
      && !p.(finalApprove := other).Valid()
    ensures forall digest :: digest != p.offer.intentDigest ==>
      && !p.(offer := p.offer.(intentDigest := digest)).Valid()
      && !p.(intentApprove := p.intentApprove.(intentDigest := digest)).Valid()
      && !p.(comparison := p.comparison.(intentDigest := digest)).Valid()
      && !p.(finalApprove := p.finalApprove.(intentDigest := digest)).Valid()
    ensures stage.Rank() >= 1 && stage.effectTime <= 0 ==> !p.(stage := stage).Valid()
    ensures stage.Rank() >= 2
      && (stage.issuer != p.previewIssuer || !stage.closure.complete || stage.closure.did != p.previewIssuer)
      ==> !p.(stage := stage).Valid()
    ensures stage.Rank() >= 3 && (stage.grant.issuer != p.previewIssuer || stage.grant.token != stage.grantId)
      ==> !p.(stage := stage).Valid()
  {
    assert |p.relay + "."| > |p.relay|;
  }

  /** And a record whose values agree is valid, at its first stage, in either flow and after either comparison. */
  lemma AgreeingPendingIsValid(flow: Flow, root: Opaque, profile: Profile, carrier: Carrier, digest: Opaque,
                               bodies: seq<Body>, confirmed: bool, issuer: Opaque, expires: nat, generation: nat,
                               checkpoint: seq<Opaque>)
    requires profile.application == carrier.application && |bodies| == 4
    requires expires > 0 && generation > 0 && checkpoint != []
    ensures Pending(
      1, flow, root, carrier.application, carrier.relay, profile.digest, profile, carrier,
      Object(Offer, digest, bodies[0]), Object(IntentApprove, digest, bodies[1]),
      Object(if confirmed then ComparisonConfirmed else BindingConfirmed, digest, bodies[2]),
      Object(FinalApprove, digest, bodies[3]), issuer, expires, generation, checkpoint, FinalApproval).Valid()
  {}

  /** From a valid record each transition is granted exactly at its own stage, and moves the stage alone. */
  lemma TransitionsExactlyWhen(p: Pending, time: int, id: Opaque, did: Opaque, closure: Closure, grant: Grant,
                               hash: Opaque, generation: nat, checkpoint: seq<Opaque>)
    requires p.Valid()
    ensures p.Plan(time, id) ==
      if p.stage.FinalApproval? && time > 0 then Ok(p.(stage := Planned(time, id))) else Err(CheckpointRefused)
    ensures p.CreateIssuer(did, closure) ==
      if p.stage.Planned? && did == p.previewIssuer == closure.did && closure.complete
      then Ok(p.(stage := IssuerCreated(p.stage.effectTime, p.stage.grantId, did, closure)))
      else Err(CheckpointRefused)
    ensures p.Provision(id, grant) ==
      if p.stage.IssuerCreated? && id == p.stage.grantId == grant.token && grant.issuer == p.previewIssuer
      then Ok(p.(stage := Provisioned(p.stage.effectTime, id, p.previewIssuer, grant, p.stage.closure)))
      else Err(CheckpointRefused)
    ensures p.PreparePayload(hash) ==
      if p.stage.Provisioned?
      then Ok(p.(stage := PayloadPrepared(p.stage.effectTime, p.stage.grantId, p.previewIssuer, p.stage.grant,
                                          p.stage.closure, hash)))
      else Err(CheckpointRefused)
    ensures p.WithCheckpoint(generation, checkpoint) ==
      if generation > p.generation && checkpoint != []
      then Ok(p.(generation := generation, checkpoint := checkpoint))
      else Err(CheckpointRefused)
  {}

  // ---- chains of transitions ----

  datatype Move =
    | ToPlanned(effectTime: int, grantId: Opaque)
    | ToIssuerCreated(did: Opaque, closure: Closure)
    | ToProvisioned(grantId: Opaque, grant: Grant)
    | ToPayload(hash: Opaque)
    | ToCheckpoint(generation: nat, checkpoint: seq<Opaque>)

  function Apply(p: Pending, m: Move): Result<Pending> {
    match m
    case ToPlanned(t, id) => p.Plan(t, id)
    case ToIssuerCreated(did, closure) => p.CreateIssuer(did, closure)
    case ToProvisioned(id, grant) => p.Provision(id, grant)
    case ToPayload(hash) => p.PreparePayload(hash)
    case ToCheckpoint(g, c) => p.WithCheckpoint(g, c)
  }

  /** Every fact `a` has fixed is fixed to the same value in `b`. */
  predicate Keeps(a: Stage, b: Stage) {
    && a.Rank() <= b.Rank()
    && (a.Rank() >= 1 ==> b.effectTime == a.effectTime && b.grantId == a.grantId)
    && (a.Rank() >= 2 ==> b.issuer == a.issuer && b.closure == a.closure)
    && (a.Rank() >= 3 ==> b.grant == a.grant)
    && (a.Rank() >= 4 ==> b.payloadHash == a.payloadHash)
  }

  /** `b` is a later value of the ceremony `a`: same attempt, no fact revised, no generation reused. */
  predicate Descends(a: Pending, b: Pending) {
    && SameAttempt(a, b) && a.version == b.version && Keeps(a.stage, b.stage)
    && a.generation <= b.generation && (a.generation == b.generation ==> a.checkpoint == b.checkpoint)
  }

  ghost predicate Chain(ps: seq<Pending>, ms: seq<Move>) {
    && |ps| == |ms| + 1
    && forall i :: 0 <= i < |ms| ==> Apply(ps[i], ms[i]) == Ok(ps[i + 1])
  }

  function StageMoves(ms: seq<Move>): nat {
    if ms == [] then 0 else StageMoves(ms[..|ms| - 1]) + if ms[|ms| - 1].ToCheckpoint? then 0 else 1
  }

  function CheckpointMoves(ms: seq<Move>): nat {
    if ms == [] then 0 else CheckpointMoves(ms[..|ms| - 1]) + if ms[|ms| - 1].ToCheckpoint? then 1 else 0
  }

  lemma ApplyDescends(p: Pending, m: Move)
    requires Apply(p, m).Ok?
    ensures var q := Apply(p, m).value;
      && q.Valid() && Descends(p, q)
      && q.stage.Rank() == p.stage.Rank() + (if m.ToCheckpoint? then 0 else 1)
      && q.generation >= p.generation + (if m.ToCheckpoint? then 1 else 0)
  {}

  lemma DescendsTransitive(a: Pending, b: Pending, c: Pending)
    requires Descends(a, b) && Descends(b, c)
    ensures Descends(a, c)
  {}

  /** The order of any two values of one chain. */
  lemma {:induction false} ChainOrdered(ps: seq<Pending>, ms: seq<Move>, i: nat, j: nat)
    requires Chain(ps, ms) && i <= j < |ps|
    ensures Descends(ps[i], ps[j])
    ensures i < j ==> ps[j].Valid()
    decreases j
  {
    if i < j {
      ChainOrdered(ps, ms, i, j - 1);
      assert Apply(ps[j - 1], ms[j - 1]) == Ok(ps[j]);
      ApplyDescends(ps[j - 1], ms[j - 1]);
      DescendsTransitive(ps[i], ps[j - 1], ps[j]);
    }
  }

  /**
   Along any chain of transitions and checkpoint updates: nothing fixed is revised, the stage rises
   by exactly one per stage transition and the generation by at least one per checkpoint, and from
   the issuer stage on the issuer and its closure are the previewed DID's.
   */
  lemma {:induction false} ChainAdvances(ps: seq<Pending>, ms: seq<Move>)
    requires Chain(ps, ms)
    ensures forall i, j :: 0 <= i <= j < |ps| ==> Descends(ps[i], ps[j])
    ensures ps[|ms|].stage.Rank() == ps[0].stage.Rank() + StageMoves(ms)
    ensures ps[|ms|].generation >= ps[0].generation + CheckpointMoves(ms)
    ensures forall i :: 0 < i < |ps| && ps[i].stage.Rank() >= 2 ==>
              ps[i].stage.issuer == ps[0].previewIssuer && ps[i].stage.closure.did == ps[0].previewIssuer
  {
    forall i, j | 0 <= i <= j < |ps|
      ensures Descends(ps[i], ps[j])
    {
      ChainOrdered(ps, ms, i, j);
    }
    forall i | 0 < i < |ps| && ps[i].stage.Rank() >= 2
      ensures ps[i].stage.issuer == ps[0].previewIssuer && ps[i].stage.closure.did == ps[0].previewIssuer
    {
      ChainOrdered(ps, ms, 0, i);
    }
    ChainCounts(ps, ms);
  }

  lemma {:induction false} ChainCounts(ps: seq<Pending>, ms: seq<Move>)
    requires Chain(ps, ms)
    ensures ps[|ms|].stage.Rank() == ps[0].stage.Rank() + StageMoves(ms)
    ensures ps[|ms|].generation >= ps[0].generation + CheckpointMoves(ms)
    decreases |ms|
  {
    if ms != [] {
      var n := |ms| - 1;
      ChainCounts(ps[..|ms|], ms[..n]);
      assert Apply(ps[n], ms[n]) == Ok(ps[n + 1]);
      ApplyDescends(ps[n], ms[n]);
    }
  }
}
