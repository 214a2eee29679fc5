/**
 Installed links, the slot list of one application, and the canonical text the slot list is kept
 in: nothing, one bare record, or a version-two bundle of at least two.
 */
module Links {
  import opened Prelude
  import opened Records

  const MAX_APPLICATION_LINKS: nat := 16

  datatype Installed = Installed(
    version: nat, flow: Flow, rootGeneration: Opaque, relay: string, profile: Profile,
    currentProfile: Profile, grant: Grant, grantDigest: Opaque, grantId: Opaque,
    credentialId: Opaque, application: string, principal: Opaque, scope: Opaque, account: Account,
    device: Opaque, profileDigest: Opaque, currentProfileDigest: Opaque, authority: string,
    issuer: Opaque, closure: Closure, coreDigest: Opaque, offerKid: Opaque, ceremony: Opaque,
    requestId: Opaque, payloadDigest: Opaque, commitment: Opaque, status: FinalStatus,
    statusDigest: Opaque, finalizedAt: nat)
  {
    predicate Valid() {
      && version == SLOT_VERSION && rootGeneration != 0
      && profile.application == application && profile.digest == profileDigest
      && currentProfile.application == application && currentProfile.digest == currentProfileDigest
      && currentProfile.authority == authority && profile.authority == authority
      && finalizedAt != 0 && grant.digest == grantDigest
      && account == Account(issuer, authority)
      && grant.id == credentialId && grant.issuer == issuer && grant.token == grantId
      && grant.application == application && grant.account == account && grant.device == device
      && ClosureNames(closure, issuer)
      && RecognisesStatus(profile, status, statusDigest, ExpectedStatus(), offerKid)
    }

    function ExpectedStatus(): StatusFacts {
      StatusFacts(application, ceremony, requestId, principal, scope, device, coreDigest,
                  payloadDigest, grantId, issuer, commitment, finalizedAt)
    }
  }

  function KeyOf(profile: Profile, kid: Opaque): Option<SigningKey> {
    KeyIn(profile.keys, kid)
  }

  function KeyIn(keys: seq<SigningKey>, kid: Opaque): (r: Option<SigningKey>)
    ensures r.Some? ==> r.value in keys && r.value.kid == kid
    ensures r.None? ==> forall i :: 0 <= i < |keys| ==> keys[i].kid != kid
  {
    if keys == [] then None else if keys[0].kid == kid then Some(keys[0]) else KeyIn(keys[1..], kid)
  }

  /** The first key listed under this kid, which is the one every search finds. */
  predicate FirstKey(keys: seq<SigningKey>, i: nat, kid: Opaque) {
    i < |keys| && keys[i].kid == kid && forall j :: 0 <= j < i ==> keys[j].kid != kid
  }

  lemma {:induction false} KeyIsFirst(keys: seq<SigningKey>, kid: Opaque)
    ensures forall i: nat :: FirstKey(keys, i, kid) ==> KeyIn(keys, kid) == Some(keys[i])
    ensures KeyIn(keys, kid).Some? ==> exists i: nat :: FirstKey(keys, i, kid)
  {
    if keys != [] && keys[0].kid != kid {
      KeyIsFirst(keys[1..], kid);
      forall i: nat | FirstKey(keys, i, kid)
        ensures KeyIn(keys, kid) == Some(keys[i])
      {
        assert FirstKey(keys[1..], i - 1, kid);
      }
      if KeyIn(keys, kid).Some? {
        var i: nat :| FirstKey(keys[1..], i, kid);
        assert FirstKey(keys, i + 1, kid);
      }
    } else if keys != [] {
      assert FirstKey(keys, 0, kid);
    }
  }

  predicate RetainsKey(profile: Profile, kid: Opaque) {
    KeyOf(profile, kid).Some?
  }

  /** The hub's signature verifies under the retained key and covers exactly the expected facts. */
  predicate RecognisesStatus(profile: Profile, status: FinalStatus, digest: Opaque, expected: StatusFacts,
                             kid: Opaque) {
    RetainsKey(profile, kid) && status.kid == kid && status.digest == digest && status.facts == expected
  }

  /** Build the installed candidate from the pending payload and the authenticated receipt. */
  function FromReceipt(pending: Pending, profile: Profile, receipt: Object, commitment: Opaque): Result<Installed> {
    if !pending.Valid() then Err(CheckpointRefused)
    else if profile.application != pending.application || profile.digest != pending.profileDigest then
      Err(ReceiptRefused)
    else if !pending.offer.body.OfferBody? || !RetainsKey(profile, pending.offer.body.offer.kid) then
      Err(ReceiptRefused)
    else if !pending.stage.PayloadPrepared? then Err(CheckpointRefused)
    else if receipt.kind != Receipt || !receipt.body.ReceiptBody? then Err(ReceiptRefused)
    else
      var offer := pending.offer.body.offer;
      var facts := pending.stage;
      var status := receipt.body.status;
      var expected := StatusFacts(
        profile.application, pending.carrier.ceremony, offer.requestId, offer.principal, offer.scope,
        offer.device, offer.coreDigest, facts.payloadHash, facts.grantId, facts.issuer, commitment,
        status.facts.finalizedAt);
      var account := Account(facts.issuer, profile.authority);
      if !RecognisesStatus(profile, status, status.digest, expected, offer.kid) then Err(ReceiptRefused)
      else if facts.grant.issuer != facts.issuer || facts.grant.token != facts.grantId
        || facts.grant.application != profile.application || facts.grant.account != account
        || facts.grant.device != offer.device || facts.grant.permissions != offer.permissions then Err(ReceiptRefused)
      else
        var installed := Installed(
          SLOT_VERSION, pending.flow, pending.rootGeneration, pending.carrier.relay, profile, profile,
          facts.grant, facts.grant.digest, facts.grantId, facts.grant.id, pending.application,
          offer.principal, offer.scope, account, offer.device, pending.profileDigest,
          pending.profileDigest, profile.authority, facts.issuer, facts.closure, offer.coreDigest,
          offer.kid, pending.carrier.ceremony, offer.requestId, facts.payloadHash, commitment,
          status, status.digest, status.facts.finalizedAt);
        if installed.Valid() then Ok(installed) else Err(CheckpointRefused)
  }

  /**
   A receipt is taken for a payload-prepared record exactly when everything it and the grant name is that
   record's.
   */
  predicate ReceiptFits(pending: Pending, profile: Profile, receipt: Object, commitment: Opaque) {
    && pending.Valid() && pending.rootGeneration != 0 && pending.stage.PayloadPrepared? && pending.offer.body.OfferBody?
    && profile.application == pending.application && profile.digest == pending.profileDigest
    && receipt.kind == Receipt && receipt.body.ReceiptBody?
    && var offer, stage, status := pending.offer.body.offer, pending.stage, receipt.body.status;
       && (exists key :: key in profile.keys && key.kid == offer.kid) && status.kid == offer.kid
       && status.facts.application == pending.application && status.facts.ceremony == pending.carrier.ceremony
       && status.facts.requestId == offer.requestId && status.facts.principal == offer.principal
       && status.facts.scope == offer.scope && status.facts.device == offer.device == stage.grant.device
       && status.facts.coreDigest == offer.coreDigest && status.facts.payloadDigest == stage.payloadHash
       && status.facts.grantId == stage.grantId && status.facts.issuer == pending.previewIssuer
       && status.facts.commitment == commitment && status.facts.finalizedAt != 0
       && stage.grant.application == pending.application && stage.grant.permissions == offer.permissions
       && stage.grant.account == Account(pending.previewIssuer, profile.authority)
  }

  /** The record installed: each of its values is the pending's, its carrier's, its offer's or the signed status's. */
  predicate Carries(link: Installed, pending: Pending, profile: Profile, receipt: Object, commitment: Opaque)
    requires pending.stage.PayloadPrepared? && pending.offer.body.OfferBody? && receipt.body.ReceiptBody?
  {
    var offer, stage, status := pending.offer.body.offer, pending.stage, receipt.body.status;
    && link.version == 1 && link.flow == pending.flow && link.rootGeneration == pending.rootGeneration
    && link.relay == pending.carrier.relay == pending.relay && link.ceremony == pending.carrier.ceremony
    && link.application == pending.application && link.profile == link.currentProfile == profile
    && link.profileDigest == link.currentProfileDigest == pending.profileDigest
    && link.authority == profile.authority && link.account == Account(pending.previewIssuer, profile.authority)
    && link.issuer == pending.previewIssuer && link.closure == stage.closure && link.grant == stage.grant
    && link.grantDigest == stage.grant.digest && link.grantId == stage.grantId && link.credentialId == stage.grant.id
    && link.payloadDigest == stage.payloadHash && link.principal == offer.principal && link.scope == offer.scope
    && link.device == offer.device && link.coreDigest == offer.coreDigest && link.offerKid == offer.kid
    && link.requestId == offer.requestId && link.commitment == commitment && link.status == status
    && link.statusDigest == status.digest && link.finalizedAt == status.facts.finalizedAt
  }

  lemma ReceiptInstallsExactlyWhen(pending: Pending, profile: Profile, receipt: Object, commitment: Opaque)
    ensures FromReceipt(pending, profile, receipt, commitment).Ok? <==>
      ReceiptFits(pending, profile, receipt, commitment)
    ensures FromReceipt(pending, profile, receipt, commitment).Ok? ==>
      var link := FromReceipt(pending, profile, receipt, commitment).value;
      link.Valid() && Carries(link, pending, profile, receipt, commitment)
  {}

  /** Value by value: an installed record is valid exactly when all that name the same thing name it alike. */
  lemma InstalledAgrees(link: Installed)
    ensures var facts, grant := link.status.facts, link.grant;
      link.Valid() <==>
      && link.version == 1 && link.rootGeneration != 0 && link.finalizedAt == facts.finalizedAt != 0
      && link.application == link.profile.application == link.currentProfile.application == grant.application
         == facts.application
      && link.authority == link.profile.authority == link.currentProfile.authority == link.account.authority
      && link.issuer == grant.issuer == facts.issuer == link.account.issuer == link.closure.did && link.closure.complete
      && link.account == grant.account && link.credentialId == grant.id && link.grantDigest == grant.digest
      && link.grantId == grant.token == facts.grantId && link.device == grant.device == facts.device
      && link.profileDigest == link.profile.digest && link.currentProfileDigest == link.currentProfile.digest
      && link.principal == facts.principal && link.scope == facts.scope && link.coreDigest == facts.coreDigest
      && link.ceremony == facts.ceremony && link.requestId == facts.requestId
      && link.payloadDigest == facts.payloadDigest && link.commitment == facts.commitment
      && link.statusDigest == link.status.digest && link.offerKid == link.status.kid
      && exists key :: key in link.profile.keys && key.kid == link.offerKid
  {
    assert link.status.facts == StatusFacts(
      link.status.facts.application, link.status.facts.ceremony, link.status.facts.requestId,
      link.status.facts.principal, link.status.facts.scope, link.status.facts.device, link.status.facts.coreDigest,
      link.status.facts.payloadDigest, link.status.facts.grantId, link.status.facts.issuer,
      link.status.facts.commitment, link.status.facts.finalizedAt);
  }

  /**
   The installed record built at the end of a chain carries exactly the values each stage fixed,
   and the hub's signed status names the same grant, issuer, payload, ceremony and device.
   */
  lemma InstalledCarriesChain(ps: seq<Pending>, ms: seq<Move>, profile: Profile, receipt: Object, commitment: Opaque)
    requires Chain(ps, ms) && FromReceipt(ps[|ms|], profile, receipt, commitment).Ok?
    ensures var link := FromReceipt(ps[|ms|], profile, receipt, commitment).value;
      && (forall i :: 0 <= i < |ps| ==>
            && (ps[i].stage.Rank() >= 1 ==> link.grantId == ps[i].stage.grantId)
            && (ps[i].stage.Rank() >= 2 ==> link.issuer == ps[i].stage.issuer && link.closure == ps[i].stage.closure)
            && (ps[i].stage.Rank() >= 3 ==> link.grant == ps[i].stage.grant)
            && (ps[i].stage.Rank() >= 4 ==> link.payloadDigest == ps[i].stage.payloadHash))
      && link.issuer == ps[0].previewIssuer && link.flow == ps[0].flow
      && link.rootGeneration == ps[0].rootGeneration && link.application == ps[0].application
      && link.ceremony == ps[0].carrier.ceremony
      && link.status.facts.grantId == link.grantId && link.status.facts.issuer == ps[0].previewIssuer
      && link.status.facts.payloadDigest == link.payloadDigest
         && link.status.facts.device == link.device == link.grant.device
  {
    var n := |ms|;
    forall i | 0 <= i < |ps|
      ensures Descends(ps[i], ps[n])
    {
      ChainOrdered(ps, ms, i, n);
    }
    assert Descends(ps[0], ps[n]);
    assert ps[n].Valid();
  }

  datatype Slot = PendingSlot(pending: Pending) | InstalledSlot(link: Installed)
  {
    function Application(): string {
      match this case PendingSlot(p) => p.application case InstalledSlot(l) => l.application
    }
    function Root(): Opaque {
      match this case PendingSlot(p) => p.rootGeneration case InstalledSlot(l) => l.rootGeneration
    }
    function Relay(): string {
      match this case PendingSlot(p) => p.relay case InstalledSlot(l) => l.relay
    }
    function FlowOf(): Flow {
      match this case PendingSlot(p) => p.flow case InstalledSlot(l) => l.flow
    }
    predicate Valid() {
      match this case PendingSlot(p) => p.Valid() case InstalledSlot(l) => l.Valid()
    }
  }

  predicate Siblings(a: Slot, b: Slot) {
    && a.Root() == b.Root()
    && !(a.PendingSlot? && b.PendingSlot?)
    && (a.InstalledSlot? && b.InstalledSlot? ==> a.link.ceremony != b.link.ceremony && a.link.device != b.link.device)
  }

  predicate Admitted(app: string, slots: seq<Slot>) {
    && (forall i :: 0 <= i < |slots| ==> slots[i].Application() == app && slots[i].Valid())
    && (forall i, j :: 0 <= i < j < |slots| ==> Siblings(slots[i], slots[j]))
  }

  /** What `validate_slots` admits. */
  predicate ValidSlots(app: string, slots: seq<Slot>) {
    |slots| <= MAX_APPLICATION_LINKS && Admitted(app, slots)
  }

  /** An admitted list, spelled out: at most sixteen of one root, one pending, each ceremony and device once. */
  lemma ValidSlotsMeans(app: string, slots: seq<Slot>)
    ensures ValidSlots(app, slots) <==>
      && |slots| <= 16
      && (forall i :: 0 <= i < |slots| ==>
            match slots[i]
            case PendingSlot(p) => p.application == app && p.Valid()
            case InstalledSlot(link) => link.application == app && link.Valid())
      && (forall i, j :: 0 <= i < j < |slots| ==>
            match (slots[i], slots[j])
            case (PendingSlot(_), PendingSlot(_)) => false
            case (PendingSlot(p), InstalledSlot(link)) => p.rootGeneration == link.rootGeneration
            case (InstalledSlot(link), PendingSlot(p)) => p.rootGeneration == link.rootGeneration
            case (InstalledSlot(a), InstalledSlot(b)) =>
              a.rootGeneration == b.rootGeneration && a.ceremony != b.ceremony && a.device != b.device)
  {}

  /** What the scan remembers of the slots behind it. */
  datatype Seen = Seen(pending: bool, ceremonies: set<Opaque>, devices: set<Opaque>, root: Option<Opaque>)
  {
    predicate Clashes(slot: Slot) {
      || (root.Some? && root.value != slot.Root())
      || (slot.PendingSlot? && pending)
      || (slot.InstalledSlot? && (slot.link.ceremony in ceremonies || slot.link.device in devices))
    }

    function Remember(slot: Slot): Seen {
      match slot
      case PendingSlot(_) => this.(pending := true, root := Some(slot.Root()))
      case InstalledSlot(link) =>
        this.(ceremonies := ceremonies + {link.ceremony}, devices := devices + {link.device}, root := Some(slot.Root()))
    }

    ghost predicate Of(slots: seq<Slot>) {
      && (pending <==> exists i :: 0 <= i < |slots| && slots[i].PendingSlot?)
      && (forall c :: c in ceremonies <==> exists i ::
          && 0 <= i < |slots| && slots[i].InstalledSlot?
          && slots[i].link.ceremony == c)
      && (forall c :: c in devices <==> exists i ::
          && 0 <= i < |slots| && slots[i].InstalledSlot?
          && slots[i].link.device == c)
      && root == (if slots == [] then None else Some(slots[0].Root()))
    }
  }

  /** A slot the memory does not clash with is a sibling of everything behind it, and conversely. */
  lemma ClashMeansNoSibling(seen: Seen, slots: seq<Slot>, slot: Slot)
    requires seen.Of(slots) && forall i, j :: 0 <= i < j < |slots| ==> Siblings(slots[i], slots[j])
    ensures seen.Clashes(slot) <==> exists i :: 0 <= i < |slots| && !Siblings(slots[i], slot)
  {
    if slots != [] {
      forall i | 0 <= i < |slots|
        ensures slots[i].Root() == slots[0].Root()
      {
        if i > 0 { assert Siblings(slots[0], slots[i]); }
      }
      if seen.root.value != slot.Root() { assert !Siblings(slots[0], slot); }
    }
  }

  lemma RememberKeeps(seen: Seen, slots: seq<Slot>, slot: Slot)
    requires seen.Of(slots) && !seen.Clashes(slot)
    ensures seen.Remember(slot).Of(slots + [slot])
  {
    var all := slots + [slot];
    assert forall i :: 0 <= i < |slots| ==> all[i] == slots[i];
    assert all[|slots|] == slot;
  }

  lemma AdmittedStep(app: string, behind: seq<Slot>, slot: Slot)
    ensures Admitted(app, behind + [slot]) <==>
            && Admitted(app, behind) && slot.Application() == app && slot.Valid()
            && (forall i :: 0 <= i < |behind| ==> Siblings(behind[i], slot))
  {
    var now := behind + [slot];
    assert now[|behind|] == slot;
    assert forall i :: 0 <= i < |behind| ==> behind[i] == now[i];
    if Admitted(app, now) {
      forall i | 0 <= i < |behind| ensures Siblings(behind[i], slot) { assert Siblings(now[i], now[|behind|]); }
    }
  }

  /** One iteration of the scan of `validate_slots`. */
  method ScanSlot(app: string, ghost behind: seq<Slot>, slot: Slot, seen: Seen) returns (r: Result<Seen>)
    requires Scanned(app, behind, seen)
    ensures if r.Ok? then Scanned(app, behind + [slot], r.value) else !Admitted(app, behind + [slot])
    ensures r.Err? ==> r.error in {CheckpointRefused, ApplicationAlreadyLinked}
  {
    AdmittedStep(app, behind, slot);
    ClashMeansNoSibling(seen, behind, slot);
    if slot.Application() != app || !slot.Valid() { return Err(CheckpointRefused); }
    if seen.Clashes(slot) {
      return Err(if slot.PendingSlot? && seen.pending then ApplicationAlreadyLinked else CheckpointRefused);
    }
    RememberKeeps(seen, behind, slot);
    return Ok(seen.Remember(slot));
  }

  /** What has been scanned is admitted, and `seen` remembers it. */
  ghost predicate Scanned(app: string, behind: seq<Slot>, seen: Seen) {
    Admitted(app, behind) && seen.Of(behind)
  }

  lemma NothingScanned(app: string, slots: seq<Slot>)
    ensures Scanned(app, slots[..0], Seen(false, {}, {}, None))
  {}

  /** A refused prefix refuses the list. */
  lemma RefusedPrefix(app: string, slots: seq<Slot>, k: nat)
    requires k < |slots| && !Admitted(app, slots[..k] + [slots[k]])
    ensures !ValidSlots(app, slots)
  {
    var behind := slots[..k] + [slots[k]];
    assert forall i :: 0 <= i < |behind| ==> behind[i] == slots[i];
  }

  lemma AllScanned(app: string, slots: seq<Slot>, seen: Seen)
    requires |slots| <= MAX_APPLICATION_LINKS && Scanned(app, slots[..|slots|], seen)
    ensures ValidSlots(app, slots)
  {
    assert slots[..|slots|] == slots;
  }

  /** The scan of `validate_slots`: one pass, remembering the pending seen, the identifiers and the root. */
  method ValidateSlots(app: string, slots: seq<Slot>) returns (r: Result<()>)
    ensures r.Ok? <==> ValidSlots(app, slots)
    ensures r.Err? ==> r.error in {CheckpointRefused, ApplicationAlreadyLinked}
  {
    if |slots| > MAX_APPLICATION_LINKS { return Err(CheckpointRefused); }
    var seen := Seen(false, {}, {}, None);
    NothingScanned(app, slots);
    for k := 0 to |slots|
      invariant Scanned(app, slots[..k], seen)
    {
      assert slots[..k + 1] == slots[..k] + [slots[k]];
      var step := ScanSlot(app, slots[..k], slots[k], seen);
      if step.Err? {
        RefusedPrefix(app, slots, k);
        return Err(step.error);
      }
      seen := step.value;
    }
    AllScanned(app, slots, seen);
    return Ok(());
  }

  // ---- the stored text ----

  /** `Foreign` is any text no record or bundle of ours encodes to. */
  datatype SlotText = Single(slot: Slot) | Bundle(version: nat, links: seq<Slot>) | Foreign

  function Recognise(app: string, text: Option<SlotText>): Result<seq<Slot>> {
    match text
    case None => Ok([])
    case Some(Single(slot)) =>
      if slot.Valid() && slot.Application() == app then Ok([slot]) else Err(CheckpointRefused)
    case Some(Bundle(version, links)) =>
      if version == 2 && |links| >= 2 && ValidSlots(app, links) then Ok(links) else Err(CheckpointRefused)
    case Some(Foreign) => Err(CheckpointRefused)
  }

  function Canonical(slots: seq<Slot>): Option<SlotText> {
    if slots == [] then None
    else if |slots| == 1 then Some(Single(slots[0]))
    else Some(Bundle(2, slots))
  }

  /** Reading and writing are inverse: every admitted list has one text, and every recognised text one list. */
  lemma TextRoundTrip(app: string, slots: seq<Slot>, text: Option<SlotText>)
    ensures ValidSlots(app, slots) ==> Recognise(app, Canonical(slots)) == Ok(slots)
    ensures Recognise(app, text) == Ok(slots) ==> text == Canonical(slots) && ValidSlots(app, slots)
    ensures Canonical(slots) == (match |slots| case 0 => None case 1 => Some(Single(slots[0]))
                                 case _ => Some(Bundle(2, slots)))
  {
    if |slots| == 1 { assert slots == [slots[0]]; }
  }
}
