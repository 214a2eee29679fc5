/**
 Re-establishing an installed capability. Every fact is observed afresh; the record may adopt a
 refreshed profile and nothing else, and a capability is reported only when every fact agrees.
 */
module Reload {
  import opened Prelude
  import opened Records
  import opened Links
  import opened LinkSpec
  import opened LinkStore
  import opened StoreRuns

  datatype Observation =
    | Verified(root: Opaque, application: string, account: Account, authority: string, issuer: Opaque,
               digest: Opaque, offerKeyRetained: bool, grantMatches: bool, revoked: bool)
    | Unreachable
    | Deleted

  datatype Verdict =
    | Usable | ProfileRefresh | AuthorityRotation | IssuerRotation | Unavailable | Revoked
    | HandleChanged | HubDeleted | FreshPairingRequired

  /** `classify_reload`, its tests in their order. */
  function Classify(link: Installed, o: Observation): Verdict {
    match o
    case Unreachable => Unavailable
    case Deleted => HubDeleted
    case Verified(root, application, account, authority, issuer, digest, offerKeyRetained, grantMatches, revoked) =>
      if root != link.rootGeneration || application != link.application then FreshPairingRequired
      else if account != link.account then HandleChanged
      else if authority != link.authority || !offerKeyRetained then AuthorityRotation
      else if issuer != link.issuer then IssuerRotation
      else if revoked || !grantMatches then Revoked
      else if digest != link.currentProfileDigest then ProfileRefresh
      else Usable
  }

  predicate Capable(v: Verdict) { v == Usable || v == ProfileRefresh }

  function OfferKeyRetained(link: Installed, current: Profile): Result<bool> {
    var retained := KeyOf(link.profile, link.offerKid);
    if retained.None? then Err(CheckpointRefused) else Ok(retained.value in current.keys)
  }

  datatype Check = Check(verdict: Verdict, replacement: Option<Installed>)

  /** `verify_reload`: a refreshed profile is adopted only under the same authority, digest and offer key. */
  function VerifyReload(link: Installed, o: Observation, current: Option<Profile>): Result<Check> {
    if !link.Valid() then Err(CheckpointRefused)
    else
      var verdict := Classify(link, o);
      if verdict != ProfileRefresh then Ok(Check(verdict, None))
      else if current.None? then Err(ProfileUnavailable)
      else
        var profile := current.value;
        var retained := OfferKeyRetained(link, profile);
        if profile.application != link.application || profile.authority != link.authority
          || profile.digest != o.digest then Err(ProfileUnavailable)
        else if retained.Err? then Err(retained.error)
        else if !retained.value then Err(ProfileUnavailable)
        else
          var next := link.(currentProfile := profile, currentProfileDigest := o.digest);
          if next.Valid() then Ok(Check(verdict, Some(next))) else Err(CheckpointRefused)
  }

  /** The record a refresh leaves is the same capability, and the same observation finds it usable as it stands. */
  lemma RefreshSettles(link: Installed, o: Observation, current: Option<Profile>, later: Option<Profile>)
    requires VerifyReload(link, o, current).Ok? && VerifyReload(link, o, current).value.replacement.Some?
    ensures var next := VerifyReload(link, o, current).value.replacement.value;
      && next.Valid() && SameButProfile(link, next) && current == Some(next.currentProfile)
      && VerifyReload(next, o, later) == Ok(Check(Usable, None))
  {}

  // ---- the command ----

  datatype Alias = Did(did: Opaque) | OtherAlias

  /** What WebFinger answered about the account. */
  datatype Binding = Gone | NoBinding | InvalidBinding | Bound(subject: Account, aliases: seq<Alias>)

  datatype Rehydrated = Rehydrated(did: Opaque, credential: Opaque, device: Opaque)

  /** What the resolver quorum agreed on. */
  datatype Quorum = NoQuorum | Disagreed | Agreed(revoked: set<Opaque>, reciprocal: bool, grant: Option<Rehydrated>)

  datatype Seen = Seen(root: Opaque, account: Account, profile: Option<Profile>, binding: Binding, quorum: Quorum)

  datatype View = View(verdict: Verdict, capability: bool, retained: bool)

  function ViewOf(verdict: Verdict, approve: bool): View {
    if approve && (verdict == AuthorityRotation || verdict == IssuerRotation) then
      View(FreshPairingRequired, false, true)
    else View(verdict, Capable(verdict), true)
  }

  /** Root and account are the link's own and the profile could be read. */
  predicate Known(link: Installed, seen: Seen) {
    seen.root == link.rootGeneration && seen.account == link.account && seen.profile.Some?
  }

  /** The profile names the link's authority and lists, unchanged, the key its offer was signed under. */
  ghost predicate Anchored(link: Installed, seen: Seen) {
    && Known(link, seen) && seen.profile.value.authority == link.authority
    && forall i: nat :: FirstKey(link.profile.keys, i, link.offerKid) ==>
         link.profile.keys[i] in seen.profile.value.keys
  }

  /** The account is bound and names the link's issuer. */
  predicate Named(link: Installed, seen: Seen) {
    seen.binding.Bound? && seen.binding.subject == seen.account && Did(link.issuer) in seen.binding.aliases
  }

  /** The account is bound and names another issuer instead. */
  predicate Renamed(link: Installed, seen: Seen) {
    && seen.binding.Bound? && seen.binding.subject == seen.account && Did(link.issuer) !in seen.binding.aliases
    && exists i :: 0 <= i < |seen.binding.aliases| && seen.binding.aliases[i].Did?
  }

  predicate QuorumAgrees(link: Installed, seen: Seen) {
    && seen.quorum.Agreed? && seen.quorum.reciprocal && link.credentialId !in seen.quorum.revoked
    && seen.quorum.grant == Some(Rehydrated(link.issuer, link.credentialId, link.device))
  }

  /** Everything that must hold of what was seen for the link to be a capability. */
  ghost predicate AllAgree(link: Installed, seen: Seen) {
    && Anchored(link, seen) && seen.profile.value.application == link.application
    && Named(link, seen) && QuorumAgrees(link, seen)
  }

  /** What each verdict says of what was seen. A rotation once approved asks for a fresh pairing. */
  ghost predicate Says(v: Verdict, link: Installed, seen: Seen, approve: bool) {
    var same := seen.profile.Some? && seen.profile.value.application == link.application;
    match v
    case Usable => AllAgree(link, seen) && seen.profile.value.digest == link.currentProfileDigest
    case ProfileRefresh => AllAgree(link, seen) && seen.profile.value.digest != link.currentProfileDigest
    case HandleChanged => seen.root == link.rootGeneration && seen.account != link.account
    case AuthorityRotation => Known(link, seen) && !Anchored(link, seen) && !approve
    case HubDeleted => Anchored(link, seen) && seen.binding.Gone?
    case IssuerRotation => Anchored(link, seen) && same && Renamed(link, seen) && !approve
    case Revoked =>
      && Anchored(link, seen) && same && !Renamed(link, seen)
      && (seen.binding.InvalidBinding?
          || (seen.binding.Bound? && !Named(link, seen))
          || (Named(link, seen) && seen.quorum.Agreed? && !QuorumAgrees(link, seen)))
    case Unavailable =>
      && seen.root == link.rootGeneration && seen.account == link.account
      && (seen.profile.None?
          || (Anchored(link, seen) && (seen.binding.NoBinding? || (Named(link, seen) && seen.quorum.NoQuorum?))))
    case FreshPairingRequired =>
      || seen.root != link.rootGeneration
      || (approve && Known(link, seen) && !Anchored(link, seen))
      || (approve && Anchored(link, seen) && Renamed(link, seen))
      || (Anchored(link, seen) && !same
          && (seen.binding.InvalidBinding?
              || (seen.binding.Bound? && (Named(link, seen) ==> seen.quorum.Agreed?))))
  }

  /** No two verdicts say it of the same link and observation, so the verdict is the observation's own. */
  lemma OneVerdict(v: Verdict, w: Verdict, link: Installed, seen: Seen, approve: bool)
    requires Says(v, link, seen, approve) && Says(w, link, seen, approve)
    ensures v == w
  {}

  /** The first other DID the account now names. */
  function OtherDid(aliases: seq<Alias>, issuer: Opaque): Option<Opaque> {
    if aliases == [] then None
    else if aliases[0].Did? && aliases[0].did != issuer then Some(aliases[0].did)
    else OtherDid(aliases[1..], issuer)
  }

  lemma {:induction false} OtherDidDiffers(aliases: seq<Alias>, issuer: Opaque)
    ensures OtherDid(aliases, issuer).Some? ==>
      && OtherDid(aliases, issuer).value != issuer
      && Did(OtherDid(aliases, issuer).value) in aliases
    ensures OtherDid(aliases, issuer).None? ==>
      forall i :: 0 <= i < |aliases| && aliases[i].Did? ==> aliases[i].did == issuer
  {
    if aliases != [] { OtherDidDiffers(aliases[1..], issuer); }
  }

  lemma InstalledIsValid(d: Disk, app: string)
    requires InstalledOf(d, app).Ok?
    ensures InstalledOf(d, app).value.Valid() && InstalledOf(d, app).value.application == app
  {
    var slots := ReadSlots(d, app).value;
    TextRoundTrip(app, slots, Entry(d, app));
    LastIsMember(slots);
  }

  /**
   `cbcl_v2_reload_verify` behind its load. `link` is what that load returned; the awaits in between
   belong to anyone, so nothing is assumed of the store the one re-pin then finds.
   */
  method ReloadVerify(store: LinkStore, link: Installed, seen: Seen, approve: bool) returns (r: Result<View>)
    requires link.Valid()
    modifies store`links, store`index
    ensures r.Ok? ==> r.value.retained && (r.value.capability <==> AllAgree(link, seen))
    ensures r.Ok? ==> Says(r.value.verdict, link, seen, approve)
    ensures r == Err(ForeignFailure) <==> Anchored(link, seen) && Named(link, seen) && seen.quorum.Disagreed?
    ensures r.Err? && r.error != ForeignFailure ==>
      && AllAgree(link, seen) && seen.profile.value.digest != link.currentProfileDigest
      && var profile := seen.profile.value;
         ReplaceInstalled(old(store.View()), store.View(), link,
                          link.(currentProfile := profile, currentProfileDigest := profile.digest), Err(r.error))
    ensures store.View() != old(store.View()) ==>
      AllAgree(link, seen) && var profile := seen.profile.value;
      exists w :: ReplaceInstalled(old(store.View()), store.View(), link,
                                   link.(currentProfile := profile, currentProfileDigest := profile.digest), w)
    ensures r.Ok? && r.value.verdict == ProfileRefresh ==>
      AllAgree(link, seen) && var profile := seen.profile.value;
      ReplaceInstalled(old(store.View()), store.View(), link,
                       link.(currentProfile := profile, currentProfileDigest := profile.digest), Ok(()))
  {
    if link.rootGeneration != seen.root { return Ok(ViewOf(FreshPairingRequired, approve)); }
    if seen.account != link.account { return Ok(ViewOf(HandleChanged, approve)); }
    if seen.profile.None? { return Ok(ViewOf(Unavailable, approve)); }
    var current := seen.profile.value;
    KeyIsFirst(link.profile.keys, link.offerKid);
    var retained := OfferKeyRetained(link, current);
    if retained.Err? { return Err(CheckpointRefused); }
    if current.authority != link.authority || !retained.value { return Ok(ViewOf(AuthorityRotation, approve)); }
    var issuer, matches, revoked := link.issuer, false, true;
    match seen.binding {
      case Gone => return Ok(ViewOf(HubDeleted, approve));
      case NoBinding => return Ok(ViewOf(Unavailable, approve));
      case InvalidBinding =>
      case Bound(subject, aliases) =>
        if subject == seen.account {
          if Did(link.issuer) !in aliases {
            var rotated := OtherDid(aliases, link.issuer);
            OtherDidDiffers(aliases, link.issuer);
            if rotated.Some? { issuer, revoked := rotated.value, false; }
          } else {
            match seen.quorum {
              case NoQuorum => return Ok(ViewOf(Unavailable, approve));
              case Disagreed => return Err(ForeignFailure);
              case Agreed(ids, reciprocal, grant) =>
                var gone := link.credentialId in ids;
                matches := reciprocal && !gone
                  && grant == Some(Rehydrated(link.issuer, link.credentialId, link.device));
                revoked := gone || !reciprocal;
            }
          }
        }
    }
    var o := Verified(seen.root, current.application, seen.account, current.authority, issuer, current.digest,
                      retained.value, matches, revoked);
    var verdict := Adopt(store, link, o, current);
    if verdict.Err? { return Err(verdict.error); }
    return Ok(ViewOf(verdict.value, approve));
  }

  /** The end of it: everything observed is classified, and a refreshed profile adopted before it is reported. */
  method Adopt(store: LinkStore, link: Installed, o: Observation, current: Profile) returns (r: Result<Verdict>)
    requires link.Valid() && o.Verified? && OfferKeyRetained(link, current) == Ok(o.offerKeyRetained)
    requires o.application == current.application && o.authority == current.authority && o.digest == current.digest
    modifies store`links, store`index
    ensures r.Ok? ==> r.value == Classify(link, o)
    ensures if Classify(link, o) != ProfileRefresh then r.Ok? && store.View() == old(store.View())
      else ReplaceInstalled(old(store.View()), store.View(), link,
                            link.(currentProfile := current, currentProfileDigest := current.digest),
                            if r.Ok? then Ok(()) else Err(r.error))
    ensures r.Err? ==> r.error in {CheckpointRefused, CheckpointUnavailable, ApplicationAlreadyLinked}
  {
    var check := VerifyReload(link, o, Some(current));
    if check.Err? { return Err(CheckpointRefused); }
    if check.value.replacement.Some? {
      var written := store.RepinInstalled(link, check.value.replacement.value);
      if written.Err? { return Err(written.error); }
    }
    return Ok(check.value.verdict);
  }

  /**
   `cbcl_v2_reload_verify` with its load: the capability reported is agreement of everything observed with
   the device that was newest when it began.
   */
  method ReloadNewest(store: LinkStore, app: string, seen: Seen, approve: bool)
    returns (r: Result<View>, ghost found: Disk)
    modifies store`links, store`index, store`others
    ensures old(store.others) <= store.others && Reached(old(store.View()), found, store.others[|old(store.others)|..])
    ensures r.Ok? ==>
      && InstalledOf(old(store.View()), app).Ok? && InstalledOf(old(store.View()), app).value.application == app
      && (r.value.capability <==> AllAgree(InstalledOf(old(store.View()), app).value, seen))
      && Says(r.value.verdict, InstalledOf(old(store.View()), app).value, seen, approve)
    ensures store.View() != found ==>
      && InstalledOf(old(store.View()), app).Ok? && AllAgree(InstalledOf(old(store.View()), app).value, seen)
      && exists next, w :: ReplaceInstalled(found, store.View(), InstalledOf(old(store.View()), app).value, next, w)
  {
    found := store.View();
    var loaded := store.LoadInstalled(app);
    if loaded.Err? {
      assert store.others[|old(store.others)|..] == [];
      return Err(loaded.error), found;
    }
    InstalledIsValid(store.View(), app);
    store.Elsewhere();
    found := store.View();
    r := ReloadVerify(store, loaded.value, seen, approve);
  }

  // ---- runs of reloads ----

  predicate SameSlot(a: Slot, b: Slot) {
    a == b || (a.InstalledSlot? && b.InstalledSlot? && SameButProfile(a.link, b.link))
  }

  /** Slot by slot the same records, up to the profile an installed link currently pins. */
  predicate SameLinks(d: Disk, d': Disk, app: string) {
    var a, b := ReadSlots(d, app), ReadSlots(d', app);
    a.Ok? && b.Ok? && |a.value| == |b.value| && forall i :: 0 <= i < |a.value| ==> SameSlot(a.value[i], b.value[i])
  }

  lemma RepinKeeps(d: Disk, d': Disk, e: Installed, n: Installed, r: Result<()>, app: string)
    requires Sound(d) && ReplaceInstalled(d, d', e, n, r)
    ensures SameLinks(d, d', app)
  {
    assert Listed(d, app);
    if d' != d {
      var slots := ReadSlots(d, e.application).value;
      var k := FirstEqual(slots, InstalledSlot(e));
      var next := slots[k := InstalledSlot(n)];
      WriteEffect(d, d', e.application, next, r);
      if d'.links != d.links { GoalReads(d, d', e.application, next); }
    }
  }

  /**
   Over any run of re-pins, whoever holds whatever expected and replacement records, stale ones included,
   only the current profile of an installed record can change.
   */
  lemma {:induction false} RepinsKeepLinks(ds: seq<Disk>, expected: seq<Installed>, next: seq<Installed>,
                                           rs: seq<Result<()>>, app: string)
    requires |ds| == |expected| + 1 && |next| == |rs| == |expected| && Sound(ds[0])
    requires forall i :: 0 <= i < |expected| ==> ReplaceInstalled(ds[i], ds[i + 1], expected[i], next[i], rs[i])
    ensures Sound(ds[|expected|]) && SameLinks(ds[0], ds[|expected|], app)
    decreases |expected|
  {
    assert Listed(ds[0], app);
    if expected != [] {
      var n := |expected| - 1;
      RepinsKeepLinks(ds[..n + 1], expected[..n], next[..n], rs[..n], app);
      assert ReplaceInstalled(ds[n], ds[n + 1], expected[n], next[n], rs[n]);
      StepKeepsSound(ds[n], ds[n + 1], OpReplaceInstalled(expected[n], next[n]), rs[n]);
      RepinKeeps(ds[n], ds[n + 1], expected[n], next[n], rs[n], app);
    }
  }
}
