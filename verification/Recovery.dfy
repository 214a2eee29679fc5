/**
 After the payload: the durable record is settled by an authenticated receipt, live or recovered, or
 withdrawn on a verified negative status. Any number of commands may try, each may fail before or
 after its write commits, and each holds whatever copy of the record it loaded earlier.
 */
module Recovery {
  import opened Prelude
  import opened Records
  import opened Links
  import opened LinkSpec
  import opened LinkStore
  import opened StoreRuns
  import opened Transaction

  /** The same durable payload with a later sealed checkpoint. */
  predicate UpToCheckpoint(p: Pending, q: Pending) {
    q == p.(generation := q.generation, checkpoint := q.checkpoint) && p.generation <= q.generation
  }

  datatype Outcome = Waiting(pending: Pending) | Settled(link: Installed) | Withdrawn

  function Tail(o: Outcome): seq<Slot> {
    match o
    case Waiting(p) => [PendingSlot(p)]
    case Settled(link) => [InstalledSlot(link)]
    case Withdrawn => []
  }

  predicate AllInstalled(slots: seq<Slot>) {
    forall i :: 0 <= i < |slots| ==> slots[i].InstalledSlot?
  }

  /**
   The application holds `base`'s slots and then the outcome, in the pending record's own position; all else is
   `base`.
   */
  ghost predicate Stands(base: Disk, d: Disk, app: string, o: Outcome) {
    var slots := SlotsOf(base, app) + Tail(o);
    && Sound(base) && Sound(d) && AllInstalled(SlotsOf(base, app))
    && ReadSlots(d, app) == Ok(slots) && d.links == WithEntry(base, app, Canonical(slots)).links
    && (o.Waiting? ==> o.pending.application == app)
  }

  /** One attempt on the record by a command holding `expected`. */
  datatype Try =
    | Acknowledge(expected: Pending, generation: nat, checkpoint: seq<Opaque>)
    | Accept(expected: Pending, profile: Profile, receipt: Object, commitment: Opaque, bound: bool)
    | Withdraw(expected: Pending)

  predicate Tried(d: Disk, d': Disk, t: Try, r: Result<()>) {
    match t
    case Acknowledge(e, g, c) =>
      (match e.WithCheckpoint(g, c) case Err(x) => d' == d && r == Err(x) case Ok(next) => Replace(d, d', e, next, r))
    case Accept(e, profile, receipt, commitment, bound) =>
      (match FromReceipt(e, profile, receipt, commitment)
       case Err(x) => d' == d && r == Err(x)
       case Ok(link) => Install(d, d', e, link, bound, r))
    case Withdraw(e) => RemovePending(d, d', e, r)
  }

  /** The only moves an attempt can make of an outcome. */
  predicate Moves(o: Outcome, o': Outcome, t: Try) {
    || o' == o
    || (o.Waiting? && o.pending == t.expected && match t
        case Acknowledge(e, g, c) => o'.Waiting? && e.WithCheckpoint(g, c) == Ok(o'.pending)
        case Accept(e, profile, receipt, commitment, _) => o'.Settled?
          && FromReceipt(e, profile, receipt, commitment) == Ok(o'.link)
        case Withdraw(_) => o' == Withdrawn)
  }

  /** A store that holds the payload after the slots of `base` stands waiting. */
  lemma ExtendedStands(base: Disk, d: Disk, p: Pending)
    requires Extends(base, d, p)
    ensures Stands(base, d, p.application, Waiting(p))
  {
    ExtendsShape(base, d, p);
  }

  /** An exact search over the slots finds the waiting record last, and nothing once it is settled. */
  lemma FoundLast(slots: seq<Slot>, o: Outcome, e: Pending)
    requires AllInstalled(slots)
    ensures o == Waiting(e) ==> FirstEqual(slots + Tail(o), PendingSlot(e)) == |slots|
    ensures o != Waiting(e) ==> FirstEqual(slots + Tail(o), PendingSlot(e)) == |slots + Tail(o)|
    ensures forall next :: o == Waiting(e) ==> (slots + Tail(o))[|slots| := next] == slots + [next]
    ensures o == Waiting(e) ==> Removed(slots + Tail(o), |slots|) == slots + Tail(Withdrawn)
  {
    var all := slots + Tail(o);
    assert forall i :: 0 <= i < |slots| ==> all[i] == slots[i];
    if o == Waiting(e) { assert all[|slots|] == PendingSlot(e); }
  }

  /** Writing an entry over `base` plus an outcome is writing it over `base`. */
  lemma OverwrittenLinks(base: Disk, d: Disk, app: string, o: Outcome, text: Option<SlotText>)
    requires Stands(base, d, app, o)
    ensures WithEntry(d, app, text).links == WithEntry(base, app, text).links
  {
    var own := Canonical(SlotsOf(base, app) + Tail(o));
    assert d.links == WithEntry(base, app, own).links;
    if text.None? { assert d.links - {app} == base.links - {app}; }
    else { assert d.links[app := text.value] == base.links[app := text.value]; }
  }

  lemma WrittenStands(base: Disk, d: Disk, d': Disk, app: string, o: Outcome, o': Outcome)
    requires Stands(base, d, app, o) && Sound(d')
    requires var next := SlotsOf(base, app) + Tail(o');
      ValidSlots(app, next) && d'.links == WithEntry(d, app, Canonical(next)).links
    requires o'.Waiting? ==> o'.pending.application == app
    ensures Stands(base, d', app, o')
  {
    var next := SlotsOf(base, app) + Tail(o');
    GoalReads(d, d', app, next);
    OverwrittenLinks(base, d, app, o, Canonical(next));
  }

  lemma SameLinksStand(base: Disk, d: Disk, d': Disk, app: string, o: Outcome)
    requires Stands(base, d, app, o) && Sound(d') && d'.links == d.links
    ensures Stands(base, d', app, o)
  {}

  lemma AcknowledgeStands(base: Disk, d: Disk, d': Disk, app: string, o: Outcome, e: Pending, next: Pending,
                          r: Result<()>) returns (o': Outcome)
    requires Stands(base, d, app, o) && Replace(d, d', e, next, r) && e.application == app
    ensures Stands(base, d', app, o') && (o' == o || (o == Waiting(e) && o' == Waiting(next)))
      && (r.Ok? ==> o' == Waiting(next))
  {
    o' := o;
    FoundLast(SlotsOf(base, app), o, e);
    if o == Waiting(e) && (d' != d || r.Ok?) {
      StepKeepsSound(d, d', OpReplace(e, next), r);
      WriteEffect(d, d', app, SlotsOf(base, app) + Tail(Waiting(next)), r);
      if r.Ok? || d'.links != d.links { WrittenStands(base, d, d', app, o, Waiting(next)); o' := Waiting(next); }
      else { SameLinksStand(base, d, d', app, o); }
    }
  }

  lemma AcceptStands(base: Disk, d: Disk, d': Disk, app: string, o: Outcome, e: Pending, link: Installed, bound: bool,
                     r: Result<()>) returns (o': Outcome)
    requires Stands(base, d, app, o) && Install(d, d', e, link, bound, r) && e.application == app
    ensures Stands(base, d', app, o') && (o' == o || (o == Waiting(e) && o' == Settled(link)))
    ensures r.Ok? && o == Waiting(e) ==> o' == Settled(link)
  {
    o' := o;
    FoundLast(SlotsOf(base, app), o, e);
    if o == Waiting(e) && (d' != d || r.Ok?) {
      StepKeepsSound(d, d', OpInstall(e, link, bound), r);
      WriteEffect(d, d', app, SlotsOf(base, app) + Tail(Settled(link)), r);
      if r.Ok? || d'.links != d.links { WrittenStands(base, d, d', app, o, Settled(link)); o' := Settled(link); }
      else { SameLinksStand(base, d, d', app, o); }
    }
  }

  lemma WithdrawStands(base: Disk, d: Disk, d': Disk, app: string, o: Outcome, e: Pending, r: Result<()>)
    returns (o': Outcome)
    requires Stands(base, d, app, o) && RemovePending(d, d', e, r) && e.application == app
    ensures Stands(base, d', app, o') && (o' == o || (o == Waiting(e) && o' == Withdrawn))
      && (r.Ok? ==> o' == Withdrawn)
  {
    o' := o;
    FoundLast(SlotsOf(base, app), o, e);
    if o == Waiting(e) && (d' != d || r.Ok?) {
      StepKeepsSound(d, d', OpRemove(e), r);
      WriteEffect(d, d', app, SlotsOf(base, app) + Tail(Withdrawn), r);
      if r.Ok? || d'.links != d.links { WrittenStands(base, d, d', app, o, Withdrawn); o' := Withdrawn; }
      else { SameLinksStand(base, d, d', app, o); }
    }
  }

  /** An attempt leaves the outcome standing or makes the one move it stands for. */
  lemma TriedStands(base: Disk, d: Disk, d': Disk, app: string, o: Outcome, t: Try, r: Result<()>) returns (o': Outcome)
    requires Stands(base, d, app, o) && Tried(d, d', t, r) && t.expected.application == app
    ensures Stands(base, d', app, o') && Moves(o, o', t)
  {
    o' := o;
    match t
    case Acknowledge(e, g, c) =>
      if e.WithCheckpoint(g, c).Ok? {
        o' := AcknowledgeStands(base, d, d', app, o, e, e.WithCheckpoint(g, c).value, r);
      }
    case Accept(e, profile, receipt, commitment, bound) =>
      var link := FromReceipt(e, profile, receipt, commitment);
      if link.Ok? { o' := AcceptStands(base, d, d', app, o, e, link.value, bound, r); }
    case Withdraw(e) => o' := WithdrawStands(base, d, d', app, o, e, r);
  }

  // ---- runs of attempts ----

  /** A run of attempts on the payload `p`, from a store where it waits. */
  ghost predicate Attempted(base: Disk, p: Pending, ds: seq<Disk>, ts: seq<Try>, rs: seq<Result<()>>)
    decreases |ts|
  {
    && |ds| == |ts| + 1 && |rs| == |ts| && p.stage.PayloadPrepared? && p.Valid()
    && if ts == [] then Stands(base, ds[0], p.application, Waiting(p))
       else
         var n := |ts| - 1;
         && Attempted(base, p, ds[..n + 1], ts[..n], rs[..n])
         && ts[n].expected.application == p.application && Tried(ds[n], ds[n + 1], ts[n], rs[n])
  }

  /** The installed record does not depend on the sealed checkpoint it was built under. */
  lemma ReceiptIgnoresCheckpoint(p: Pending, q: Pending, profile: Profile, receipt: Object, commitment: Opaque)
    requires UpToCheckpoint(p, q) && FromReceipt(q, profile, receipt, commitment).Ok? && p.Valid()
    ensures FromReceipt(p, profile, receipt, commitment) == FromReceipt(q, profile, receipt, commitment)
  {}

  /** The outcomes a run of attempts can explain. */
  predicate Explained(p: Pending, ts: seq<Try>, o: Outcome) {
    match o
    case Waiting(q) => UpToCheckpoint(p, q)
    case Settled(link) =>
      exists i :: 0 <= i < |ts| && ts[i].Accept?
        && FromReceipt(p, ts[i].profile, ts[i].receipt, ts[i].commitment) == Ok(link)
    case Withdrawn => exists i :: 0 <= i < |ts| && ts[i].Withdraw? && UpToCheckpoint(p, ts[i].expected)
  }

  lemma MoveExplained(p: Pending, ts: seq<Try>, t: Try, o: Outcome, o': Outcome)
    requires Explained(p, ts, o) && Moves(o, o', t) && p.Valid()
    ensures Explained(p, ts + [t], o')
  {
    var all := ts + [t];
    if o' == o {
      assert forall i :: 0 <= i < |ts| ==> all[i] == ts[i];
    } else {
      assert all[|ts|] == t;
      if t.Accept? { ReceiptIgnoresCheckpoint(p, t.expected, t.profile, t.receipt, t.commitment); }
    }
  }

  /**
   Over any run of attempts the slot list is the original up to the sealed checkpoint, or the
   original with the installed record in the pending record's own position, built from exactly its
   durable facts, or the original without it, and then only by a withdrawal of that record.
   */
  lemma {:induction false} RecoverySettles(base: Disk, p: Pending, ds: seq<Disk>, ts: seq<Try>, rs: seq<Result<()>>)
    returns (o: Outcome)
    requires Attempted(base, p, ds, ts, rs)
    ensures Stands(base, ds[|ts|], p.application, o) && Explained(p, ts, o)
    decreases |ts|
  {
    o := Waiting(p);
    if ts != [] {
      var n := |ts| - 1;
      var before := RecoverySettles(base, p, ds[..n + 1], ts[..n], rs[..n]);
      o := TriedStands(base, ds[n], ds[n + 1], p.application, before, ts[n], rs[n]);
      assert ts == ts[..n] + [ts[n]];
      MoveExplained(p, ts[..n], ts[n], before, o);
    }
  }

  /** What is settled or withdrawn stays so, whatever is attempted on it afterwards. */
  lemma {:induction false} OutcomeIsFinal(base: Disk, app: string, ds: seq<Disk>, ts: seq<Try>, rs: seq<Result<()>>,
                                          o: Outcome)
    requires |ds| == |ts| + 1 && |rs| == |ts| && !o.Waiting? && Stands(base, ds[0], app, o)
    requires forall i :: 0 <= i < |ts| ==> ts[i].expected.application == app && Tried(ds[i], ds[i + 1], ts[i], rs[i])
    ensures Stands(base, ds[|ts|], app, o)
    decreases |ts|
  {
    if ts != [] {
      var n := |ts| - 1;
      OutcomeIsFinal(base, app, ds[..n + 1], ts[..n], rs[..n], o);
      var o' := TriedStands(base, ds[n], ds[n + 1], app, o, ts[n], rs[n]);
    }
  }

  /** Once the install committed, the same install again succeeds, or is refused a read, and changes nothing. */
  lemma InstallAgain(base: Disk, d: Disk, d': Disk, app: string, e: Pending, link: Installed, r: Result<()>)
    requires Stands(base, d, app, Settled(link)) && Install(d, d', e, link, true, r)
    requires e.Valid() && link.Valid() && e.application == app == link.application
    requires e.rootGeneration == link.rootGeneration && e.profileDigest == link.profileDigest
    ensures d' == d && r in {Ok(()), Err(CheckpointUnavailable)}
  {
    FoundLast(SlotsOf(base, app), Settled(link), e);
    assert (SlotsOf(base, app) + Tail(Settled(link)))[|SlotsOf(base, app)|] == InstalledSlot(link);
  }

  /**
   The commands around `install` load the pending record before anything else, so a command repeated
   after its install committed but reported failure is refused: it gets past the load exactly while
   the record still waits.
   */
  lemma CommandProceedsExactlyWhen(base: Disk, d: Disk, app: string, o: Outcome)
    requires Stands(base, d, app, o)
    ensures PendingOf(d, app) == if o.Waiting? then Ok(o.pending) else Err(CheckpointRefused)
  {
    var slots := SlotsOf(base, app) + Tail(o);
    assert forall i :: 0 <= i < |SlotsOf(base, app)| ==> slots[i] == SlotsOf(base, app)[i];
    assert o.Waiting? ==> slots[|SlotsOf(base, app)|].PendingSlot?;
  }

  // ---- the two commands ----

  /** A receipt signed by a key the current profile no longer lists unchanged needs the person's approval. */
  predicate AcceptedRotation(historical: Profile, current: Profile, kid: Opaque) {
    var retained := KeyOf(historical, kid);
    retained.Some? && retained.value !in current.keys
  }

  /** A negative status signed by another key than the one retained needs it too. */
  predicate NegativeRotation(historical: Profile, current: Profile, kid: Opaque, selected: Opaque) {
    var retained, now := KeyOf(historical, kid), KeyOf(current, selected);
    retained.Some? && now.Some? && (kid != selected || retained.value.jwk != now.value.jwk)
  }

  /** The current profile lists, kid and key, whatever the historical one retains for this kid. */
  ghost predicate StillListed(historical: Profile, current: Profile, kid: Opaque) {
    forall i: nat :: FirstKey(historical.keys, i, kid) ==> historical.keys[i] in current.keys
  }

  /** What the historical profile retains for one kid is what the current one lists for the other. */
  ghost predicate SameSigner(historical: Profile, current: Profile, kid: Opaque, selected: Opaque) {
    forall i: nat, j: nat :: FirstKey(historical.keys, i, kid) && FirstKey(current.keys, j, selected) ==>
      historical.keys[i] == current.keys[j]
  }

  /** Approval is asked for exactly when the signing key the ceremony began under is no longer what it was. */
  lemma RotationMeans(historical: Profile, current: Profile, kid: Opaque, selected: Opaque)
    ensures AcceptedRotation(historical, current, kid) <==> !StillListed(historical, current, kid)
    ensures NegativeRotation(historical, current, kid, selected) <==> !SameSigner(historical, current, kid, selected)
  {
    KeyIsFirst(historical.keys, kid);
    KeyIsFirst(current.keys, selected);
  }

  /** What the hub answers about the ceremony; `kid` is absent when a negative status does not verify. */
  datatype Answer =
    | NoAnswer | RefusedAnswer | AcceptedAnswer(receipt: Object) | NegativeAnswer(kid: Option<Opaque>)
    | InProgressAnswer | UnknownAnswer

  datatype View =
    RelayWindowOpen | Unavailable | AuthorityRotation | InstalledView | NotFinalized | InProgress | Unknown

  /**
   An attempt on this record is justified: after the relay window, and by a signed verdict of the hub under the
   key the ceremony began under, or another the person approved.
   */
  ghost predicate Justified(durable: Pending, t: Try, now: nat, root: Opaque, commitment: Result<Opaque>,
                      current: Result<Profile>, answer: Answer, approve: bool, bound: bool)
  {
    && t.expected == durable && now >= durable.carrier.relayExpiresAt && durable.rootGeneration == root
    && durable.stage.PayloadPrepared? && durable.offer.body.OfferBody? && current.Ok? && commitment.Ok?
    && var historical, kid := durable.offerProfile, durable.offer.body.offer.kid;
       match t
       case Acknowledge(_, _, _) => false
       case Accept(_, profile, receipt, c, b) =>
         && answer == AcceptedAnswer(receipt) && profile == historical && commitment == Ok(c) && b && bound
         && FromReceipt(durable, profile, receipt, c).Ok?
         && (approve || StillListed(historical, current.value, kid))
       case Withdraw(_) =>
         && answer.NegativeAnswer? && answer.kid.Some?
         && (approve || SameSigner(historical, current.value, kid, answer.kid.value))
  }

  /** What the person is told of an attempt. */
  predicate Reported(t: Try, r: Result<View>, wrote: Result<()>) {
    match wrote
    case Err(e) => r == Err(e)
    case Ok(_) => if t.Accept? then r in {Ok(InstalledView), Err(ReceiptRefused)} else r == Ok(NotFinalized)
  }

  /**
   `recover_claimant_completion` behind its first load. `durable` is what that load returned; the awaits
   in between belong to anyone, so nothing is assumed of the store the one write then finds. `t` is the
   one attempt made on the record, if any: after the relay window, and under a signed verdict of the hub.
   */
  method Recover(store: LinkStore, durable: Pending, now: nat, root: Opaque, commitment: Result<Opaque>,
                 current: Result<Profile>, answer: Answer, approve: bool, bound: bool)
    returns (r: Result<View>, ghost t: Option<Try>, ghost wrote: Result<()>)
    modifies store`links, store`index
    ensures t.None? ==> store.View() == old(store.View()) && r !in {Ok(InstalledView), Ok(NotFinalized)}
    ensures t.None? ==> forall u :: !Justified(durable, u, now, root, commitment, current, answer, approve, bound)
    ensures t.Some? ==>
      && Tried(old(store.View()), store.View(), t.value, wrote) && Reported(t.value, r, wrote)
      && Justified(durable, t.value, now, root, commitment, current, answer, approve, bound)
    ensures r == Ok(AuthorityRotation) <==>
      && (forall u :: !Justified(durable, u, now, root, commitment, current, answer, approve, true))
      && (exists u :: Justified(durable, u, now, root, commitment, current, answer, true, true))
    ensures r == Ok(RelayWindowOpen) <==> now < durable.carrier.relayExpiresAt
    ensures (r == Ok(Unavailable) ==> answer.NoAnswer?) && (r == Ok(InProgress) ==> answer.InProgressAnswer?)
      && (r == Ok(Unknown) ==> answer.UnknownAnswer?)
  {
    t, wrote := None, Ok(());
    if now < durable.carrier.relayExpiresAt { return Ok(RelayWindowOpen), t, wrote; }
    if !durable.offer.body.OfferBody? || !durable.stage.PayloadPrepared? { return Err(CheckpointRefused), t, wrote; }
    if durable.rootGeneration != root { return Err(CheckpointRefused), t, wrote; }
    if commitment.Err? { return Err(CheckpointRefused), t, wrote; }
    if current.Err? { return Err(ProfileUnavailable), t, wrote; }
    var historical, kid := durable.offerProfile, durable.offer.body.offer.kid;
    match answer
    case NoAnswer => r := Ok(Unavailable);
    case RefusedAnswer => r := Err(ForeignFailure);
    case InProgressAnswer => r := Ok(InProgress);
    case UnknownAnswer => r := Ok(Unknown);
    case AcceptedAnswer(receipt) =>
      var installed := FromReceipt(durable, historical, receipt, commitment.value);
      if installed.Err? { return Err(installed.error), t, wrote; }
      ghost var accept := Accept(durable, historical, receipt, commitment.value, true);
      assert Justified(durable, accept, now, root, commitment, current, answer, true, true);
      RotationMeans(historical, current.value, kid, kid);
      if AcceptedRotation(historical, current.value, kid) && !approve { return Ok(AuthorityRotation), t, wrote; }
      assert Justified(durable, accept, now, root, commitment, current, answer, approve, true);
      if !bound { return Err(AuthorityRefused), t, wrote; }
      var written := store.InstallLink(durable, installed.value, bound);
      t, wrote := Some(Accept(durable, historical, receipt, commitment.value, bound)), written;
      if written.Err? { return Err(written.error), t, wrote; }
      if * { return Err(ReceiptRefused), t, wrote; }
      r := Ok(InstalledView);
    case NegativeAnswer(selected) =>
      if selected.None? { return Err(ForeignFailure), t, wrote; }
      ghost var withdraw := Withdraw(durable);
      assert Justified(durable, withdraw, now, root, commitment, current, answer, true, true);
      RotationMeans(historical, current.value, kid, selected.value);
      if NegativeRotation(historical, current.value, kid, selected.value) && !approve {
        return Ok(AuthorityRotation), t, wrote;
      }
      assert Justified(durable, withdraw, now, root, commitment, current, answer, approve, true);
      var removed := store.RemoveExactPending(durable);
      t, wrote := Some(Withdraw(durable)), removed;
      if removed.Err? { return Err(removed.error), t, wrote; }
      r := Ok(NotFinalized);
  }

  /** What an outcome can have become: a waiting record anything its checkpoints allow, a settled one nothing else. */
  predicate Later(o: Outcome, o': Outcome) {
    o' == o || (o.Waiting? && (o'.Waiting? ==> UpToCheckpoint(o.pending, o'.pending)))
  }

  /** An operation that is an attempt on the record of this application. */
  predicate IsAttempt(op: Op, app: string) {
    match op
    case OpReplace(e, next) => e.application == app && UpToCheckpoint(e, next)
    case OpInstall(e, _, _) => e.application == app
    case OpRemove(e) => e.application == app
    case _ => false
  }

  predicate AttemptsOnly(ops: seq<Op>, app: string) {
    forall k :: 0 <= k < |ops| ==> IsAttempt(ops[k], app)
  }

  /** If the outcome stood and the others made only attempts on the record, it still stands or has moved on. */
  ghost predicate Settling(base: Disk, d: Disk, d': Disk, app: string, o: Outcome, o': Outcome, ops: seq<Op>) {
    Stands(base, d, app, o) && AttemptsOnly(ops, app) ==> Stands(base, d', app, o') && Later(o, o')
  }

  lemma SettlingOn(base: Disk, d: Disk, m: Disk, d': Disk, app: string, o: Outcome, p: Outcome, o': Outcome,
                   ops: seq<Op>, more: seq<Op>)
    requires Settling(base, d, m, app, o, p, ops) && Settling(base, m, d', app, p, o', more)
    ensures Settling(base, d, d', app, o, o', ops + more)
  {
    if AttemptsOnly(ops + more, app) {
      forall k | 0 <= k < |ops| ensures IsAttempt(ops[k], app) { assert (ops + more)[k] == ops[k]; }
      forall k | 0 <= k < |more| ensures IsAttempt(more[k], app) { assert (ops + more)[|ops| + k] == more[k]; }
    }
  }

  lemma {:induction false} OthersStand(base: Disk, d: Disk, d': Disk, app: string, o: Outcome, ops: seq<Op>)
    returns (o': Outcome)
    requires Stands(base, d, app, o) && Reached(d, d', ops) && AttemptsOnly(ops, app)
    ensures Stands(base, d', app, o') && Later(o, o')
    decreases |ops|
  {
    o' := o;
    if ops != [] {
      var n := |ops| - 1;
      var m, r :| Reached(d, m, ops[..n]) && Step(m, d', ops[n], r);
      var p := OthersStand(base, d, m, app, o, ops[..n]);
      assert IsAttempt(ops[n], app);
      match ops[n]
      case OpReplace(e, next) => o' := AcknowledgeStands(base, m, d', app, p, e, next, r);
      case OpInstall(e, link, bound) => o' := AcceptStands(base, m, d', app, p, e, link, bound, r);
      case OpRemove(e) => o' := WithdrawStands(base, m, d', app, p, e, r);
    }
  }

  /** Whatever other commands do between two sections of this one's. */
  method Elsewhere(store: LinkStore, app: string, ghost base: Disk, ghost o: Outcome) returns (ghost o': Outcome)
    requires Sound(store.View())
    modifies store`links, store`index, store`others
    ensures Sound(store.View()) && old(store.others) <= store.others
    ensures Settling(base, old(store.View()), store.View(), app, o, o', store.others[|old(store.others)|..])
  {
    ghost var before := store.View();
    store.Elsewhere();
    ghost var ops := store.others[|old(store.others)|..];
    ReachedSound(before, store.View(), ops);
    o' := o;
    if Stands(base, before, app, o) && AttemptsOnly(ops, app) {
      o' := OthersStand(base, before, store.View(), app, o, ops);
    }
  }

  /**
   The store half of `finish_pending` behind its load: each relay acknowledgement replaces the sealed
   checkpoint and the authenticated receipt then installs. Other commands may do anything to the store in
   between. Success means the link of exactly this record is installed, whoever installed it; and if the
   others made only attempts on the record too, its outcome has only moved forward.
   */
  method Finish(store: LinkStore, loaded: Pending, acknowledgements: seq<(nat, seq<Opaque>)>, profile: Profile,
                receipt: Result<Object>, commitment: Opaque, bound: bool, ghost base: Disk, ghost o: Outcome)
    returns (r: Result<()>, ghost o': Outcome)
    requires loaded.Valid() && Sound(store.View())
    modifies store`links, store`index, store`others
    ensures Sound(store.View()) && old(store.others) <= store.others
    ensures Settling(base, old(store.View()), store.View(), loaded.application, o, o',
                     store.others[|old(store.others)|..])
    ensures r.Ok? ==> receipt.Ok? && bound && FromReceipt(loaded, profile, receipt.value, commitment).Ok?
    ensures r.Ok? ==>
      InstalledSlot(FromReceipt(loaded, profile, receipt.value, commitment).value) in SlotsOf(store.View(),
          loaded.application)
  {
    var acknowledged;
    acknowledged, o' := AcknowledgeAll(store, loaded, acknowledgements, base, o);
    if acknowledged.Err? { return Err(acknowledged.error), o'; }
    var durable := acknowledged.value;
    if receipt.Err? { return Err(ReceiptRefused), o'; }
    var installed := FromReceipt(durable, profile, receipt.value, commitment);
    if installed.Err? { return Err(installed.error), o'; }
    ReceiptIgnoresCheckpoint(loaded, durable, profile, receipt.value, commitment);
    if !bound { return Err(AuthorityRefused), o'; }
    ghost var between, before, p := store.View(), store.others, o';
    r, o' := Settle(store, durable, installed.value, base, p);
    SettlingOn(base, old(store.View()), between, store.View(), loaded.application, o, p, o',
               before[|old(store.others)|..], store.others[|before|..]);
    assert store.others[|old(store.others)|..] == before[|old(store.others)|..] + store.others[|before|..];
    if r.Ok? {
      if * { return Err(Cancelled), o'; }
    }
  }

  /** Each acknowledgement is its own section of the store; others act before each. */
  method AcknowledgeAll(store: LinkStore, loaded: Pending, acknowledgements: seq<(nat, seq<Opaque>)>,
                        ghost base: Disk, ghost o: Outcome)
    returns (r: Result<Pending>, ghost o': Outcome)
    requires Sound(store.View())
    modifies store`links, store`index, store`others
    ensures Sound(store.View()) && old(store.others) <= store.others
    ensures Settling(base, old(store.View()), store.View(), loaded.application, o, o',
                     store.others[|old(store.others)|..])
    ensures r.Ok? ==> UpToCheckpoint(loaded, r.value)
    ensures r.Ok? ==>
      if acknowledgements == [] then r.value == loaded
      else
        && (r.value.generation, r.value.checkpoint) == acknowledgements[|acknowledgements| - 1]
        && PendingSlot(r.value) in SlotsOf(store.View(), loaded.application)
  {
    o' := o;
    var durable := loaded;
    for k := 0 to |acknowledgements|
      invariant Sound(store.View()) && old(store.others) <= store.others && UpToCheckpoint(loaded, durable)
      invariant Settling(base, old(store.View()), store.View(), loaded.application, o, o',
                         store.others[|old(store.others)|..])
      invariant k == 0 ==> durable == loaded
      invariant k > 0 ==>
        && (durable.generation, durable.checkpoint) == acknowledgements[k - 1]
        && PendingSlot(durable) in SlotsOf(store.View(), loaded.application)
    {
      var next := durable.WithCheckpoint(acknowledgements[k].0, acknowledgements[k].1);
      if next.Err? { return Err(next.error), o'; }
      ghost var between, before, p := store.View(), store.others, o';
      var replaced;
      replaced, o' := Reseal(store, durable, next.value, base, p);
      SettlingOn(base, old(store.View()), between, store.View(), loaded.application, o, p, o',
                 before[|old(store.others)|..], store.others[|before|..]);
      assert store.others[|old(store.others)|..] == before[|old(store.others)|..] + store.others[|before|..];
      if replaced.Err? { return Err(replaced.error), o'; }
      if * { return Err(Cancelled), o'; }
      durable := next.value;
    }
    return Ok(durable), o';
  }

  /** A replacement that reports success leaves its record among the slots. */
  lemma ReplacedFound(d: Disk, d': Disk, e: Pending, next: Pending)
    requires Sound(d) && Replace(d, d', e, next, Ok(()))
    ensures PendingSlot(next) in SlotsOf(d', e.application)
  {
    SuccessMeans(d, d', OpReplace(e, next), e.application);
    var b := SlotsOf(d', e.application);
    assert b[|b| - 1] == PendingSlot(next);
  }

  /** One checkpoint's own section, after whatever others did. */
  method Reseal(store: LinkStore, durable: Pending, next: Pending, ghost base: Disk, ghost o: Outcome)
    returns (r: Result<()>, ghost o': Outcome)
    requires Sound(store.View()) && UpToCheckpoint(durable, next)
    modifies store`links, store`index, store`others
    ensures Sound(store.View()) && old(store.others) <= store.others
    ensures Settling(base, old(store.View()), store.View(), durable.application, o, o',
                     store.others[|old(store.others)|..])
    ensures r.Ok? ==> PendingSlot(next) in SlotsOf(store.View(), durable.application)
  {
    o' := Elsewhere(store, durable.application, base, o);
    if * { return Err(Cancelled), o'; }
    ghost var before, p := store.View(), o';
    r := store.ReplacePending(durable, next);
    if r.Ok? { ReplacedFound(before, store.View(), durable, next); }
    StepKeepsSound(before, store.View(), OpReplace(durable, next), r);
    if Stands(base, before, durable.application, p) {
      o' := AcknowledgeStands(base, before, store.View(), durable.application, p, durable, next, r);
    }
  }

  /** The install's own section, after whatever others did. */
  method Settle(store: LinkStore, durable: Pending, link: Installed, ghost base: Disk, ghost o: Outcome)
    returns (r: Result<()>, ghost o': Outcome)
    requires Sound(store.View())
    modifies store`links, store`index, store`others
    ensures Sound(store.View()) && old(store.others) <= store.others
    ensures Settling(base, old(store.View()), store.View(), durable.application, o, o',
                     store.others[|old(store.others)|..])
    ensures r.Ok? ==> InstalledSlot(link) in SlotsOf(store.View(), durable.application)
  {
    o' := Elsewhere(store, durable.application, base, o);
    if * { return Err(Cancelled), o'; }
    ghost var before, p := store.View(), o';
    r := store.InstallLink(durable, link, true);
    StepKeepsSound(before, store.View(), OpInstall(durable, link, true), r);
    if Stands(base, before, durable.application, p) {
      o' := AcceptStands(base, before, store.View(), durable.application, p, durable, link, true, r);
    }
    if r.Ok? { InstallFound(before, store.View(), durable, link); }
  }

  /** An install that reports success leaves its link among the slots, whether it wrote it or found it. */
  lemma InstallFound(d: Disk, d': Disk, e: Pending, link: Installed)
    requires Install(d, d', e, link, true, Ok(()))
    ensures InstalledSlot(link) in SlotsOf(d', e.application)
  {
    var slots := ReadSlots(d, e.application).value;
    var k := FirstEqual(slots, PendingSlot(e));
    if k < |slots| {
      var next := slots[k := InstalledSlot(link)];
      TextRoundTrip(e.application, next, None);
      assert next[k] == InstalledSlot(link);
    }
  }

  // ---- the commands with their loads ----

  /** What the store answers for an application is a valid record of it. */
  lemma PendingIsOf(d: Disk, app: string)
    requires PendingOf(d, app).Ok?
    ensures PendingOf(d, app).value.application == app && PendingOf(d, app).value.Valid()
  {
    TextRoundTrip(app, ReadSlots(d, app).value, Entry(d, app));
  }

  /**
   `finish_pending` with its load: what it installs is the receipt's link of the record that was pending
   when it began, whatever the store has become since; where no record waits it is refused.
   */
  method FinishPending(store: LinkStore, app: string, acknowledgements: seq<(nat, seq<Opaque>)>, profile: Profile,
                       receipt: Result<Object>, commitment: Opaque, bound: bool, ghost base: Disk, ghost o: Outcome)
    returns (r: Result<()>, ghost o': Outcome)
    requires Sound(store.View())
    modifies store`links, store`index, store`others
    ensures Sound(store.View()) && old(store.others) <= store.others
    ensures Settling(base, old(store.View()), store.View(), app, o, o', store.others[|old(store.others)|..])
    ensures r.Ok? ==> PendingOf(old(store.View()), app).Ok? && receipt.Ok? && bound
    ensures r.Ok? ==>
      var link := FromReceipt(PendingOf(old(store.View()), app).value, profile, receipt.value, commitment);
      link.Ok? && InstalledSlot(link.value) in SlotsOf(store.View(), app)
    ensures Stands(base, old(store.View()), app, o) && !o.Waiting? ==> r.Err? && store.View() == old(store.View())
  {
    if Stands(base, store.View(), app, o) { CommandProceedsExactlyWhen(base, store.View(), app, o); }
    var loaded := store.LoadPending(app);
    if loaded.Err? { return Err(loaded.error), o; }
    PendingIsOf(store.View(), app);
    r, o' := Finish(store, loaded.value, acknowledgements, profile, receipt, commitment, bound, base, o);
  }

  /**
   `recover_claimant_completion` with its load: its one attempt, if it makes any, is on the record that was
   pending when it began, on whatever store the other commands have made of it since.
   */
  method RecoverPending(store: LinkStore, app: string, now: nat, root: Opaque, commitment: Result<Opaque>,
                        current: Result<Profile>, answer: Answer, approve: bool, bound: bool)
    returns (r: Result<View>, ghost t: Option<Try>, ghost wrote: Result<()>, ghost found: Disk)
    modifies store`links, store`index, store`others
    ensures old(store.others) <= store.others && Reached(old(store.View()), found, store.others[|old(store.others)|..])
    ensures t.None? ==> store.View() == found && r !in {Ok(InstalledView), Ok(NotFinalized)}
    ensures t.Some? ==>
      && PendingOf(old(store.View()), app) == Ok(t.value.expected) && t.value.expected.application == app
      && t.value.expected.Valid() && Tried(found, store.View(), t.value, wrote)
      && Justified(t.value.expected, t.value, now, root, commitment, current, answer, approve, bound)
         && Reported(t.value, r, wrote)
    ensures t.None? ==>
      match PendingOf(old(store.View()), app)
      case Err(e) => r == Err(e) || r == Err(CheckpointUnavailable)
      case Ok(durable) =>
        || r == Err(CheckpointUnavailable)
        || forall u :: !Justified(durable, u, now, root, commitment, current, answer, approve, bound)
    ensures r == Ok(AuthorityRotation) ==>
      && PendingOf(old(store.View()), app).Ok?
      && var durable := PendingOf(old(store.View()), app).value;
         && (forall u :: !Justified(durable, u, now, root, commitment, current, answer, approve, true))
         && (exists u :: Justified(durable, u, now, root, commitment, current, answer, true, true))
  {
    var loaded := store.LoadPending(app);
    t, wrote, found := None, Ok(()), store.View();
    if loaded.Err? {
      assert store.others[|old(store.others)|..] == [];
      return Err(loaded.error), t, wrote, found;
    }
    PendingIsOf(store.View(), app);
    store.Elsewhere();
    found := store.View();
    r, t, wrote := Recover(store, loaded.value, now, root, commitment, current, answer, approve, bound);
  }
}
