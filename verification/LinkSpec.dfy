/**
 What every operation of the link store may do to the secure store. The platform offers neither
 compare-and-swap nor a prefix scan, and each write either succeeds, fails before it commits, or
 commits and then reports failure; a read may be refused. Each operation is a relation between the
 store before, the store after, and the reported result.
 */
module LinkSpec {
  import opened Prelude
  import opened Records
  import opened Links

  const MAX_LINKS: nat := 256
  const INDEX_VERSION: nat := 1

  datatype IndexText = IndexText(version: nat, applications: seq<string>) | ForeignIndex

  /** The modelled entries of the secure store: one per application, the index, and nothing else. */
  datatype Disk = Disk(links: map<string, SlotText>, index: Option<IndexText>)

  function Entry(d: Disk, app: string): Option<SlotText> {
    if app in d.links then Some(d.links[app]) else None
  }

  function ReadSlots(d: Disk, app: string): Result<seq<Slot>> {
    Recognise(app, Entry(d, app))
  }

  function WithEntry(d: Disk, app: string, text: Option<SlotText>): Disk {
    if text.None? then d.(links := d.links - {app}) else d.(links := d.links[app := text.value])
  }

  /** One backend write: a reported success did commit, a reported failure may have. */
  predicate Wrote<T(==)>(before: T, after: T, goal: T, ok: bool) {
    after == goal || (!ok && after == before)
  }

  /** The report of a single write. */
  predicate Reports(r: Result<()>) {
    r.Err? ==> r.error == CheckpointUnavailable
  }

  predicate ReadRefused(d: Disk, d': Disk, r: Result<()>) {
    d' == d && r == Err(CheckpointUnavailable)
  }

  // ---- the index ----

  predicate ValidIndex(apps: seq<string>) {
    |apps| <= MAX_LINKS && Ascending(apps)
  }

  function LoadIndex(index: Option<IndexText>): Result<seq<string>> {
    match index
    case None => Ok([])
    case Some(IndexText(version, apps)) =>
      if version == INDEX_VERSION && ValidIndex(apps) then Ok(apps) else Err(CheckpointRefused)
    case Some(ForeignIndex) => Err(CheckpointRefused)
  }

  /** The stored index, spelled out, and that what is written of a list is what is read of it. */
  lemma IndexMeans(index: Option<IndexText>, apps: seq<string>)
    ensures LoadIndex(index) == Ok(apps) ==>
      && (index == None || index == Some(IndexText(1, apps)))
      && |apps| <= 256 && forall i, j :: 0 <= i < j < |apps| ==> Less(apps[i], apps[j])
    ensures |apps| <= 256 && (forall i, j :: 0 <= i < j < |apps| ==> Less(apps[i], apps[j])) ==>
      LoadIndex(Some(IndexText(1, apps))) == Ok(apps) == LoadIndex(IndexGoal(apps))
    ensures LoadIndex(None) == Ok([]) && IndexGoal([]) == None
  {}

  function IndexGoal(apps: seq<string>): Option<IndexText> {
    if apps == [] then None else Some(IndexText(INDEX_VERSION, apps))
  }

  predicate PersistIndex(i: Option<IndexText>, i': Option<IndexText>, apps: seq<string>, r: Result<()>) {
    if !ValidIndex(apps) then i' == i && r == Err(CheckpointRefused)
    else Wrote(i, i', IndexGoal(apps), r.Ok?) && Reports(r)
  }

  /** How many identifiers sort before `app`: where binary search reports its absence. */
  function Place(apps: seq<string>, app: string): (k: nat)
    ensures k <= |apps|
  {
    if apps == [] || !Less(apps[0], app) then 0 else 1 + Place(apps[1..], app)
  }

  function Inserted(apps: seq<string>, app: string): seq<string> {
    apps[..Place(apps, app)] + [app] + apps[Place(apps, app)..]
  }

  function Without(apps: seq<string>, app: string): seq<string> {
    if apps == [] then [] else (if apps[0] == app then [] else [apps[0]]) + Without(apps[1..], app)
  }

  predicate EnsureIndexed(i: Option<IndexText>, i': Option<IndexText>, app: string, r: Result<()>) {
    || (i' == i && r == Err(CheckpointUnavailable))
    || match LoadIndex(i)
       case Err(e) => i' == i && r == Err(e)
       case Ok(apps) =>
         if app in apps then i' == i && r == Ok(())
         else if |apps| >= MAX_LINKS then i' == i && r == Err(CheckpointUnavailable)
         else PersistIndex(i, i', Inserted(apps, app), r)
  }

  predicate DropIndexed(i: Option<IndexText>, i': Option<IndexText>, app: string, r: Result<()>) {
    || (i' == i && r == Err(CheckpointUnavailable))
    || match LoadIndex(i)
       case Err(e) => i' == i && r == Err(e)
       case Ok(apps) => PersistIndex(i, i', Without(apps, app), r)
  }

  // ---- the slot list ----

  /** One replacement of an application's entry; an emptied entry also leaves the index, last. */
  predicate WriteSlots(d: Disk, d': Disk, app: string, slots: seq<Slot>, r: Result<()>) {
    if !ValidSlots(app, slots) then d' == d && r.Err? && r.error in {CheckpointRefused, ApplicationAlreadyLinked}
    else if slots != [] then
      Wrote(d, d', WithEntry(d, app, Canonical(slots)), r.Ok?) && Reports(r)
    else
      || (d' == d && r == Err(CheckpointUnavailable))
      || (d'.links == d.links - {app} && DropIndexed(d.index, d'.index, app, r))
  }

  /** Position of the first pending slot, or the length. */
  function FirstPending(slots: seq<Slot>): (k: nat)
    ensures k <= |slots| && (k < |slots| ==> slots[k].PendingSlot?)
    ensures forall i :: 0 <= i < k ==> slots[i].InstalledSlot?
  {
    if slots == [] || slots[0].PendingSlot? then 0 else 1 + FirstPending(slots[1..])
  }

  /** Position of the first equal slot, or the length. */
  function FirstEqual(slots: seq<Slot>, slot: Slot): (k: nat)
    ensures k <= |slots| && (k < |slots| ==> slots[k] == slot)
    ensures forall i :: 0 <= i < k ==> slots[i] != slot
  {
    if slots == [] || slots[0] == slot then 0 else 1 + FirstEqual(slots[1..], slot)
  }

  function Removed(slots: seq<Slot>, k: nat): seq<Slot>
    requires k < |slots|
  {
    slots[..k] + slots[k + 1..]
  }

  predicate Persist(d: Disk, d': Disk, p: Pending, r: Result<()>) {
    if !p.Valid() then d' == d && r == Err(CheckpointRefused)
    else
      || ReadRefused(d, d', r)
      || match ReadSlots(d, p.application)
         case Err(e) => d' == d && r == Err(e)
         case Ok(slots) =>
           var next := slots + [PendingSlot(p)];
           if FirstPending(slots) < |slots| then
             d' == d && r == (if slots[FirstPending(slots)] == PendingSlot(p) then Ok(())
                              else Err(ApplicationAlreadyLinked))
           else if !ValidSlots(p.application, next) then
             d' == d && r.Err? && r.error in {CheckpointRefused, ApplicationAlreadyLinked}
           else if r.Ok? || d'.links != d.links then
             d' == Disk(d.links[p.application := Canonical(next).value], d'.index)
             && EnsureIndexed(d.index, d'.index, p.application, Ok(())) && Reports(r)
           else
             EnsureIndexed(d.index, d'.index, p.application, r)
             || (EnsureIndexed(d.index, d'.index, p.application, Ok(())) && r == Err(CheckpointUnavailable))
  }

  predicate Replace(d: Disk, d': Disk, expected: Pending, replacement: Pending, r: Result<()>) {
    if !expected.Valid() || !replacement.Valid() || !SameReplacement(expected, replacement) then
      d' == d && r == Err(CheckpointRefused)
    else
      || ReadRefused(d, d', r)
      || match ReadSlots(d, expected.application)
         case Err(e) => d' == d && r == Err(e)
         case Ok(slots) =>
           var k := FirstEqual(slots, PendingSlot(expected));
           if k < |slots| then WriteSlots(d, d', expected.application, slots[k := PendingSlot(replacement)], r)
           else d' == d && r == Err(CheckpointRefused)
  }

  predicate RemovePending(d: Disk, d': Disk, expected: Pending, r: Result<()>) {
    if !expected.Valid() then d' == d && r == Err(CheckpointRefused)
    else
      || ReadRefused(d, d', r)
      || match ReadSlots(d, expected.application)
         case Err(e) => d' == d && r == Err(e)
         case Ok(slots) =>
           var k := FirstEqual(slots, PendingSlot(expected));
           if k < |slots| then WriteSlots(d, d', expected.application, Removed(slots, k), r)
           else d' == d && r == Err(CheckpointRefused)
  }

  /** `remove_pre_payload_attempt`: the compensation a dropped transaction performs. */
  predicate Compensate(d: Disk, d': Disk, anchor: Pending, r: Result<()>) {
    if !anchor.Valid() then d' == d && r == Err(CheckpointRefused)
    else
      || ReadRefused(d, d', r)
      || match ReadSlots(d, anchor.application)
         case Err(e) => d' == d && r == Err(e)
         case Ok(slots) =>
           var k := FirstPending(slots);
           if slots == [] then d' == d && r == Ok(())
           else if k == |slots| then d' == d && r == Err(CheckpointRefused)
           else if !SameAttempt(slots[k].pending, anchor) then d' == d && r == Err(CheckpointRefused)
           else if slots[k].pending.stage.PayloadPrepared? then d' == d && r == Ok(())
           else WriteSlots(d, d', anchor.application, Removed(slots, k), r)
  }

  /** `install`: `bound` is the verdict of the reciprocal account binding. */
  predicate Install(d: Disk, d': Disk, expected: Pending, link: Installed, bound: bool, r: Result<()>) {
    if !expected.Valid() || !link.Valid() then d' == d && r == Err(CheckpointRefused)
    else if expected.application != link.application || expected.rootGeneration != link.rootGeneration
      || expected.profileDigest != link.profileDigest then d' == d && r == Err(ReceiptRefused)
    else if !bound then d' == d && r == Err(AuthorityRefused)
    else
      || ReadRefused(d, d', r)
      || match ReadSlots(d, expected.application)
         case Err(e) => d' == d && r == Err(e)
         case Ok(slots) =>
           var k := FirstEqual(slots, PendingSlot(expected));
           if k < |slots| then WriteSlots(d, d', expected.application, slots[k := InstalledSlot(link)], r)
           else d' == d && r == (if InstalledSlot(link) in slots then Ok(()) else Err(CheckpointRefused))
  }

  predicate SameButProfile(a: Installed, b: Installed) {
    b.(currentProfile := a.currentProfile, currentProfileDigest := a.currentProfileDigest) == a
  }

  /** Of an installed record a re-pin may change the current profile and its digest, and nothing else. */
  lemma SameButProfileMeans(a: Installed, b: Installed)
    ensures SameButProfile(a, b) <==>
      && a.version == b.version && a.flow == b.flow && a.rootGeneration == b.rootGeneration && a.relay == b.relay
      && a.profile == b.profile && a.grant == b.grant && a.grantDigest == b.grantDigest && a.grantId == b.grantId
      && a.credentialId == b.credentialId && a.application == b.application && a.principal == b.principal
      && a.scope == b.scope && a.account == b.account && a.device == b.device && a.profileDigest == b.profileDigest
      && a.authority == b.authority && a.issuer == b.issuer && a.closure == b.closure && a.coreDigest == b.coreDigest
      && a.offerKid == b.offerKid && a.ceremony == b.ceremony && a.requestId == b.requestId
      && a.payloadDigest == b.payloadDigest && a.commitment == b.commitment && a.status == b.status
      && a.statusDigest == b.statusDigest && a.finalizedAt == b.finalizedAt
  {}

  predicate ReplaceInstalled(d: Disk, d': Disk, expected: Installed, replacement: Installed, r: Result<()>) {
    if !expected.Valid() || !replacement.Valid() || !SameButProfile(expected, replacement) then
      d' == d && r == Err(CheckpointRefused)
    else
      || ReadRefused(d, d', r)
      || match ReadSlots(d, expected.application)
         case Err(e) => d' == d && r == Err(e)
         case Ok(slots) =>
           var k := FirstEqual(slots, InstalledSlot(expected));
           if k < |slots| then WriteSlots(d, d', expected.application, slots[k := InstalledSlot(replacement)], r)
           else d' == d && r == (if InstalledSlot(replacement) in slots then Ok(()) else Err(CheckpointRefused))
  }

  /** The slot half of `unlink_local`: the selected pending, or every slot of the application. */
  predicate Unlink(d: Disk, d': Disk, app: string, snapshot: seq<Slot>, selected: Slot, r: Result<()>) {
    || (d' == d && r.Err?)
    || (ReadSlots(d, app) == Ok(snapshot)
        && WriteSlots(d, d', app, if selected.PendingSlot? then Except(snapshot, selected) else [], r))
  }

  function Except(slots: seq<Slot>, slot: Slot): seq<Slot> {
    if slots == [] then [] else (if slots[0] == slot then [] else [slots[0]]) + Except(slots[1..], slot)
  }

  /** Entries go one by one in index order, the index only after all of them. */
  predicate Purge(d: Disk, d': Disk, r: Result<()>) {
    || ReadRefused(d, d', r)
    || match LoadIndex(d.index)
       case Err(e) => d' == d && r == Err(e)
       case Ok(apps) =>
         if r.Ok? then d'.links == d.links - Ids(apps) && d'.index == None
         else
           && r == Err(CheckpointUnavailable)
           && (if d'.index == d.index then exists k: nat :: k <= |apps| && d'.links == d.links - Ids(apps[..k])
               else d'.index == None && d'.links == d.links - Ids(apps))
  }

  function Ids(apps: seq<string>): set<string> {
    set app | app in apps
  }

  /** The listings drop index rows whose entry is gone; they never touch an entry. */
  predicate PruneIndex(d: Disk, d': Disk, r: Result<()>) {
    || (d' == d && r.Err?)
    || (d'.links == d.links && LoadIndex(d.index).Ok?
        && var kept := Occupied(d, LoadIndex(d.index).value);
           if kept == LoadIndex(d.index).value then d'.index == d.index && r == Ok(())
           else PersistIndex(d.index, d'.index, kept, r))
  }

  function Occupied(d: Disk, apps: seq<string>): seq<string> {
    if apps == [] then []
    else (if ReadSlots(d, apps[0]) == Ok([]) then [] else [apps[0]]) + Occupied(d, apps[1..])
  }

  function PendingOf(d: Disk, app: string): Result<Pending> {
    match ReadSlots(d, app)
    case Err(e) => Err(e)
    case Ok(slots) => if FirstPending(slots) < |slots| then Ok(slots[FirstPending(slots)].pending)
      else Err(CheckpointRefused)
  }

  function LastInstalled(slots: seq<Slot>): Option<Installed> {
    if slots == [] then None
    else if slots[|slots| - 1].InstalledSlot? then Some(slots[|slots| - 1].link)
    else LastInstalled(slots[..|slots| - 1])
  }

  function InstalledOf(d: Disk, app: string): Result<Installed> {
    match ReadSlots(d, app)
    case Err(e) => Err(e)
    case Ok(slots) => if LastInstalled(slots).Some? then Ok(LastInstalled(slots).value) else Err(ApplicationNotLinked)
  }

  datatype Op =
    | OpPersist(p: Pending)
    | OpReplace(expected: Pending, replacement: Pending)
    | OpRemove(expected: Pending)
    | OpCompensate(anchor: Pending)
    | OpInstall(expected: Pending, link: Installed, bound: bool)
    | OpReplaceInstalled(current: Installed, next: Installed)
    | OpUnlink(app: string, snapshot: seq<Slot>, selected: Slot)
    | OpPurge
    | OpPrune

  predicate Step(d: Disk, d': Disk, op: Op, r: Result<()>) {
    match op
    case OpPersist(p) => Persist(d, d', p, r)
    case OpReplace(e, n) => Replace(d, d', e, n, r)
    case OpRemove(e) => RemovePending(d, d', e, r)
    case OpCompensate(a) => Compensate(d, d', a, r)
    case OpInstall(e, l, b) => Install(d, d', e, l, b, r)
    case OpReplaceInstalled(e, n) => ReplaceInstalled(d, d', e, n, r)
    case OpUnlink(app, snapshot, selected) => Unlink(d, d', app, snapshot, selected, r)
    case OpPurge => Purge(d, d', r)
    case OpPrune => PruneIndex(d, d', r)
  }

  /** A run of operations leads from one store to the other, whatever each of them answered. */
  ghost predicate Reached(d: Disk, d': Disk, ops: seq<Op>)
    decreases |ops|
  {
    if ops == [] then d' == d
    else
      var n := |ops| - 1;
      exists m, r :: Reached(d, m, ops[..n]) && Step(m, d', ops[n], r)
  }

  lemma ReachedNext(d: Disk, m: Disk, d': Disk, ops: seq<Op>, op: Op, r: Result<()>)
    requires Reached(d, m, ops) && Step(m, d', op, r)
    ensures Reached(d, d', ops + [op])
  {
    var all := ops + [op];
    assert all[..|ops|] == ops && all[|ops|] == op;
    assert Reached(d, m, all[..|ops|]) && Step(m, d', all[|ops|], r);
  }
}
