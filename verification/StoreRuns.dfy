/**
 What every run of link-store operations keeps, whatever writes fail and however they fail: the
 shape of each slot list, the order and bound of the index, and that no stored entry is out of the
 index's reach.
 */
module StoreRuns {
  import opened Prelude
  import opened Records
  import opened Links
  import opened LinkSpec

  predicate PendingLast(slots: seq<Slot>) {
    forall i :: 0 <= i < |slots| - 1 ==> slots[i].InstalledSlot?
  }

  predicate Indexed(d: Disk) {
    LoadIndex(d.index).Ok? && forall app :: app in d.links ==> app in LoadIndex(d.index).value
  }

  predicate Listed(d: Disk, app: string) {
    ReadSlots(d, app).Ok? && PendingLast(ReadSlots(d, app).value)
  }

  /** Every entry recognises with its pending last, the index recognises, and it names every entry. */
  ghost predicate Sound(d: Disk) {
    Indexed(d) && forall app :: Listed(d, app)
  }

  // ---- the index ----

  lemma {:induction false} PlaceSplits(apps: seq<string>, app: string)
    requires Ascending(apps) && app !in apps
    ensures forall i :: 0 <= i < Place(apps, app) ==> Less(apps[i], app)
    ensures forall i :: Place(apps, app) <= i < |apps| ==> Less(app, apps[i])
  {
    if apps != [] {
      LessTotal(apps[0], app);
      if Less(apps[0], app) {
        PlaceSplits(apps[1..], app);
        forall i | Place(apps, app) <= i < |apps| ensures Less(app, apps[i]) { assert apps[i] == apps[1..][i - 1]; }
      } else {
        forall i | 0 < i < |apps| ensures Less(app, apps[i]) { LessTransitive(app, apps[0], apps[i]); }
      }
    }
  }

  lemma InsertedMembers(apps: seq<string>, app: string)
    ensures forall x :: x in Inserted(apps, app) <==> x in apps || x == app
  {
    assert apps == apps[..Place(apps, app)] + apps[Place(apps, app)..];
  }

  lemma InsertedAscends(apps: seq<string>, app: string)
    requires Ascending(apps) && app !in apps
    ensures Ascending(Inserted(apps, app))
    ensures forall x :: x in Inserted(apps, app) <==> x in apps || x == app
  {
    PlaceSplits(apps, app);
    InsertedMembers(apps, app);
    var k, all := Place(apps, app), Inserted(apps, app);
    forall i, j | 0 <= i < j < |all|
      ensures Less(all[i], all[j])
    {
      if j < k { assert all[i] == apps[i] && all[j] == apps[j]; }
      else if i > k { assert all[i] == apps[i - 1] && all[j] == apps[j - 1]; }
      else if i < k < j { assert all[i] == apps[i] && all[j] == apps[j - 1]; }
      else if i < k { assert all[i] == apps[i]; }
      else { assert all[j] == apps[j - 1]; }
    }
  }

  lemma {:induction false} WithoutAscends(apps: seq<string>, app: string)
    requires Ascending(apps)
    ensures Ascending(Without(apps, app)) && |Without(apps, app)| <= |apps|
    ensures forall x :: x in Without(apps, app) <==> x in apps && x != app
  {
    if apps != [] {
      WithoutAscends(apps[1..], app);
      var rest := Without(apps[1..], app);
      assert forall x :: x in rest ==> x in apps[1..] && Less(apps[0], x);
    }
  }

  lemma {:induction false} OccupiedAscends(d: Disk, apps: seq<string>)
    requires Ascending(apps)
    ensures Ascending(Occupied(d, apps)) && |Occupied(d, apps)| <= |apps|
    ensures forall x :: x in Occupied(d, apps) <==> x in apps && ReadSlots(d, x) != Ok([])
  {
    if apps != [] {
      OccupiedAscends(d, apps[1..]);
      var rest := Occupied(d, apps[1..]);
      assert forall x :: x in rest ==> x in apps[1..] && Less(apps[0], x);
    }
  }

  lemma EnsureIndexedKeeps(i: Option<IndexText>, i': Option<IndexText>, app: string, r: Result<()>)
    requires LoadIndex(i).Ok? && EnsureIndexed(i, i', app, r)
    ensures LoadIndex(i').Ok?
    ensures forall x :: x in LoadIndex(i).value ==> x in LoadIndex(i').value
    ensures r.Ok? ==> app in LoadIndex(i').value
  {
    var apps := LoadIndex(i).value;
    if app !in apps { InsertedAscends(apps, app); }
  }

  // ---- one slot list ----

  /** A write of the slot list either leaves every entry, or leaves exactly the goal. */
  lemma WriteEffect(d: Disk, d': Disk, app: string, slots: seq<Slot>, r: Result<()>)
    requires WriteSlots(d, d', app, slots, r)
    ensures (ValidSlots(app, slots) && d'.links == WithEntry(d, app, Canonical(slots)).links)
      || (r.Err? && d'.links == d.links)
    ensures r.Err? && ValidSlots(app, slots) && d'.links == d.links ==>
              r == Err(CheckpointUnavailable) || d'.links == WithEntry(d, app, Canonical(slots)).links
  {}

  lemma GoalReads(d: Disk, d': Disk, app: string, slots: seq<Slot>)
    requires ValidSlots(app, slots) && d'.links == WithEntry(d, app, Canonical(slots)).links
    ensures ReadSlots(d', app) == Ok(slots)
    ensures forall other :: other != app ==> Entry(d', other) == Entry(d, other)
  {
    TextRoundTrip(app, slots, None);
  }

  /** Entries that still list, and an index that still names them, are a sound store. */
  lemma EntriesKeepSound(d: Disk, d': Disk, app: string, slots: seq<Slot>)
    requires Sound(d) && PendingLast(slots) && ValidSlots(app, slots)
    requires d'.links == WithEntry(d, app, Canonical(slots)).links && LoadIndex(d'.index).Ok?
    requires forall other :: other in d'.links ==> other in LoadIndex(d'.index).value
    ensures Sound(d')
  {
    GoalReads(d, d', app, slots);
    forall other ensures Listed(d', other) {
      assert Listed(d, other);
      if other != app { assert Entry(d', other) == Entry(d, other); }
    }
  }

  lemma SameEntriesKeepSound(d: Disk, d': Disk)
    requires Sound(d) && d'.links == d.links && LoadIndex(d'.index).Ok?
    requires forall other :: other in d'.links ==> other in LoadIndex(d'.index).value
    ensures Sound(d')
  {
    forall other ensures Listed(d', other) {
      assert Listed(d, other) && Entry(d', other) == Entry(d, other);
    }
  }

  lemma WriteKeepsSound(d: Disk, d': Disk, app: string, slots: seq<Slot>, r: Result<()>)
    requires Sound(d) && WriteSlots(d, d', app, slots, r) && PendingLast(slots)
    requires slots != [] ==> app in LoadIndex(d.index).value
    ensures Sound(d')
  {
    WriteEffect(d, d', app, slots, r);
    WithoutAscends(LoadIndex(d.index).value, app);
    if d'.links == d.links { SameEntriesKeepSound(d, d'); } else { EntriesKeepSound(d, d', app, slots); }
  }

  lemma SlotOfEntry(d: Disk, app: string)
    requires Sound(d) && ReadSlots(d, app).Ok? && ReadSlots(d, app).value != []
    ensures app in d.links && app in LoadIndex(d.index).value && ValidSlots(app, ReadSlots(d, app).value)
    ensures PendingLast(ReadSlots(d, app).value)
  {
    assert Listed(d, app);
    TextRoundTrip(app, ReadSlots(d, app).value, Entry(d, app));
  }

  lemma {:induction false} ExceptLast(slots: seq<Slot>, slot: Slot)
    requires PendingLast(slots)
    ensures PendingLast(Except(slots, slot))
    ensures Except(slots, slot) != [] ==> slots != [] && Except(slots, slot)[|Except(slots, slot)| - 1] in slots
  {
    if slots != [] { ExceptLast(slots[1..], slot); ExceptInstalled(slots[1..], slot); }
  }

  lemma {:induction false} ExceptInstalled(slots: seq<Slot>, slot: Slot)
    ensures forall x :: x in Except(slots, slot) <==> x in slots && x != slot
  {
    if slots != [] { ExceptInstalled(slots[1..], slot); }
  }

  lemma PersistKeepsSound(d: Disk, d': Disk, p: Pending, r: Result<()>)
    requires Sound(d) && Persist(d, d', p, r)
    ensures Sound(d')
  {
    if d' != d {
      var app := p.application;
      var next := ReadSlots(d, app).value + [PendingSlot(p)];
      if d'.links != d.links {
        EnsureIndexedKeeps(d.index, d'.index, app, Ok(()));
        EntriesKeepSound(d, d', app, next);
      } else if EnsureIndexed(d.index, d'.index, app, r) {
        EnsureIndexedKeeps(d.index, d'.index, app, r);
        SameEntriesKeepSound(d, d');
      } else {
        EnsureIndexedKeeps(d.index, d'.index, app, Ok(()));
        SameEntriesKeepSound(d, d');
      }
    }
  }

  lemma PurgeKeepsSound(d: Disk, d': Disk, r: Result<()>)
    requires Sound(d) && Purge(d, d', r)
    ensures Sound(d')
  {
    var apps := LoadIndex(d.index).value;
    forall app ensures Listed(d', app) {
      assert Listed(d, app);
      assert Entry(d', app) in {None, Entry(d, app)};
    }
    forall app | app in d'.links ensures app in LoadIndex(d'.index).value {
      assert app in d.links;
    }
  }

  lemma PruneKeepsSound(d: Disk, d': Disk, r: Result<()>)
    requires Sound(d) && PruneIndex(d, d', r)
    ensures Sound(d')
  {
    if d' != d {
      var apps := LoadIndex(d.index).value;
      OccupiedAscends(d, apps);
      forall app ensures Listed(d', app) { assert Listed(d, app); assert Entry(d', app) == Entry(d, app); }
      forall app | app in d'.links ensures app in LoadIndex(d'.index).value {
        assert Listed(d, app);
        TextRoundTrip(app, [], Entry(d, app));
      }
    }
  }

  /** Rewriting one slot in place, or dropping the pending last one, keeps the shape. */
  lemma RewriteKeepsSound(d: Disk, d': Disk, app: string, k: nat, slot: Slot, r: Result<()>)
    requires Sound(d) && ReadSlots(d, app).Ok? && k < |ReadSlots(d, app).value|
    requires slot.InstalledSlot? || ReadSlots(d, app).value[k].PendingSlot?
    requires WriteSlots(d, d', app, ReadSlots(d, app).value[k := slot], r)
    ensures Sound(d')
  {
    SlotOfEntry(d, app);
    WriteKeepsSound(d, d', app, ReadSlots(d, app).value[k := slot], r);
  }

  lemma RemovalKeepsSound(d: Disk, d': Disk, app: string, k: nat, r: Result<()>)
    requires Sound(d) && ReadSlots(d, app).Ok? && k < |ReadSlots(d, app).value|
      && ReadSlots(d, app).value[k].PendingSlot?
    requires WriteSlots(d, d', app, Removed(ReadSlots(d, app).value, k), r)
    ensures Sound(d')
  {
    SlotOfEntry(d, app);
    WriteKeepsSound(d, d', app, Removed(ReadSlots(d, app).value, k), r);
  }

  lemma UnlinkKeepsSound(d: Disk, d': Disk, app: string, snapshot: seq<Slot>, selected: Slot, r: Result<()>)
    requires Sound(d) && Unlink(d, d', app, snapshot, selected, r)
    ensures Sound(d')
  {
    if d' != d {
      assert Listed(d, app);
      ExceptLast(snapshot, selected);
      if snapshot != [] { SlotOfEntry(d, app); }
      WriteKeepsSound(d, d', app, if selected.PendingSlot? then Except(snapshot, selected) else [], r);
    }
  }

  /** No operation, whatever fails, leaves the shape the store is kept in. */
  lemma StepKeepsSound(d: Disk, d': Disk, op: Op, r: Result<()>)
    requires Sound(d) && Step(d, d', op, r)
    ensures Sound(d')
  {
    if d' != d {
      match op
      case OpPersist(p) => PersistKeepsSound(d, d', p, r);
      case OpReplace(e, n) =>
        RewriteKeepsSound(d, d', e.application, FirstEqual(ReadSlots(d, e.application).value, PendingSlot(e)),
                          PendingSlot(n), r);
      case OpRemove(e) =>
        RemovalKeepsSound(d, d', e.application, FirstEqual(ReadSlots(d, e.application).value, PendingSlot(e)), r);
      case OpCompensate(a) =>
        RemovalKeepsSound(d, d', a.application, FirstPending(ReadSlots(d, a.application).value), r);
      case OpInstall(e, l, _) =>
        RewriteKeepsSound(d, d', e.application, FirstEqual(ReadSlots(d, e.application).value, PendingSlot(e)),
                          InstalledSlot(l), r);
      case OpReplaceInstalled(c, n) =>
        RewriteKeepsSound(d, d', c.application, FirstEqual(ReadSlots(d, c.application).value, InstalledSlot(c)),
                          InstalledSlot(n), r);
      case OpUnlink(app, snapshot, selected) => UnlinkKeepsSound(d, d', app, snapshot, selected, r);
      case OpPurge => PurgeKeepsSound(d, d', r);
      case OpPrune => PruneKeepsSound(d, d', r);
    }
  }

  lemma {:induction false} ReachedSound(d: Disk, d': Disk, ops: seq<Op>)
    requires Sound(d) && Reached(d, d', ops)
    ensures Sound(d')
    decreases |ops|
  {
    if ops != [] {
      var n := |ops| - 1;
      var m, r :| Reached(d, m, ops[..n]) && Step(m, d', ops[n], r);
      ReachedSound(d, m, ops[..n]);
      StepKeepsSound(m, d', ops[n], r);
    }
  }

  // ---- whole runs ----

  ghost predicate Run(ds: seq<Disk>, ops: seq<Op>, rs: seq<Result<()>>) {
    && |ds| == |ops| + 1 && |rs| == |ops|
    && ds[0] == Disk(map[], None)
    && forall i :: 0 <= i < |ops| ==> Step(ds[i], ds[i + 1], ops[i], rs[i])
  }

  /** Every reachable store is sound. */
  lemma {:induction false} ReachableSound(ds: seq<Disk>, ops: seq<Op>, rs: seq<Result<()>>, i: nat)
    requires Run(ds, ops, rs) && i < |ds|
    ensures Sound(ds[i])
  {
    if i > 0 {
      ReachableSound(ds, ops, rs, i - 1);
      StepKeepsSound(ds[i - 1], ds[i], ops[i - 1], rs[i - 1]);
    }
  }

  /** What soundness says of one application and of the index, spelled out. */
  lemma SoundMeans(d: Disk, app: string)
    requires Sound(d)
    ensures ReadSlots(d, app).Ok?
    ensures var slots := ReadSlots(d, app).value;
      && |slots| <= 16
      && (forall i :: 0 <= i < |slots| && slots[i].PendingSlot? ==> i == |slots| - 1)
      && (forall i, j :: 0 <= i < j < |slots| ==>
            slots[i].link.rootGeneration == match slots[j] case PendingSlot(p) => p.rootGeneration
                                                           case InstalledSlot(link) => link.rootGeneration)
      && (forall i, j :: 0 <= i < j < |slots| && slots[j].InstalledSlot? ==>
            slots[i].link.ceremony != slots[j].link.ceremony && slots[i].link.device != slots[j].link.device)
      && (slots != [] ==> app in LoadIndex(d.index).value)
    ensures Ascending(LoadIndex(d.index).value) && |LoadIndex(d.index).value| <= 256
  {
    assert Listed(d, app);
    if ReadSlots(d, app).value != [] { SlotOfEntry(d, app); }
    var slots := ReadSlots(d, app).value;
    forall i, j | 0 <= i < j < |slots|
      ensures Siblings(slots[i], slots[j])
    {}
  }

  /** A purge that reports success leaves no slot of any application, and no index. */
  lemma PurgeLeavesNothing(ds: seq<Disk>, ops: seq<Op>, rs: seq<Result<()>>, i: nat)
    requires Run(ds, ops, rs) && i < |ops| && ops[i] == OpPurge && rs[i] == Ok(())
    ensures ds[i + 1] == Disk(map[], None)
  {
    ReachableSound(ds, ops, rs, i);
    var d := ds[i];
    assert d.links.Keys <= Ids(LoadIndex(d.index).value);
    assert ds[i + 1].links == map[];
  }

  // ---- the newest installed device ----

  lemma {:induction false} LastOfAppended(slots: seq<Slot>, slot: Slot)
    ensures LastInstalled(slots + [slot]) == if slot.InstalledSlot? then Some(slot.link) else LastInstalled(slots)
  {
    assert (slots + [slot])[..|slots|] == slots;
  }

  lemma {:induction false} LastOfExcept(slots: seq<Slot>, slot: Slot)
    requires slot.PendingSlot? && PendingLast(slots)
    ensures LastInstalled(Except(slots, slot)) == LastInstalled(slots)
  {
    if slots == [] {
    } else if |slots| == 1 {
      assert slots[1..] == [];
    } else {
      LastOfExcept(slots[1..], slot);
      LastOfCons(slots[0], slots[1..]);
      LastOfCons(slots[0], Except(slots[1..], slot));
      assert slots == [slots[0]] + slots[1..];
    }
  }

  lemma {:induction false} LastOfCons(slot: Slot, rest: seq<Slot>)
    requires slot.InstalledSlot?
    ensures LastInstalled([slot] + rest) == Some(if LastInstalled(rest).Some? then LastInstalled(rest).value
                                                 else slot.link)
  {
    if rest != [] {
      assert ([slot] + rest)[..|rest|] == [slot] + rest[..|rest| - 1];
      LastOfCons(slot, rest[..|rest| - 1]);
    }
  }

  lemma LastOfUpdate(slots: seq<Slot>, k: nat, slot: Slot)
    requires PendingLast(slots) && k < |slots|
    requires slots[k].PendingSlot? == slot.PendingSlot?
    ensures slots[k].PendingSlot? ==> LastInstalled(slots[k := slot]) == LastInstalled(slots)
    ensures slots[k].InstalledSlot? && LastInstalled(slots) == Some(slots[k].link)
            && (forall i :: 0 <= i < |slots| && i != k ==> slots[i] != slots[k])
            ==> LastInstalled(slots[k := slot]) == Some(slot.link)
    ensures slots[k].InstalledSlot? && LastInstalled(slots) != Some(slots[k].link)
            ==> LastInstalled(slots[k := slot]) == LastInstalled(slots)
  {
    var n := |slots| - 1;
    if slots[n].PendingSlot? && n > 0 {
      assert slots[..n][n - 1].InstalledSlot?;
      if k == n { assert slots[k := slot][..n] == slots[..n]; }
      else {
        assert slots[k := slot][..n] == slots[..n][k := slot];
        assert LastInstalled(slots) == Some(slots[n - 1].link);
        if slots[k].link == slots[n - 1].link { assert slots[k] == slots[n - 1]; }
      }
    }
  }

  /** The application an operation may touch. */
  function Target(op: Op): Option<string> {
    match op
    case OpPersist(p) => Some(p.application)
    case OpReplace(e, _) => Some(e.application)
    case OpRemove(e) => Some(e.application)
    case OpCompensate(a) => Some(a.application)
    case OpInstall(e, _, _) => Some(e.application)
    case OpReplaceInstalled(c, _) => Some(c.application)
    case OpUnlink(app, _, _) => Some(app)
    case OpPurge => None
    case OpPrune => None
  }

  lemma PendingsElsewhere(d: Disk, d': Disk, op: Op, r: Result<()>, app: string)
    requires Step(d, d', op, r) && Target(op) != Some(app)
    requires op.OpPersist? || op.OpReplace? || op.OpRemove? || op.OpCompensate?
    ensures Entry(d', app) == Entry(d, app)
  {}

  /** An operation leaves every other application's entry alone; purge and pruning only delete or skip. */
  lemma OthersUntouched(d: Disk, d': Disk, op: Op, r: Result<()>, app: string)
    requires Sound(d) && Step(d, d', op, r) && Target(op) != Some(app)
    ensures Entry(d', app) == Entry(d, app) || (op.OpPurge? && Entry(d', app) == None)
  {
    match op
    case OpInstall(_, _, _) =>
    case OpReplaceInstalled(_, _) =>
    case OpUnlink(_, _, _) =>
    case OpPurge =>
    case OpPrune =>
    case _ => PendingsElsewhere(d, d', op, r, app);
  }

  /** What a reported success has made of the slots of its application. */
  predicate Success(op: Op, a: seq<Slot>, b: seq<Slot>) {
    var own := a != [] && a[|a| - 1].PendingSlot?;
    var front := if a == [] then [] else a[..|a| - 1];
    match op
    case OpPersist(p) => p.Valid() && if own then b == a && a[|a| - 1].pending == p else b == a + [PendingSlot(p)]
    case OpReplace(e, n) => n.Valid() && own && a[|a| - 1].pending == e && b == front + [PendingSlot(n)]
    case OpRemove(e) => own && a[|a| - 1].pending == e && b == front
    case OpCompensate(anchor) =>
      if a == [] then b == a
      else
        && own && SameAttempt(a[|a| - 1].pending, anchor)
        && b == if a[|a| - 1].pending.stage.PayloadPrepared? then a else front
    case OpInstall(e, link, bound) =>
      && bound && link.Valid() && e.rootGeneration == link.rootGeneration && e.profileDigest == link.profileDigest
      && if own && a[|a| - 1].pending == e then b == front + [InstalledSlot(link)]
         else b == a && InstalledSlot(link) in a
    case OpReplaceInstalled(c, n) =>
      && n.Valid() && SameButProfile(c, n)
      && if InstalledSlot(c) in a
         then exists k :: 0 <= k < |a| && a[k] == InstalledSlot(c) && b == a[k := InstalledSlot(n)]
         else b == a && InstalledSlot(n) in a
    case OpUnlink(_, snapshot, selected) =>
      && a == snapshot
      && b == if !selected.PendingSlot? then [] else if own && a[|a| - 1] == selected then front else a
    case OpPurge => b == []
    case OpPrune => b == a
  }

  lemma {:induction false} ExceptAbsent(slots: seq<Slot>, slot: Slot)
    requires slot !in slots
    ensures Except(slots, slot) == slots
  {
    if slots != [] { ExceptAbsent(slots[1..], slot); }
  }

  lemma {:induction false} ExceptOwn(slots: seq<Slot>, slot: Slot)
    requires slots != [] && slots[|slots| - 1] == slot && slot !in slots[..|slots| - 1]
    ensures Except(slots, slot) == slots[..|slots| - 1]
  {
    if |slots| > 1 {
      assert slots[1..][..|slots| - 2] == slots[..|slots| - 1][1..];
      ExceptOwn(slots[1..], slot);
    } else {
      assert slots[1..] == [];
    }
  }

  lemma UnlinkSuccess(d: Disk, d': Disk, app: string, snapshot: seq<Slot>, selected: Slot)
    requires Sound(d) && Sound(d') && Unlink(d, d', app, snapshot, selected, Ok(()))
    ensures Success(OpUnlink(app, snapshot, selected), ReadSlots(d, app).value, ReadSlots(d', app).value)
  {
    assert Listed(d, app) && Listed(d', app);
    var rest := if selected.PendingSlot? then Except(snapshot, selected) else [];
    WriteEffect(d, d', app, rest, Ok(()));
    GoalReads(d, d', app, rest);
    if selected.PendingSlot? {
      if selected in snapshot {
        assert snapshot[|snapshot| - 1] == selected;
        ExceptOwn(snapshot, selected);
      } else {
        ExceptAbsent(snapshot, selected);
      }
    }
  }

  lemma PersistSuccess(d: Disk, d': Disk, p: Pending)
    requires Sound(d) && Sound(d') && Persist(d, d', p, Ok(()))
    ensures Success(OpPersist(p), ReadSlots(d, p.application).value, ReadSlots(d', p.application).value)
  {
    var app := p.application;
    assert Listed(d, app) && Listed(d', app);
    TextRoundTrip(app, ReadSlots(d, app).value + [PendingSlot(p)], None);
  }

  lemma ReplaceSuccess(d: Disk, d': Disk, e: Pending, n: Pending)
    requires Sound(d) && Sound(d') && Replace(d, d', e, n, Ok(()))
    ensures Success(OpReplace(e, n), ReadSlots(d, e.application).value, ReadSlots(d', e.application).value)
  {
    var app := e.application;
    assert Listed(d, app) && Listed(d', app);
    var slots := ReadSlots(d, app).value;
    GoalReads(d, d', app, slots[FirstEqual(slots, PendingSlot(e)) := PendingSlot(n)]);
  }

  lemma RemoveSuccess(d: Disk, d': Disk, e: Pending)
    requires Sound(d) && Sound(d') && RemovePending(d, d', e, Ok(()))
    ensures Success(OpRemove(e), ReadSlots(d, e.application).value, ReadSlots(d', e.application).value)
  {
    var app := e.application;
    assert Listed(d, app) && Listed(d', app);
    var slots := ReadSlots(d, app).value;
    var next := Removed(slots, FirstEqual(slots, PendingSlot(e)));
    WriteEffect(d, d', app, next, Ok(()));
    GoalReads(d, d', app, next);
  }

  lemma CompensateSuccess(d: Disk, d': Disk, a: Pending)
    requires Sound(d) && Sound(d') && Compensate(d, d', a, Ok(()))
    ensures Success(OpCompensate(a), ReadSlots(d, a.application).value, ReadSlots(d', a.application).value)
  {
    var app := a.application;
    assert Listed(d, app) && Listed(d', app);
    var slots := ReadSlots(d, app).value;
    if slots != [] && !slots[FirstPending(slots)].pending.stage.PayloadPrepared? {
      var next := Removed(slots, FirstPending(slots));
      WriteEffect(d, d', app, next, Ok(()));
      GoalReads(d, d', app, next);
    }
  }

  lemma LinkSuccess(d: Disk, d': Disk, op: Op, app: string)
    requires Sound(d) && Sound(d') && Step(d, d', op, Ok(())) && Target(op) == Some(app)
    requires op.OpInstall? || op.OpReplaceInstalled?
    ensures Success(op, ReadSlots(d, app).value, ReadSlots(d', app).value)
  {
    assert Listed(d, app) && Listed(d', app);
    var slots := ReadSlots(d, app).value;
    match op
    case OpInstall(e, link, _) =>
      var k := FirstEqual(slots, PendingSlot(e));
      if k < |slots| { GoalReads(d, d', app, slots[k := InstalledSlot(link)]); }
    case OpReplaceInstalled(c, n) =>
      var k := FirstEqual(slots, InstalledSlot(c));
      if k < |slots| { GoalReads(d, d', app, slots[k := InstalledSlot(n)]); }
  }

  /**
   Whatever failures it survived inside, an operation that reports success has done its one thing: the slots of
   its application are what they were but for that, and every other application's are untouched.
   */
  lemma SuccessMeans(d: Disk, d': Disk, op: Op, app: string)
    requires Sound(d) && Step(d, d', op, Ok(())) && (Target(op).Some? ==> Target(op) == Some(app))
    ensures ReadSlots(d, app).Ok? && ReadSlots(d', app).Ok?
    ensures Success(op, ReadSlots(d, app).value, ReadSlots(d', app).value)
    ensures Target(op).Some? ==> forall other :: other != app ==> Entry(d', other) == Entry(d, other)
  {
    StepKeepsSound(d, d', op, Ok(()));
    assert Listed(d, app) && Listed(d', app);
    if Target(op).Some? {
      forall other | other != app ensures Entry(d', other) == Entry(d, other) {
        OthersUntouched(d, d', op, Ok(()), other);
      }
    }
    match op
    case OpUnlink(_, snapshot, selected) => UnlinkSuccess(d, d', app, snapshot, selected);
    case OpPurge =>
      assert d.links.Keys <= Ids(LoadIndex(d.index).value);
      assert Entry(d', app) == None;
    case OpPrune => assert Entry(d', app) == Entry(d, app);
    case OpInstall(_, _, _) => LinkSuccess(d, d', op, app);
    case OpReplaceInstalled(_, _) => LinkSuccess(d, d', op, app);
    case OpPersist(p) => PersistSuccess(d, d', p);
    case OpReplace(e, n) => ReplaceSuccess(d, d', e, n);
    case OpRemove(e) => RemoveSuccess(d, d', e);
    case OpCompensate(a) => CompensateSuccess(d, d', a);
  }

  /** What one step makes of the newest device of an application. */
  ghost function Moved(before: Option<Installed>, d: Disk, d': Disk, op: Op, app: string): Option<Installed> {
    var committed := d'.links != d.links;
    if app !in d'.links then None
    else match op
      case OpInstall(e, link, _) => if committed && e.application == app then Some(link) else before
      case OpReplaceInstalled(current, next) => if committed && before == Some(current) then Some(next) else before
      case _ => before
  }

  ghost function Device(d: Disk, app: string): Option<Installed>
    requires Sound(d)
  {
    assert Listed(d, app);
    LastInstalled(ReadSlots(d, app).value)
  }

  lemma {:induction false} LastIsMember(slots: seq<Slot>)
    ensures LastInstalled(slots).Some? ==> InstalledSlot(LastInstalled(slots).value) in slots
  {
    if slots != [] && slots[|slots| - 1].PendingSlot? { LastIsMember(slots[..|slots| - 1]); }
  }

  lemma DeviceApplication(d: Disk, app: string)
    requires Sound(d) && Device(d, app).Some?
    ensures Device(d, app).value.application == app
  {
    assert Listed(d, app);
    LastIsMember(ReadSlots(d, app).value);
    TextRoundTrip(app, ReadSlots(d, app).value, Entry(d, app));
  }

  /** The write an operation makes to its own application, and what it does to the newest device. */
  lemma DeviceOfWrite(d: Disk, d': Disk, app: string, next: seq<Slot>, r: Result<()>)
    requires Sound(d) && Sound(d') && WriteSlots(d, d', app, next, r) && d'.links != d.links
    ensures app in d'.links ==> Device(d', app) == LastInstalled(next) && ReadSlots(d', app) == Ok(next)
  {
    TextRoundTrip(app, next, None);
  }

  lemma MovedByInstall(d: Disk, d': Disk, e: Pending, link: Installed, bound: bool, r: Result<()>)
    requires Sound(d) && Sound(d') && Install(d, d', e, link, bound, r) && d'.links != d.links
    ensures e.application in d'.links ==> Device(d', e.application) == Some(link)
  {
    var app := e.application;
    assert Listed(d, app);
    var slots := ReadSlots(d, app).value;
    var k := FirstEqual(slots, PendingSlot(e));
    DeviceOfWrite(d, d', app, slots[k := InstalledSlot(link)], r);
  }

  lemma MovedByRepin(d: Disk, d': Disk, c: Installed, n: Installed, r: Result<()>)
    requires Sound(d) && Sound(d') && ReplaceInstalled(d, d', c, n, r) && d'.links != d.links
    ensures c.application in d'.links ==>
              Device(d', c.application) == if Device(d, c.application) == Some(c) then Some(n)
                else Device(d, c.application)
  {
    var app := c.application;
    assert Listed(d, app);
    var slots := ReadSlots(d, app).value;
    var k := FirstEqual(slots, InstalledSlot(c));
    SoundMeans(d, app);
    LastOfUpdate(slots, k, InstalledSlot(n));
    DeviceOfWrite(d, d', app, slots[k := InstalledSlot(n)], r);
  }

  lemma MovedByPending(d: Disk, d': Disk, op: Op, r: Result<()>, app: string)
    requires Sound(d) && Sound(d') && Step(d, d', op, r) && d'.links != d.links && Target(op) == Some(app)
    requires op.OpPersist? || op.OpReplace? || op.OpRemove? || op.OpCompensate? || op.OpUnlink?
    ensures app in d'.links ==> Device(d', app) == Device(d, app)
  {
    assert Listed(d, app) && Listed(d', app);
    var slots := ReadSlots(d, app).value;
    match op
    case OpPersist(p) =>
      TextRoundTrip(app, slots + [PendingSlot(p)], None);
      LastOfAppended(slots, PendingSlot(p));
    case OpReplace(e, n) =>
      var k := FirstEqual(slots, PendingSlot(e));
      LastOfUpdate(slots, k, PendingSlot(n));
      DeviceOfWrite(d, d', app, slots[k := PendingSlot(n)], r);
    case OpRemove(e) => RemovedLast(slots, FirstEqual(slots, PendingSlot(e)));
      DeviceOfWrite(d, d', app, Removed(slots, FirstEqual(slots, PendingSlot(e))), r);
    case OpCompensate(a) => RemovedLast(slots, FirstPending(slots));
      DeviceOfWrite(d, d', app, Removed(slots, FirstPending(slots)), r);
    case OpUnlink(_, snapshot, selected) =>
      if selected.PendingSlot? { LastOfExcept(snapshot, selected); }
      DeviceOfWrite(d, d', app, if selected.PendingSlot? then Except(snapshot, selected) else [], r);
  }

  lemma RemovedLast(slots: seq<Slot>, k: nat)
    requires PendingLast(slots) && k < |slots| && slots[k].PendingSlot?
    ensures k == |slots| - 1 && Removed(slots, k) == slots[..k]
      && LastInstalled(Removed(slots, k)) == LastInstalled(slots)
  {}

  /** One step moves the newest device exactly as the history says. */
  lemma DeviceStep(d: Disk, d': Disk, op: Op, r: Result<()>, app: string)
    requires Sound(d) && Step(d, d', op, r)
    ensures Sound(d') && Device(d', app) == Moved(Device(d, app), d, d', op, app)
  {
    StepKeepsSound(d, d', op, r);
    assert Listed(d, app) && Listed(d', app);
    if Device(d, app).Some? { DeviceApplication(d, app); }
    if Target(op) != Some(app) {
      OthersUntouched(d, d', op, r, app);
    } else if d'.links != d.links && app in d'.links {
      match op
      case OpInstall(e, link, b) => MovedByInstall(d, d', e, link, b, r);
      case OpReplaceInstalled(c, n) => MovedByRepin(d, d', c, n, r);
      case _ => MovedByPending(d, d', op, r, app);
    }
  }

  /** The device a person would expect: the last install committed, as since re-pinned, unless unlinked. */
  ghost function Newest(ds: seq<Disk>, ops: seq<Op>, app: string): Option<Installed>
    requires |ds| == |ops| + 1
  {
    if ops == [] then None
    else
      var n := |ops| - 1;
      Moved(Newest(ds[..n + 1], ops[..n], app), ds[n], ds[n + 1], ops[n], app)
  }

  /** In every run the loader returns the newest device of the history. */
  lemma {:induction false} LoadsNewest(ds: seq<Disk>, ops: seq<Op>, rs: seq<Result<()>>, app: string)
    requires Run(ds, ops, rs)
    ensures Sound(ds[|ops|])
    ensures InstalledOf(ds[|ops|], app) ==
            match Newest(ds, ops, app) case Some(link) => Ok(link) case None => Err(ApplicationNotLinked)
    decreases |ops|
  {
    ReachableSound(ds, ops, rs, |ops|);
    assert Listed(ds[|ops|], app);
    if ops != [] {
      var n := |ops| - 1;
      LoadsNewest(ds[..n + 1], ops[..n], rs[..n], app);
      ReachableSound(ds, ops, rs, n);
      assert Listed(ds[n], app);
      DeviceStep(ds[n], ds[n + 1], ops[n], rs[n], app);
    }
  }
}
