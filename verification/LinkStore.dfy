/**
 The link store itself: read, recognise, write, under one process-wide lock, so each method is one
 indivisible step. Every write may be refused, may commit, or may commit and report failure.
 */
module LinkStore {
  import opened Prelude
  import opened Records
  import opened Links
  import opened LinkSpec

  lemma {:induction false} PlaceAt(apps: seq<string>, app: string, k: nat)
    requires k <= |apps|
    requires forall i :: 0 <= i < k ==> Less(apps[i], app)
    requires k < |apps| ==> !Less(apps[k], app)
    ensures Place(apps, app) == k
  {
    if k > 0 { PlaceAt(apps[1..], app, k - 1); }
  }

  lemma {:induction false} OccupiedStep(d: Disk, apps: seq<string>, app: string)
    ensures Occupied(d, apps + [app]) == Occupied(d, apps) + (if ReadSlots(d, app) == Ok([]) then [] else [app])
  {
    if apps == [] {
      assert apps + [app] == [app];
    } else {
      assert (apps + [app])[1..] == apps[1..] + [app];
      OccupiedStep(d, apps[1..], app);
    }
  }

  class LinkStore {
    var links: map<string, SlotText>
    var index: Option<IndexText>
    /** What every compensation so far answered to the destructor that discarded it. */
    ghost var compensated: seq<Result<()>>
    /** What other commands did between two sections of the one this store is seen by. */
    ghost var others: seq<Op>

    function View(): Disk
      reads `links, `index
    {
      Disk(links, index)
    }

    constructor ()
      ensures View() == Disk(map[], None) && compensated == [] && others == []
    {
      links, index, compensated, others := map[], None, [], [];
    }

    // ---- the secure-store backend ----

    method GetEntry(app: string) returns (r: Result<Option<SlotText>>)
      ensures r == Ok(Entry(View(), app)) || r == Err(CheckpointUnavailable)
    {
      if * { return Err(CheckpointUnavailable); }
      return Ok(if app in links then Some(links[app]) else None);
    }

    method SetEntry(app: string, text: SlotText) returns (r: Result<()>)
      modifies `links
      ensures Wrote(old(links), links, old(links)[app := text], r.Ok?) && Reports(r)
    {
      if * { return Err(CheckpointUnavailable); }
      links := links[app := text];
      if * { return Err(CheckpointUnavailable); }
      return Ok(());
    }

    method DeleteEntry(app: string) returns (r: Result<()>)
      modifies `links
      ensures Wrote(old(links), links, old(links) - {app}, r.Ok?) && Reports(r)
    {
      if * { return Err(CheckpointUnavailable); }
      links := links - {app};
      if * { return Err(CheckpointUnavailable); }
      return Ok(());
    }

    method PutIndex(goal: Option<IndexText>) returns (r: Result<()>)
      modifies `index
      ensures Wrote(old(index), index, goal, r.Ok?) && Reports(r)
    {
      if * { return Err(CheckpointUnavailable); }
      index := goal;
      if * { return Err(CheckpointUnavailable); }
      return Ok(());
    }

    // ---- the index ----

    method ReadIndex() returns (r: Result<seq<string>>)
      ensures r == LoadIndex(index) || r == Err(CheckpointUnavailable)
    {
      if * { return Err(CheckpointUnavailable); }
      return LoadIndex(index);
    }

    /** `validate_index`, then delete an emptied index or replace it. */
    method StoreIndex(apps: seq<string>) returns (r: Result<()>)
      modifies `index
      ensures PersistIndex(old(index), index, apps, r)
    {
      if |apps| > MAX_LINKS { return Err(CheckpointRefused); }
      for k := 0 to |apps|
        invariant Ascending(apps[..k])
      {
        if k > 0 && !Less(apps[k - 1], apps[k]) { return Err(CheckpointRefused); }
        forall i | 0 <= i < k
          ensures Less(apps[i], apps[k])
        {
          if i < k - 1 { assert Less(apps[..k][i], apps[..k][k - 1]); LessTransitive(apps[i], apps[k - 1], apps[k]); }
        }
        assert forall i, j :: 0 <= i < j < k ==> Less(apps[..k][i], apps[..k][j]);
      }
      assert apps[..|apps|] == apps;
      r := PutIndex(IndexGoal(apps));
    }

    method Search(apps: seq<string>, app: string) returns (found: bool, place: nat)
      requires Ascending(apps)
      ensures found <==> app in apps
      ensures !found ==> place == Place(apps, app)
    {
      var lo, hi := 0, |apps|;
      while lo < hi
        invariant 0 <= lo <= hi <= |apps|
        invariant forall i :: 0 <= i < lo ==> Less(apps[i], app)
        invariant forall i :: hi <= i < |apps| ==> Less(app, apps[i])
      {
        var mid := (lo + hi) / 2;
        if apps[mid] == app { return true, mid; }
        LessTotal(apps[mid], app);
        if Less(apps[mid], app) {
          forall i | lo <= i < mid ensures Less(apps[i], app) { LessTransitive(apps[i], apps[mid], app); }
          lo := mid + 1;
        } else {
          forall i | mid < i < hi ensures Less(app, apps[i]) { LessTransitive(app, apps[mid], apps[i]); }
          hi := mid;
        }
      }
      LessIrreflexive(app);
      forall i | hi <= i < |apps| ensures !Less(apps[i], app) {
        if Less(apps[i], app) { LessTransitive(app, apps[i], app); }
      }
      PlaceAt(apps, app, lo);
      return false, lo;
    }

    method EnsureIndexedRow(app: string) returns (r: Result<()>)
      modifies `index
      ensures EnsureIndexed(old(index), index, app, r)
    {
      var loaded := ReadIndex();
      if loaded.Err? { return Err(loaded.error); }
      var found, place := Search(loaded.value, app);
      if found { return Ok(()); }
      if |loaded.value| >= MAX_LINKS { return Err(CheckpointUnavailable); }
      r := StoreIndex(loaded.value[..place] + [app] + loaded.value[place..]);
    }

    // ---- the slot list ----

    method ReadSlotList(app: string) returns (r: Result<seq<Slot>>)
      ensures r == ReadSlots(View(), app) || r == Err(CheckpointUnavailable)
    {
      var text := GetEntry(app);
      if text.Err? { return Err(text.error); }
      match text.value
      case None => r := Ok([]);
      case Some(Single(slot)) =>
        r := if slot.Valid() && slot.Application() == app then Ok([slot]) else Err(CheckpointRefused);
      case Some(Bundle(version, bundled)) =>
        if version != 2 || |bundled| < 2 { return Err(CheckpointRefused); }
        var valid := ValidateSlots(app, bundled);
        r := if valid.Ok? then Ok(bundled) else Err(CheckpointRefused);
      case Some(Foreign) => r := Err(CheckpointRefused);
    }

    method WriteSlotList(app: string, slots: seq<Slot>) returns (r: Result<()>)
      modifies `links, `index
      ensures WriteSlots(old(View()), View(), app, slots, r)
    {
      r := ValidateSlots(app, slots);
      if r.Err? { return; }
      if slots == [] {
        r := DeleteEntry(app);
        if r.Err? { return; }
        var loaded := ReadIndex();
        if loaded.Err? { return Err(loaded.error); }
        r := StoreIndex(Without(loaded.value, app));
      } else {
        r := SetEntry(app, if |slots| == 1 then Single(slots[0]) else Bundle(2, slots));
      }
    }

    /** `slots.iter().position(..)` for the first pending slot. */
    method FindPending(slots: seq<Slot>) returns (k: nat)
      ensures k == FirstPending(slots)
    {
      k := 0;
      while k < |slots| && !slots[k].PendingSlot?
        invariant k <= |slots| && FirstPending(slots) == k + FirstPending(slots[k..])
      {
        k := k + 1;
      }
    }

    /** `slots.iter().position(..)` for the first slot equal to `slot`. */
    method Find(slots: seq<Slot>, slot: Slot) returns (k: nat)
      ensures k == FirstEqual(slots, slot)
    {
      k := 0;
      while k < |slots| && slots[k] != slot
        invariant k <= |slots| && FirstEqual(slots, slot) == k + FirstEqual(slots[k..], slot)
      {
        k := k + 1;
      }
    }

    method PersistPending(p: Pending) returns (r: Result<()>)
      modifies `links, `index
      ensures Persist(old(View()), View(), p, r)
    {
      if !p.Valid() { return Err(CheckpointRefused); }
      var read := ReadSlotList(p.application);
      if read.Err? { return Err(read.error); }
      var slots := read.value;
      var k := FindPending(slots);
      if k < |slots| {
        return if slots[k].pending == p then Ok(()) else Err(ApplicationAlreadyLinked);
      }
      slots := slots + [PendingSlot(p)];
      r := ValidateSlots(p.application, slots);
      if r.Err? { return; }
      r := EnsureIndexedRow(p.application);
      if r.Err? { return; }
      r := WriteSlotList(p.application, slots);
    }

    method ReplacePending(expected: Pending, replacement: Pending) returns (r: Result<()>)
      modifies `links, `index
      ensures Replace(old(View()), View(), expected, replacement, r)
    {
      if !expected.Valid() || !replacement.Valid() || !SameReplacement(expected, replacement) {
        return Err(CheckpointRefused);
      }
      var read := ReadSlotList(expected.application);
      if read.Err? { return Err(read.error); }
      var k := Find(read.value, PendingSlot(expected));
      if k == |read.value| { return Err(CheckpointRefused); }
      r := WriteSlotList(expected.application, read.value[k := PendingSlot(replacement)]);
    }

    method RemoveExactPending(expected: Pending) returns (r: Result<()>)
      modifies `links, `index
      ensures RemovePending(old(View()), View(), expected, r)
    {
      if !expected.Valid() { return Err(CheckpointRefused); }
      var read := ReadSlotList(expected.application);
      if read.Err? { return Err(read.error); }
      var k := Find(read.value, PendingSlot(expected));
      if k == |read.value| { return Err(CheckpointRefused); }
      r := WriteSlotList(expected.application, read.value[..k] + read.value[k + 1..]);
    }

    method RemovePrePayloadAttempt(anchor: Pending) returns (r: Result<()>)
      modifies `links, `index, `compensated
      ensures Compensate(old(View()), View(), anchor, r)
      ensures compensated == old(compensated) + [r]
    {
      r := RemoveMatching(anchor);
      compensated := compensated + [r];
    }

    method RemoveMatching(anchor: Pending) returns (r: Result<()>)
      modifies `links, `index
      ensures Compensate(old(View()), View(), anchor, r)
    {
      if !anchor.Valid() { return Err(CheckpointRefused); }
      var read := ReadSlotList(anchor.application);
      if read.Err? { return Err(read.error); }
      if read.value == [] { return Ok(()); }
      var k := FindPending(read.value);
      if k == |read.value| { return Err(CheckpointRefused); }
      var current := read.value[k].pending;
      if !SameAttempt(current, anchor) { return Err(CheckpointRefused); }
      if current.stage.PayloadPrepared? { return Ok(()); }
      r := WriteSlotList(anchor.application, read.value[..k] + read.value[k + 1..]);
    }

    method InstallLink(expected: Pending, link: Installed, bound: bool) returns (r: Result<()>)
      modifies `links, `index
      ensures Install(old(View()), View(), expected, link, bound, r)
    {
      if !expected.Valid() || !link.Valid() { return Err(CheckpointRefused); }
      if expected.application != link.application || expected.rootGeneration != link.rootGeneration
         || expected.profileDigest != link.profileDigest { return Err(ReceiptRefused); }
      if !bound { return Err(AuthorityRefused); }
      var read := ReadSlotList(expected.application);
      if read.Err? { return Err(read.error); }
      var k := Find(read.value, PendingSlot(expected));
      if k < |read.value| {
        r := WriteSlotList(expected.application, read.value[k := InstalledSlot(link)]);
        return;
      }
      var j := Find(read.value, InstalledSlot(link));
      return if j < |read.value| then Ok(()) else Err(CheckpointRefused);
    }

    method RepinInstalled(expected: Installed, replacement: Installed) returns (r: Result<()>)
      modifies `links, `index
      ensures ReplaceInstalled(old(View()), View(), expected, replacement, r)
    {
      if !expected.Valid() || !replacement.Valid() || !SameButProfile(expected, replacement) {
        return Err(CheckpointRefused);
      }
      var read := ReadSlotList(expected.application);
      if read.Err? { return Err(read.error); }
      var k := Find(read.value, InstalledSlot(expected));
      if k < |read.value| {
        r := WriteSlotList(expected.application, read.value[k := InstalledSlot(replacement)]);
        return;
      }
      var j := Find(read.value, InstalledSlot(replacement));
      return if j < |read.value| then Ok(()) else Err(CheckpointRefused);
    }

    method PurgeAllLinks() returns (r: Result<()>)
      modifies `links, `index
      ensures Purge(old(View()), View(), r)
    {
      var loaded := ReadIndex();
      if loaded.Err? { return Err(loaded.error); }
      var apps := loaded.value;
      assert Ids(apps[..0]) == {};
      for k := 0 to |apps|
        invariant index == old(index) && links == old(links) - Ids(apps[..k])
      {
        assert Ids(apps[..k + 1]) == Ids(apps[..k]) + {apps[k]};
        r := DeleteEntry(apps[k]);
        if r.Err? { return; }
      }
      assert apps[..|apps|] == apps;
      r := PutIndex(None);
    }

    /** The index maintenance shared by the three listings. */
    method PruneListing() returns (r: Result<()>)
      modifies `links, `index
      ensures PruneIndex(old(View()), View(), r)
    {
      var loaded := ReadIndex();
      if loaded.Err? { return Err(loaded.error); }
      var apps := loaded.value;
      var retained := [];
      for k := 0 to |apps|
        invariant View() == old(View()) && retained == Occupied(View(), apps[..k])
      {
        assert apps[..k + 1] == apps[..k] + [apps[k]];
        OccupiedStep(View(), apps[..k], apps[k]);
        var read := ReadSlotList(apps[k]);
        if read.Err? { return Err(read.error); }
        if read.value != [] { retained := retained + [apps[k]]; }
      }
      assert apps[..|apps|] == apps;
      if retained == apps { return Ok(()); }
      r := StoreIndex(retained);
    }

    /** `load_pending`, with the finder's `find_map`. */
    method LoadPending(app: string) returns (r: Result<Pending>)
      ensures r == Err(CheckpointUnavailable) || r == PendingOf(View(), app)
    {
      var read := ReadSlotList(app);
      if read.Err? { return Err(read.error); }
      var k := FindPending(read.value);
      return if k < |read.value| then Ok(read.value[k].pending) else Err(CheckpointRefused);
    }

    /** `load_installed`: the newest installed device, searched from the end. */
    method LoadInstalled(app: string) returns (r: Result<Installed>)
      ensures r == Err(CheckpointUnavailable) || r == InstalledOf(View(), app)
    {
      var read := ReadSlotList(app);
      if read.Err? { return Err(read.error); }
      var k: nat := |read.value|;
      assert read.value[..k] == read.value;
      while k > 0 && read.value[k - 1].PendingSlot?
        invariant k <= |read.value| && LastInstalled(read.value) == LastInstalled(read.value[..k])
      {
        assert read.value[..k][..k - 1] == read.value[..k - 1];
        k := k - 1;
      }
      return if k > 0 then Ok(read.value[k - 1].link) else Err(ApplicationNotLinked);
    }

    // ---- the other commands ----

    /** The slot half of another command's unlink, which found its snapshot unchanged or refuses. */
    method UnlinkSlots(app: string, snapshot: seq<Slot>, selected: Slot) returns (r: Result<()>)
      modifies `links, `index
      ensures Unlink(old(View()), View(), app, snapshot, selected, r)
    {
      var read := ReadSlotList(app);
      if read.Err? { return Err(read.error); }
      if read.value != snapshot { return Err(ApplicationNotLinked); }
      r := WriteSlotList(app, if selected.PendingSlot? then Except(snapshot, selected) else []);
    }

    method Perform(op: Op) returns (r: Result<()>)
      modifies `links, `index
      ensures Step(old(View()), View(), op, r)
    {
      match op
      case OpPersist(p) => r := PersistPending(p);
      case OpReplace(e, n) => r := ReplacePending(e, n);
      case OpRemove(e) => r := RemoveExactPending(e);
      case OpCompensate(a) => r := RemoveMatching(a);
      case OpInstall(e, l, b) => r := InstallLink(e, l, b);
      case OpReplaceInstalled(e, n) => r := RepinInstalled(e, n);
      case OpUnlink(app, snapshot, selected) => r := UnlinkSlots(app, snapshot, selected);
      case OpPurge => r := PurgeAllLinks();
      case OpPrune => r := PruneListing();
    }

    /** The lock is free: any number of other commands' operations, in any order. */
    method Elsewhere()
      modifies `links, `index, `others
      ensures |others| >= |old(others)| && others[..|old(others)|] == old(others)
      ensures Reached(old(View()), View(), others[|old(others)|..])
    {
      var ops: seq<Op> := *;
      for k := 0 to |ops|
        invariant others == old(others) + ops[..k] && Reached(old(View()), View(), ops[..k])
      {
        ghost var before := View();
        var r := Perform(ops[k]);
        ReachedNext(old(View()), before, View(), ops[..k], ops[k], r);
        assert ops[..k + 1] == ops[..k] + [ops[k]];
        others := others + [ops[k]];
      }
      assert ops[..|ops|] == ops && others[|old(others)|..] == ops;
    }
  }
}
