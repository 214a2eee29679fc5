/**
 The compensating transaction around the durable pre-payload slot: begin, any number of stage
 replacements, then a drop or the payload commit. Whatever write fails, and however, the slot list
 ends as it began unless the payload record itself became durable.
 */
module Transaction {
  import opened Prelude
  import opened Records
  import opened Links
  import opened LinkSpec
  import opened StoreRuns
  import opened LinkStore

  datatype Ending = Abandoned | Commit(payload: Pending)

  /** Dropping the armed guard: compensation, with its own store accesses succeeding. */
  ghost predicate Dropped(d: Disk, d': Disk, anchor: Pending) {
    exists r :: Compensate(d, d', anchor, r) && r != Err(CheckpointUnavailable)
  }

  ghost predicate Committed(d: Disk, d': Disk, current: Pending, payload: Pending) {
    if !payload.stage.PayloadPrepared? then Dropped(d, d', current)
    else
      || Replace(d, d', current, payload, Ok(()))
      || exists m, e :: Replace(d, m, current, payload, Err(e)) && Dropped(m, d', current)
  }

  /** The rest of a transaction whose latest durable value is `current`. */
  ghost predicate Continued(d: Disk, d': Disk, current: Pending, script: seq<Pending>, ending: Ending)
    decreases |script|
  {
    if script == [] then
      match ending
      case Abandoned => Dropped(d, d', current)
      case Commit(payload) => Committed(d, d', current, payload)
    else
      || (exists m :: Replace(d, m, current, script[0], Ok(())) && Continued(m, d', script[0], script[1..], ending))
      || (exists m, e :: Replace(d, m, current, script[0], Err(e)) && Dropped(m, d', current))
  }

  /** A whole transaction from `begin` to its end, over every way its writes may fail. */
  ghost predicate Transacted(d: Disk, d': Disk, initial: Pending, script: seq<Pending>, ending: Ending) {
    || (exists m :: Persist(d, m, initial, Ok(())) && Continued(m, d', initial, script, ending))
    || (exists m, e :: Persist(d, m, initial, Err(e)) && Dropped(m, d', initial))
  }

  /** What the transitions guarantee of a replacement: the same attempt, still before the payload. */
  predicate Steady(current: Pending, next: Pending) {
    SameAttempt(current, next) && !next.stage.PayloadPrepared?
  }

  predicate SteadyScript(current: Pending, script: seq<Pending>, ending: Ending)
    decreases |script|
  {
    if script == [] then ending.Commit? ==> SameAttempt(current, ending.payload)
    else Steady(current, script[0]) && SteadyScript(script[0], script[1..], ending)
  }

  /** Every replacement a transition method builds, other than the payload itself, is steady. */
  lemma TransitionsAreSteady(p: Pending, m: Move)
    requires !p.stage.PayloadPrepared? && Apply(p, m).Ok?
    ensures Steady(p, Apply(p, m).value) <==> !m.ToPayload?
    ensures SameAttempt(p, Apply(p, m).value)
  {
    ApplyDescends(p, m);
  }

  /** The slot list already holds a value of this very attempt that recovery does not own. */
  predicate HoldsOwn(slots: seq<Slot>, p: Pending) {
    exists i :: 0 <= i < |slots| && slots[i].PendingSlot? && SameAttempt(slots[i].pending, p)
      && !slots[i].pending.stage.PayloadPrepared?
  }

  function SlotsOf(d: Disk, app: string): seq<Slot> {
    if ReadSlots(d, app).Ok? then ReadSlots(d, app).value else []
  }

  /** Every entry as in `base`, except that `app` holds `base`'s slots followed by the pending `p`. */
  ghost predicate Extends(base: Disk, d: Disk, p: Pending) {
    && Sound(d) && Sound(base)
    && ReadSlots(d, p.application) == Ok(SlotsOf(base, p.application) + [PendingSlot(p)])
    && d.links == base.links[p.application := Canonical(SlotsOf(base, p.application) + [PendingSlot(p)]).value]
  }

  lemma ExtendsShape(base: Disk, d: Disk, p: Pending)
    requires Extends(base, d, p)
    ensures var slots := SlotsOf(base, p.application);
      && FirstPending(slots + [PendingSlot(p)]) == |slots| == FirstEqual(slots + [PendingSlot(p)], PendingSlot(p))
      && FirstPending(slots) == |slots| && ValidSlots(p.application, slots + [PendingSlot(p)])
      && Removed(slots + [PendingSlot(p)], |slots|) == slots
      && ValidSlots(p.application, slots) && Entry(base, p.application) == Canonical(slots)
  {
    var app, slots := p.application, SlotsOf(base, p.application);
    var all := slots + [PendingSlot(p)];
    assert Listed(d, app) && Listed(base, app);
    TextRoundTrip(app, all, Entry(d, app));
    TextRoundTrip(app, slots, Entry(base, app));
    forall i | 0 <= i < |slots| ensures slots[i].InstalledSlot? { assert all[i] == slots[i]; }
    assert all[|slots|].PendingSlot?;
  }

  /** Writing back the slots of `base` leaves the entries of `base`. */
  lemma WriteBack(base: Disk, d: Disk, p: Pending)
    requires Extends(base, d, p)
    ensures WithEntry(d, p.application, Canonical(SlotsOf(base, p.application))).links == base.links
  {
    ExtendsShape(base, d, p);
    var app := p.application;
    if SlotsOf(base, app) == [] { assert d.links - {app} == base.links - {app}; }
    else { assert d.links[app := base.links[app]] == base.links; }
  }

  /** Compensation undoes its own pre-payload value and leaves a durable payload alone. */
  lemma DropUndoes(base: Disk, d: Disk, d': Disk, p: Pending, anchor: Pending)
    requires Extends(base, d, p) && SameAttempt(p, anchor) && anchor.Valid() && Dropped(d, d', anchor)
    ensures d'.links == if p.stage.PayloadPrepared? then d.links else base.links
  {
    ExtendsShape(base, d, p);
    if !p.stage.PayloadPrepared? {
      var r :| Compensate(d, d', anchor, r) && r != Err(CheckpointUnavailable);
      assert WriteSlots(d, d', p.application, SlotsOf(base, p.application), r);
      WriteEffect(d, d', p.application, SlotsOf(base, p.application), r);
      WriteBack(base, d, p);
    }
  }

  lemma ReplaceMoves(base: Disk, d: Disk, d': Disk, current: Pending, next: Pending, r: Result<()>)
    requires Extends(base, d, current) && SameAttempt(current, next) && Replace(d, d', current, next, r)
    ensures Extends(base, d', next) || (r.Err? && d' == d)
    ensures r.Ok? ==> next.Valid()
  {
    ExtendsShape(base, d, current);
    StepKeepsSound(d, d', OpReplace(current, next), r);
    if d' != d || r.Ok? {
      var app, slots := current.application, SlotsOf(base, current.application);
      var all := slots + [PendingSlot(current)];
      assert all[|slots| := PendingSlot(next)] == slots + [PendingSlot(next)];
      TextRoundTrip(app, slots + [PendingSlot(next)], None);
    }
  }

  lemma PersistExtends(base: Disk, d: Disk, p: Pending, r: Result<()>)
    requires Sound(base) && Persist(base, d, p, r)
    ensures Sound(d)
    ensures var slots := SlotsOf(base, p.application);
      if FirstPending(slots) < |slots| then d == base && (r.Ok? ==> slots[FirstPending(slots)] == PendingSlot(p))
      else Extends(base, d, p) || (r.Err? && d.links == base.links)
    ensures r.Ok? ==> p.Valid()
  {
    StepKeepsSound(base, d, OpPersist(p), r);
    assert Listed(base, p.application);
    TextRoundTrip(p.application, SlotsOf(base, p.application) + [PendingSlot(p)], None);
  }

  /** Compensation finds nothing of its own in a store that holds no pre-payload value of the attempt. */
  lemma DropFindsNothing(d: Disk, d': Disk, anchor: Pending)
    requires Sound(d) && !HoldsOwn(SlotsOf(d, anchor.application), anchor) && Dropped(d, d', anchor)
    ensures d' == d
  {
    assert Listed(d, anchor.application);
    var slots := SlotsOf(d, anchor.application);
    var k := FirstPending(slots);
    assert k < |slots| ==> slots[k].PendingSlot?;
  }

  /** The slot lists a transaction may end with. */
  predicate Outcome(base: Disk, d': Disk, app: string, ending: Ending) {
    || d'.links == base.links
    || (ending.Commit? && ending.payload.stage.PayloadPrepared? && ending.payload.application == app
        && d'.links == base.links[app := Canonical(SlotsOf(base, app) + [PendingSlot(ending.payload)]).value])
  }

  lemma {:induction false} ContinuedEnds(base: Disk, d: Disk, d': Disk, current: Pending, script: seq<Pending>,
                                         ending: Ending)
    requires Extends(base, d, current) && current.Valid() && !current.stage.PayloadPrepared?
    requires SteadyScript(current, script, ending) && Continued(d, d', current, script, ending)
    ensures Outcome(base, d', current.application, ending)
    decreases |script|
  {
    if Dropped(d, d', current) {
      DropUndoes(base, d, d', current, current);
    } else if script == [] {
      var payload := ending.payload;
      if Replace(d, d', current, payload, Ok(())) {
        ReplaceMoves(base, d, d', current, payload, Ok(()));
      } else {
        var m, e :| Replace(d, m, current, payload, Err(e)) && Dropped(m, d', current);
        ReplaceMoves(base, d, m, current, payload, Err(e));
        FailedReplaceEnds(base, d, m, d', current, payload);
      }
    } else if exists m ::
      && Replace(d, m, current, script[0], Ok(()))
      && Continued(m, d', script[0], script[1..], ending) {
      var m :| Replace(d, m, current, script[0], Ok(())) && Continued(m, d', script[0], script[1..], ending);
      ReplaceMoves(base, d, m, current, script[0], Ok(()));
      ContinuedEnds(base, m, d', script[0], script[1..], ending);
    } else {
      var m, e :| Replace(d, m, current, script[0], Err(e)) && Dropped(m, d', current);
      ReplaceMoves(base, d, m, current, script[0], Err(e));
      FailedReplaceEnds(base, d, m, d', current, script[0]);
    }
  }

  lemma FailedReplaceEnds(base: Disk, d: Disk, m: Disk, d': Disk, current: Pending, next: Pending)
    requires Extends(base, d, current) && current.Valid() && !current.stage.PayloadPrepared?
    requires SameAttempt(current, next) && (m == d || Extends(base, m, next)) && Dropped(m, d', current)
    ensures d'.links == base.links || (next.stage.PayloadPrepared? && Extends(base, m, next) && d'.links == m.links)
  {
    if m == d { DropUndoes(base, d, d', current, current); } else { DropUndoes(base, m, d', next, current); }
  }

  /**
   The main result: over every script of transitions, every ending and every way its writes fail,
   the stored text of every application is what it was, unless the payload record is durable, and
   then it is what it was followed by exactly that record.
   */
  lemma TransactionRestores(d: Disk, d': Disk, initial: Pending, script: seq<Pending>, ending: Ending)
    requires Sound(d) && !initial.stage.PayloadPrepared? && SteadyScript(initial, script, ending)
    requires !HoldsOwn(SlotsOf(d, initial.application), initial)
    requires Transacted(d, d', initial, script, ending)
    ensures Outcome(d, d', initial.application, ending)
  {
    if exists m :: Persist(d, m, initial, Ok(())) && Continued(m, d', initial, script, ending) {
      var m :| Persist(d, m, initial, Ok(())) && Continued(m, d', initial, script, ending);
      PersistExtends(d, m, initial, Ok(()));
      ContinuedEnds(d, m, d', initial, script, ending);
    } else {
      var m, e :| Persist(d, m, initial, Err(e)) && Dropped(m, d', initial);
      PersistExtends(d, m, initial, Err(e));
      if Extends(d, m, initial) {
        if initial.Valid() { DropUndoes(d, m, d', initial, initial); }
      } else {
        assert Entry(m, initial.application) == Entry(d, initial.application);
        DropFindsNothing(m, d', initial);
      }
    }
  }

  // ---- the exact condition ----

  /** Any admitted list can be written with no failure. */
  lemma CleanWrite(d: Disk, app: string, slots: seq<Slot>) returns (d': Disk)
    requires Sound(d) && ValidSlots(app, slots)
    ensures WriteSlots(d, d', app, slots, Ok(())) && d'.links == WithEntry(d, app, Canonical(slots)).links
  {
    var apps := LoadIndex(d.index).value;
    WithoutAscends(apps, app);
    d' := if slots != [] then WithEntry(d, app, Canonical(slots))
      else Disk(d.links - {app}, IndexGoal(Without(apps, app)));
  }

  /** A pre-payload value of the attempt is the last slot, and the list without it is admitted. */
  lemma OwnIsLast(d: Disk, anchor: Pending)
    requires Sound(d) && HoldsOwn(SlotsOf(d, anchor.application), anchor)
    ensures var slots := SlotsOf(d, anchor.application);
      var k := FirstPending(slots);
      && slots != [] && k == |slots| - 1 && ReadSlots(d, anchor.application) == Ok(slots)
      && SameAttempt(slots[k].pending, anchor) && !slots[k].pending.stage.PayloadPrepared?
      && ValidSlots(anchor.application, Removed(slots, k)) && |Removed(slots, k)| < |slots|
  {
    var app := anchor.application;
    assert Listed(d, app);
    var slots := SlotsOf(d, app);
    SlotOfEntry(d, app);
    var i :| 0 <= i < |slots| && slots[i].PendingSlot? && SameAttempt(slots[i].pending, anchor)
      && !slots[i].pending.stage.PayloadPrepared?;
    assert FirstPending(slots) == i == |slots| - 1;
  }

  /** A compensation with no failing write, on a store that holds a pre-payload value of the attempt. */
  lemma CleanCompensation(d: Disk, anchor: Pending) returns (d': Disk)
    requires Sound(d) && anchor.Valid() && HoldsOwn(SlotsOf(d, anchor.application), anchor)
    ensures Compensate(d, d', anchor, Ok(())) && d'.links != d.links
    ensures var slots := SlotsOf(d, anchor.application); slots != [] && FirstPending(slots) == |slots| - 1
  {
    OwnIsLast(d, anchor);
    var app, slots := anchor.application, SlotsOf(d, anchor.application);
    var rest := Removed(slots, FirstPending(slots));
    d' := CleanWrite(d, app, rest);
    GoalReads(d, d', app, rest);
  }

  /** A store that does hold a pre-payload value of the attempt loses it to a transaction dropped at once. */
  lemma OwnValueIsLost(d: Disk, initial: Pending) returns (d': Disk)
    requires Sound(d) && initial.Valid() && !initial.stage.PayloadPrepared?
      && HoldsOwn(SlotsOf(d, initial.application), initial)
    ensures Transacted(d, d', initial, [], Abandoned) && !Outcome(d, d', initial.application, Abandoned)
  {
    assert Listed(d, initial.application);
    var slots := SlotsOf(d, initial.application);
    d' := CleanCompensation(d, initial);
    assert Dropped(d, d', initial);
    if slots[|slots| - 1] == PendingSlot(initial) {
      assert Persist(d, d, initial, Ok(()));
      assert Continued(d, d', initial, [], Abandoned);
    } else {
      assert Persist(d, d, initial, Err(ApplicationAlreadyLinked));
    }
  }

  /** Restoration holds of every run exactly when the store holds no pre-payload value of the attempt. */
  lemma RestoresExactlyWhen(d: Disk, initial: Pending)
    requires Sound(d) && initial.Valid() && !initial.stage.PayloadPrepared?
    ensures (forall d', script, ending ::
               SteadyScript(initial, script, ending) && Transacted(d, d', initial, script, ending)
               ==> Outcome(d, d', initial.application, ending))
            <==> !HoldsOwn(SlotsOf(d, initial.application), initial)
  {
    if HoldsOwn(SlotsOf(d, initial.application), initial) {
      var d' := OwnValueIsLost(d, initial);
      assert SteadyScript(initial, [], Abandoned);
    } else {
      forall d', script, ending | SteadyScript(initial, script, ending) && Transacted(d, d', initial, script, ending)
        ensures Outcome(d, d', initial.application, ending)
      {
        TransactionRestores(d, d', initial, script, ending);
      }
    }
  }

  lemma NextAdmitted(app: string, slots: seq<Slot>, current: Pending, next: Pending)
    requires ValidSlots(app, slots + [PendingSlot(current)]) && next.Valid() && SameReplacement(current, next)
    ensures ValidSlots(app, slots + [PendingSlot(next)])
  {
    var old_, new_ := slots + [PendingSlot(current)], slots + [PendingSlot(next)];
    forall i, j | 0 <= i < j < |new_| ensures Siblings(new_[i], new_[j]) { assert Siblings(old_[i], old_[j]); }
    forall i | 0 <= i < |new_| ensures new_[i].Application() == app && new_[i].Valid() {
      assert old_[i].Valid() && old_[i].Application() == app;
    }
  }

  lemma {:induction false} FirstPendingAppended(slots: seq<Slot>, p: Pending)
    requires FirstPending(slots) == |slots|
    ensures FirstPending(slots + [PendingSlot(p)]) == |slots|
  {
    var all := slots + [PendingSlot(p)];
    assert all[|slots|].PendingSlot? && forall i :: 0 <= i < |slots| ==> all[i] == slots[i];
  }

  /** A failed replacement by a value of the same attempt is undone. */
  lemma SameAttemptUndone(base: Disk, d: Disk, current: Pending, next: Pending)
    requires Extends(base, d, current) && current.Valid() && !current.stage.PayloadPrepared?
    requires !next.stage.PayloadPrepared? && SameAttempt(current, next)
    ensures forall m, e, d' :: Replace(d, m, current, next, Err(e)) && Dropped(m, d', current) ==>
      d'.links == base.links
  {
    forall m, e, d' | Replace(d, m, current, next, Err(e)) && Dropped(m, d', current) ensures d'.links == base.links {
      ReplaceMoves(base, d, m, current, next, Err(e));
      FailedReplaceEnds(base, d, m, d', current, next);
    }
  }

  /** The store a replacement leaves when its write commits and reports failure. */
  lemma CommittedReplacement(base: Disk, d: Disk, current: Pending, next: Pending) returns (m: Disk)
    requires Extends(base, d, current) && current.Valid() && !current.stage.PayloadPrepared?
    requires next.Valid() && SameReplacement(current, next)
    ensures Replace(d, m, current, next, Err(CheckpointUnavailable))
    ensures ReadSlots(m, current.application) == Ok(SlotsOf(base, current.application) + [PendingSlot(next)])
    ensures Entry(m, current.application) == Canonical(SlotsOf(base, current.application) + [PendingSlot(next)])
    ensures FirstPending(SlotsOf(base, current.application)) == |SlotsOf(base, current.application)|
  {
    ExtendsShape(base, d, current);
    var app, slots := current.application, SlotsOf(base, current.application);
    var all := slots + [PendingSlot(next)];
    assert (slots + [PendingSlot(current)])[|slots| := PendingSlot(next)] == all;
    NextAdmitted(app, slots, current, next);
    TextRoundTrip(app, all, None);
    m := WithEntry(d, app, Canonical(all));
  }

  /** The guard does not know a value of another attempt for its own. */
  lemma OtherAttemptStays(m: Disk, current: Pending, next: Pending, slots: seq<Slot>)
    requires current.Valid() && next.application == current.application && !SameAttempt(current, next)
    requires ReadSlots(m, current.application) == Ok(slots + [PendingSlot(next)]) && FirstPending(slots) == |slots|
    ensures Dropped(m, m, current)
  {
    FirstPendingAppended(slots, next);
    assert Compensate(m, m, current, Err(CheckpointRefused));
  }

  /** An entry with one slot more is another entry. */
  lemma AppendedDiffers(base: Disk, m: Disk, app: string, slot: Slot)
    requires Sound(base) && Entry(m, app) == Canonical(SlotsOf(base, app) + [slot])
    ensures m.links != base.links
  {
    var slots := SlotsOf(base, app);
    assert Listed(base, app);
    TextRoundTrip(app, slots, Entry(base, app));
    assert |slots + [slot]| != |slots| && Entry(base, app) == Canonical(slots);
  }

  /**
   `replace_pending` does not compare the flow or the offer expiry. A replacement changing either is
   accepted, and when its write commits but reports failure the guard no longer recognises it: every
   failed replacement is undone exactly when the replacement keeps both.
   */
  lemma FailedReplacementUndoneExactlyWhen(base: Disk, d: Disk, current: Pending, next: Pending)
    requires Extends(base, d, current) && current.Valid() && !current.stage.PayloadPrepared?
    requires next.Valid() && !next.stage.PayloadPrepared? && SameReplacement(current, next)
    ensures (forall m, e, d' :: Replace(d, m, current, next, Err(e)) && Dropped(m, d', current) ==>
             d'.links == base.links)
            <==> current.flow == next.flow && current.offerExpiresAt == next.offerExpiresAt
  {
    ReplacementGap(current, next);
    if SameAttempt(current, next) {
      SameAttemptUndone(base, d, current, next);
    } else {
      var m := CommittedReplacement(base, d, current, next);
      OtherAttemptStays(m, current, next, SlotsOf(base, current.application));
      AppendedDiffers(base, m, current.application, PendingSlot(next));
    }
  }

  /**
   Whatever any writer left in the store when the guard drops, sound or not: compensation changes
   nothing, or removes exactly one pending that agrees with the guard on all thirteen identity fields
   and is not payload-prepared. Installed siblings and other attempts keep their order and values.
   */
  lemma CompensationIsExact(d: Disk, d': Disk, anchor: Pending, r: Result<()>)
    requires Compensate(d, d', anchor, r)
    ensures d' != d ==>
              && ReadSlots(d, anchor.application).Ok?
              && var slots := ReadSlots(d, anchor.application).value;
                 exists k :: 0 <= k < |slots| && slots[k].PendingSlot? && SameAttempt(slots[k].pending, anchor)
                   && !slots[k].pending.stage.PayloadPrepared?
                   && (forall i :: 0 <= i < |slots| && i != k ==> slots[i].InstalledSlot?)
                   && d'.links == WithEntry(d, anchor.application, Canonical(slots[..k] + slots[k + 1..])).links
  {
    if d' != d {
      var slots := ReadSlots(d, anchor.application).value;
      var k := FirstPending(slots);
      TextRoundTrip(anchor.application, slots, Entry(d, anchor.application));
      forall i | k < i < |slots| ensures slots[i].InstalledSlot? { assert Siblings(slots[k], slots[i]); }
      assert d'.links == WithEntry(d, anchor.application, Canonical(Removed(slots, k))).links;
    }
  }
}
