/**
 Removing a link the person selected: the slot list and the trust table change together although
 neither store knows the other, so a failure half way puts back the rows already removed.
 */
module Unlink {
  import opened Prelude
  import opened Records
  import opened Links
  import opened LinkSpec
  import opened LinkStore
  import opened StoreRuns
  import opened Policy

  /** The selected slot, the sampled state of each legacy relay, and the whole snapshot. */
  datatype LocalLink = LocalLink(slot: Slot, states: seq<(string, bool)>, slots: seq<Slot>)

  /** Which slots of the snapshot have their relay sampled: only the selected one, if that is pending. */
  predicate Sampled(slots: seq<Slot>, selected: Slot, k: nat)
    requires k < |slots|
  {
    slots[k].FlowOf() == LegacyTwoDecision && (selected.PendingSlot? ==> slots[k] == selected)
  }

  predicate Known(states: seq<(string, bool)>, relay: string) {
    exists i :: 0 <= i < |states| && states[i].0 == relay
  }

  predicate DistinctRelays(states: seq<(string, bool)>) {
    forall i, j :: 0 <= i < j < |states| ==> states[i].0 != states[j].0
  }

  predicate StatesAgree(trust: set<Row>, app: string, states: seq<(string, bool)>) {
    forall i :: 0 <= i < |states| ==> (states[i].1 <==> Row(app, states[i].0) in trust)
  }

  predicate Uses(slots: seq<Slot>, selected: Slot, k: nat, relay: string)
    requires k <= |slots|
  {
    exists j :: 0 <= j < k && Sampled(slots, selected, j) && slots[j].Relay() == relay
  }

  /** The relays sampled are exactly those the first `k` slots use. */
  ghost predicate Covers(slots: seq<Slot>, selected: Slot, k: nat, states: seq<(string, bool)>)
    requires k <= |slots|
  {
    forall relay :: Known(states, relay) <==> Uses(slots, selected, k, relay)
  }

  lemma CoversNext(slots: seq<Slot>, selected: Slot, k: nat, states: seq<(string, bool)>, trusted: bool)
    requires k < |slots| && Covers(slots, selected, k, states)
    ensures !Sampled(slots, selected, k) || Known(states, slots[k].Relay()) ==> Covers(slots, selected, k + 1, states)
    ensures Sampled(slots, selected, k) ==> Covers(slots, selected, k + 1, states + [(slots[k].Relay(), trusted)])
  {
    var here, more := slots[k].Relay(), states + [(slots[k].Relay(), trusted)];
    forall relay
      ensures Uses(slots, selected, k + 1, relay) <==>
        || Uses(slots, selected, k, relay)
        || (Sampled(slots, selected, k) && relay == here)
    {
      if Uses(slots, selected, k, relay) {
        var j :| 0 <= j < k && Sampled(slots, selected, j) && slots[j].Relay() == relay;
      }
    }
    forall relay ensures Known(more, relay) <==> Known(states, relay) || relay == here {
      assert more[|states|].0 == here;
      if Known(states, relay) { var i :| 0 <= i < |states| && states[i].0 == relay; assert more[i].0 == relay; }
    }
  }

  /** One of the links uses this relay, and came by the earlier flow. */
  predicate LegacyRelay(slots: seq<Slot>, relay: string) {
    exists j ::
      && 0 <= j < |slots| && slots[j].InstalledSlot? && slots[j].link.flow == LegacyTwoDecision
      && slots[j].link.relay == relay
  }

  /**
   The relays sampled: of a selected ceremony its own, of a selected link every link's; and of the earlier flow
   only.
   */
  ghost predicate SamplesLegacy(local: LocalLink) {
    forall relay :: Known(local.states, relay) <==>
      match local.slot
      case PendingSlot(p) => p.flow == LegacyTwoDecision && p.relay == relay
      case InstalledSlot(_) => LegacyRelay(local.slots, relay)
  }

  lemma OnlyLegacySampled(local: LocalLink)
    requires local.slots != []
    requires var p := FirstPending(local.slots);
      local.slot == local.slots[if p < |local.slots| then p else |local.slots| - 1]
    requires Covers(local.slots, local.slot, |local.slots|, local.states)
    ensures SamplesLegacy(local)
  {
    var slots, selected, p := local.slots, local.slot, FirstPending(local.slots);
    forall relay
      ensures Uses(slots, selected, |slots|, relay) <==>
        match selected
        case PendingSlot(p) => p.flow == LegacyTwoDecision && p.relay == relay
        case InstalledSlot(_) => LegacyRelay(slots, relay)
    {
      if selected.PendingSlot? {
        assert slots[p] == selected;
      } else if LegacyRelay(slots, relay) {
        var j :| 0 <= j < |slots| && slots[j].InstalledSlot? && slots[j].link.flow == LegacyTwoDecision
          && slots[j].link.relay == relay;
        assert Sampled(slots, selected, j) && slots[j].Relay() == relay;
      }
    }
  }

  /** The answers of the lookups after the first `mark` events. */
  ghost function Looks(calls: Calls, mark: nat): set<(Row, bool)> {
    if Size(calls) <= mark then {}
    else Looks(calls.past, mark) + if calls.last.Looked? then {(calls.last.row, calls.last.trusted)} else {}
  }

  /** No other command changed the table after the first `mark` events. */
  predicate Quiet(calls: Calls, mark: nat) {
    Size(calls) > mark ==> !calls.last.Outside? && Quiet(calls.past, mark)
  }

  /** Each relay's state is what a lookup answered. */
  ghost predicate AsLooked(calls: Calls, mark: nat, app: string, states: seq<(string, bool)>) {
    forall i :: 0 <= i < |states| ==> (Row(app, states[i].0), states[i].1) in Looks(calls, mark)
  }

  /** Without interference the lookups answer for one table. */
  lemma {:induction false} QuietLooks(ok: Grammar, calls: Calls, mark: nat, start: Option<PolicyText>,
                                      now: Option<PolicyText>)
    requires Chained(ok, calls, mark, start, now) && Quiet(calls, mark) && NoAnswers(calls, mark)
    ensures now == start && Size(calls) >= mark
    ensures forall row, trusted :: (row, trusted) in Looks(calls, mark) ==>
      && Readable(ok, now)
      && (trusted <==> row in Trusted(ok, now))
  {
    if Size(calls) > mark { QuietLooks(ok, calls.past, mark, start, calls.last.found); }
  }

  /** The caller itself changed nothing. */
  predicate NoAnswers(calls: Calls, mark: nat) {
    Size(calls) > mark ==> !calls.last.Answered? && NoAnswers(calls.past, mark)
  }

  /** One lookup, after whatever others did. */
  method Look(trust: TrustStore, row: Row, ghost mark: nat, ghost start: Option<PolicyText>) returns (r: Result<bool>)
    requires Chained(trust.ok, trust.calls, mark, start, trust.entry) && Size(trust.calls) >= mark
      && NoAnswers(trust.calls, mark)
    modifies trust
    ensures Chained(trust.ok, trust.calls, mark, start, trust.entry) && Size(trust.calls) >= mark
      && NoAnswers(trust.calls, mark)
    ensures Looks(trust.calls, mark) == Looks(old(trust.calls), mark) + if r.Ok? then {(row, r.value)} else {}
  {
    trust.Elsewhere();
    r := trust.State(row);
  }

  /** The sampling loop of `load_local_link`: each relay in use once, with what a lookup answered for it. */
  method Sample(trust: TrustStore, app: string, slots: seq<Slot>, slot: Slot) returns (r: Result<seq<(string, bool)>>)
    modifies trust
    ensures Chained(trust.ok, trust.calls, Size(old(trust.calls)), old(trust.entry), trust.entry)
      && NoAnswers(trust.calls, Size(old(trust.calls)))
    ensures r.Ok? ==> DistinctRelays(r.value) && Covers(slots, slot, |slots|, r.value)
    ensures r.Ok? ==> AsLooked(trust.calls, Size(old(trust.calls)), app, r.value)
  {
    ghost var mark, start := Size(trust.calls), trust.entry;
    var states: seq<(string, bool)> := [];
    for k := 0 to |slots|
      invariant DistinctRelays(states) && Covers(slots, slot, k, states) && AsLooked(trust.calls, mark, app, states)
      invariant Chained(trust.ok, trust.calls, mark, start, trust.entry) && Size(trust.calls) >= mark
        && NoAnswers(trust.calls, mark)
    {
      var relay := slots[k].Relay();
      if !Sampled(slots, slot, k) || Known(states, relay) {
        CoversNext(slots, slot, k, states, false);
      } else {
        var state := Look(trust, Row(app, relay), mark, start);
        if state.Err? { return Err(state.error); }
        CoversNext(slots, slot, k, states, state.value);
        states := states + [(relay, state.value)];
      }
    }
    return Ok(states);
  }

  /**
   `load_local_link`: the pending slot if there is one, else the newest, with the samples and the whole
   snapshot. Each sample is what its own lookup answered; with no other writer they are of one table.
   */
  method LoadLocal(links: LinkStore, trust: TrustStore, app: string) returns (r: Result<LocalLink>)
    modifies trust
    ensures Chained(trust.ok, trust.calls, Size(old(trust.calls)), old(trust.entry), trust.entry)
      && NoAnswers(trust.calls, Size(old(trust.calls)))
    ensures r.Ok? ==>
      var slots := r.value.slots;
      && ReadSlots(links.View(), app) == Ok(slots) && slots != []
      && r.value.slot == (if FirstPending(slots) < |slots| then slots[FirstPending(slots)] else slots[|slots| - 1])
      && r.value.slot.Application() == app
      && DistinctRelays(r.value.states) && Covers(slots, r.value.slot, |slots|, r.value.states)
    ensures r.Ok? ==> AsLooked(trust.calls, Size(old(trust.calls)), app, r.value.states)
    ensures r.Ok? && Quiet(trust.calls, Size(old(trust.calls))) && r.value.states != [] ==>
      Readable(trust.ok, trust.entry) && StatesAgree(Trusted(trust.ok, trust.entry), app, r.value.states)
    ensures r.Ok? ==> SamplesLegacy(r.value)
  {
    var read := links.ReadSlotList(app);
    if read.Err? { return Err(read.error); }
    var slots := read.value;
    if slots == [] { return Err(ApplicationNotLinked); }
    var p := links.FindPending(slots);
    var slot := if p < |slots| then slots[p] else slots[|slots| - 1];
    if slot.Application() != app { return Err(ApplicationNotLinked); }
    var states := Sample(trust, app, slots, slot);
    if Quiet(trust.calls, Size(old(trust.calls))) {
      QuietLooks(trust.ok, trust.calls, Size(old(trust.calls)), old(trust.entry), trust.entry);
    }
    if states.Err? { return Err(states.error); }
    OnlyLegacySampled(LocalLink(slot, states.value, slots));
    assert states.value != [] ==> (Row(app, states.value[0].0), states.value[0].1) in Looks(trust.calls,
        Size(old(trust.calls)));
    return Ok(LocalLink(slot, states.value, slots));
  }

  /** A relay some installed slot still uses keeps its pair when only a pending ceremony is abandoned. */
  predicate RetainedRelay(expected: LocalLink, relay: string) {
    expected.slot.PendingSlot?
    && exists i ::
       && 0 <= i < |expected.slots| && expected.slots[i].InstalledSlot?
       && expected.slots[i].link.relay == relay
  }

  /** The pairs an unlink withdraws. */
  function Doomed(expected: LocalLink, app: string, k: nat): set<Row>
    requires k <= |expected.states|
  {
    set i | 0 <= i < k && expected.states[i].1
      && !RetainedRelay(expected, expected.states[i].0) :: Row(app, expected.states[i].0)
  }

  function RowsOf(app: string, relays: seq<string>): set<Row> {
    set i | 0 <= i < |relays| :: Row(app, relays[i])
  }

  /** The table now lacks exactly `gone`, and otherwise is the record it was. */
  predicate Lacks(ok: Grammar, before: Option<PolicyText>, now: Option<PolicyText>, gone: set<Row>) {
    if gone == {} then now == before
    else
      && Readable(ok, before) && before.Some? && gone <= Trusted(ok, before)
      && Holds(ok, now, Trusted(ok, before) - gone)
  }

  lemma TailRows(app: string, relays: seq<string>)
    requires relays != [] && forall i, j :: 0 <= i < j < |relays| ==> relays[i] != relays[j]
    ensures RowsOf(app, relays) - {Row(app, relays[0])} == RowsOf(app, relays[1..])
    ensures RowsOf(app, relays) == RowsOf(app, relays[1..]) + {Row(app, relays[0])}
      && Row(app, relays[0]) !in RowsOf(app, relays[1..])
  {
    assert relays == [relays[0]] + relays[1..];
    forall row | row in RowsOf(app, relays) && row != Row(app, relays[0])
      ensures row in RowsOf(app, relays[1..])
    {
      var i :| 0 <= i < |relays| && row == Row(app, relays[i]);
      assert relays[1..][i - 1] == relays[i];
    }
  }

  // ---- what a record of events says of a run, after the first `mark` ----

  /** Every insert was answered Ok. */
  predicate RollbackWorked(calls: Calls, mark: nat) {
    Size(calls) > mark ==>
      (calls.last.Answered? && calls.last.op.Accept? ==> calls.last.result.Ok?) && RollbackWorked(calls.past, mark)
  }

  /** A removal answered with an error although it committed. */
  predicate HidesCommit(event: TrustEvent) {
    event.Answered? && event.op.Withdraw? && event.result.Err? && event.after != event.found
  }

  predicate Ambiguous(calls: Calls, mark: nat) {
    Size(calls) > mark && (HidesCommit(calls.last) || Ambiguous(calls.past, mark))
  }

  /** The pairs a removal of the run was answered Ok for. */
  ghost function Taken(calls: Calls, mark: nat): set<Row> {
    if Size(calls) <= mark then {}
    else
      Taken(calls.past, mark)
      + if calls.last.Answered? && calls.last.op.Withdraw? && calls.last.result.Ok? then {calls.last.op.row} else {}
  }

  /** Only pairs the same run looked up as trusted and then took out are ever put back. */
  ghost predicate RestoresOwn(calls: Calls, mark: nat) {
    Size(calls) > mark ==>
      && RestoresOwn(calls.past, mark)
      && (calls.last.Answered? && calls.last.op.Accept? ==>
            calls.last.op.row in Taken(calls.past, mark) && (calls.last.op.row, true) in Looks(calls.past, mark))
  }

  /** Every save of the run agreed with the table it found, its own pair aside. */
  predicate Clean(ok: Grammar, calls: Calls, mark: nat) {
    Size(calls) > mark ==>
      && Clean(ok, calls.past, mark)
      && (calls.last.Answered? && calls.last.after != calls.last.found ==>
            AgreeOutside(ok, calls.last.loaded, calls.last.found, calls.last.op.row))
  }

  /** The other commands left these pairs as they were. */
  predicate Spares(ok: Grammar, calls: Calls, mark: nat, own: set<Row>) {
    Size(calls) > mark ==>
      && Spares(ok, calls.past, mark, own)
      && (calls.last.Outside? ==>
            && Readable(ok, calls.last.found) && Readable(ok, calls.last.after)
            && Trusted(ok, calls.last.after) * own == Trusted(ok, calls.last.found) * own)
  }

  /** The run and the other commands kept out of each other's way. */
  predicate Apart(ok: Grammar, calls: Calls, mark: nat, own: set<Row>) {
    Clean(ok, calls, mark) && Spares(ok, calls, mark, own)
  }

  lemma ApartBeforeWindow(ok: Grammar, calls: Calls, e: Option<PolicyText>, calls': Calls, e': Option<PolicyText>,
                          mark: nat, own: set<Row>)
    requires Window(ok, calls, e, calls', e') && Size(calls) >= mark && Apart(ok, calls', mark, own)
    ensures Apart(ok, calls, mark, own)
  {}

  lemma ApartBeforeCall(ok: Grammar, calls: Calls, e: Option<PolicyText>, calls': Calls, e': Option<PolicyText>,
                        op: TrustOp, r: Result<()>, mark: nat, own: set<Row>)
    requires Finished(ok, calls, e, calls', e', op, r) && Size(calls) >= mark && Apart(ok, calls', mark, own)
    ensures Apart(ok, calls'.past, mark, own) && Apart(ok, calls, mark, own)
  {
    ApartBeforeWindow(ok, calls, e, calls'.past, calls'.last.found, mark, own);
  }

  lemma {:induction false} QuietIsApart(ok: Grammar, calls: Calls, mark: nat, start: Option<PolicyText>,
                                        now: Option<PolicyText>, own: set<Row>)
    requires Chained(ok, calls, mark, start, now) && Quiet(calls, mark)
    ensures Apart(ok, calls, mark, own) && OthersLeft(calls, mark, start) == start
  {
    if Size(calls) > mark { QuietIsApart(ok, calls.past, mark, start, calls.last.found, own); }
  }

  /** The table as another command last left it. */
  function OthersLeft(calls: Calls, mark: nat, start: Option<PolicyText>): Option<PolicyText> {
    if Size(calls) <= mark then start
    else if calls.last.Outside? then calls.last.after
    else OthersLeft(calls.past, mark, start)
  }

  /** The table is what the others left of it, but for `own`, of which exactly `gone` is missing. */
  predicate Lacking(ok: Grammar, calls: Calls, mark: nat, start: Option<PolicyText>, now: Option<PolicyText>,
                    own: set<Row>, gone: set<Row>) {
    if !Readable(ok, start) then now == start && gone == {}
    else
      var left := OthersLeft(calls, mark, start);
      && Readable(ok, left) && Readable(ok, now) && gone <= own * Trusted(ok, start)
      && Trusted(ok, now) == (Trusted(ok, left) - own) + (Trusted(ok, start) * own - gone)
      && (Quiet(calls, mark) ==> (start.Some? <==> now.Some?))
  }

  /** Without interference that is the record the run began with, to the letter, less exactly `gone`. */
  lemma QuietLacks(ok: Grammar, calls: Calls, mark: nat, start: Option<PolicyText>, now: Option<PolicyText>,
                   own: set<Row>, gone: set<Row>)
    requires Chained(ok, calls, mark, start, now) && Quiet(calls, mark)
    ensures Lacking(ok, calls, mark, start, now, own, gone) ==> Lacks(ok, start, now, gone)
    ensures now == start ==> Lacking(ok, calls, mark, start, now, own, {})
  {
    QuietIsApart(ok, calls, mark, start, now, own);
    if Lacking(ok, calls, mark, start, now, own, gone) && Readable(ok, start) {
      assert Trusted(ok, now) == Trusted(ok, start) - gone;
      if gone == {} && start.Some? { SameSetSameRecord(ok, start, now); }
    }
  }

  lemma LackingWindow(ok: Grammar, calls: Calls, mark: nat, start: Option<PolicyText>, e: Option<PolicyText>,
                      calls': Calls, e': Option<PolicyText>, own: set<Row>, gone: set<Row>)
    requires Lacking(ok, calls, mark, start, e, own, gone) && Size(calls) >= mark
    requires Window(ok, calls, e, calls', e') && Spares(ok, calls', mark, own)
    ensures Lacking(ok, calls', mark, start, e', own, gone)
  {
    if calls' != calls {
      assert Trusted(ok, e') * own == Trusted(ok, e) * own == Trusted(ok, start) * own - gone;
    }
  }

  /** A removal takes its pair out, or leaves the table and reports it. */
  lemma LackingMore(ok: Grammar, calls: Calls, mark: nat, start: Option<PolicyText>, e: Option<PolicyText>,
                    calls': Calls, e': Option<PolicyText>, own: set<Row>, gone: set<Row>, row: Row, r: Result<()>)
    requires Lacking(ok, calls, mark, start, e, own, gone) && Size(calls) >= mark
    requires Finished(ok, calls, e, calls', e', Withdraw(row), r) && Apart(ok, calls', mark, own)
    requires Readable(ok, start) && row in own * Trusted(ok, start) - gone
    ensures calls'.last.after != calls'.last.found ==> Lacking(ok, calls', mark, start, e', own, gone + {row})
    ensures calls'.last.after == calls'.last.found ==> r.Err? && Lacking(ok, calls', mark, start, e', own, gone)
  {
    var found := calls'.last.found;
    ApartBeforeCall(ok, calls, e, calls', e', Withdraw(row), r, mark, own);
    LackingWindow(ok, calls, mark, start, e, calls'.past, found, own, gone);
    assert row in Trusted(ok, e) && row in Trusted(ok, found);
    if e' != found {
      SaveIsExactlyWhen(ok, e, found, e', Withdraw(row));
      assert Trusted(ok, e') == Trusted(ok, found) - {row};
    }
  }

  /** An insert answered Ok puts its pair back. */
  lemma LackingLess(ok: Grammar, calls: Calls, mark: nat, start: Option<PolicyText>, e: Option<PolicyText>,
                    calls': Calls, e': Option<PolicyText>, own: set<Row>, gone: set<Row>, row: Row, r: Result<()>)
    requires Lacking(ok, calls, mark, start, e, own, gone) && Size(calls) >= mark
    requires Finished(ok, calls, e, calls', e', Accept(row), r) && Apart(ok, calls', mark, own)
    requires row in gone && r.Ok?
    ensures Lacking(ok, calls', mark, start, e', own, gone - {row})
  {
    var found := calls'.last.found;
    ApartBeforeCall(ok, calls, e, calls', e', Accept(row), r, mark, own);
    LackingWindow(ok, calls, mark, start, e, calls'.past, found, own, gone);
    assert row !in Trusted(ok, e) && row !in Trusted(ok, found);
    SaveIsExactlyWhen(ok, e, found, e', Accept(row));
    assert Trusted(ok, e') == Trusted(ok, found) + {row};
  }

  /** A run that has put nothing back yet and is not ambiguous; of its own pairs, the table lacks exactly `gone`. */
  ghost predicate Going(ok: Grammar, calls: Calls, mark: nat, start: Option<PolicyText>, now: Option<PolicyText>,
                        own: set<Row>, gone: set<Row>) {
    && Chained(ok, calls, mark, start, now) && Size(calls) >= mark
    && RestoresOwn(calls, mark) && RollbackWorked(calls, mark) && !Ambiguous(calls, mark)
    && (Apart(ok, calls, mark, own) ==> Lacking(ok, calls, mark, start, now, own, gone))
  }

  /** What a run promises of the table when the operation it belongs to fails. */
  predicate FailsCleanly(ok: Grammar, calls: Calls, mark: nat, start: Option<PolicyText>, now: Option<PolicyText>,
                         own: set<Row>) {
    Apart(ok, calls, mark, own) && RollbackWorked(calls, mark) ==>
      (Lacking(ok, calls, mark, start, now, own, {}) <==> !Ambiguous(calls, mark))
  }

  /** What others do changes nothing of what the run itself has done. */
  lemma AcrossWindow(ok: Grammar, calls: Calls, e: Option<PolicyText>, calls': Calls, e': Option<PolicyText>,
                     mark: nat, start: Option<PolicyText>)
    requires Window(ok, calls, e, calls', e') && Chained(ok, calls, mark, start, e) && Size(calls) >= mark
    ensures Chained(ok, calls', mark, start, e') && Size(calls') >= mark
    ensures Looks(calls', mark) == Looks(calls, mark) && Taken(calls', mark) == Taken(calls, mark)
    ensures Ambiguous(calls', mark) <==> Ambiguous(calls, mark)
    ensures RollbackWorked(calls', mark) <==> RollbackWorked(calls, mark)
    ensures RestoresOwn(calls', mark) <==> RestoresOwn(calls, mark)
    ensures Quiet(calls', mark) ==> Quiet(calls, mark)
  {}

  lemma AcrossCall(ok: Grammar, calls: Calls, e: Option<PolicyText>, calls': Calls, e': Option<PolicyText>,
                   op: TrustOp, r: Result<()>, mark: nat, start: Option<PolicyText>)
    requires Finished(ok, calls, e, calls', e', op, r) && Chained(ok, calls, mark, start, e) && Size(calls) >= mark
    ensures Chained(ok, calls', mark, start, e') && Size(calls') > mark
    ensures Looks(calls', mark) == Looks(calls, mark)
    ensures Taken(calls', mark) == Taken(calls, mark) + if op.Withdraw? && r.Ok? then {op.row} else {}
    ensures Ambiguous(calls', mark) <==> Ambiguous(calls, mark) || HidesCommit(calls'.last)
    ensures RollbackWorked(calls', mark) <==> RollbackWorked(calls, mark) && (op.Accept? ==> r.Ok?)
    ensures (op.Accept? ==> op.row in Taken(calls, mark) && (op.row, true) in Looks(calls, mark)) ==>
              (RestoresOwn(calls, mark) ==> RestoresOwn(calls', mark))
    ensures Quiet(calls', mark) ==> Quiet(calls, mark)
  {
    AcrossWindow(ok, calls, e, calls'.past, calls'.last.found, mark, start);
  }

  /** Put every withdrawn pair back, each refusal ignored; the pairs `stuck` are beyond its reach. */
  method RollBack(trust: TrustStore, app: string, relays: seq<string>, ghost own: set<Row>, ghost stuck: set<Row>,
                  ghost start: Option<PolicyText>, ghost mark: nat)
    requires RowsOf(app, relays) !! stuck && forall i, j :: 0 <= i < j < |relays| ==> relays[i] != relays[j]
    requires Chained(trust.ok, trust.calls, mark, start, trust.entry) && Size(trust.calls) >= mark
      && RestoresOwn(trust.calls, mark)
    requires forall row :: row in RowsOf(app, relays) ==>
      && row in Taken(trust.calls, mark)
      && (row, true) in Looks(trust.calls, mark)
    requires Apart(trust.ok, trust.calls, mark, own) ==>
      Lacking(trust.ok, trust.calls, mark, start, trust.entry, own, RowsOf(app, relays) + stuck)
    modifies trust
    ensures Chained(trust.ok, trust.calls, mark, start, trust.entry) && Size(trust.calls) >= mark
      && RestoresOwn(trust.calls, mark)
    ensures Ambiguous(trust.calls, mark) <==> Ambiguous(old(trust.calls), mark)
    ensures Looks(trust.calls, mark) == Looks(old(trust.calls), mark)
    ensures Apart(trust.ok, trust.calls, mark, own) && RollbackWorked(trust.calls, mark) ==>
      Lacking(trust.ok, trust.calls, mark, start, trust.entry, own, stuck)
  {
    assert relays[0..] == relays;
    for k := 0 to |relays|
      invariant Chained(trust.ok, trust.calls, mark, start, trust.entry) && Size(trust.calls) >= mark
        && RestoresOwn(trust.calls, mark)
      invariant RowsOf(app, relays) <= Taken(trust.calls, mark)
        && Looks(trust.calls, mark) == Looks(old(trust.calls), mark)
      invariant Ambiguous(trust.calls, mark) <==> Ambiguous(old(trust.calls), mark)
      invariant RowsOf(app, relays[k..]) !! stuck
      invariant Apart(trust.ok, trust.calls, mark, own) && RollbackWorked(trust.calls, mark) ==>
        Lacking(trust.ok, trust.calls, mark, start, trust.entry, own, RowsOf(app, relays[k..]) + stuck)
    {
      TailRows(app, relays[k..]);
      assert relays[k..][1..] == relays[k + 1..] && relays[k..][0] == relays[k];
      PutBack(trust, Row(app, relays[k]), own, RowsOf(app, relays[k..]) + stuck, start, mark);
      assert RowsOf(app, relays[k..]) + stuck - {Row(app, relays[k])} == RowsOf(app, relays[k + 1..]) + stuck;
    }
    assert RowsOf(app, relays[|relays|..]) + stuck == stuck;
  }

  /** One insert of the rollback, after whatever others did. */
  method PutBack(trust: TrustStore, row: Row, ghost own: set<Row>, ghost gone: set<Row>,
                 ghost start: Option<PolicyText>, ghost mark: nat)
    requires Chained(trust.ok, trust.calls, mark, start, trust.entry) && Size(trust.calls) >= mark
      && RestoresOwn(trust.calls, mark)
    requires row in Taken(trust.calls, mark) && (row, true) in Looks(trust.calls, mark) && row in gone
    requires Apart(trust.ok, trust.calls, mark, own) && RollbackWorked(trust.calls, mark) ==>
      Lacking(trust.ok, trust.calls, mark, start, trust.entry, own, gone)
    modifies trust
    ensures Chained(trust.ok, trust.calls, mark, start, trust.entry) && Size(trust.calls) >= mark
      && RestoresOwn(trust.calls, mark)
    ensures Ambiguous(trust.calls, mark) <==> Ambiguous(old(trust.calls), mark)
    ensures Looks(trust.calls, mark) == Looks(old(trust.calls), mark)
      && Taken(old(trust.calls), mark) <= Taken(trust.calls, mark)
    ensures Apart(trust.ok, trust.calls, mark, own) && RollbackWorked(trust.calls, mark) ==>
      Lacking(trust.ok, trust.calls, mark, start, trust.entry, own, gone - {row})
  {
    ghost var calls, e := trust.calls, trust.entry;
    trust.Elsewhere();
    ghost var calls1, e1 := trust.calls, trust.entry;
    AcrossWindow(trust.ok, calls, e, calls1, e1, mark, start);
    var r := trust.Insert(row);
    AcrossCall(trust.ok, calls1, e1, trust.calls, trust.entry, Accept(row), r, mark, start);
    if Apart(trust.ok, trust.calls, mark, own) && RollbackWorked(trust.calls, mark) {
      ApartBeforeCall(trust.ok, calls1, e1, trust.calls, trust.entry, Accept(row), r, mark, own);
      ApartBeforeWindow(trust.ok, calls, e, calls1, e1, mark, own);
      LackingWindow(trust.ok, calls, mark, start, e, calls1, e1, own, gone);
      LackingLess(trust.ok, calls1, mark, start, e1, trust.calls, trust.entry, own, gone, row, r);
    }
  }

  /**
   What the record of an unlink shows. Whatever other writers do, only pairs looked up as trusted and
   taken out are ever put back. If the others left the doomed pairs alone and every save of the run agreed
   with the table it found, success means that the table lacks exactly those pairs, and an error whose
   inserts were all answered Ok that it lacks none, exactly unless a removal hid its commit.
   */
  ghost predicate Accounted(ok: Grammar, calls: Calls, mark: nat, start: Option<PolicyText>, now: Option<PolicyText>,
                            app: string, expected: LocalLink, r: Result<()>)
  {
    var own := Doomed(expected, app, |expected.states|);
    && Chained(ok, calls, mark, start, now) && RestoresOwn(calls, mark)
    && (r.Ok? ==> AsLooked(calls, mark, app, expected.states))
    && (r.Ok? && Apart(ok, calls, mark, own) ==> Lacking(ok, calls, mark, start, now, own, own))
    && (r.Err? ==> FailsCleanly(ok, calls, mark, start, now, own))
  }

  /**
   The same run with no other writer: the record is as it was, to the letter, less the doomed pairs or less
   nothing.
   */
  lemma UnlinkAlone(ok: Grammar, calls: Calls, mark: nat, start: Option<PolicyText>, now: Option<PolicyText>,
                    app: string, expected: LocalLink, r: Result<()>)
    requires Accounted(ok, calls, mark, start, now, app, expected, r) && Quiet(calls, mark)
    ensures r.Ok? ==> Lacks(ok, start, now, Doomed(expected, app, |expected.states|))
    ensures r.Err? && RollbackWorked(calls, mark) ==> (now == start <==> !Ambiguous(calls, mark))
  {
    var own := Doomed(expected, app, |expected.states|);
    QuietIsApart(ok, calls, mark, start, now, own);
    QuietLacks(ok, calls, mark, start, now, own, own);
    QuietLacks(ok, calls, mark, start, now, own, {});
  }

  /** `unlink_local`, with other commands acting on the trust table at any point; the events are on record. */
  method UnlinkLocal(links: LinkStore, trust: TrustStore, expected: LocalLink) returns (r: Result<()>)
    requires DistinctRelays(expected.states)
    modifies links, trust
    ensures var app := expected.slot.Application();
      Unlink(old(links.View()), links.View(), app, expected.slots, expected.slot, r)
    ensures var app, mark := expected.slot.Application(), Size(old(trust.calls));
      Accounted(trust.ok, trust.calls, mark, old(trust.entry), trust.entry, app, expected, r)
    ensures var app, mark := expected.slot.Application(), Size(old(trust.calls));
      Quiet(trust.calls, mark) ==>
        && (r.Ok? ==> Lacks(trust.ok, old(trust.entry), trust.entry, Doomed(expected, app, |expected.states|)))
        && (r.Err? && RollbackWorked(trust.calls, mark) ==>
            (trust.entry == old(trust.entry) <==> !Ambiguous(trust.calls, mark)))
    ensures r.Ok? && Quiet(trust.calls, Size(old(trust.calls))) ==>
      LeavesOwn(expected, RowsIn(trust.ok, old(trust.entry)), RowsIn(trust.ok, trust.entry))
    ensures !expected.slot.Valid() ==>
      r == Err(CheckpointRefused) && links.View() == old(links.View()) && trust.calls == old(trust.calls)
  {
    r := WithdrawAndWrite(links, trust, expected);
    if Quiet(trust.calls, Size(old(trust.calls))) {
      UnlinkAlone(trust.ok, trust.calls, Size(old(trust.calls)), old(trust.entry), trust.entry,
                  expected.slot.Application(), expected, r);
      if r.Ok? { DoomedLeave(trust.ok, old(trust.entry), trust.entry, expected); }
    }
  }

  function RowsIn(ok: Grammar, entry: Option<PolicyText>): set<Row> {
    if Readable(ok, entry) then Trusted(ok, entry) else {}
  }

  /**
   The pairs that leave the table are exactly those sampled as trusted; but of these, when only a pending
   ceremony is abandoned, the pair of a relay some installed link of the application uses stays.
   */
  ghost predicate LeavesOwn(expected: LocalLink, before: set<Row>, now: set<Row>) {
    var slots, states, app := expected.slots, expected.states, expected.slot.Application();
    && now <= before
    && (forall k :: 0 <= k < |states| && states[k].1 ==>
        var row := Row(app, states[k].0);
        row in before
        && (row in now <==>
            expected.slot.PendingSlot?
            && exists i :: 0 <= i < |slots| && slots[i].InstalledSlot? && slots[i].link.relay == row.relay))
    && (forall row :: row in before && row !in now ==>
          exists k :: 0 <= k < |states| && states[k].1 && row == Row(app, states[k].0))
  }

  lemma DoomedLeave(ok: Grammar, before: Option<PolicyText>, now: Option<PolicyText>, expected: LocalLink)
    requires Lacks(ok, before, now, Doomed(expected, expected.slot.Application(), |expected.states|))
    requires StartAgrees(ok, before, expected.slot.Application(), expected.states)
    ensures LeavesOwn(expected, RowsIn(ok, before), RowsIn(ok, now))
  {
    var states, app := expected.states, expected.slot.Application();
    var gone := Doomed(expected, app, |states|);
    assert RowsIn(ok, now) == RowsIn(ok, before) - gone;
    forall k | 0 <= k < |states| && states[k].1
      ensures Row(app, states[k].0) in gone <==> !RetainedRelay(expected, states[k].0)
    {}
  }

  /** The samples are of the table the run began with. */
  predicate StartAgrees(ok: Grammar, start: Option<PolicyText>, app: string, states: seq<(string, bool)>) {
    states != [] ==> Readable(ok, start) && StatesAgree(Trusted(ok, start), app, states)
  }

  method WithdrawAndWrite(links: LinkStore, trust: TrustStore, expected: LocalLink) returns (r: Result<()>)
    requires DistinctRelays(expected.states)
    modifies links, trust
    ensures var app := expected.slot.Application();
      Unlink(old(links.View()), links.View(), app, expected.slots, expected.slot, r)
    ensures var app, mark := expected.slot.Application(), Size(old(trust.calls));
      Accounted(trust.ok, trust.calls, mark, old(trust.entry), trust.entry, app, expected, r)
    ensures r.Ok? && Quiet(trust.calls, Size(old(trust.calls))) ==>
      StartAgrees(trust.ok, old(trust.entry), expected.slot.Application(), expected.states)
    ensures !expected.slot.Valid() ==>
      r == Err(CheckpointRefused) && links.View() == old(links.View()) && trust.calls == old(trust.calls)
  {
    if !expected.slot.Valid() { return Err(CheckpointRefused); }
    ghost var mark, start := Size(trust.calls), trust.entry;
    var app := expected.slot.Application();
    ghost var own := Doomed(expected, app, |expected.states|);
    var read := links.ReadSlotList(app);
    if read.Err? { return Err(read.error); }
    if read.value != expected.slots { return Err(ApplicationNotLinked); }
    r := CheckStates(trust, app, expected, start, mark);
    if r.Err? { return; }
    var removed;
    r, removed := WithdrawPairs(trust, app, expected, start, mark);
    if r.Err? { return; }
    r := links.WriteSlotList(app, if expected.slot.PendingSlot? then Except(expected.slots, expected.slot) else []);
    if r.Err? {
      assert RowsOf(app, removed) + {} == own;
      RollBack(trust, app, removed, own, {}, start, mark);
    }
  }

  /** Every sampled state must still be what was sampled. */
  method CheckStates(trust: TrustStore, app: string, expected: LocalLink, ghost start: Option<PolicyText>,
                     ghost mark: nat) returns (r: Result<()>)
    requires trust.entry == start && Size(trust.calls) == mark
    modifies trust
    ensures Going(trust.ok, trust.calls, mark, start, trust.entry, Doomed(expected, app, |expected.states|), {})
    ensures r.Ok? ==> AsLooked(trust.calls, mark, app, expected.states)
    ensures r.Ok? && Apart(trust.ok, trust.calls, mark, Doomed(expected, app, |expected.states|)) ==>
      WereTrusted(trust.ok, start, Doomed(expected, app, |expected.states|))
    ensures r.Ok? && Quiet(trust.calls, mark) ==> StartAgrees(trust.ok, start, app, expected.states)
  {
    ghost var own := Doomed(expected, app, |expected.states|);
    for k := 0 to |expected.states|
      invariant Going(trust.ok, trust.calls, mark, start, trust.entry, own, {}) && NoAnswers(trust.calls, mark)
      invariant AsLooked(trust.calls, mark, app, expected.states[..k])
      invariant Apart(trust.ok, trust.calls, mark, own) ==> WereTrusted(trust.ok, start, Doomed(expected, app, k))
    {
      DoomedGrows(expected, app, k);
      var state := CheckOne(trust, Row(app, expected.states[k].0), own, start, mark);
      if state.Err? { return Err(state.error); }
      if state.value != expected.states[k].1 { return Err(CheckpointRefused); }
      assert expected.states[..k + 1] == expected.states[..k] + [expected.states[k]];
    }
    assert expected.states[..|expected.states|] == expected.states;
    if Quiet(trust.calls, mark) {
      QuietLooks(trust.ok, trust.calls, mark, start, trust.entry);
      assert expected.states != [] ==>
        (Row(app, expected.states[0].0), expected.states[0].1) in Looks(trust.calls, mark);
    }
    return Ok(());
  }

  predicate WereTrusted(ok: Grammar, start: Option<PolicyText>, rows: set<Row>) {
    rows != {} ==> Readable(ok, start) && rows <= Trusted(ok, start)
  }

  /** One lookup of the check; a pair it finds trusted was trusted at the start, if others left it alone. */
  method CheckOne(trust: TrustStore, row: Row, ghost own: set<Row>, ghost start: Option<PolicyText>, ghost mark: nat)
    returns (r: Result<bool>)
    requires Going(trust.ok, trust.calls, mark, start, trust.entry, own, {}) && NoAnswers(trust.calls, mark)
    modifies trust
    ensures Going(trust.ok, trust.calls, mark, start, trust.entry, own, {}) && NoAnswers(trust.calls, mark)
    ensures Looks(trust.calls, mark) == Looks(old(trust.calls), mark) + if r.Ok? then {(row, r.value)} else {}
    ensures Apart(trust.ok, trust.calls, mark, own) ==> Apart(trust.ok, old(trust.calls), mark, own)
    ensures Apart(trust.ok, trust.calls, mark, own) && r == Ok(true) && row in own ==>
      WereTrusted(trust.ok, start, {row})
  {
    ghost var calls, e := trust.calls, trust.entry;
    trust.Elsewhere();
    ghost var calls1, e1 := trust.calls, trust.entry;
    if Apart(trust.ok, calls1, mark, own) {
      ApartBeforeWindow(trust.ok, calls, e, calls1, e1, mark, own);
      LackingWindow(trust.ok, calls, mark, start, e, calls1, e1, own, {});
    }
    r := trust.State(row);
  }

  lemma DoomedGrows(expected: LocalLink, app: string, k: nat)
    requires k < |expected.states|
    ensures var state := expected.states[k];
      Doomed(expected, app, k + 1) ==
      if state.1 && !RetainedRelay(expected, state.0) then Doomed(expected, app, k) + {Row(app, state.0)}
        else Doomed(expected, app, k)
    ensures Doomed(expected, app, k + 1) <= Doomed(expected, app, |expected.states|)
  {}

  lemma DoomedApart(expected: LocalLink, app: string, k: nat)
    requires DistinctRelays(expected.states) && k < |expected.states|
    ensures Row(app, expected.states[k].0) !in Doomed(expected, app, k)
  {}

  /** The withdrawals, in the order of the samples; the first to fail undoes those before it. */
  method WithdrawPairs(trust: TrustStore, app: string, expected: LocalLink, ghost start: Option<PolicyText>,
                       ghost mark: nat)
    returns (r: Result<()>, removed: seq<string>)
    requires DistinctRelays(expected.states) && AsLooked(trust.calls, mark, app, expected.states)
    requires Going(trust.ok, trust.calls, mark, start, trust.entry, Doomed(expected, app, |expected.states|), {})
    requires Apart(trust.ok, trust.calls, mark, Doomed(expected, app, |expected.states|)) ==>
      WereTrusted(trust.ok, start, Doomed(expected, app, |expected.states|))
    modifies trust
    ensures r.Ok? ==> RowsOf(app, removed) == Doomed(expected, app, |expected.states|) <= Taken(trust.calls, mark)
    ensures r.Ok? ==> forall i, j :: 0 <= i < j < |removed| ==> removed[i] != removed[j]
    ensures r.Ok? ==> forall row :: row in RowsOf(app, removed) ==> (row, true) in Looks(trust.calls, mark)
    ensures r.Ok? ==> AsLooked(trust.calls, mark, app, expected.states)
    ensures r.Ok? ==> Going(trust.ok, trust.calls, mark, start, trust.entry, Doomed(expected, app, |expected.states|),
                            RowsOf(app, removed))
    ensures r.Ok? && Quiet(trust.calls, mark) ==> Quiet(old(trust.calls), mark)
    ensures r.Err? ==> Chained(trust.ok, trust.calls, mark, start, trust.entry) && RestoresOwn(trust.calls, mark)
    ensures r.Err? ==> FailsCleanly(trust.ok, trust.calls, mark, start, trust.entry,
                                    Doomed(expected, app, |expected.states|))
  {
    removed := [];
    ghost var own := Doomed(expected, app, |expected.states|);
    for k := 0 to |expected.states|
      invariant Going(trust.ok, trust.calls, mark, start, trust.entry, own, RowsOf(app, removed))
      invariant RowsOf(app, removed) == Doomed(expected, app, k) <= Taken(trust.calls, mark)
        && AsLooked(trust.calls, mark, app, expected.states)
      invariant forall row :: row in RowsOf(app, removed) ==> (row, true) in Looks(trust.calls, mark)
      invariant forall i, j :: 0 <= i < j < |removed| ==> removed[i] != removed[j]
      invariant Apart(trust.ok, trust.calls, mark, own) ==> WereTrusted(trust.ok, start, own)
      invariant Quiet(trust.calls, mark) ==> Quiet(old(trust.calls), mark)
    {
      var relay := expected.states[k].0;
      DoomedGrows(expected, app, k);
      DoomedApart(expected, app, k);
      if expected.states[k].1 && !RetainedRelay(expected, relay) {
        r := WithdrawPair(trust, app, removed, relay, own, start, mark);
        if r.Err? { return; }
        assert forall i :: 0 <= i < |removed| ==> Row(app, removed[i]) in RowsOf(app, removed);
        RowsOfAppended(app, removed, relay);
        removed := removed + [relay];
      }
    }
    return Ok(()), removed;
  }

  /** One withdrawal, after whatever others did, and on its failure the rollback of those before it. */
  method WithdrawPair(trust: TrustStore, app: string, removed: seq<string>, relay: string, ghost own: set<Row>,
                      ghost start: Option<PolicyText>, ghost mark: nat)
    returns (r: Result<()>)
    requires Going(trust.ok, trust.calls, mark, start, trust.entry, own, RowsOf(app, removed))
    requires RowsOf(app, removed) <= Taken(trust.calls, mark)
    requires forall row :: row in RowsOf(app, removed) ==> (row, true) in Looks(trust.calls, mark)
    requires forall i, j :: 0 <= i < j < |removed| ==> removed[i] != removed[j]
    requires Row(app, relay) in own - RowsOf(app, removed)
    requires Apart(trust.ok, trust.calls, mark, own) ==> WereTrusted(trust.ok, start, own)
    modifies trust
    ensures Looks(trust.calls, mark) == Looks(old(trust.calls), mark)
    ensures r.Ok? ==> Going(trust.ok, trust.calls, mark, start, trust.entry, own,
                            RowsOf(app, removed) + {Row(app, relay)})
    ensures r.Ok? ==> RowsOf(app, removed) + {Row(app, relay)} <= Taken(trust.calls, mark)
    ensures r.Ok? ==> (Apart(trust.ok, trust.calls, mark, own) ==> Apart(trust.ok, old(trust.calls), mark, own))
    ensures r.Ok? && Quiet(trust.calls, mark) ==> Quiet(old(trust.calls), mark)
    ensures r.Err? ==> Chained(trust.ok, trust.calls, mark, start, trust.entry) && RestoresOwn(trust.calls, mark)
    ensures r.Err? ==> FailsCleanly(trust.ok, trust.calls, mark, start, trust.entry, own)
  {
    ghost var row, gone := Row(app, relay), RowsOf(app, removed);
    ghost var calls, e := trust.calls, trust.entry;
    trust.Elsewhere();
    ghost var calls1, e1 := trust.calls, trust.entry;
    AcrossWindow(trust.ok, calls, e, calls1, e1, mark, start);
    r := trust.Remove(Row(app, relay));
    AcrossCall(trust.ok, calls1, e1, trust.calls, trust.entry, Withdraw(row), r, mark, start);
    if Apart(trust.ok, trust.calls, mark, own) {
      ApartBeforeCall(trust.ok, calls1, e1, trust.calls, trust.entry, Withdraw(row), r, mark, own);
      ApartBeforeWindow(trust.ok, calls, e, calls1, e1, mark, own);
      LackingWindow(trust.ok, calls, mark, start, e, calls1, e1, own, gone);
      LackingMore(trust.ok, calls1, mark, start, e1, trust.calls, trust.entry, own, gone, row, r);
    }
    if r.Err? {
      ghost var stuck := if HidesCommit(trust.calls.last) then {row} else {};
      assert gone + {} == gone;
      RollBack(trust, app, removed, own, stuck, start, mark);
    }
  }

  lemma RowsOfAppended(app: string, relays: seq<string>, relay: string)
    ensures RowsOf(app, relays + [relay]) == RowsOf(app, relays) + {Row(app, relay)}
  {
    var all := relays + [relay];
    assert all[|relays|] == relay;
    assert forall i :: 0 <= i < |relays| ==> all[i] == relays[i];
  }

  /**
   A successful unlink abandons exactly the selected ceremony, or leaves the application nothing; no other
   entry moves.
   */
  lemma UnlinkLeaves(d: Disk, d': Disk, app: string, snapshot: seq<Slot>, selected: Slot)
    requires Sound(d) && Unlink(d, d', app, snapshot, selected, Ok(())) && selected in snapshot
    ensures ReadSlots(d, app) == Ok(snapshot)
    ensures ReadSlots(d', app) == Ok(if selected.PendingSlot? then snapshot[..|snapshot| - 1] else [])
    ensures selected.PendingSlot? ==> snapshot[|snapshot| - 1] == selected
    ensures forall other :: other != app ==> Entry(d', other) == Entry(d, other)
  {
    SuccessMeans(d, d', OpUnlink(app, snapshot, selected), app);
    assert Listed(d, app);
  }
}
