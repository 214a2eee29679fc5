/**
 The person-owned trust table: one sealed record holding a sorted vector of exact application-relay
 pairs. Lookup is binary search; what the vector means is a set.
 */
module Policy {
  import opened Prelude

  const MAX_ROWS: nat := 256
  const POLICY_VERSION: nat := 1

  datatype Row = Row(application: string, relay: string)

  /** Which pairs are an application identifier and a canonical origin; their grammars are not modelled. */
  type Grammar = Row -> bool

  // ---- the order of pairs ----

  predicate Before(a: Row, b: Row) {
    Less(a.application, b.application) || (a.application == b.application && Less(a.relay, b.relay))
  }

  lemma BeforeTransitive(a: Row, b: Row, c: Row)
    requires Before(a, b) && Before(b, c)
    ensures Before(a, c)
  {
    if Less(a.application, b.application) && Less(b.application, c.application) {
      LessTransitive(a.application, b.application, c.application);
    } else if a.application == b.application == c.application {
      LessTransitive(a.relay, b.relay, c.relay);
    }
  }

  lemma BeforeTotal(a: Row, b: Row)
    ensures Before(a, b) || a == b || Before(b, a)
    ensures !(Before(a, b) && Before(b, a)) && !Before(a, a)
  {
    LessTotal(a.application, b.application);
    LessTotal(a.relay, b.relay);
    LessIrreflexive(a.application);
    LessIrreflexive(a.relay);
    if Before(a, b) && Before(b, a) { BeforeTransitive(a, b, a); }
  }

  predicate Sorted(rows: seq<Row>) {
    forall i, j :: 0 <= i < j < |rows| ==> Before(rows[i], rows[j])
  }

  function RowSet(rows: seq<Row>): set<Row> {
    set row | row in rows
  }

  /** A set of pairs has one sorted vector, so equal sets are equal stored text. */
  lemma {:induction false} SortedUnique(a: seq<Row>, b: seq<Row>)
    requires Sorted(a) && Sorted(b) && RowSet(a) == RowSet(b)
    ensures a == b
    decreases |a|
  {
    if a == [] {
      assert forall i :: 0 <= i < |b| ==> b[i] in RowSet(b);
    } else {
      assert a[0] in RowSet(b) && (b != [] ==> b[0] in RowSet(a));
      var i :| 0 <= i < |b| && b[i] == a[0];
      var j :| 0 <= j < |a| && a[j] == b[0];
      if i > 0 && j > 0 { BeforeTotal(a[0], b[0]); }
      BeforeTotal(a[0], a[0]);
      assert a[0] == b[0];
      forall row ensures row in RowSet(a[1..]) <==> row in RowSet(b[1..]) {
        BeforeTotal(a[0], row);
        assert row in RowSet(a) <==> row in RowSet(b);
        assert row in RowSet(a[1..]) <==> row in RowSet(a) && row != a[0] by { HeadApart(a); }
        assert row in RowSet(b[1..]) <==> row in RowSet(b) && row != b[0] by { HeadApart(b); }
      }
      SortedUnique(a[1..], b[1..]);
    }
  }

  lemma HeadApart(rows: seq<Row>)
    requires Sorted(rows) && rows != []
    ensures forall row :: row in rows[1..] <==> row in rows && row != rows[0]
  {
    forall i | 0 < i < |rows| ensures rows[i] != rows[0] { BeforeTotal(rows[0], rows[i]); }
    assert rows == [rows[0]] + rows[1..];
  }

  // ---- the record ----

  datatype PolicyText = PolicyText(version: nat, rows: seq<Row>) | ForeignPolicy

  predicate Admits(ok: Grammar, text: PolicyText) {
    && text.PolicyText? && text.version == POLICY_VERSION && |text.rows| <= MAX_ROWS
    && Sorted(text.rows) && forall i :: 0 <= i < |text.rows| ==> ok(text.rows[i])
  }

  /** The record, spelled out: version one, at most 256 pairs of the grammar, strictly by application, then by relay. */
  lemma AdmitsMeans(ok: Grammar, text: PolicyText)
    ensures Readable(ok, None) && Trusted(ok, None) == {}
    ensures Readable(ok, Some(text)) ==> forall row :: row in Trusted(ok, Some(text)) <==> row in text.rows
    ensures Readable(ok, Some(text)) <==>
      && text.PolicyText? && text.version == 1 && |text.rows| <= 256
      && (forall i :: 0 <= i < |text.rows| ==> ok(text.rows[i]))
      && (forall i, j :: 0 <= i < j < |text.rows| ==>
            var a, b := text.rows[i], text.rows[j];
            if a.application == b.application then Less(a.relay, b.relay) else Less(a.application, b.application))
  {
    forall i, j | text.PolicyText? && 0 <= i < j < |text.rows|
      ensures var a, b := text.rows[i], text.rows[j];
        Before(a, b) <==>
          if a.application == b.application then Less(a.relay, b.relay) else Less(a.application, b.application)
    {
      LessIrreflexive(text.rows[i].application);
    }
  }

  /** A missing record means no accepted pair; a malformed one refuses instead of prompting afresh. */
  function LoadTrust(ok: Grammar, entry: Option<PolicyText>): Result<seq<Row>> {
    if entry.None? then Ok([])
    else if Admits(ok, entry.value) then Ok(entry.value.rows)
    else Err(PolicyUnavailable)
  }

  predicate Readable(ok: Grammar, entry: Option<PolicyText>) {
    LoadTrust(ok, entry).Ok?
  }

  /** What the table means. */
  function Trusted(ok: Grammar, entry: Option<PolicyText>): set<Row>
    requires Readable(ok, entry)
  {
    RowSet(LoadTrust(ok, entry).value)
  }

  predicate Holds(ok: Grammar, entry: Option<PolicyText>, rows: set<Row>) {
    entry.Some? && Readable(ok, entry) && Trusted(ok, entry) == rows
  }

  datatype TrustOp = Accept(row: Row) | Withdraw(row: Row)

  function Applied(op: TrustOp, rows: set<Row>): set<Row> {
    match op
    case Accept(row) => rows + {row}
    case Withdraw(row) => rows - {row}
  }

  /** The operation has something to write on what it loaded. */
  predicate Changes(ok: Grammar, loaded: Option<PolicyText>, op: TrustOp) {
    Readable(ok, loaded) && ok(op.row) && Applied(op, Trusted(ok, loaded)) != Trusted(ok, loaded)
  }

  /** A committed save writes the whole table, as the operation makes it of what it loaded. */
  predicate Saves(ok: Grammar, loaded: Option<PolicyText>, after: Option<PolicyText>, op: TrustOp) {
    Changes(ok, loaded, op) && Holds(ok, after, Applied(op, Trusted(ok, loaded)))
  }

  /**
   One call, which loads the table, and saves it without looking again: others may have saved in
   between. It leaves what it found, or has nothing to do, or saves; a refusal may hide a committed save.
   */
  predicate Answers(ok: Grammar, loaded: Option<PolicyText>, found: Option<PolicyText>, after: Option<PolicyText>,
                    op: TrustOp, r: Result<()>)
  {
    || (after == found && r == Err(PolicyUnavailable))
    || (Readable(ok, loaded) && ok(op.row) && !Changes(ok, loaded, op) && after == found == loaded && r == Ok(()))
    || (Saves(ok, loaded, after, op) && r in {Ok(()), Err(PolicyUnavailable)})
  }

  predicate Purges(e: Option<PolicyText>, e': Option<PolicyText>, r: Result<()>) {
    (e' == None || (r.Err? && e' == e)) && r in {Ok(()), Err(PolicyUnavailable)}
  }

  /** The two tables hold the same pairs, this one aside. */
  predicate AgreeOutside(ok: Grammar, a: Option<PolicyText>, b: Option<PolicyText>, row: Row) {
    Readable(ok, a) && Readable(ok, b) && Trusted(ok, a) - {row} == Trusted(ok, b) - {row}
  }

  /**
   A committed save does its operation to the table it finds exactly when what it loaded agrees with that
   outside its own pair.
   */
  lemma SaveIsExactlyWhen(ok: Grammar, loaded: Option<PolicyText>, found: Option<PolicyText>,
                          after: Option<PolicyText>, op: TrustOp)
    requires Saves(ok, loaded, after, op) && Readable(ok, found)
    ensures Trusted(ok, after) == Applied(op, Trusted(ok, found)) <==> AgreeOutside(ok, loaded, found, op.row)
  {
    var row, a, b := op.row, Trusted(ok, loaded), Trusted(ok, found);
    if Trusted(ok, after) == Applied(op, b) {
      assert forall x :: x in a - {row} <==> x in Applied(op, a) && x != row;
      assert forall x :: x in b - {row} <==> x in Applied(op, b) && x != row;
    }
    if AgreeOutside(ok, loaded, found, row) {
      forall x ensures x in Applied(op, a) <==> x in Applied(op, b) {
        assert x in a - {row} <==> x in b - {row};
      }
      assert Applied(op, a) == Applied(op, b);
    }
  }

  /** Removing a pair and adding it back, with nobody in between, restores the record to the letter. */
  lemma RemoveThenInsert(ok: Grammar, e: Option<PolicyText>, e1: Option<PolicyText>, e2: Option<PolicyText>, row: Row)
    requires Saves(ok, e, e1, Withdraw(row)) && Answers(ok, e1, e1, e2, Accept(row), Ok(()))
    ensures e2 == e
  {
    assert Trusted(ok, e2) == Trusted(ok, e);
    SameSetSameRecord(ok, e, e2);
  }

  lemma SameSetSameRecord(ok: Grammar, e: Option<PolicyText>, e': Option<PolicyText>)
    requires e.Some? && e'.Some? && Readable(ok, e) && Readable(ok, e') && Trusted(ok, e) == Trusted(ok, e')
    ensures e == e'
  {
    SortedUnique(e.value.rows, e'.value.rows);
  }

  // ---- the vector ----

  predicate Splits(rows: seq<Row>, row: Row, place: nat) {
    && place <= |rows| && (forall i :: 0 <= i < place ==> Before(rows[i], row))
    && forall i :: place <= i < |rows| ==> Before(row, rows[i])
  }

  function With(rows: seq<Row>, row: Row, place: nat): (next: seq<Row>)
    requires place <= |rows|
    ensures |next| == |rows| + 1
    ensures forall i :: 0 <= i < |next| ==> next[i] == if i < place then rows[i] else if i == place then row
      else rows[i - 1]
  {
    rows[..place] + [row] + rows[place..]
  }

  lemma InsertedSorted(rows: seq<Row>, row: Row, place: nat)
    requires Sorted(rows) && Splits(rows, row, place)
    ensures Sorted(With(rows, row, place))
  {
    var next := With(rows, row, place);
    forall i, j | 0 <= i < j < |next| ensures Before(next[i], next[j]) {
      if j < place { assert Before(rows[i], rows[j]); }
      else if i > place { assert Before(rows[i - 1], rows[j - 1]); }
      else if i < place < j { assert Before(rows[i], rows[j - 1]); }
    }
  }

  lemma InsertedSet(rows: seq<Row>, row: Row, place: nat)
    requires place <= |rows|
    ensures RowSet(With(rows, row, place)) == RowSet(rows) + {row}
  {
    assert rows == rows[..place] + rows[place..];
    assert forall x :: x in With(rows, row, place) <==> x in rows || x == row;
  }

  lemma RemovedAt(rows: seq<Row>, place: nat)
    requires Sorted(rows) && place < |rows|
    ensures var next := rows[..place] + rows[place + 1..];
      Sorted(next) && RowSet(next) == RowSet(rows) - {rows[place]} && forall i :: 0 <= i < |next| ==> next[i] in rows
  {
    var next := rows[..place] + rows[place + 1..];
    assert forall i :: 0 <= i < |next| ==> next[i] == if i < place then rows[i] else rows[i + 1];
    assert rows == rows[..place] + [rows[place]] + rows[place + 1..];
    forall i | 0 <= i < |rows| && i != place ensures rows[i] != rows[place] { BeforeTotal(rows[place], rows[place]); }
    assert forall x :: x in next <==> x in rows && x != rows[place];
  }

  class ExactPairPolicy {
    const ok: Grammar
    var rows: seq<Row>

    constructor (ok: Grammar, rows: seq<Row>)
      ensures this.ok == ok && this.rows == rows
    {
      this.ok, this.rows := ok, rows;
    }

    ghost predicate Valid()
      reads this
    {
      Sorted(rows) && |rows| <= MAX_ROWS && forall i :: 0 <= i < |rows| ==> ok(rows[i])
    }

    /** `recognise`: one pass with the row before. */
    static method Recognise(ok: Grammar, text: PolicyText) returns (r: Result<ExactPairPolicy>)
      ensures r.Ok? <==> Admits(ok, text)
      ensures r.Ok? ==> fresh(r.value) && r.value.ok == ok && r.value.rows == text.rows && r.value.Valid()
      ensures r.Err? ==> r.error == PolicyUnavailable
    {
      if text.ForeignPolicy? || text.version != POLICY_VERSION || |text.rows| > MAX_ROWS {
        return Err(PolicyUnavailable);
      }
      var prior: Option<Row> := None;
      for k := 0 to |text.rows|
        invariant Sorted(text.rows[..k]) && forall i :: 0 <= i < k ==> ok(text.rows[i])
        invariant prior == if k == 0 then None else Some(text.rows[k - 1])
      {
        var current := text.rows[k];
        if !ok(current) { return Err(PolicyUnavailable); }
        if prior.Some? && !Before(prior.value, current) { return Err(PolicyUnavailable); }
        forall i | 0 <= i < k ensures Before(text.rows[i], current) {
          if i < k - 1 {
            assert Before(text.rows[..k][i], text.rows[..k][k - 1]);
            BeforeTransitive(text.rows[i], prior.value, current);
          }
        }
        assert forall i, j :: 0 <= i < j < k ==> Before(text.rows[..k][i], text.rows[..k][j]);
        prior := Some(current);
      }
      assert text.rows[..|text.rows|] == text.rows;
      var policy := new ExactPairPolicy(ok, text.rows);
      return Ok(policy);
    }

    /** `binary_search_by`: the row's index, or where it belongs. */
    method Search(row: Row) returns (found: bool, place: nat)
      requires Valid()
      ensures found ==> place < |rows| && rows[place] == row
      ensures !found ==> row !in rows && Splits(rows, row, place)
    {
      var lo, hi := 0, |rows|;
      while lo < hi
        invariant 0 <= lo <= hi <= |rows|
        invariant forall i :: 0 <= i < lo ==> Before(rows[i], row)
        invariant forall i :: hi <= i < |rows| ==> Before(row, rows[i])
      {
        var mid := (lo + hi) / 2;
        if rows[mid] == row { return true, mid; }
        BeforeTotal(rows[mid], row);
        if Before(rows[mid], row) {
          forall i | lo <= i < mid ensures Before(rows[i], row) { BeforeTransitive(rows[i], rows[mid], row); }
          lo := mid + 1;
        } else {
          forall i | mid < i < hi ensures Before(row, rows[i]) { BeforeTransitive(row, rows[mid], rows[i]); }
          hi := mid;
        }
      }
      BeforeTotal(row, row);
      return false, lo;
    }

    method State(row: Row) returns (trusted: bool)
      requires Valid()
      ensures trusted <==> row in RowSet(rows)
    {
      var place;
      trusted, place := Search(row);
    }

    method Insert(row: Row) returns (r: Result<bool>)
      requires Valid()
      modifies `rows
      ensures Valid()
      ensures r.Err? <==> !ok(row) || (row !in old(rows) && |old(rows)| == 256)
      ensures r.Err? ==> rows == old(rows) && r.error == PolicyUnavailable
      ensures r.Ok? ==> RowSet(rows) == RowSet(old(rows)) + {row} && (r.value <==> row !in old(rows))
      ensures r == Ok(false) ==> rows == old(rows)
    {
      if !ok(row) { return Err(PolicyUnavailable); }
      var found, place := Search(row);
      if found { return Ok(false); }
      if |rows| >= MAX_ROWS { return Err(PolicyUnavailable); }
      InsertedSorted(rows, row, place);
      InsertedSet(rows, row, place);
      rows := rows[..place] + [row] + rows[place..];
      assert rows == With(old(rows), row, place);
      return Ok(true);
    }

    method Remove(row: Row) returns (r: Result<bool>)
      requires Valid()
      modifies `rows
      ensures Valid()
      ensures r.Err? <==> !ok(row)
      ensures r.Err? ==> rows == old(rows) && r.error == PolicyUnavailable
      ensures r.Ok? ==> RowSet(rows) == RowSet(old(rows)) - {row} && (r.value <==> row in old(rows))
      ensures r == Ok(false) ==> rows == old(rows)
    {
      if !ok(row) { return Err(PolicyUnavailable); }
      var found, place := Search(row);
      if !found { return Ok(false); }
      RemovedAt(rows, place);
      rows := rows[..place] + rows[place + 1..];
      return Ok(true);
    }
  }

  // ---- the stored table ----

  /** What happened to the table, as one caller sees it. */
  datatype TrustEvent =
    /** Others saved or purged; the caller learns nothing of it. */
    | Outside(found: Option<PolicyText>, after: Option<PolicyText>)
    /** A lookup answered. */
    | Looked(found: Option<PolicyText>, after: Option<PolicyText>, row: Row, trusted: bool)
    /** A call answered: what it had loaded, what its save found, and what it left. */
    | Answered(found: Option<PolicyText>, after: Option<PolicyText>, op: TrustOp, loaded: Option<PolicyText>,
               result: Result<()>)

  /** The events of a table, latest last. */
  datatype Calls = NoCalls | Called(past: Calls, last: TrustEvent)

  function Size(calls: Calls): nat {
    match calls
    case NoCalls => 0
    case Called(past, _) => Size(past) + 1
  }

  /** Whatever others did at one point: nothing, or any number of saves that leave some well-formed table. */
  predicate Window(ok: Grammar, calls: Calls, e: Option<PolicyText>, calls': Calls, e': Option<PolicyText>) {
    || (calls' == calls && e' == e)
    || (Readable(ok, e') && calls' == Called(calls, Outside(e, e')))
  }

  /** The last event is this call's answer, and others acted at most between its load and its save. */
  predicate Finished(ok: Grammar, calls: Calls, e: Option<PolicyText>, calls': Calls, e': Option<PolicyText>,
                     op: TrustOp, r: Result<()>) {
    && calls'.Called? && calls'.last == Answered(calls'.last.found, e', op, e, r)
    && Window(ok, calls, e, calls'.past, calls'.last.found) && Answers(ok, e, calls'.last.found, e', op, r)
  }

  /** The events after the first `mark` lead from `start` to `now`, each as its kind allows. */
  predicate Chained(ok: Grammar, calls: Calls, mark: nat, start: Option<PolicyText>, now: Option<PolicyText>) {
    if Size(calls) <= mark then Size(calls) == mark && now == start
    else
      var last := calls.last;
      && last.after == now && Chained(ok, calls.past, mark, start, last.found)
      && match last
         case Outside(_, _) => Readable(ok, now)
         case Looked(found, _, row, trusted) => found == now && Readable(ok, now)
           && (trusted <==> row in Trusted(ok, now))
         case Answered(found, _, op, loaded, r) =>
           && Answers(ok, loaded, found, now, op, r)
           && (loaded != found ==> Size(calls.past) > mark && calls.past.last.Outside?)
  }

  class TrustStore {
    const ok: Grammar
    var entry: Option<PolicyText>
    ghost var calls: Calls

    constructor (ok: Grammar)
      ensures this.ok == ok && entry == None && calls == NoCalls
    {
      this.ok, entry, calls := ok, None, NoCalls;
    }

    /** Nothing locks the table: another command may save or purge it here. */
    method Elsewhere()
      modifies `entry, `calls
      ensures Window(ok, old(calls), old(entry), calls, entry)
    {
      var text: Option<PolicyText> := *;
      if * {
        if Readable(ok, text) { entry, calls := text, Called(calls, Outside(entry, text)); }
      }
    }

    method Load() returns (r: Result<ExactPairPolicy>)
      ensures r.Ok? ==>
        && fresh(r.value) && r.value.Valid() && r.value.ok == ok
        && LoadTrust(ok, entry) == Ok(r.value.rows)
      ensures r.Err? ==> r.error == PolicyUnavailable
    {
      if * { return Err(PolicyUnavailable); }
      if entry.None? {
        var empty := new ExactPairPolicy(ok, []);
        return Ok(empty);
      }
      r := ExactPairPolicy.Recognise(ok, entry.value);
    }

    method Save(rows: seq<Row>) returns (r: Result<()>)
      modifies `entry
      ensures entry == Some(PolicyText(POLICY_VERSION, rows)) || (r.Err? && entry == old(entry))
      ensures r in {Ok(()), Err(PolicyUnavailable)}
    {
      if * { return Err(PolicyUnavailable); }
      entry := Some(PolicyText(POLICY_VERSION, rows));
      if * { return Err(PolicyUnavailable); }
      return Ok(());
    }

    method State(row: Row) returns (r: Result<bool>)
      modifies `calls
      ensures r.Ok? ==> ok(row) && Readable(ok, entry) && (r.value <==> row in Trusted(ok, entry))
      ensures r.Ok? ==> calls == Called(old(calls), Looked(entry, entry, row, r.value))
      ensures r.Err? ==> r.error == PolicyUnavailable && calls == old(calls)
    {
      if !ok(row) { return Err(PolicyUnavailable); }
      var policy := Load();
      if policy.Err? { return Err(policy.error); }
      var trusted := policy.value.State(row);
      calls := Called(calls, Looked(entry, entry, row, trusted));
      return Ok(trusted);
    }

    method TryInsert(row: Row) returns (r: Result<()>, ghost found: Option<PolicyText>)
      modifies `entry, `calls
      ensures Window(ok, old(calls), old(entry), calls, found) && Answers(ok, old(entry), found, entry, Accept(row), r)
    {
      found := entry;
      var policy := Load();
      if policy.Err? { return Err(policy.error), found; }
      var inserted := policy.value.Insert(row);
      if inserted.Err? { return Err(inserted.error), found; }
      if !inserted.value { return Ok(()), found; }
      Elsewhere();
      found := entry;
      r := Save(policy.value.rows);
    }

    method TryRemove(row: Row) returns (r: Result<()>, ghost found: Option<PolicyText>)
      modifies `entry, `calls
      ensures Window(ok, old(calls), old(entry), calls, found)
        && Answers(ok, old(entry), found, entry, Withdraw(row), r)
    {
      found := entry;
      var policy := Load();
      if policy.Err? { return Err(policy.error), found; }
      var removed := policy.value.Remove(row);
      if removed.Err? { return Err(removed.error), found; }
      if !removed.value { return Ok(()), found; }
      Elsewhere();
      found := entry;
      r := Save(policy.value.rows);
    }

    method Insert(row: Row) returns (r: Result<()>)
      modifies `entry, `calls
      ensures Finished(ok, old(calls), old(entry), calls, entry, Accept(row), r)
    {
      ghost var loaded := entry;
      ghost var found;
      r, found := TryInsert(row);
      calls := Called(calls, Answered(found, entry, Accept(row), loaded, r));
    }

    method Remove(row: Row) returns (r: Result<()>)
      modifies `entry, `calls
      ensures Finished(ok, old(calls), old(entry), calls, entry, Withdraw(row), r)
    {
      ghost var loaded := entry;
      ghost var found;
      r, found := TryRemove(row);
      calls := Called(calls, Answered(found, entry, Withdraw(row), loaded, r));
    }

    method Purge() returns (r: Result<()>)
      modifies `entry
      ensures Purges(old(entry), entry, r)
    {
      if * { return Err(PolicyUnavailable); }
      entry := None;
      if * { return Err(PolicyUnavailable); }
      return Ok(());
    }
  }
}
