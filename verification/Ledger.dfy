/**
 The durable ledger of consumed request ids. It forgets an id once the offer it belonged to has
 expired; what it still holds is exactly what a ledger that forgot nothing would still need.
 */
module Ledger {
  import opened Prelude

  const MAX_ENTRIES: nat := 256

  type Entries = map<string, int>

  datatype LedgerText = Recorded(entries: Entries) | ForeignLedger

  /** An entry that does not parse reads as empty. */
  function Load(text: Option<LedgerText>): Entries {
    match text
    case Some(Recorded(entries)) => entries
    case _ => map[]
  }

  function Pruned(entries: Entries, now: int): (live: Entries)
    ensures forall id :: id in live <==> Holds(entries, id, now)
    ensures |live| <= |entries|
  {
    SmallerMap(map id | id in entries && entries[id] > now :: entries[id], entries);
    map id | id in entries && entries[id] > now :: entries[id]
  }

  predicate Holds(entries: Entries, id: string, now: int) {
    id in entries && entries[id] > now
  }

  /** `record` on the in-memory map, which it prunes before it decides. */
  class Book {
    var entries: Entries

    constructor (entries: Entries)
      ensures this.entries == entries
    {
      this.entries := entries;
    }

    method Record(id: string, expiresAt: int, now: int) returns (r: Result<()>)
      modifies this
      ensures r == Err(Replayed) <==> Holds(old(entries), id, now)
      ensures r == Err(LedgerFull) <==> !Holds(old(entries), id, now) && |Pruned(old(entries), now)| >= 256
      ensures r.Ok? || r.error in {Replayed, LedgerFull}
      ensures entries == if r.Ok? then Pruned(old(entries), now)[id := expiresAt] else Pruned(old(entries), now)
    {
      entries := map key | key in entries && entries[key] > now :: entries[key];
      if id in entries { return Err(Replayed); }
      if |entries| >= MAX_ENTRIES { return Err(LedgerFull); }
      entries := entries[id := expiresAt];
      return Ok(());
    }
  }

  /**
   A refusal leaves the in-memory map as it was exactly when nothing in it had expired; its documentation
   promises always.
   */
  lemma RefusalKeepsMapExactlyWhen(entries: Entries, now: int)
    ensures Pruned(entries, now) == entries <==> forall id :: id in entries ==> entries[id] > now
  {
    if Pruned(entries, now) == entries {
      forall id | id in entries ensures entries[id] > now { assert id in Pruned(entries, now); }
    }
  }

  /** `consume` on the stored entry. A reported store failure may hide a committed write. */
  predicate Consume(s: Option<LedgerText>, s': Option<LedgerText>, id: string, expiresAt: int, now: int,
                    r: Result<()>) {
    var live := Pruned(Load(s), now);
    || (s' == s && r == Err(StoreRefused))
    || (id in live && s' == s && r == Err(Replayed))
    || (id !in live && |live| >= MAX_ENTRIES && s' == s && r == Err(LedgerFull))
    || (id !in live && |live| < MAX_ENTRIES && s' == Some(Recorded(live[id := expiresAt]))
        && r in {Ok(()), Err(StoreRefused)})
  }

  class RequestLedger {
    var text: Option<LedgerText>

    constructor ()
      ensures text == None
    {
      text := None;
    }

    method ConsumeId(id: string, expiresAt: int, now: int) returns (r: Result<()>)
      modifies this
      ensures Consume(old(text), text, id, expiresAt, now, r)
    {
      if * { return Err(StoreRefused); }
      var book := new Book(match text case Some(Recorded(entries)) => entries case _ => map[]);
      r := book.Record(id, expiresAt, now);
      if r.Err? { return; }
      if * { return Err(StoreRefused); }
      assert book.entries == Pruned(Load(old(text)), now)[id := expiresAt];
      text := Some(Recorded(book.entries));
      if * { return Err(StoreRefused); }
      return Ok(());
    }

    /** `is_consumed`, for the review that must not burn the id. */
    method IsConsumed(id: string, now: int) returns (r: Result<bool>)
      ensures r == Err(StoreRefused) || r == Ok(Holds(Load(text), id, now))
    {
      if * { return Err(StoreRefused); }
      return Ok(Holds(Load(text), id, now));
    }
  }

  // ---- histories ----

  datatype Call = Call(id: string, expiresAt: int, now: int)

  /** A run from an empty store with a clock that never falls. */
  ghost predicate Run(ss: seq<Option<LedgerText>>, cs: seq<Call>, rs: seq<Result<()>>) {
    && |ss| == |cs| + 1 && |rs| == |cs| && ss[0] == None
    && (forall i :: 0 <= i < |cs| ==> Consume(ss[i], ss[i + 1], cs[i].id, cs[i].expiresAt, cs[i].now, rs[i]))
    && forall i, j :: 0 <= i <= j < |cs| ==> cs[i].now <= cs[j].now
  }

  /** The write took place, whatever was reported. */
  predicate Committed(ss: seq<Option<LedgerText>>, rs: seq<Result<()>>, i: nat)
    requires |ss| == |rs| + 1 && i < |rs|
  {
    rs[i].Ok? || ss[i + 1] != ss[i]
  }

  /** The never-pruned history: some committed consume of the id has not expired at `t`. */
  ghost predicate Needed(ss: seq<Option<LedgerText>>, cs: seq<Call>, rs: seq<Result<()>>, id: string, t: int)
    requires |ss| == |rs| + 1 && |cs| == |rs|
  {
    exists i :: 0 <= i < |cs| && Committed(ss, rs, i) && cs[i].id == id && cs[i].expiresAt > t
  }

  lemma NeededStep(ss: seq<Option<LedgerText>>, cs: seq<Call>, rs: seq<Result<()>>, id: string, t: int)
    requires |ss| == |rs| + 1 && |cs| == |rs| && cs != []
    ensures var n := |cs| - 1;
      Needed(ss, cs, rs, id, t) <==>
        Needed(ss[..n + 1], cs[..n], rs[..n], id, t) || (Committed(ss, rs, n) && cs[n].id == id && cs[n].expiresAt > t)
  {
    var n := |cs| - 1;
    forall i | 0 <= i < n ensures Committed(ss[..n + 1], rs[..n], i) == Committed(ss, rs, i) && cs[..n][i] == cs[i] {}
    if Needed(ss, cs, rs, id, t) {
      var i :| 0 <= i < |cs| && Committed(ss, rs, i) && cs[i].id == id && cs[i].expiresAt > t;
      if i < n { assert Committed(ss[..n + 1], rs[..n], i) && cs[..n][i].id == id; }
    }
    if Needed(ss[..n + 1], cs[..n], rs[..n], id, t) {
      var i :| 0 <= i < |cs[..n]| && Committed(ss[..n + 1], rs[..n], i) && cs[..n][i].id == id
        && cs[..n][i].expiresAt > t;
      assert Committed(ss, rs, i);
    }
  }

  /**
   Refinement: at any instant not before the last call, an id is held exactly when some committed
   consume of it is still unexpired; and the stored map never exceeds its ceiling.
   */
  lemma {:induction false} PrunedRefinesHistory(ss: seq<Option<LedgerText>>, cs: seq<Call>, rs: seq<Result<()>>,
                                                id: string, t: int)
    requires Run(ss, cs, rs) && (cs != [] ==> cs[|cs| - 1].now <= t)
    ensures Holds(Load(ss[|cs|]), id, t) <==> Needed(ss, cs, rs, id, t)
    ensures |Load(ss[|cs|])| <= 256
    decreases |cs|
  {
    if cs != [] {
      var n := |cs| - 1;
      PrunedRefinesHistory(ss[..n + 1], cs[..n], rs[..n], id, t);
      NeededStep(ss, cs, rs, id, t);
      if ss[n + 1] == ss[n] && rs[n].Ok? {
        assert cs[n].id !in Pruned(Load(ss[n]), cs[n].now);
      }
      if Committed(ss, rs, n) {
        PrunedRefinesHistory(ss[..n + 1], cs[..n], rs[..n], id, cs[n].now);
        assert id != cs[n].id ==> (Holds(Load(ss[n + 1]), id, t) <==> Holds(Load(ss[n]), id, t));
        assert id == cs[n].id ==> !Holds(Load(ss[n]), id, t);
      }
    }
  }

  /** What each answer means: a replay names a live committed use, a full ledger is 256 distinct live ids. */
  lemma AnswersMean(ss: seq<Option<LedgerText>>, cs: seq<Call>, rs: seq<Result<()>>, n: nat)
    requires Run(ss, cs, rs) && n < |cs|
    ensures var c, before := cs[n], Pruned(Load(ss[n]), cs[n].now);
      && (rs[n] == Err(Replayed) ==> Needed(ss[..n + 1], cs[..n], rs[..n], c.id, c.now))
      && (rs[n].Ok? ==> !Needed(ss[..n + 1], cs[..n], rs[..n], c.id, c.now))
      && (rs[n] == Err(LedgerFull) ==> |before| == 256)
      && (forall id :: id in before ==> Needed(ss[..n + 1], cs[..n], rs[..n], id, c.now))
      && (rs[n].Err? && rs[n].error != StoreRefused ==> ss[n + 1] == ss[n])
  {
    var c, before := cs[n], Pruned(Load(ss[n]), cs[n].now);
    PrunedRefinesHistory(ss[..n + 1], cs[..n], rs[..n], c.id, c.now);
    forall id | id in before ensures Needed(ss[..n + 1], cs[..n], rs[..n], id, c.now) {
      PrunedRefinesHistory(ss[..n + 1], cs[..n], rs[..n], id, c.now);
    }
    assert ss[..n + 1][n] == ss[n] && Consume(ss[n], ss[n + 1], c.id, c.expiresAt, c.now, rs[n]);
  }

  lemma SmallerMap(a: Entries, b: Entries)
    requires a.Keys <= b.Keys
    ensures |a| <= |b|
  {
    SmallerSet(a.Keys, b.Keys);
  }

  lemma {:induction false} SmallerSet(a: set<string>, b: set<string>)
    requires a <= b
    ensures |a| <= |b|
    decreases a
  {
    if a != {} {
      var x :| x in a;
      SmallerSet(a - {x}, b - {x});
    }
  }

  /**
   One accepted call per id: the clock never falls, each call precedes the expiry it passes, and an id's expiry
   is fixed.
   */
  lemma AcceptedOnce(ss: seq<Option<LedgerText>>, cs: seq<Call>, rs: seq<Result<()>>, i: nat, j: nat)
    requires Run(ss, cs, rs) && i < j < |cs| && rs[i].Ok? && rs[j].Ok?
    requires cs[j].now < cs[j].expiresAt && (cs[i].id == cs[j].id ==> cs[i].expiresAt == cs[j].expiresAt)
    ensures cs[i].id != cs[j].id
  {
    AnswersMean(ss, cs, rs, j);
    assert Committed(ss[..j + 1], rs[..j], i) && cs[..j][i] == cs[i];
  }

  // ---- histories under any clock ----

  /** A run from any store, with whatever clock readings the callers passed. */
  ghost predicate AnyRun(ss: seq<Option<LedgerText>>, cs: seq<Call>, rs: seq<Result<()>>) {
    && |ss| == |cs| + 1 && |rs| == |cs|
    && forall i :: 0 <= i < |cs| ==> Consume(ss[i], ss[i + 1], cs[i].id, cs[i].expiresAt, cs[i].now, rs[i])
  }

  /** The call `i` is the last one before `j` whose write of its id took place. */
  ghost predicate LastCommit(ss: seq<Option<LedgerText>>, cs: seq<Call>, rs: seq<Result<()>>, i: nat, j: nat)
    requires |ss| == |rs| + 1 && |cs| == |rs| && i < j <= |cs|
  {
    Committed(ss, rs, i) && forall k :: i < k < j ==> !(cs[k].id == cs[i].id && Committed(ss, rs, k))
  }

  /** Between `i` and `j` some write took place whose clock reading had reached `expiry`. */
  ghost predicate PrunedBetween(ss: seq<Option<LedgerText>>, cs: seq<Call>, rs: seq<Result<()>>, i: nat, j: nat,
                                expiry: int)
    requires |ss| == |rs| + 1 && |cs| == |rs| && i < j <= |cs|
  {
    exists k :: i < k < j && Committed(ss, rs, k) && cs[k].now >= expiry
  }

  /**
   A committed write of an id is still stored, with its expiry, exactly while no later write was read at or
   past that expiry.
   */
  lemma {:induction false} StoredExactlyWhile(ss: seq<Option<LedgerText>>, cs: seq<Call>, rs: seq<Result<()>>, i: nat,
                                              j: nat)
    requires AnyRun(ss, cs, rs) && i < j <= |cs| && LastCommit(ss, cs, rs, i, j)
    ensures cs[i].id in Load(ss[j]) <==> !PrunedBetween(ss, cs, rs, i, j, cs[i].expiresAt)
    ensures cs[i].id in Load(ss[j]) ==> Load(ss[j])[cs[i].id] == cs[i].expiresAt
    decreases j
  {
    var id, n := cs[i].id, j - 1;
    assert Consume(ss[n], ss[j], cs[n].id, cs[n].expiresAt, cs[n].now, rs[n]);
    if n == i {
      CommittedWrites(ss, cs, rs, n);
    } else {
      StoredExactlyWhile(ss, cs, rs, i, n);
      if Committed(ss, rs, n) {
        CommittedWrites(ss, cs, rs, n);
        assert cs[n].id != id;
        assert id in Load(ss[j]) <==> id in Load(ss[n]) && cs[n].now < cs[i].expiresAt;
      }
      if PrunedBetween(ss, cs, rs, i, n, cs[i].expiresAt) {
        var k :| i < k < n && Committed(ss, rs, k) && cs[k].now >= cs[i].expiresAt;
        assert i < k < j;
      }
    }
  }

  lemma CommittedWrites(ss: seq<Option<LedgerText>>, cs: seq<Call>, rs: seq<Result<()>>, n: nat)
    requires AnyRun(ss, cs, rs) && n < |cs| && Committed(ss, rs, n)
    ensures Load(ss[n + 1]) == Pruned(Load(ss[n]), cs[n].now)[cs[n].id := cs[n].expiresAt]
  {
    assert Consume(ss[n], ss[n + 1], cs[n].id, cs[n].expiresAt, cs[n].now, rs[n]);
  }

  /**
   Under any clock: an id last written with an expiry still ahead of this call can be accepted again if
   and only if, since then, some other write was read at or past that expiry, and the ledger has room.
   */
  lemma AcceptedAgainExactlyWhen(ss: seq<Option<LedgerText>>, cs: seq<Call>, rs: seq<Result<()>>, i: nat, j: nat)
    requires AnyRun(ss, cs, rs) && i < j < |cs| && LastCommit(ss, cs, rs, i, j)
    requires cs[j].id == cs[i].id && cs[j].now < cs[i].expiresAt
    ensures (exists s' :: Consume(ss[j], s', cs[j].id, cs[j].expiresAt, cs[j].now, Ok(())))
            <==> PrunedBetween(ss, cs, rs, i, j, cs[i].expiresAt) && |Pruned(Load(ss[j]), cs[j].now)| < 256
    ensures rs[j].Ok? ==> PrunedBetween(ss, cs, rs, i, j, cs[i].expiresAt)
  {
    StoredExactlyWhile(ss, cs, rs, i, j);
    var live := Pruned(Load(ss[j]), cs[j].now);
    assert Consume(ss[j], ss[j + 1], cs[j].id, cs[j].expiresAt, cs[j].now, rs[j]);
    if cs[j].id !in live && |live| < MAX_ENTRIES {
      assert Consume(ss[j], Some(Recorded(live[cs[j].id := cs[j].expiresAt])), cs[j].id, cs[j].expiresAt, cs[j].now,
                     Ok(()));
    }
  }

  /** The last write of an id at or after `i` and before `j`. */
  lemma {:induction false} FindLastCommit(ss: seq<Option<LedgerText>>, cs: seq<Call>, rs: seq<Result<()>>, i: nat,
                                          j: nat) returns (m: nat)
    requires |ss| == |rs| + 1 && |cs| == |rs| && i < j <= |cs| && Committed(ss, rs, i)
    ensures i <= m < j && cs[m].id == cs[i].id && LastCommit(ss, cs, rs, m, j)
    decreases j
  {
    var n := j - 1;
    if n == i || (cs[n].id == cs[i].id && Committed(ss, rs, n)) {
      m := n;
    } else {
      m := FindLastCommit(ss, cs, rs, i, n);
    }
  }

  /**
   What a caller can check: with a fixed expiry per id, two acceptances of one id before its expiry have a
   write between them that was read at or past the expiry. If no reading before the second presentation
   reaches the expiry, whatever else the clock does, there is no second acceptance.
   */
  lemma AcceptedTwiceOnlyAcross(ss: seq<Option<LedgerText>>, cs: seq<Call>, rs: seq<Result<()>>, i: nat, j: nat)
    requires AnyRun(ss, cs, rs) && i < j < |cs| && cs[i].id == cs[j].id && rs[i].Ok? && rs[j].Ok?
    requires forall k :: 0 <= k < |cs| && cs[k].id == cs[i].id ==> cs[k].expiresAt == cs[i].expiresAt
    requires cs[j].now < cs[j].expiresAt
    ensures PrunedBetween(ss, cs, rs, i, j, cs[i].expiresAt)
  {
    var m := FindLastCommit(ss, cs, rs, i, j);
    AcceptedAgainExactlyWhen(ss, cs, rs, m, j);
    var k :| m < k < j && Committed(ss, rs, k) && cs[k].now >= cs[m].expiresAt;
    assert i < k < j && Committed(ss, rs, k);
  }

  /** A clock set back across another consume forgets a use that is needed again. */
  lemma ClockMustNotFall() returns (ss: seq<Option<LedgerText>>, cs: seq<Call>, rs: seq<Result<()>>)
    ensures |ss| == 4 && |cs| == |rs| == 3 && ss[0] == None
    ensures forall i :: 0 <= i < 3 ==>
      && Consume(ss[i], ss[i + 1], cs[i].id, cs[i].expiresAt, cs[i].now, rs[i])
      && cs[i].now < cs[i].expiresAt
    ensures cs[0].id == cs[2].id && cs[0].expiresAt == cs[2].expiresAt && rs[0].Ok? && rs[2].Ok?
  {
    var a, b: Entries := map["a" := 10], map["b" := 30];
    var c: Entries := map["b" := 30, "a" := 10];
    cs := [Call("a", 10, 5), Call("b", 30, 20), Call("a", 10, 6)];
    ss := [None, Some(Recorded(a)), Some(Recorded(b)), Some(Recorded(c))];
    rs := [Ok(()), Ok(()), Ok(())];
    assert Pruned(map[], 5) == map[] && Pruned(a, 20) == map[] && Pruned(b, 6) == b;
    assert map[]["a" := 10] == a && map[]["b" := 30] == b && b["a" := 10] == c;
  }
}
