/**
 Runs of the trust table. Nothing locks it: a call loads the whole table in one section and saves the
 whole table in a later one, and the sections of any number of calls interleave.
 */
module TrustRuns {
  import opened Prelude
  import opened Policy

  /** A call between its two sections: what it will do, and the table it will do it to. */
  datatype Loaded = Loaded(op: TrustOp, text: Option<PolicyText>)

  /** The stored table and the calls that have loaded it and not saved yet. */
  datatype Table = Table(entry: Option<PolicyText>, loaded: map<nat, Loaded>)

  datatype Section = LoadFor(call: nat, op: TrustOp) | SaveOf(call: nat) | PurgeAll

  /** A load either ends its call, refused or with nothing to do, or leaves it waiting to save. */
  predicate Loads(ok: Grammar, t: Table, t': Table, call: nat, op: TrustOp, r: Result<()>) {
    || (t' == t && r == Err(PolicyUnavailable))
    || (t' == t && Readable(ok, t.entry) && ok(op.row) && !Changes(ok, t.entry, op) && r == Ok(()))
    || (call !in t.loaded && Changes(ok, t.entry, op) && t' == t.(loaded := t.loaded[call := Loaded(op, t.entry)])
        && r == Ok(()))
  }

  /** A save ends its call, whatever table it finds: with what it had loaded, or with the table left alone. */
  predicate SavesFor(ok: Grammar, t: Table, t': Table, call: nat, r: Result<()>) {
    if call !in t.loaded then t' == t && r == Err(PolicyUnavailable)
    else
      var own := t.loaded[call];
      && t'.loaded == t.loaded - {call} && r in {Ok(()), Err(PolicyUnavailable)}
      && ((t'.entry == t.entry && r.Err?) || Saves(ok, own.text, t'.entry, own.op))
  }

  predicate Sections(ok: Grammar, t: Table, t': Table, s: Section, r: Result<()>) {
    match s
    case LoadFor(call, op) => Loads(ok, t, t', call, op, r)
    case SaveOf(call) => SavesFor(ok, t, t', call, r)
    case PurgeAll => t'.loaded == t.loaded && Purges(t.entry, t'.entry, r)
  }

  /** The two sections of a finished call, whatever table its save found. */
  lemma CallIsSections(ok: Grammar, loaded: Option<PolicyText>, found: Option<PolicyText>, after: Option<PolicyText>,
                       op: TrustOp, r: Result<()>, t: Table, call: nat)
    returns (t': Table, w: Result<()>)
    requires Answers(ok, loaded, found, after, op, r) && t.entry == loaded && call !in t.loaded
    ensures Loads(ok, t, t', call, op, w)
    ensures call in t'.loaded ==> SavesFor(ok, t'.(entry := found), Table(after, t.loaded), call, r)
    ensures call !in t'.loaded ==> after == found && w == r
  {
    if Saves(ok, loaded, after, op) && r in {Ok(()), Err(PolicyUnavailable)} {
      t', w := t.(loaded := t.loaded[call := Loaded(op, loaded)]), Ok(());
      assert t'.loaded - {call} == t.loaded;
    } else {
      t', w := t, r;
    }
  }

  ghost predicate SectionRun(ok: Grammar, ts: seq<Table>, ss: seq<Section>, rs: seq<Result<()>>) {
    && |ts| == |ss| + 1 && |rs| == |ss| && ts[0] == Table(None, map[])
    && forall i :: 0 <= i < |ss| ==> Sections(ok, ts[i], ts[i + 1], ss[i], rs[i])
  }

  // ---- what every interleaving keeps ----

  predicate TableKept(ok: Grammar, t: Table) {
    && Readable(ok, t.entry)
    && forall c :: c in t.loaded ==> Changes(ok, t.loaded[c].text, t.loaded[c].op)
  }

  /** Over every interleaving, whatever saves fail: the record stays readable, strictly sorted and within 256 rows. */
  lemma {:induction false} TableStaysWell(ok: Grammar, ts: seq<Table>, ss: seq<Section>, rs: seq<Result<()>>)
    requires SectionRun(ok, ts, ss, rs)
    ensures TableKept(ok, ts[|ss|])
    ensures var rows := LoadTrust(ok, ts[|ss|].entry).value; Sorted(rows) && |rows| <= 256
    decreases |ss|
  {
    if ss != [] {
      var n := |ss| - 1;
      TableStaysWell(ok, ts[..n + 1], ss[..n], rs[..n]);
      assert Sections(ok, ts[n], ts[n + 1], ss[n], rs[n]);
    }
  }

  // ---- what the table means ----

  /** The set a history of committed operations leaves, with no vector and no order in it. */
  ghost function Meaning(ts: seq<Table>, ss: seq<Section>): set<Row>
    requires |ts| == |ss| + 1
  {
    if ss == [] then {}
    else
      var n := |ss| - 1;
      var before := Meaning(ts[..n + 1], ss[..n]);
      if ts[n + 1].entry == ts[n].entry then before
      else match ss[n]
        case LoadFor(_, _) => before
        case SaveOf(call) => if call in ts[n].loaded then Applied(ts[n].loaded[call].op, before) else before
        case PurgeAll => {}
  }

  /** After its first `k` sections the table is the set of the operations committed in them. */
  ghost predicate Means(ok: Grammar, ts: seq<Table>, ss: seq<Section>, k: nat)
    requires |ts| == |ss| + 1 && k <= |ss|
  {
    Readable(ok, ts[k].entry) && Trusted(ok, ts[k].entry) == Meaning(ts[..k + 1], ss[..k])
  }

  /** If this section saves, what it had loaded agrees with what it finds, its own pair aside. */
  predicate SaveAgrees(ok: Grammar, t: Table, t': Table, s: Section) {
    s.SaveOf? && s.call in t.loaded && t'.entry != t.entry ==>
      AgreeOutside(ok, t.loaded[s.call].text, t.entry, t.loaded[s.call].op.row)
  }

  /** One section keeps the table meaning its history exactly when its save, if it makes one, agrees. */
  lemma MeansNextExactlyWhen(ok: Grammar, ts: seq<Table>, ss: seq<Section>, rs: seq<Result<()>>, n: nat)
    requires SectionRun(ok, ts, ss, rs) && n < |ss| && Means(ok, ts, ss, n)
    ensures Means(ok, ts, ss, n + 1) <==> SaveAgrees(ok, ts[n], ts[n + 1], ss[n])
  {
    var s, t, t' := ss[n], ts[n], ts[n + 1];
    TableStaysWell(ok, ts[..n + 1], ss[..n], rs[..n]);
    assert Sections(ok, t, t', s, rs[n]);
    assert ts[..n + 2][..n + 1] == ts[..n + 1] && ss[..n + 1][..n] == ss[..n];
    if s.SaveOf? && s.call in t.loaded && t'.entry != t.entry {
      SaveIsExactlyWhen(ok, t.loaded[s.call].text, t.entry, t'.entry, t.loaded[s.call].op);
    }
  }

  lemma {:induction false} AgreeingMeans(ok: Grammar, ts: seq<Table>, ss: seq<Section>, rs: seq<Result<()>>, n: nat)
    requires SectionRun(ok, ts, ss, rs) && n <= |ss|
    requires forall k :: 0 <= k < n ==> SaveAgrees(ok, ts[k], ts[k + 1], ss[k])
    ensures Means(ok, ts, ss, n)
  {
    if n > 0 {
      AgreeingMeans(ok, ts, ss, rs, n - 1);
      MeansNextExactlyWhen(ok, ts, ss, rs, n - 1);
    }
  }

  /**
   Over every interleaving: the table means the set of the committed operations all along if and only if
   every committed save agreed with the table it found, its own pair aside.
   */
  lemma RefinesSetExactlyWhen(ok: Grammar, ts: seq<Table>, ss: seq<Section>, rs: seq<Result<()>>, n: nat)
    requires SectionRun(ok, ts, ss, rs) && n <= |ss|
    ensures (forall k :: 0 <= k <= n ==> Means(ok, ts, ss, k))
            <==> forall k :: 0 <= k < n ==> SaveAgrees(ok, ts[k], ts[k + 1], ss[k])
  {
    if forall k :: 0 <= k < n ==> SaveAgrees(ok, ts[k], ts[k + 1], ss[k]) {
      forall k | 0 <= k <= n ensures Means(ok, ts, ss, k) { AgreeingMeans(ok, ts, ss, rs, k); }
    }
    if forall k :: 0 <= k <= n ==> Means(ok, ts, ss, k) {
      forall k | 0 <= k < n ensures SaveAgrees(ok, ts[k], ts[k + 1], ss[k]) {
        assert Means(ok, ts, ss, k) && Means(ok, ts, ss, k + 1);
        MeansNextExactlyWhen(ok, ts, ss, rs, k);
      }
    }
  }

  // ---- the condition a caller can keep ----

  /** The call whose save this is loaded the table at `i`, and nothing was written to it since. */
  predicate LoadedAlone(ts: seq<Table>, ss: seq<Section>, i: nat, k: nat)
    requires |ts| == |ss| + 1 && i < k < |ss|
  {
    && ss[i].LoadFor? && ss[k] == SaveOf(ss[i].call) && ss[i].call !in ts[i].loaded && ss[i].call in ts[i + 1].loaded
    && forall m :: i < m <= k ==> ts[m].entry == ts[i].entry && (m < k ==> ss[m] != ss[k])
  }

  /** No write of another call, nor a purge, was committed between this save and its load. */
  predicate Alone(ts: seq<Table>, ss: seq<Section>, k: nat)
    requires |ts| == |ss| + 1 && k < |ss|
  {
    ss[k].SaveOf? && ss[k].call in ts[k].loaded ==> exists i :: 0 <= i < k && LoadedAlone(ts, ss, i, k)
  }

  /** A waiting call keeps what it loaded until its own save. */
  lemma {:induction false} StaysLoaded(ok: Grammar, ts: seq<Table>, ss: seq<Section>, rs: seq<Result<()>>, i: nat,
                                       k: nat, call: nat)
    requires SectionRun(ok, ts, ss, rs) && i <= k <= |ss| && call in ts[i].loaded
    requires forall m :: i <= m < k ==> ss[m] != SaveOf(call)
    ensures call in ts[k].loaded && ts[k].loaded[call] == ts[i].loaded[call]
    decreases k
  {
    if i < k {
      StaysLoaded(ok, ts, ss, rs, i, k - 1, call);
      assert Sections(ok, ts[k - 1], ts[k], ss[k - 1], rs[k - 1]);
    }
  }

  lemma AloneAgrees(ok: Grammar, ts: seq<Table>, ss: seq<Section>, rs: seq<Result<()>>, k: nat)
    requires SectionRun(ok, ts, ss, rs) && k < |ss| && Alone(ts, ss, k)
    ensures SaveAgrees(ok, ts[k], ts[k + 1], ss[k])
  {
    if ss[k].SaveOf? && ss[k].call in ts[k].loaded {
      var i :| 0 <= i < k && LoadedAlone(ts, ss, i, k);
      assert Sections(ok, ts[i], ts[i + 1], ss[i], rs[i]);
      StaysLoaded(ok, ts, ss, rs, i + 1, k, ss[k].call);
      TableStaysWell(ok, ts[..k + 1], ss[..k], rs[..k]);
    }
  }

  /** If no call saves across another's committed write, the table is the set of the committed operations throughout. */
  lemma AloneRefinesSet(ok: Grammar, ts: seq<Table>, ss: seq<Section>, rs: seq<Result<()>>)
    requires SectionRun(ok, ts, ss, rs) && forall k :: 0 <= k < |ss| ==> Alone(ts, ss, k)
    ensures forall k :: 0 <= k <= |ss| ==> Means(ok, ts, ss, k)
  {
    forall k | 0 <= k < |ss| ensures SaveAgrees(ok, ts[k], ts[k + 1], ss[k]) { AloneAgrees(ok, ts, ss, rs, k); }
    RefinesSetExactlyWhen(ok, ts, ss, rs, |ss|);
  }

  // ---- a lost update ----

  /**
   A removal that was lost: with `a` trusted, its removal and the insert of `b` both load the table; the
   removal saves first, the insert last. Both are answered Ok, and `a` is trusted again.
   */
  lemma RemovalIsLost(ok: Grammar, a: Row, b: Row) returns (ts: seq<Table>, ss: seq<Section>, rs: seq<Result<()>>)
    requires ok(a) && ok(b) && a != b
    ensures SectionRun(ok, ts, ss, rs)
      && ss == [LoadFor(0, Accept(a)), SaveOf(0), LoadFor(1, Withdraw(a)), LoadFor(2, Accept(b)), SaveOf(1), SaveOf(2)]
    ensures forall i :: 0 <= i < |rs| ==> rs[i] == Ok(())
    ensures a !in Meaning(ts, ss) && Readable(ok, ts[6].entry) && a in Trusted(ok, ts[6].entry)
  {
    ts, ss, rs := LostRun(ok, a, b);
    RefinesSetExactlyWhen(ok, ts, ss, rs, 5);
    assert Means(ok, ts, ss, 5);
    assert ts[..6] == ts[..7][..6] && ss[..5] == ss[..6][..5] && ts[..7] == ts && ss[..6] == ss;
  }

  lemma LostRun(ok: Grammar, a: Row, b: Row) returns (ts: seq<Table>, ss: seq<Section>, rs: seq<Result<()>>)
    requires ok(a) && ok(b) && a != b
    ensures SectionRun(ok, ts, ss, rs)
      && ss == [LoadFor(0, Accept(a)), SaveOf(0), LoadFor(1, Withdraw(a)), LoadFor(2, Accept(b)), SaveOf(1), SaveOf(2)]
    ensures forall i :: 0 <= i < |rs| ==> rs[i] == Ok(())
    ensures forall k :: 0 <= k < 5 ==> SaveAgrees(ok, ts[k], ts[k + 1], ss[k])
    ensures Holds(ok, ts[5].entry, {}) && Holds(ok, ts[6].entry, {a, b})
    ensures 2 in ts[5].loaded && ts[5].loaded[2].op == Accept(b)
  {
    BeforeTotal(a, b);
    var none, one, both := PolicyText(1, []), PolicyText(1, [a]),
      PolicyText(1, if Before(a, b) then [a, b] else [b, a]);
    var first, removal, insert := Loaded(Accept(a), None), Loaded(Withdraw(a), Some(one)), Loaded(Accept(b), Some(one));
    ts := [
      Table(None, map[]), Table(None, map[0 := first]), Table(Some(one), map[]), Table(Some(one), map[1 := removal]),
      Table(Some(one), map[1 := removal, 2 := insert]), Table(Some(none), map[2 := insert]), Table(Some(both), map[])];
    ss := [LoadFor(0, Accept(a)), SaveOf(0), LoadFor(1, Withdraw(a)), LoadFor(2, Accept(b)), SaveOf(1), SaveOf(2)];
    rs := [Ok(()), Ok(()), Ok(()), Ok(()), Ok(()), Ok(())];
    assert RowSet([]) == {} && RowSet([a]) == {a} && RowSet(both.rows) == {a, b};
    assert map[1 := removal, 2 := insert] - {1} == map[2 := insert];
  }
}
