/**
 Two pending ceremonies in one session, under commands that interleave at every await and every
 release of the session lock: the enrolment context a link code opened, and the signed grant that
 waits for a person's comparison.
 */
module Enrolment {
  import opened Prelude
  import opened Records
  import opened Ledger

  /** A recognised offer: its ceremony, the request it consumes, its expiry, and its exact text. */
  datatype GrantOffer = GrantOffer(ceremony: Opaque, requestId: string, expiresAt: int, text: Opaque)

  /** `PendingEnrolment`: the secret that seals the bundle, and the offer whose text it is sealed under. */
  datatype Context = Context(secret: Opaque, offer: GrantOffer)

  /** `PendingIssuance`: one signed grant; `serial` tells preparations apart. */
  datatype Issuance = Issuance(serial: nat, offer: GrantOffer)

  /** A command between two of its lock-protected sections. */
  datatype Task =
    | Starting(context: Context, validFrom: int)
    | Preparing(offer: GrantOffer)
    | Authorised(offer: GrantOffer, validFrom: int)
    | Signed(issuance: Issuance, validFrom: int)
    | Confirming(enrolling: bool, ceremony: Opaque, answer: bool, issuance: Issuance)
    | Released(ceremony: Opaque, issuance: Issuance)
    | Delivering(ceremony: Opaque, context: Context, issuance: Issuance)
    | Delivered(issuance: Issuance)
  {
    /** The task alone holds a grant not yet released. */
    predicate Unreleased() { Signed? || Confirming? }
  }

  datatype Command =
    | Tick(reading: int)
    | Start(context: Context)
    | PrepareHeld(offer: GrantOffer)
    | PrepareEnrolment
    | Confirm(ceremony: Opaque, answer: bool, enrolling: bool)
    | Proceed(task: nat)

  /** `at` is the clock's reading, `peak` the latest it had shown by then; the clock may have been set back. */
  datatype Release = Release(serial: nat, offer: GrantOffer, at: int, peak: int)
  datatype Delivery = Delivery(serial: nat, granted: GrantOffer, confirmed: Opaque, context: Context)

  /** `kept` is the reading the displacing command had taken before. */
  datatype Displacement = Displacement(old_: GrantOffer, new_: GrantOffer, kept: int, at: int, peak: int)

  /** What the session did that others can see. */
  datatype Record = Record(
    releases: seq<Release>, deliveries: seq<Delivery>, displaced: seq<Displacement>,
    put: set<nat>, held: set<nat>, trusted: set<nat>)

  /** What a person answered to a comparison, and whether the bundle was to be delivered. */
  datatype Answer = Answer(ceremony: Opaque, yes: bool, enrolling: bool)

  /** Where each unreleased grant is: in a task, or in the session's own field. */
  type Places = map<nat, Option<nat>>

  /** Which task carries each bundle released but not yet sent. */
  type Bundles = map<nat, nat>

  // ---- what the record shows ----

  predicate ReleasedOnce(releases: seq<Release>) {
    && (forall i, j :: 0 <= i < j < |releases| ==> releases[i].serial != releases[j].serial)
    && forall i :: 0 <= i < |releases| ==>
       && releases[i].at < releases[i].offer.expiresAt
       && releases[i].at <= releases[i].peak
  }

  predicate WasReleased(releases: seq<Release>, p: Issuance) {
    exists i :: 0 <= i < |releases| && releases[i].serial == p.serial && releases[i].offer == p.offer
  }

  /** The bundle of a confirmed ceremony, sealed under a context of that very ceremony. */
  predicate DeliveredRight(d: Delivery) {
    d.context.offer.ceremony == d.granted.ceremony == d.confirmed
  }

  /** What was displaced had expired by the reading the command had kept, or was its own ceremony's. */
  predicate DisplacedRight(d: Displacement) {
    (d.old_.expiresAt <= d.kept || d.old_.ceremony == d.new_.ceremony) && d.kept <= d.peak && d.at <= d.peak
  }

  /** What a reader of the whole run may rely on, whatever the clock did. */
  predicate Honest(log: Record) {
    && ReleasedOnce(log.releases)
    && (forall i :: 0 <= i < |log.deliveries| ==>
          DeliveredRight(log.deliveries[i])
          && WasReleased(log.releases, Issuance(log.deliveries[i].serial, log.deliveries[i].granted)))
    && (forall i, j :: 0 <= i < j < |log.deliveries| ==> log.deliveries[i].serial != log.deliveries[j].serial)
    && (forall i :: 0 <= i < |log.displaced| ==> DisplacedRight(log.displaced[i]))
    && log.trusted <= log.put + log.held
  }

  /** Everything was done at the latest reading so far. */
  predicate Level(log: Record) {
    && (forall i :: 0 <= i < |log.releases| ==> log.releases[i].at == log.releases[i].peak)
    && forall i :: 0 <= i < |log.displaced| ==> log.displaced[i].at == log.displaced[i].peak
  }

  /** No two bundles are ever released for one request. */
  predicate OnePerRequest(releases: seq<Release>) {
    forall i, j :: 0 <= i < j < |releases| ==> releases[i].offer.requestId != releases[j].offer.requestId
  }

  // ---- what the tasks hold ----

  /** The grant numbered `serial` was signed for this offer. */
  predicate SignedFor(serial: nat, offer: GrantOffer, signed: seq<GrantOffer>) {
    serial < |signed| && signed[serial] == offer
  }

  predicate TaskKept(t: nat, task: Task, peak: int, places: Places, bundles: Bundles, log: Record,
                     signed: seq<GrantOffer>) {
    && (task.Unreleased() ==>
          && task.issuance.serial in places && places[task.issuance.serial] == Some(t)
          && SignedFor(task.issuance.serial, task.issuance.offer, signed))
    && (task.Released? || task.Delivering? ==> task.issuance.serial in bundles && bundles[task.issuance.serial] == t)
    && match task
       case Starting(_, validFrom) => validFrom <= peak
       case Preparing(_) => true
       case Authorised(offer, validFrom) => validFrom <= peak && validFrom < offer.expiresAt
       case Signed(_, validFrom) => validFrom <= peak
       case Confirming(_, ceremony, _, p) => p.offer.ceremony == ceremony
       case Released(ceremony, p) => p.offer.ceremony == ceremony && WasReleased(log.releases, p)
       case Delivering(ceremony, context, p) =>
         p.offer.ceremony == ceremony == context.offer.ceremony && WasReleased(log.releases, p)
       case Delivered(p) => p.serial in log.put + log.held
  }

  predicate PlacesKept(places: Places, bundles: Bundles, log: Record, signed: seq<GrantOffer>) {
    && (forall i :: 0 <= i < |log.deliveries| ==> log.deliveries[i].serial !in bundles)
    && (forall s :: s in bundles ==> s < |signed| && s !in places)
    && (forall s :: s in places ==> s < |signed|)
    && (forall s :: s in log.held ==> s < |signed| && s !in places)
    && (forall i :: 0 <= i < |log.releases| ==>
          log.releases[i].serial !in places && SignedFor(log.releases[i].serial, log.releases[i].offer, signed))
  }

  /** Every task, the pending grant, and the bundles on their way. */
  ghost predicate TasksKept(tasks: map<nat, Task>, next: nat, issuance: Option<Issuance>, peak: int, places: Places,
                            bundles: Bundles, log: Record, signed: seq<GrantOffer>)
  {
    && (forall t :: t in tasks ==> t < next && TaskKept(t, tasks[t], peak, places, bundles, log, signed))
    && (issuance.Some? ==>
          && issuance.value.serial in places && places[issuance.value.serial] == None
          && SignedFor(issuance.value.serial, issuance.value.offer, signed))
    && PlacesKept(places, bundles, log, signed)
  }

  lemma SignKeepsTasks(tasks: map<nat, Task>, next: nat, issuance: Option<Issuance>, peak: int, places: Places,
                       bundles: Bundles, log: Record, signed: seq<GrantOffer>, t: nat)
    requires TasksKept(tasks, next, issuance, peak, places, bundles, log, signed) && t in tasks && tasks[t].Authorised?
    ensures var task := tasks[t];
      TasksKept(tasks[t := Signed(Issuance(|signed|, task.offer), task.validFrom)], next, issuance, peak,
                places[|signed| := Some(t)], bundles, log, signed + [task.offer])
  {
    var task, more := tasks[t], signed + [tasks[t].offer];
    assert TaskKept(t, task, peak, places, bundles, log, signed);
    forall s, o | SignedFor(s, o, signed) ensures SignedFor(s, o, more) {}
    forall u | u in tasks && u != t
      ensures TaskKept(u, tasks[u], peak, places[|signed| := Some(t)], bundles, log, more)
    {
      assert TaskKept(u, tasks[u], peak, places, bundles, log, signed);
    }
  }

  lemma LandKeepsTasks(tasks: map<nat, Task>, next: nat, issuance: Option<Issuance>, peak: int, places: Places,
                       bundles: Bundles, log: Record, signed: seq<GrantOffer>, t: nat)
    requires TasksKept(tasks, next, issuance, peak, places, bundles, log, signed) && t in tasks && tasks[t].Signed?
    ensures var p := tasks[t].issuance;
      TasksKept(tasks - {t}, next, Some(p), peak, places[p.serial := None], bundles, log, signed)
  {
    var p := tasks[t].issuance;
    assert TaskKept(t, tasks[t], peak, places, bundles, log, signed);
    forall u | u in tasks && u != t
      ensures TaskKept(u, tasks[u], peak, places[p.serial := None], bundles, log, signed)
    {
      assert TaskKept(u, tasks[u], peak, places, bundles, log, signed);
    }
  }

  lemma ConfirmKeepsTasks(tasks: map<nat, Task>, next: nat, peak: int, places: Places, bundles: Bundles, log: Record,
                          signed: seq<GrantOffer>, task: Task)
    requires TasksKept(tasks, next, None, peak, places, bundles, log, signed) && task.Confirming?
    requires var p := task.issuance;
      && p.offer.ceremony == task.ceremony && p.serial in places && places[p.serial] == None
      && SignedFor(p.serial, p.offer, signed)
    ensures TasksKept(tasks[next := task], next + 1, None, peak, places[task.issuance.serial := Some(next)], bundles,
                      log,
                      signed)
  {
    var placed := places[task.issuance.serial := Some(next)];
    forall u | u in tasks && u != next ensures TaskKept(u, tasks[u], peak, placed, bundles, log, signed) {
      assert TaskKept(u, tasks[u], peak, places, bundles, log, signed);
    }
  }

  function Sending(log: Record, task: Task): Record
    requires task.Delivering?
  {
    log.(deliveries := log.deliveries + [Delivery(task.issuance.serial, task.issuance.offer, task.ceremony,
                                                  task.context)])
  }

  lemma PutKeepsTasks(tasks: map<nat, Task>, next: nat, issuance: Option<Issuance>, peak: int, places: Places,
                      bundles: Bundles, log: Record, signed: seq<GrantOffer>, t: nat)
    requires TasksKept(tasks, next, issuance, peak, places, bundles, log, signed) && Honest(log)
    requires t in tasks && tasks[t].Delivering?
    ensures var sent := Sending(log, tasks[t]);
      && TasksKept(tasks - {t}, next, issuance, peak, places, bundles - {tasks[t].issuance.serial}, sent, signed)
      && Honest(sent)
  {
    var task, sent := tasks[t], Sending(log, tasks[t]);
    assert TaskKept(t, task, peak, places, bundles, log, signed);
    forall u | u in tasks && u != t
      ensures TaskKept(u, tasks[u], peak, places, bundles - {task.issuance.serial}, sent, signed)
    {
      assert TaskKept(u, tasks[u], peak, places, bundles, log, signed);
    }
  }

  function Releasing(log: Record, p: Issuance, at: int, peak: int): Record {
    log.(releases := log.releases + [Release(p.serial, p.offer, at, peak)])
  }

  lemma ReleasedMore(log: Record, p: Issuance, at: int, peak: int)
    ensures WasReleased(Releasing(log, p, at, peak).releases, p)
    ensures forall q :: WasReleased(log.releases, q) ==> WasReleased(Releasing(log, p, at, peak).releases, q)
  {
    var more := Releasing(log, p, at, peak).releases;
    assert more[|log.releases|] == Release(p.serial, p.offer, at, peak);
    forall q | WasReleased(log.releases, q) ensures WasReleased(more, q) {
      var i :| 0 <= i < |log.releases| && log.releases[i].serial == q.serial && log.releases[i].offer == q.offer;
      assert more[i] == log.releases[i];
    }
  }

  /** A release before its expiry is the only one of its preparation. */
  lemma ReleaseHonest(log: Record, signed: seq<GrantOffer>, places: Places, p: Issuance, at: int, peak: int)
    requires Honest(log) && at < p.offer.expiresAt && at <= peak && p.serial in places
    requires forall i :: 0 <= i < |log.releases| ==> log.releases[i].serial !in places
    ensures Honest(Releasing(log, p, at, peak))
  {
    ReleasedMore(log, p, at, peak);
  }

  lemma ReleaseKeepsTasks(tasks: map<nat, Task>, next: nat, issuance: Option<Issuance>, peak: int, places: Places,
                          bundles: Bundles, log: Record, signed: seq<GrantOffer>, t: nat, at: int)
    requires TasksKept(tasks, next, issuance, peak, places, bundles, log, signed) && Honest(log)
    requires t in tasks && tasks[t].Confirming? && at < tasks[t].issuance.offer.expiresAt && at <= peak
    ensures var p, more := tasks[t].issuance, Releasing(log, tasks[t].issuance, at, peak);
      && TasksKept(tasks - {t}, next, issuance, peak, places - {p.serial}, bundles, more, signed) && Honest(more)
      && p.offer.ceremony == tasks[t].ceremony && t < next && SignedFor(p.serial, p.offer, signed)
      && WasReleased(more.releases, p) && p.serial < |signed| && p.serial !in bundles
      && forall i :: 0 <= i < |log.deliveries| ==> log.deliveries[i].serial != p.serial
  {
    var p, more := tasks[t].issuance, Releasing(log, tasks[t].issuance, at, peak);
    assert TaskKept(t, tasks[t], peak, places, bundles, log, signed);
    ReleasedMore(log, p, at, peak);
    ReleaseHonest(log, signed, places, p, at, peak);
    forall u | u in tasks && u != t ensures TaskKept(u, tasks[u], peak, places - {p.serial}, bundles, more, signed) {
      assert TaskKept(u, tasks[u], peak, places, bundles, log, signed);
    }
  }

  // ---- what the persons answered ----

  /** The answer the grant of this serial was taken for. */
  predicate AnsweredBy(serial: nat, answers: seq<Answer>, answered: map<nat, nat>, answer: Answer) {
    serial in answered && answered[serial] < |answers| && answers[answered[serial]] == answer
  }

  /** Each answer took at most the one grant, and no grant was taken twice. */
  predicate TakenOnce(answers: seq<Answer>, took: seq<Option<nat>>, answered: map<nat, nat>) {
    |took| == |answers| && forall s :: s in answered ==> answered[s] < |answers| && took[answered[s]] == Some(s)
  }

  /** Every release stands behind a yes to its own ceremony. */
  predicate ReleasesAnswered(log: Record, answers: seq<Answer>, answered: map<nat, nat>) {
    forall i :: 0 <= i < |log.releases| ==>
      var r := log.releases[i];
      r.serial in answered && answered[r.serial] < |answers|
      && answers[answered[r.serial]].yes && answers[answered[r.serial]].ceremony == r.offer.ceremony
  }

  /** What was sent was to be delivered, and what was handed to the page was not. */
  predicate SentAsAsked(log: Record, answers: seq<Answer>, answered: map<nat, nat>) {
    && (forall i :: 0 <= i < |log.deliveries| ==>
          AnsweredBy(log.deliveries[i].serial, answers, answered, Answer(log.deliveries[i].confirmed, true, true)))
    && forall s :: s in log.held ==> s in answered && answered[s] < |answers| && !answers[answered[s]].enrolling
  }

  predicate TaskAnswered(task: Task, answers: seq<Answer>, answered: map<nat, nat>) {
    match task
    case Confirming(enrolling, ceremony, answer, p) =>
      AnsweredBy(p.serial, answers, answered, Answer(ceremony, answer, enrolling))
    case Released(ceremony, p) => AnsweredBy(p.serial, answers, answered, Answer(ceremony, true, true))
    case Delivering(ceremony, _, p) => AnsweredBy(p.serial, answers, answered, Answer(ceremony, true, true))
    case _ => true
  }

  ghost predicate AnswersKept(tasks: map<nat, Task>, log: Record, answers: seq<Answer>, took: seq<Option<nat>>,
                              answered: map<nat, nat>)
  {
    && TakenOnce(answers, took, answered) && ReleasesAnswered(log, answers, answered)
    && SentAsAsked(log, answers, answered)
    && forall t :: t in tasks ==> TaskAnswered(tasks[t], answers, answered)
  }

  /** The grant pending in the session is no task's, released or sent. */
  lemma PendingIsUntaken(tasks: map<nat, Task>, next: nat, issuance: Option<Issuance>, peak: int, places: Places,
                         bundles: Bundles, log: Record, signed: seq<GrantOffer>)
    requires TasksKept(tasks, next, issuance, peak, places, bundles, log, signed) && Honest(log) && issuance.Some?
    ensures var s := issuance.value.serial;
      && (forall t :: t in tasks && (tasks[t].Confirming? || tasks[t].Released? || tasks[t].Delivering?) ==>
            tasks[t].issuance.serial != s)
      && (forall i :: 0 <= i < |log.releases| ==> log.releases[i].serial != s)
      && (forall i :: 0 <= i < |log.deliveries| ==> log.deliveries[i].serial != s) && s !in log.held
  {
    forall t | t in tasks && (tasks[t].Confirming? || tasks[t].Released? || tasks[t].Delivering?)
      ensures tasks[t].issuance.serial != issuance.value.serial
    {
      assert TaskKept(t, tasks[t], peak, places, bundles, log, signed);
    }
  }

  /** One more answer, which takes nothing or a grant no task, release or bundle has. */
  lemma AnswersMore(tasks: map<nat, Task>, log: Record, answers: seq<Answer>, took: seq<Option<nat>>,
                    answered: map<nat, nat>, answer: Answer, taken: Option<nat>)
    requires AnswersKept(tasks, log, answers, took, answered)
    requires taken.Some? ==>
      var s := taken.value;
      && (forall t :: t in tasks && (tasks[t].Confirming? || tasks[t].Released? || tasks[t].Delivering?) ==>
            tasks[t].issuance.serial != s)
      && (forall i :: 0 <= i < |log.releases| ==> log.releases[i].serial != s)
      && (forall i :: 0 <= i < |log.deliveries| ==> log.deliveries[i].serial != s) && s !in log.held
    ensures var answered' := if taken.Some? then answered[taken.value := |answers|] else answered;
      AnswersKept(tasks, log, answers + [answer], took + [taken], answered')
  {
    var answered' := if taken.Some? then answered[taken.value := |answers|] else answered;
    var more := answers + [answer];
    forall t | t in tasks ensures TaskAnswered(tasks[t], more, answered') {
      assert TaskAnswered(tasks[t], answers, answered);
    }
  }

  lemma AnswersWith(tasks: map<nat, Task>, log: Record, answers: seq<Answer>, took: seq<Option<nat>>,
                    answered: map<nat, nat>, t: nat, task: Task)
    requires AnswersKept(tasks, log, answers, took, answered) && TaskAnswered(task, answers, answered)
    ensures AnswersKept(tasks[t := task], log, answers, took, answered)
  {}

  lemma AnswersSend(tasks: map<nat, Task>, log: Record, answers: seq<Answer>, took: seq<Option<nat>>,
                    answered: map<nat, nat>, t: nat)
    requires AnswersKept(tasks, log, answers, took, answered) && t in tasks && tasks[t].Delivering?
    ensures AnswersKept(tasks - {t}, Sending(log, tasks[t]), answers, took, answered)
  {
    assert TaskAnswered(tasks[t], answers, answered);
  }

  /** A release by a task that holds a yes. */
  lemma AnswersRelease(tasks: map<nat, Task>, log: Record, answers: seq<Answer>, took: seq<Option<nat>>,
                       answered: map<nat, nat>, t: nat, at: int, peak: int)
    requires AnswersKept(tasks, log, answers, took, answered) && t in tasks && tasks[t].Confirming? && tasks[t].answer
    requires tasks[t].issuance.offer.ceremony == tasks[t].ceremony
    ensures AnswersKept(tasks - {t}, Releasing(log, tasks[t].issuance, at, peak), answers, took, answered)
    ensures AnsweredBy(tasks[t].issuance.serial, answers, answered, Answer(tasks[t].ceremony, true, tasks[t].enrolling))
  {
    assert TaskAnswered(tasks[t], answers, answered);
  }

  // ---- what the ledger granted ----

  /** The ledger's own history, and which of its calls granted each signature. */
  datatype History = History(ss: seq<Option<LedgerText>>, cs: seq<Call>, rs: seq<Result<()>>, granted: seq<nat>)

  /** The call `k` consumed this offer's id, at a reading before its expiry. */
  predicate GrantedBy(h: History, k: nat, offer: GrantOffer) {
    && k < |h.cs| == |h.rs| && h.rs[k].Ok? && h.cs[k] == Call(offer.requestId, offer.expiresAt, h.cs[k].now)
    && h.cs[k].now < offer.expiresAt
  }

  ghost predicate Granted(h: History, text: Option<LedgerText>, signed: seq<GrantOffer>) {
    && AnyRun(h.ss, h.cs, h.rs) && h.ss[|h.cs|] == text && |h.granted| == |signed|
    && (forall s :: 0 <= s < |signed| ==> GrantedBy(h, h.granted[s], signed[s]))
    && forall s, t :: 0 <= s < t < |signed| ==> h.granted[s] < h.granted[t]
  }

  /** Every offer presented under this request id carried this expiry. */
  predicate OneExpiry(h: History, offer: GrantOffer) {
    forall k :: 0 <= k < |h.cs| && h.cs[k].id == offer.requestId ==> h.cs[k].expiresAt == offer.expiresAt
  }

  /** No call was made at a reading later than this. */
  predicate ReadBy(h: History, peak: int) {
    forall k :: 0 <= k < |h.cs| ==> h.cs[k].now <= peak
  }

  /**
   From the grant `i` up to the call `j` some write was read at or past an expiry that the id of `i` had
   meanwhile been written with.
   */
  ghost predicate ReadPast(h: History, i: nat, j: nat)
    requires |h.ss| == |h.rs| + 1 && |h.cs| == |h.rs| && i < j < |h.cs|
  {
    exists m, k :: i <= m < k <= j && h.cs[m].id == h.cs[i].id && h.cs[k].now >= h.cs[m].expiresAt
      && Committed(h.ss, h.rs, m) && Committed(h.ss, h.rs, k)
  }

  /**
   Two signatures for one request, under any clock and any expiries: some write was read past an expiry of
   that id. With one expiry, that was a write between the two consumes that granted them.
   */
  lemma SignedTwiceOnlyAcross(h: History, text: Option<LedgerText>, signed: seq<GrantOffer>, s: nat, t: nat)
    requires Granted(h, text, signed) && s < t < |signed| && signed[s].requestId == signed[t].requestId
    ensures h.granted[s] < h.granted[t] < |h.cs| && ReadPast(h, h.granted[s], h.granted[t])
    ensures OneExpiry(h, signed[s]) ==>
              PrunedBetween(h.ss, h.cs, h.rs, h.granted[s], h.granted[t], signed[s].expiresAt)
  {
    var i, j := h.granted[s], h.granted[t];
    assert GrantedBy(h, i, signed[s]) && GrantedBy(h, j, signed[t]) && i < j;
    var m := FindLastCommit(h.ss, h.cs, h.rs, i, j);
    if h.cs[j].now < h.cs[m].expiresAt {
      AcceptedAgainExactlyWhen(h.ss, h.cs, h.rs, m, j);
      var k :| m < k < j && Committed(h.ss, h.rs, k) && h.cs[k].now >= h.cs[m].expiresAt;
      assert i < k < j && Committed(h.ss, h.rs, k);
    } else {
      assert Committed(h.ss, h.rs, j);
    }
  }

  /** A committed write of the released request's id carried an expiry the clock had shown by the release. */
  ghost predicate RanOut(h: History, release: Release) {
    && |h.ss| == |h.rs| + 1 && |h.cs| == |h.rs|
    && exists m :: 0 <= m < |h.cs| && h.cs[m].id == release.offer.requestId
         && h.cs[m].expiresAt <= release.peak && Committed(h.ss, h.rs, m)
  }

  /** A second release of a request comes only once an expiry of it has been shown. */
  ghost predicate SecondRanOut(h: History, releases: seq<Release>) {
    forall i, j :: 0 <= i < j < |releases| && releases[i].offer.requestId == releases[j].offer.requestId ==>
      RanOut(h, releases[j])
  }

  lemma ReleaseRanOut(h: History, text: Option<LedgerText>, signed: seq<GrantOffer>, log: Record, p: Issuance,
                      at: int, peak: int)
    requires Granted(h, text, signed) && ReadBy(h, peak) && SecondRanOut(h, log.releases)
      && SignedFor(p.serial, p.offer, signed)
    requires forall i :: 0 <= i < |log.releases| ==>
               log.releases[i].serial != p.serial && SignedFor(log.releases[i].serial, log.releases[i].offer, signed)
    ensures SecondRanOut(h, Releasing(log, p, at, peak).releases)
  {
    var more := Releasing(log, p, at, peak).releases;
    forall i, j | 0 <= i < j < |more| && more[i].offer.requestId == more[j].offer.requestId
      ensures RanOut(h, more[j])
    {
      if j == |log.releases| {
        var s, t := more[i].serial, p.serial;
        var first, second := if s < t then s else t, if s < t then t else s;
        SignedTwiceOnlyAcross(h, text, signed, first, second);
        var m, k :| h.granted[first] <= m < k <= h.granted[second] && h.cs[m].id == h.cs[h.granted[first]].id
          && h.cs[k].now >= h.cs[m].expiresAt && Committed(h.ss, h.rs, m) && Committed(h.ss, h.rs, k);
        assert GrantedBy(h, h.granted[first], signed[first]) && h.cs[k].now <= peak;
      } else {
        assert log.releases[i] == more[i] && log.releases[j] == more[j];
      }
    }
  }

  /**
   With one expiry per request and a clock never set back, no request is released for twice, nor an unexpired
   ceremony displaced.
   */
  lemma SteadyOnce(h: History, text: Option<LedgerText>, signed: seq<GrantOffer>, log: Record)
    requires Granted(h, text, signed) && SecondRanOut(h, log.releases) && Honest(log) && Level(log)
    requires forall i :: 0 <= i < |log.releases| ==> SignedFor(log.releases[i].serial, log.releases[i].offer, signed)
    ensures (forall i :: 0 <= i < |log.releases| ==> OneExpiry(h, log.releases[i].offer)) ==>
      OnePerRequest(log.releases)
    ensures forall i :: 0 <= i < |log.displaced| ==>
              var d := log.displaced[i]; d.old_.expiresAt <= d.at || d.old_.ceremony == d.new_.ceremony
  {
    if forall i :: 0 <= i < |log.releases| ==> OneExpiry(h, log.releases[i].offer) {
      forall i, j | 0 <= i < j < |log.releases|
        ensures log.releases[i].offer.requestId != log.releases[j].offer.requestId
      {
        assert OneExpiry(h, log.releases[j].offer) && log.releases[j].at == log.releases[j].peak;
        assert log.releases[i].offer.requestId == log.releases[j].offer.requestId ==> RanOut(h, log.releases[j]);
      }
    }
    forall i | 0 <= i < |log.displaced|
      ensures var d := log.displaced[i]; d.old_.expiresAt <= d.at || d.old_.ceremony == d.new_.ceremony
    {
      assert DisplacedRight(log.displaced[i]);
    }
  }

  /**
   A request signed for, with one expiry, that no reading has reached: it is still in the ledger, and no
   call at any reading taken so far is granted it again.
   */
  lemma CoverKept(h: History, text: Option<LedgerText>, signed: seq<GrantOffer>, s: nat, peak: int, kept: int)
    requires Granted(h, text, signed) && ReadBy(h, peak) && s < |signed| && OneExpiry(h, signed[s])
    requires kept <= peak < signed[s].expiresAt
    ensures Holds(Load(text), signed[s].requestId, kept)
    ensures forall text', e: int, r: Result<()> :: Consume(text, text', signed[s].requestId, e, kept, r) ==> r.Err?
  {
    assert GrantedBy(h, h.granted[s], signed[s]);
    var m := FindLastCommit(h.ss, h.cs, h.rs, h.granted[s], |h.cs|);
    StoredExactlyWhile(h.ss, h.cs, h.rs, m, |h.cs|);
  }

  /**
   When a call that kept an earlier reading is granted a request already signed for: exactly when the last
   write of that id has run out by the kept reading, or some call since was written at a reading past its
   expiry, and there is room.
   */
  lemma SecondGrantExactlyWhen(h: History, text: Option<LedgerText>, signed: seq<GrantOffer>, s: nat, kept: int)
    returns (m: nat)
    requires Granted(h, text, signed) && s < |signed|
    ensures h.granted[s] <= m < |h.cs| && h.cs[m].id == signed[s].requestId && LastCommit(h.ss, h.cs, h.rs, m, |h.cs|)
    ensures (exists text', e :: Consume(text, text', signed[s].requestId, e, kept, Ok(())))
            <==> (h.cs[m].expiresAt <= kept || PrunedBetween(h.ss, h.cs, h.rs, m, |h.cs|, h.cs[m].expiresAt))
                 && |Pruned(Load(text), kept)| < MAX_ENTRIES
  {
    var id, e, live := signed[s].requestId, signed[s].expiresAt, Pruned(Load(text), kept);
    assert GrantedBy(h, h.granted[s], signed[s]);
    m := FindLastCommit(h.ss, h.cs, h.rs, h.granted[s], |h.cs|);
    StoredExactlyWhile(h.ss, h.cs, h.rs, m, |h.cs|);
    if id !in live && |live| < MAX_ENTRIES {
      assert Consume(text, Some(Recorded(live[id := e])), id, e, kept, Ok(()));
    }
  }

  /** One more call of the ledger. */
  lemma GrantedNext(h: History, text: Option<LedgerText>, text': Option<LedgerText>, signed: seq<GrantOffer>, c: Call,
                    r: Result<()>,
                    releases: seq<Release>)
    returns (h': History)
    requires Granted(h, text, signed) && Consume(text, text', c.id, c.expiresAt, c.now, r) && SecondRanOut(h, releases)
    ensures Granted(h', text', signed) && h' == History(h.ss + [text'], h.cs + [c], h.rs + [r], h.granted)
    ensures forall s :: 0 <= s < |signed| ==> h'.granted[s] < |h.cs|
    ensures SecondRanOut(h', releases)
  {
    h' := History(h.ss + [text'], h.cs + [c], h.rs + [r], h.granted);
    forall i | 0 <= i < |h'.cs|
      ensures Consume(h'.ss[i], h'.ss[i + 1], h'.cs[i].id, h'.cs[i].expiresAt, h'.cs[i].now, h'.rs[i])
    {
      if i < |h.cs| { assert Consume(h.ss[i], h.ss[i + 1], h.cs[i].id, h.cs[i].expiresAt, h.cs[i].now, h.rs[i]); }
    }
    forall s | 0 <= s < |signed| ensures GrantedBy(h', h'.granted[s], signed[s]) {
      assert GrantedBy(h, h.granted[s], signed[s]);
    }
    forall i, j | 0 <= i < j < |releases| && releases[i].offer.requestId == releases[j].offer.requestId
      ensures RanOut(h', releases[j])
    {
      assert RanOut(h, releases[j]);
      var m :| 0 <= m < |h.cs| && h.cs[m].id == releases[j].offer.requestId && h.cs[m].expiresAt <= releases[j].peak
        && Committed(h.ss, h.rs, m);
      assert Committed(h'.ss, h'.rs, m) && h'.cs[m] == h.cs[m];
    }
  }

  /** One more signature, granted by the latest call. */
  lemma GrantedMore(h: History, text: Option<LedgerText>, signed: seq<GrantOffer>, offer: GrantOffer,
                    releases: seq<Release>)
    requires Granted(h, text, signed) && h.cs != [] && GrantedBy(h, |h.cs| - 1, offer) && SecondRanOut(h, releases)
    requires forall s :: 0 <= s < |signed| ==> h.granted[s] < |h.cs| - 1
    ensures var h' := h.(granted := h.granted + [|h.cs| - 1]);
      Granted(h', text, signed + [offer]) && SecondRanOut(h', releases)
  {
    var h', more := h.(granted := h.granted + [|h.cs| - 1]), signed + [offer];
    forall s | 0 <= s < |more| ensures GrantedBy(h', h'.granted[s], more[s]) {
      if s < |signed| { assert GrantedBy(h, h.granted[s], signed[s]); }
    }
    forall i, j | 0 <= i < j < |releases| && releases[i].offer.requestId == releases[j].offer.requestId
      ensures RanOut(h', releases[j])
    {
      assert RanOut(h, releases[j]);
    }
  }

  /** The guard of both pending fields: a ceremony unexpired at the reading kept yields only to itself. */
  predicate MayDisplace(existing: Option<GrantOffer>, next: GrantOffer, validFrom: int) {
    existing.None? || existing.value.expiresAt <= validFrom || existing.value.ceremony == next.ceremony
  }

  /**
   Another ceremony's offer is displaced before the clock reaches its expiry exactly when the clock has fallen
   below the reading kept, across that expiry.
   */
  lemma LiveDisplacedExactlyWhen(held: GrantOffer, next: GrantOffer, kept: int, clock: int)
    requires held.ceremony != next.ceremony
    ensures MayDisplace(Some(held), next, kept) && clock < held.expiresAt <==> clock < held.expiresAt <= kept
  {}

  /** The clock's reading after a schedule, and whether any of its readings was below the one before. */
  function ReadingAfter(reading: int, schedule: seq<Command>): int {
    if schedule == [] then reading
    else
      var n := |schedule| - 1;
      if schedule[n].Tick? then schedule[n].reading else ReadingAfter(reading, schedule[..n])
  }

  predicate Falls(reading: int, schedule: seq<Command>) {
    if schedule == [] then false
    else
      var n := |schedule| - 1;
      Falls(reading, schedule[..n]) || (schedule[n].Tick? && schedule[n].reading < ReadingAfter(reading, schedule[..n]))
  }

  /** The answers a schedule brings, in order. */
  function AnswersOf(schedule: seq<Command>): seq<Answer> {
    if schedule == [] then []
    else
      var n := |schedule| - 1;
      var last := schedule[n];
      AnswersOf(schedule[..n]) + if last.Confirm? then [Answer(last.ceremony, last.answer, last.enrolling)] else []
  }

  class Session {
    const ledger: RequestLedger
    var clock: int
    var issuance: Option<Issuance>
    var enrolment: Option<Context>
    var tasks: map<nat, Task>
    var nextTask: nat
    var nextSerial: nat
    ghost var places: Places
    ghost var bundles: Bundles
    ghost var log: Record
    /** The offer each signature was made for, in order, and the ledger calls that granted them. */
    ghost var signed: seq<GrantOffer>
    ghost var history: History
    /** The latest reading the clock has shown, and whether it was ever set back. */
    ghost var peak: int
    ghost var fell: bool
    /** Every answer given, the grant it took, and the answer each grant was taken for. */
    ghost var answers: seq<Answer>
    ghost var took: seq<Option<nat>>
    ghost var answered: map<nat, nat>

    constructor (now: int)
      ensures Inv() && fresh(ledger) && clock == now && !fell && answers == []
    {
      clock, peak, fell := now, now, false;
      ledger := new RequestLedger();
      issuance, enrolment, tasks, nextTask, nextSerial := None, None, map[], 0, 0;
      places, bundles, log := map[], map[], Record([], [], [], {}, {}, {});
      answers, took, answered := [], [], map[];
      signed, history := [], History([None], [], [], []);
    }

    /** The tasks, the pending grant and the bundles on their way. */
    ghost predicate Held()
      reads `tasks, `nextTask, `issuance, `peak, `places, `bundles, `log, `signed
    {
      TasksKept(tasks, nextTask, issuance, peak, places, bundles, log, signed)
    }

    /** The answers behind the confirming tasks and the releases. */
    ghost predicate Answering()
      reads `tasks, `log, `answers, `took, `answered
    {
      AnswersKept(tasks, log, answers, took, answered)
    }

    /** The ledger's history behind the signatures. */
    ghost predicate Ledgered()
      reads `history, `signed, `nextSerial, `peak, ledger
    {
      Granted(history, ledger.text, signed) && nextSerial == |signed| && ReadBy(history, peak)
    }

    /** The log against the ledger's history and the clock. */
    ghost predicate Logged()
      reads `history, `log, `clock, `peak, `fell
    {
      Honest(log) && SecondRanOut(history, log.releases) && clock <= peak && (!fell ==> clock == peak && Level(log))
    }

    ghost predicate Inv()
      reads this, ledger
    {
      Held() && Answering() && Ledgered() && Logged()
    }

    method Spawn(task: Task)
      requires task.Starting? || task.Preparing?
      requires Inv() && TaskKept(nextTask, task, peak, places, bundles, log, signed)
      modifies `tasks, `nextTask
      ensures Inv() && tasks == old(tasks)[old(nextTask) := task]
    {
      tasks, nextTask := tasks[nextTask := task], nextTask + 1;
    }

    method Become(t: nat, task: Task)
      requires task.Authorised? || (task.Delivering? && t in tasks && tasks[t].Released?
                                    && task.issuance == tasks[t].issuance)
      requires Inv() && t in tasks && TaskKept(t, task, peak, places, bundles, log, signed)
      modifies `tasks
      ensures Inv() && tasks == old(tasks)[t := task]
    {
      tasks := tasks[t := task];
    }

    method End(t: nat)
      requires Inv()
      modifies `tasks
      ensures Inv() && tasks == old(tasks) - {t}
    {
      tasks := tasks - {t};
    }

    /** The wall clock shows another reading, later or, if it is set back, earlier. */
    method Tick(reading: int)
      requires Inv()
      modifies `clock, `peak, `fell
      ensures Inv() && clock == reading && (fell <==> old(fell) || reading < old(clock))
    {
      if reading < clock { fell := true; }
      clock := reading;
      if reading > peak { peak := reading; }
      forall t | t in tasks ensures TaskKept(t, tasks[t], peak, places, bundles, log, signed) {
        assert TaskKept(t, tasks[t], old(peak), places, bundles, log, signed);
      }
    }

    // ---- cbcl_enrol_start ----

    /** Fetch, open and review: no id is burned by looking. */
    method Start(context: Context)
      requires Inv()
      modifies `tasks, `nextTask
      ensures Inv()
      ensures tasks == old(tasks)
              || (tasks == old(tasks)[old(nextTask) := Starting(context, clock)]
                  && clock < context.offer.expiresAt && !Holds(Load(ledger.text), context.offer.requestId, clock))
    {
      if clock >= context.offer.expiresAt { return; }
      var consumed := ledger.IsConsumed(context.offer.requestId, clock);
      if consumed.Err? || consumed.value { return; }
      Spawn(Starting(context, clock));
    }

    /** The last section of `enrol_from_opened`: a context live at the reading kept, and of another ceremony, stays. */
    method LandContext(t: nat)
      requires Inv() && t in tasks && tasks[t].Starting?
      modifies `tasks, `enrolment, `log
      ensures Inv() && tasks == old(tasks) - {t}
      ensures var context, kept := old(tasks[t]).context, old(tasks[t]).validFrom;
        if old(enrolment).None? || old(enrolment).value.offer.expiresAt <= kept
           || old(enrolment).value.offer.ceremony == context.offer.ceremony
        then enrolment == Some(context) && Displaces(Offered(old(enrolment)), context.offer, kept)
        else enrolment == old(enrolment) && log == old(log)
    {
      var context, validFrom := tasks[t].context, tasks[t].validFrom;
      var existing := if enrolment.None? then None else Some(enrolment.value.offer);
      if MayDisplace(existing, context.offer, validFrom) {
        if existing.Some? { Displace(existing.value, context.offer, validFrom); }
        enrolment := Some(context);
      }
      End(t);
    }

    function Offered(held: Option<Context>): Option<GrantOffer> {
      if held.None? then None else Some(held.value.offer)
    }

    /** What was displaced, if anything, is on record with the reading it was judged by. */
    twostate predicate Displaces(existing: Option<GrantOffer>, new_: GrantOffer, kept: int)
      reads `log, `clock, `peak
    {
      log == if existing.None? then old(log)
        else old(log).(displaced := old(log).displaced + [Displacement(existing.value, new_, kept, clock, peak)])
    }

    ghost method Displace(old_: GrantOffer, new_: GrantOffer, kept: int)
      requires Inv() && MayDisplace(Some(old_), new_, kept) && kept <= peak
      modifies `log
      ensures Inv() && Displaces(Some(old_), new_, kept)
    {
      log := log.(displaced := log.displaced + [Displacement(old_, new_, kept, clock, peak)]);
      forall t | t in tasks ensures TaskKept(t, tasks[t], peak, places, bundles, log, signed) {
        assert TaskKept(t, tasks[t], peak, places, bundles, old(log), signed);
      }
    }

    // ---- cbcl_enrol_prepare and app_grant_prepare ----

    /** The first section of `cbcl_enrol_prepare` copies the context's offer. */
    method CopyOffer()
      requires Inv()
      modifies `tasks, `nextTask
      ensures Inv()
      ensures tasks == if enrolment.None? then old(tasks)
                       else old(tasks)[old(nextTask) := Preparing(enrolment.value.offer)]
    {
      if enrolment.Some? { Spawn(Preparing(enrolment.value.offer)); }
    }

    /** `authorise` reads the clock, refuses an expired offer, and keeps the reading. */
    method Authorise(t: nat)
      requires Inv() && t in tasks && tasks[t].Preparing?
      modifies `tasks
      ensures Inv()
      ensures tasks == if clock < old(tasks[t]).offer.expiresAt
                       then old(tasks)[t := Authorised(old(tasks[t]).offer, clock)] else old(tasks) - {t}
    {
      var offer := tasks[t].offer;
      if clock >= offer.expiresAt {
        End(t);
      } else {
        Become(t, Authorised(offer, clock));
      }
    }

    /** The ledger's lock is taken later, with the reading kept: consume, and only then sign. */
    method Issue(t: nat)
      requires Inv() && t in tasks && tasks[t].Authorised?
      modifies `tasks, `nextSerial, `places, `signed, `history, ledger
      ensures Inv()
      ensures signed == old(signed) || signed == old(signed) + [old(tasks[t]).offer]
      ensures signed != old(signed) ==>
        var task := old(tasks[t]);
        && !Holds(Load(old(ledger.text)), task.offer.requestId, task.validFrom)
        && Holds(Load(ledger.text), task.offer.requestId, task.validFrom)
      ensures tasks == if signed == old(signed) then old(tasks) - {t}
                       else old(tasks)[t := Signed(Issuance(|old(signed)|, old(tasks[t]).offer),
                                                   old(tasks[t]).validFrom)]
    {
      var consumed := Spend(t);
      var signs: bool := *;
      if consumed.Ok? && signs { Sign(t); } else { End(t); }
    }

    /** The consume, at the reading the task kept; its answer is on the ledger's history. */
    method Spend(t: nat) returns (r: Result<()>)
      requires Inv() && t in tasks && tasks[t].Authorised?
      modifies `history, ledger
      ensures Inv() && |history.cs| > 0 && forall s :: 0 <= s < |signed| ==> history.granted[s] < |history.cs| - 1
      ensures Consume(old(ledger.text), ledger.text, tasks[t].offer.requestId, tasks[t].offer.expiresAt,
                      tasks[t].validFrom, r)
      ensures r.Ok? ==> GrantedBy(history, |history.cs| - 1, tasks[t].offer)
    {
      var offer, validFrom := tasks[t].offer, tasks[t].validFrom;
      ghost var before := ledger.text;
      r := ledger.ConsumeId(offer.requestId, offer.expiresAt, validFrom);
      history := GrantedNext(history, before, ledger.text, signed, Call(offer.requestId, offer.expiresAt, validFrom),
                             r, log.releases);
    }

    /** The signature, made only behind a consume this very call was granted. */
    method Sign(t: nat)
      requires Inv() && t in tasks && tasks[t].Authorised?
      requires |history.cs| > 0 && GrantedBy(history, |history.cs| - 1, tasks[t].offer)
      requires forall s :: 0 <= s < |signed| ==> history.granted[s] < |history.cs| - 1
      modifies `tasks, `nextSerial, `places, `signed, `history
      ensures Inv() && signed == old(signed) + [old(tasks[t]).offer]
      ensures tasks == old(tasks)[t := Signed(Issuance(|old(signed)|, old(tasks[t]).offer), old(tasks[t]).validFrom)]
    {
      var offer, validFrom := tasks[t].offer, tasks[t].validFrom;
      GrantedMore(history, ledger.text, signed, offer, log.releases);
      SignKeepsTasks(tasks, nextTask, issuance, peak, places, bundles, log, signed, t);
      history := history.(granted := history.granted + [|history.cs| - 1]);
      signed := signed + [offer];
      places := places[nextSerial := Some(t)];
      tasks, nextSerial := tasks[t := Signed(Issuance(nextSerial, offer), validFrom)], nextSerial + 1;
    }

    /** The last section of `prepare_issuance`, after the authority answered or failed closed. */
    method LandIssuance(t: nat)
      requires Inv() && t in tasks && tasks[t].Signed?
      modifies `tasks, `issuance, `places, `log
      ensures Inv() && tasks == old(tasks) - {t}
      ensures var p, kept := old(tasks[t]).issuance, old(tasks[t]).validFrom;
        || (issuance == old(issuance) && log == old(log))
        || (issuance == Some(p)
            && (old(issuance).None? || old(issuance).value.offer.expiresAt <= kept
                || old(issuance).value.offer.ceremony == p.offer.ceremony)
            && Displaces(if old(issuance).None? then None else Some(old(issuance).value.offer), p.offer, kept))
    {
      var p, validFrom := tasks[t].issuance, tasks[t].validFrom;
      if * {
        End(t);
        return;
      }
      var existing := if issuance.None? then None else Some(issuance.value.offer);
      if MayDisplace(existing, p.offer, validFrom) {
        if existing.Some? { Displace(existing.value, p.offer, validFrom); }
        Land(t);
      } else {
        End(t);
      }
    }

    /** The signed grant leaves its task and is pending. */
    method Land(t: nat)
      requires Inv() && t in tasks && tasks[t].Signed?
      modifies `tasks, `issuance, `places
      ensures Inv() && tasks == old(tasks) - {t} && issuance == Some(old(tasks[t]).issuance)
    {
      var p := tasks[t].issuance;
      LandKeepsTasks(tasks, nextTask, issuance, peak, places, bundles, log, signed, t);
      tasks, issuance, places := tasks - {t}, Some(p), places[p.serial := None];
    }

    // ---- app_grant_confirm and cbcl_enrol_confirm ----

    /**
     Taken, not borrowed, and taken before the ceremony is compared. On a match the confirming task carries
     exactly this command's ceremony and answer, and the grant taken.
     */
    method TakeIssuance(ceremony: Opaque, answer: bool, enrolling: bool)
      requires Inv()
      modifies `tasks, `nextTask, `issuance, `places, `answers, `took, `answered
      ensures Inv() && issuance == None && answers == old(answers) + [Answer(ceremony, answer, enrolling)]
      ensures tasks == if old(issuance).Some? && old(issuance).value.offer.ceremony == ceremony
                       then old(tasks)[old(nextTask) := Confirming(enrolling, ceremony, answer, old(issuance).value)]
                       else old(tasks)
    {
      if issuance.Some? && issuance.value.offer.ceremony == ceremony {
        TakeOwn(ceremony, answer, enrolling);
      } else {
        Hear(Answer(ceremony, answer, enrolling), None);
        Discard();
      }
    }

    method TakeOwn(ceremony: Opaque, answer: bool, enrolling: bool)
      requires Inv() && issuance.Some? && issuance.value.offer.ceremony == ceremony
      modifies `tasks, `nextTask, `issuance, `places, `answers, `took, `answered
      ensures Inv() && issuance == None && answers == old(answers) + [Answer(ceremony, answer, enrolling)]
      ensures tasks == old(tasks)[old(nextTask) := Confirming(enrolling, ceremony, answer, old(issuance).value)]
    {
      var p := issuance.value;
      Hear(Answer(ceremony, answer, enrolling), Some(p.serial));
      Discard();
      Confirmed(ceremony, answer, enrolling, p);
    }

    method Discard()
      requires Inv()
      modifies `issuance
      ensures Inv() && issuance == None
    {
      issuance := None;
    }

    /** The grant taken is in the confirming task's hands alone. */
    method Confirmed(ceremony: Opaque, answer: bool, enrolling: bool, p: Issuance)
      requires Inv() && issuance == None && p.offer.ceremony == ceremony
      requires p.serial in places && places[p.serial] == None && SignedFor(p.serial, p.offer, signed)
      requires AnsweredBy(p.serial, answers, answered, Answer(ceremony, answer, enrolling))
      modifies `tasks, `nextTask, `places
      ensures Inv() && tasks == old(tasks)[old(nextTask) := Confirming(enrolling, ceremony, answer, p)]
    {
      var task := Confirming(enrolling, ceremony, answer, p);
      ConfirmKeepsTasks(tasks, nextTask, peak, places, bundles, log, signed, task);
      AnswersWith(tasks, log, answers, took, answered, nextTask, task);
      tasks, places := tasks[nextTask := task], places[p.serial := Some(nextTask)];
      nextTask := nextTask + 1;
    }

    /** An answer goes on record, with the pending grant it takes, if any. */
    ghost method Hear(answer: Answer, taken: Option<nat>)
      requires Inv() && (taken.Some? ==> issuance.Some? && taken.value == issuance.value.serial)
      modifies `answers, `took, `answered
      ensures Inv() && answers == old(answers) + [answer]
      ensures taken.Some? ==> AnsweredBy(taken.value, answers, answered, answer)
    {
      if taken.Some? { PendingIsUntaken(tasks, nextTask, issuance, peak, places, bundles, log, signed); }
      AnswersMore(tasks, log, answers, took, answered, answer, taken);
      answered := if taken.Some? then answered[taken.value := |answers|] else answered;
      answers, took := answers + [answer], took + [taken];
    }

    /** The decision: a refusal or a timeout drops the grant; the enrolment context is not touched. */
    method Decide(t: nat)
      requires Inv() && t in tasks && tasks[t].Confirming?
      modifies `tasks, `places, `bundles, `log
      ensures Inv() && enrolment == old(enrolment) && issuance == old(issuance)
      ensures log.releases != old(log).releases ==>
        && old(tasks[t]).answer && clock < old(tasks[t]).issuance.offer.expiresAt
        && log.releases == old(log).releases + [Release(old(tasks[t]).issuance.serial, old(tasks[t]).issuance.offer,
                                                        clock, peak)]
      ensures tasks == if log.releases == old(log).releases then old(tasks) - {t}
                       else if old(tasks[t]).enrolling
                       then old(tasks)[t := Released(old(tasks[t]).ceremony, old(tasks[t]).issuance)]
                       else old(tasks)[t := Delivered(old(tasks[t]).issuance)]
    {
      var task := tasks[t];
      if clock >= task.issuance.offer.expiresAt || !task.answer {
        End(t);
        return;
      }
      if * {
        End(t);
        return;
      }
      HandOver(t);
    }

    /** The release, and where the bundle goes. */
    method HandOver(t: nat)
      requires Inv() && t in tasks && tasks[t].Confirming? && clock < tasks[t].issuance.offer.expiresAt
        && tasks[t].answer
      modifies `tasks, `places, `bundles, `log
      ensures Inv() && log.releases == Releasing(old(log), old(tasks[t]).issuance, clock, peak).releases
      ensures var task := old(tasks[t]);
        tasks == old(tasks)[t := if task.enrolling then Released(task.ceremony, task.issuance)
                            else Delivered(task.issuance)]
    {
      var task := tasks[t];
      ReleaseGrant(t);
      assert tasks[t := Released(task.ceremony, task.issuance)] == old(tasks)[t := Released(task.ceremony,
          task.issuance)];
      assert tasks[t := Delivered(task.issuance)] == old(tasks)[t := Delivered(task.issuance)];
      if task.enrolling { Carry(t, task.ceremony, task.issuance); } else { Hold(t, task.issuance); }
    }

    /** A released enrolment bundle is carried on by the task that released it. */
    method Carry(t: nat, ceremony: Opaque, p: Issuance)
      requires Inv() && t !in tasks && t < nextTask && p.offer.ceremony == ceremony && WasReleased(log.releases, p)
      requires p.serial < |signed| && p.serial !in places && p.serial !in bundles
      requires forall i :: 0 <= i < |log.deliveries| ==> log.deliveries[i].serial != p.serial
      requires AnsweredBy(p.serial, answers, answered, Answer(ceremony, true, true))
      modifies `tasks, `bundles
      ensures Inv() && tasks == old(tasks)[t := Released(ceremony, p)]
    {
      bundles := bundles[p.serial := t];
      tasks := tasks[t := Released(ceremony, p)];
    }

    /** A bundle released to the page on this device is delivered by that. */
    method Hold(t: nat, p: Issuance)
      requires Inv() && t !in tasks && t < nextTask && p.serial < |signed| && p.serial !in places
      requires AnsweredBy(p.serial, answers, answered, Answer(p.offer.ceremony, true, false))
      modifies `tasks, `log
      ensures Inv() && tasks == old(tasks)[t := Delivered(p)] && log.releases == old(log).releases
    {
      log := log.(held := log.held + {p.serial});
      tasks := tasks[t := Delivered(p)];
      forall u | u in tasks && u != t ensures TaskKept(u, tasks[u], peak, places, bundles, log, signed) {
        assert TaskKept(u, old(tasks)[u], peak, places, bundles, old(log), signed);
      }
    }

    method ReleaseGrant(t: nat)
      requires Inv() && t in tasks && tasks[t].Confirming? && clock < tasks[t].issuance.offer.expiresAt
      requires tasks[t].answer
      modifies `tasks, `places, `log
      ensures Inv() && tasks == old(tasks) - {t} && log == Releasing(old(log), old(tasks[t]).issuance, clock, peak)
      ensures var serial := old(tasks[t]).issuance.serial; serial < |signed| && serial !in places && serial !in bundles
      ensures forall i :: 0 <= i < |log.deliveries| ==> log.deliveries[i].serial != old(tasks[t]).issuance.serial
      ensures WasReleased(log.releases, old(tasks[t]).issuance) && nextTask > t
      ensures var task := old(tasks[t]);
        task.issuance.offer.ceremony == task.ceremony
        && AnsweredBy(task.issuance.serial, answers, answered, Answer(task.ceremony, true, task.enrolling))
    {
      ghost var p := tasks[t].issuance;
      ReleaseKeepsTasks(tasks, nextTask, issuance, peak, places, bundles, log, signed, t, clock);
      AnswersRelease(tasks, log, answers, took, answered, t, clock, peak);
      ReleaseRanOut(history, ledger.text, signed, log, p, clock, peak);
      log := Releasing(log, p, clock, peak);
      tasks, places := tasks - {t}, places - {p.serial};
    }

    /** The context is taken whoever's it is; only the confirmed ceremony's own delivers. */
    method TakeContext(t: nat)
      requires Inv() && t in tasks && tasks[t].Released?
      modifies `tasks, `enrolment
      ensures Inv() && enrolment == None
      ensures var task, held := old(tasks[t]), old(enrolment);
        tasks == if held.Some? && held.value.offer.ceremony == task.ceremony
                 then old(tasks)[t := Delivering(task.ceremony, held.value, task.issuance)] else old(tasks) - {t}
    {
      var task := tasks[t];
      if enrolment.None? {
        End(t);
        return;
      }
      var context := enrolment.value;
      enrolment := None;
      if context.offer.ceremony == task.ceremony {
        Become(t, Delivering(task.ceremony, context, task.issuance));
      } else {
        End(t);
      }
    }

    /** The PUT: it may be lost, arrive, or arrive and report failure. */
    method Put(t: nat)
      requires Inv() && t in tasks && tasks[t].Delivering?
      modifies `tasks, `bundles, `log
      ensures Inv()
      ensures tasks == old(tasks) - {t}
              || (tasks == old(tasks)[t := Delivered(old(tasks[t]).issuance)]
                  && old(tasks[t]).issuance.serial in log.put)
      ensures log.deliveries == old(log).deliveries || log.deliveries == Sending(old(log), old(tasks[t])).deliveries
    {
      var task := tasks[t];
      if * {
        End(t);
        return;
      }
      Send(t);
      if * { return; }
      Arrived(t, task.issuance);
    }

    /** The sealed bundle is out. */
    method Send(t: nat)
      requires Inv() && t in tasks && tasks[t].Delivering?
      modifies `tasks, `bundles, `log
      ensures Inv() && tasks == old(tasks) - {t} && log == Sending(old(log), old(tasks[t])) && t < nextTask
    {
      var task := tasks[t];
      PutKeepsTasks(tasks, nextTask, issuance, peak, places, bundles, log, signed, t);
      AnswersSend(tasks, log, answers, took, answered, t);
      log := Sending(log, task);
      tasks, bundles := tasks - {t}, bundles - {task.issuance.serial};
    }

    /** The PUT was answered: the task goes on to record trust. */
    method Arrived(t: nat, p: Issuance)
      requires Inv() && t < nextTask
      modifies `tasks, `log
      ensures Inv() && p.serial in log.put && tasks == old(tasks)[t := Delivered(p)]
        && log.deliveries == old(log).deliveries
    {
      log := log.(put := log.put + {p.serial});
      tasks := tasks[t := Delivered(p)];
    }

    /** Trust is the last step, taken only by a task whose PUT succeeded. */
    method Commit(t: nat)
      requires Inv() && t in tasks && tasks[t].Delivered?
      modifies `tasks, `log
      ensures Inv()
      ensures log.trusted <= old(log).trusted + {old(tasks[t]).issuance.serial} && log.put == old(log).put
      ensures tasks == old(tasks) - {t} && log.releases == old(log).releases
    {
      if * { log := log.(trusted := log.trusted + {tasks[t].issuance.serial}); }
      End(t);
    }

    // ---- any interleaving ----

    /** The remaining sections of a preparation: its offer or context lands, or its grant does. */
    method Prepare(t: nat)
      requires Inv() && t in tasks
      requires tasks[t].Starting? || tasks[t].Preparing? || tasks[t].Authorised? || tasks[t].Signed?
      modifies this, ledger
      ensures Inv() && clock == old(clock) && fell == old(fell) && answers == old(answers)
    {
      match tasks[t]
      case Starting(_, _) => LandContext(t);
      case Preparing(_) => Authorise(t);
      case Authorised(_, _) => Issue(t);
      case Signed(_, _) => LandIssuance(t);
    }

    /** The remaining sections of a confirmation. */
    method Conclude(t: nat)
      requires Inv() && t in tasks
      requires tasks[t].Confirming? || tasks[t].Released? || tasks[t].Delivering? || tasks[t].Delivered?
      modifies this, ledger
      ensures Inv() && clock == old(clock) && fell == old(fell) && answers == old(answers)
    {
      match tasks[t]
      case Confirming(_, _, _, _) => Decide(t);
      case Released(_, _) => TakeContext(t);
      case Delivering(_, _, _) => Put(t);
      case Delivered(_) => Commit(t);
    }

    method Proceed(t: nat)
      requires Inv()
      modifies this, ledger
      ensures Inv() && clock == old(clock) && fell == old(fell) && answers == old(answers)
    {
      if t !in tasks { return; }
      var task := tasks[t];
      if task.Starting? || task.Preparing? || task.Authorised? || task.Signed? { Prepare(t); } else { Conclude(t); }
    }

    method Act(command: Command)
      requires Inv()
      modifies this, ledger
      ensures Inv()
      ensures clock == if command.Tick? then command.reading else old(clock)
      ensures fell <==> old(fell) || (command.Tick? && command.reading < old(clock))
      ensures answers == old(answers)
                         + if command.Confirm? then [Answer(command.ceremony, command.answer, command.enrolling)]
                           else []
    {
      match command
      case Tick(reading) => Tick(reading);
      case Start(context) => Start(context);
      case PrepareHeld(offer) => Spawn(Preparing(offer));
      case PrepareEnrolment => CopyOffer();
      case Confirm(ceremony, answer, enrolling) => TakeIssuance(ceremony, answer, enrolling);
      case Proceed(t) => Proceed(t);
    }

    /**
     Every schedule of commands, of their remaining sections and of clock readings keeps the record honest;
     every release stands behind a yes of its own that the schedule brought to its own ceremony;
     a request is signed or released for twice only past an expiry of it, as the clock showed it. With one
     expiry per request and a clock not set back, no request is released for twice and no live ceremony
     displaced.
     */
    method Run(schedule: seq<Command>)
      requires Inv()
      modifies this, ledger
      ensures Inv() && Honest(log) && (fell <==> old(fell) || Falls(old(clock), schedule))
      ensures forall s, t :: 0 <= s < t < |signed| && signed[s].requestId == signed[t].requestId ==>
        && history.granted[s] < history.granted[t] < |history.cs|
           && ReadPast(history, history.granted[s], history.granted[t])
        && (OneExpiry(history, signed[s]) ==>
              PrunedBetween(history.ss, history.cs, history.rs, history.granted[s], history.granted[t],
                            signed[s].expiresAt))
      ensures TakenOnce(answers, took, answered) && ReleasesAnswered(log, answers, answered)
      ensures SentAsAsked(log, answers, answered) && answers == old(answers) + AnswersOf(schedule)
      ensures SecondRanOut(history, log.releases)
      ensures !fell ==>
        && ((forall i :: 0 <= i < |log.releases| ==> OneExpiry(history, log.releases[i].offer)) ==>
            OnePerRequest(log.releases))
        && forall i :: 0 <= i < |log.displaced| ==>
             var d := log.displaced[i]; d.old_.expiresAt <= d.at || d.old_.ceremony == d.new_.ceremony
    {
      for k := 0 to |schedule|
        invariant Inv() && clock == ReadingAfter(old(clock), schedule[..k])
        invariant fell <==> old(fell) || Falls(old(clock), schedule[..k])
        invariant answers == old(answers) + AnswersOf(schedule[..k])
      {
        assert schedule[..k + 1][..k] == schedule[..k];
        Act(schedule[k]);
      }
      assert schedule[..|schedule|] == schedule;
      forall s, t | 0 <= s < t < |signed| && signed[s].requestId == signed[t].requestId
        ensures history.granted[s] < history.granted[t] < |history.cs|
          && ReadPast(history, history.granted[s], history.granted[t])
        ensures OneExpiry(history, signed[s]) ==>
          PrunedBetween(history.ss, history.cs, history.rs, history.granted[s], history.granted[t], signed[s].expiresAt)
      {
        SignedTwiceOnlyAcross(history, ledger.text, signed, s, t);
      }
      if !fell { SteadyOnce(history, ledger.text, signed, log); }
    }
  }
}
