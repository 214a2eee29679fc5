/**
 The consent state machine of one wallet session. Commands take their state out of the session, work
 under a lease across every await, and put it back; cancellation, expiry, backgrounding and a root
 change may fall between any two of their steps. Whatever the interleaving, the objects a person's
 approvals authorise leave in one order, each behind the decision that authorises it.
 */
module Consent {
  import opened Prelude
  import opened Records
  import opened Attempts
  import opened Clock

  const PATH: seq<Kind> := [IntentApprove, Preparation, FinalApprove, Payload]

  datatype Phase = IntentShown | PreviewReady | PreviewUnpainted | ReviewReady | Comparing | FinalReview | PayloadSent

  /** The live claimant, owned by one attempt. */
  datatype Pairing = Pairing(attempt: nat, flow: Flow, phase: Phase)

  /** What the one leased worker is about to do. */
  datatype Job =
    | Contacting | Recognising | Connecting | Declining
    | Unlocking(p: Pairing) | SendingIntent(p: Pairing) | Previewing(p: Pairing)
    | SendingPreparation(p: Pairing) | Shelving(p: Pairing) | AwaitingComparison(p: Pairing)
    | SendingFinal(p: Pairing) | SendingPayload(p: Pairing) | Finishing(p: Pairing) | Putting(p: Pairing)

  /** `entered` says the next effect has passed the fence and will not be checked again before it happens. */
  datatype Work = Work(job: Job, entered: bool)

  /** What one attempt has done that a person or a peer can see. */
  datatype Trace = Trace(sent: seq<Kind>, rendered: bool, linked: bool, approved: bool, compared: bool, confirmed: bool)

  datatype Command =
    | Reserve(tag: Opaque, root: Opaque) | RecogniseLegacy(tag: Opaque)
    | Contact(tag: Opaque) | UnlockPreview(tag: Opaque) | PreviewRendered(tag: Opaque)
    | Link(tag: Opaque) | ContinueLink(tag: Opaque) | FinishLink(tag: Opaque) | CancelLink(tag: Opaque)
    | RelayDecide(approve: bool) | PreliminaryDecide(approve: bool) | Compare | FinalDecide(approve: bool)
    | Finish | Cancel | Background(away: bool) | RootChange(changing: bool) | DropFuture | Advance

  /** An attempt no longer current. */
  datatype Past = Past(flow: Flow, trace: Trace)

  const FRESH: Trace := Trace([], false, false, false, false, false)

  /** The record grows by the decision this command is, if it is one, and by no other. */
  predicate Follows(t: Trace, t': Trace, c: Command) {
    && t'.sent == t.sent && t'.compared == t.compared
    && (t'.rendered == t.rendered || (t'.rendered && c.PreviewRendered?))
    && (t'.linked == t.linked || (t'.linked && c.Link?))
    && (t'.approved == t.approved || (t'.approved && c.PreliminaryDecide? && c.approve))
    && (t'.confirmed == t.confirmed || (t'.confirmed && c.FinalDecide? && c.approve))
  }

  /** Every attempt at every moment: a prefix of the path, and behind it the decisions that authorise it. */
  predicate Proper(flow: Flow, t: Trace) {
    && t.sent <= PATH
    && (t.sent != [] ==> if flow == SingleLink then t.rendered && t.linked else t.approved)
    && (|t.sent| >= 3 ==> t.compared && (flow == LegacyTwoDecision ==> t.confirmed))
  }

  predicate Consented(flow: Flow, t: Trace) {
    if flow == SingleLink then t.rendered && t.linked else t.approved
  }

  /** A pairing at rest, and how far its attempt has gone. */
  predicate Rested(p: Pairing, flow: Flow, t: Trace) {
    p.flow == flow && match p.phase
      case IntentShown => t.sent == []
      case PreviewUnpainted => t.sent == [] && flow == SingleLink
      case ReviewReady => t.sent == [] && flow == SingleLink && t.rendered
      case PreviewReady => t.sent == PATH[..1] && flow == LegacyTwoDecision && t.approved
      case Comparing => t.sent == PATH[..2] && flow == SingleLink && Consented(flow, t)
      case FinalReview => t.sent == PATH[..2] && flow == LegacyTwoDecision && Consented(flow, t) && t.compared
      case PayloadSent => t.sent == PATH && Proper(flow, t)
  }

  predicate Working(job: Job, flow: Flow, t: Trace) {
    match job
    case Contacting => flow == SingleLink && t.sent == []
    case Recognising => flow == LegacyTwoDecision && t.sent == []
    case Connecting => flow == LegacyTwoDecision && t.sent == []
    case Declining => true
    case Unlocking(p) => p.flow == flow == SingleLink && t.sent == []
    case SendingIntent(p) => p.flow == flow && t.sent == [] && Consented(flow, t)
      && (flow == SingleLink ==> p.phase == Comparing)
    case Previewing(p) => p.flow == flow == LegacyTwoDecision && t.sent == PATH[..1] && t.approved
    case SendingPreparation(p) => p.flow == flow && t.sent == PATH[..1] && Consented(flow, t)
      && (flow == SingleLink ==> p.phase == Comparing)
    case Shelving(p) => p.phase == Comparing && Rested(p, flow, t)
    case AwaitingComparison(p) => p.flow == flow && t.sent == PATH[..2] && Consented(flow, t)
    case SendingFinal(p) =>
      p.flow == flow && t.sent == PATH[..2] && Consented(flow, t) && t.compared
        && (flow == LegacyTwoDecision ==> t.confirmed)
    case SendingPayload(p) =>
      p.flow == flow && t.sent == PATH[..3] && Consented(flow, t) && t.compared
        && (flow == LegacyTwoDecision ==> t.confirmed)
    case Finishing(p) => p.phase == PayloadSent && Rested(p, flow, t)
    case Putting(p) => Rested(p, flow, t)
  }

  predicate OwnedBy(job: Job, current: nat) {
    match job
    case Contacting => true
    case Recognising => true
    case Connecting => true
    case Declining => true
    case _ => job.p.attempt == current
  }

  predicate Sends(job: Job) {
    job.SendingIntent? || job.SendingPreparation? || job.SendingFinal? || job.SendingPayload?
  }

  function KindOf(job: Job): Kind
    requires Sends(job)
  {
    if job.SendingIntent? then IntentApprove
    else if job.SendingPreparation? then Preparation
    else if job.SendingFinal? then FinalApprove else Payload
  }

  function AfterSend(job: Job): Job
    requires Sends(job)
  {
    var single := job.p.flow == SingleLink;
    if job.SendingIntent? then (if single then SendingPreparation(job.p) else Previewing(job.p))
    else if job.SendingPreparation? then (if single then Shelving(job.p) else AwaitingComparison(job.p))
    else if job.SendingFinal? then SendingPayload(job.p)
    else Putting(job.p.(phase := PayloadSent))
  }

  /** The object a step sends is the next of the path, its consent is on record, and the step after it is in order. */
  lemma SendFits(job: Job, flow: Flow, t: Trace)
    requires Sends(job) && Working(job, flow, t)
    ensures var t' := t.(sent := t.sent + [KindOf(job)]);
      Proper(flow, t') && Working(AfterSend(job), flow, t') && |t.sent| < |PATH| && KindOf(job) == PATH[|t.sent|]
  {
    var n := |t.sent|;
    assert PATH[..n] + [PATH[n]] == PATH[..n + 1];
    assert PATH[..4] == PATH;
  }

  class Session {
    var current: Option<Attempt>
    /** The identity of the current attempt. */
    var id: nat
    var worker: Option<Work>
    var background: bool
    var rootChanging: bool
    /** The recognised entry, relay plan, live claimant and authorised link execution, each with its owner. */
    var entry: Option<nat>
    var relay: Option<nat>
    var pending: Option<Pairing>
    var execution: Option<Pairing>
    /** What the current attempt has done, and what every attempt before it had. */
    ghost var trace: Trace
    ghost var past: seq<Past>

    constructor ()
      ensures Inv() && current.None?
    {
      current, id, worker, background, rootChanging := None, 0, None, false, false;
      entry, relay, pending, execution, trace, past := None, None, None, None, FRESH, [];
    }

    ghost predicate Inv()
      reads `current, `id, `worker, `entry, `relay, `pending, `execution, `trace, `past
    {
      && (forall i :: 0 <= i < |past| ==> Proper(past[i].flow, past[i].trace))
      && (current.None? ==>
          && trace == FRESH && worker.None? && entry.None? && relay.None? && pending.None?
          && execution.None?)
      && (current.Some? ==> Proper(current.value.mode, trace) && Agrees(current.value.mode, current.value.Live()))
    }

    /** Whatever the session still holds of the current attempt agrees with what that attempt has sent. */
    ghost predicate Agrees(flow: Flow, live: bool)
      reads `id, `worker, `entry, `relay, `pending, `execution, `trace
    {
      && (worker.Some? ==>
          && Working(worker.value.job, flow, trace) && OwnedBy(worker.value.job, id) && pending.None?
          && relay.None?)
      && (pending.Some? ==>
          && pending.value.attempt <= id
          && (pending.value.attempt == id ==> Rested(pending.value, flow, trace)))
      && (relay.Some? && flow == LegacyTwoDecision ==> relay.value == id && pending.None? && trace.sent == [])
      && (live && flow == SingleLink ==> relay.None? && OwnEntry() && OwnExecution())
    }

    /** A live single-link attempt's entry is its own, and then nothing else is. */
    ghost predicate OwnEntry()
      reads `id, `worker, `entry, `pending, `execution, `trace
    {
      entry.Some? ==> entry.value == id && trace.sent == [] && worker.None? && pending.None? && execution.None?
    }

    ghost predicate OwnExecution()
      reads `id, `worker, `pending, `execution, `trace
    {
      execution.Some? ==>
        execution.value.attempt == id && execution.value.phase == Comparing
          && Rested(execution.value, SingleLink, trace) && worker.None? && pending.None?
    }

    // ---- what a step may do ----

    /** A command of the page or the platform sends nothing, and records no decision but the one it is. */
    twostate predicate Decides(c: Command)
      reads this
    {
      || (past == old(past) && Follows(old(trace), trace, c))
      || (trace == FRESH && |past| == |old(past)| + 1 && past[..|old(past)|] == old(past)
          && past[|old(past)|].trace == old(trace))
    }

    /** A step of the worker decides nothing for the person; it sends, or notes a comparison received. */
    twostate predicate OnlyWorks()
      reads this
    {
      past == old(past) && old(trace).sent <= trace.sent
      && trace == old(trace).(sent := trace.sent, compared := trace.compared)
    }

    /**
     Behind the fence: a dead attempt does nothing more, but for the one send its worker had entered, and
     enters nothing. If a new attempt took its place, its trace is the first of the past since.
     */
    twostate predicate Fenced()
      reads this
    {
      old(current).Some? && !old(current).value.Live() ==>
        && |past| >= |old(past)| && past[..|old(past)|] == old(past)
        && if |past| > |old(past)| then past[|old(past)|].trace == old(trace)
           else
             && current.Some? && !current.value.Live()
             && (worker.Some? && worker.value.entered ==> worker == old(worker))
             && (trace == old(trace)
                 || (old(worker).Some? && old(worker).value.entered && Sends(old(worker).value.job)
                     && (worker.None? || !worker.value.entered)
                     && trace == old(trace).(sent := old(trace).sent + [KindOf(old(worker).value.job)])))
    }

    /** At most a check of the current attempt ran, and a check never revives it. */
    twostate predicate CheckedOnly()
      reads `current
    {
      && current.Some? == old(current).Some?
      && (current.Some? ==>
          && current.value.mode == old(current).value.mode && current.value.tag == old(current).value.tag
          && (current.value.Live() ==> old(current).value.Live()))
    }

    twostate predicate SameAttempt()
      reads `id, `past, `current
    {
      id == old(id) && past == old(past) && CheckedOnly()
    }

    twostate predicate SameFlags()
      reads `background, `rootChanging
    {
      background == old(background) && rootChanging == old(rootChanging)
    }

    /** The claimant, execution and relay plan at rest are those that were. */
    twostate predicate SameRest()
      reads `pending, `execution, `relay
    {
      pending == old(pending) && execution == old(execution) && relay == old(relay)
    }

    /** The session holds what it held, and what the attempt has done is what it had done. */
    twostate predicate Keeps()
      reads this
    {
      && SameAttempt() && SameRest() && entry == old(entry) && worker == old(worker) && trace == old(trace)
      && SameFlags()
    }

    /** The one worker starts on this job, for a live attempt that had none; the session holds no claimant. */
    twostate predicate Starts(job: Job)
      reads this
    {
      && SameAttempt() && current.Some? && current.value.Live() && old(worker).None? && worker == Some(Work(job, false))
      && pending.None? && relay.None? && SameFlags()
    }

    predicate Dead()
      reads `current
    {
      current.Some? ==> !current.value.Live()
    }

    /** Nothing of the attempt is left at rest. */
    predicate Revoked()
      reads `current, `entry, `execution, `relay, `pending
    {
      Dead() && entry.None? && execution.None? && relay.None? && pending.None?
    }

    /** The fence fell and nothing is left at rest; a running worker keeps its lease. */
    twostate predicate Revokes()
      reads this
    {
      SameAttempt() && Revoked() && worker == old(worker) && trace == old(trace)
    }

    /** Where a new attempt may begin. */
    predicate Vacant()
      reads `current, `worker, `background, `rootChanging
    {
      Dead() && worker.None? && !background && !rootChanging
    }

    /** A new attempt took the place of the last one, which is on record with all it had done. */
    twostate predicate Begins(flow: Flow, tag: Opaque)
      reads `current, `id, `past, `trace, `background, `rootChanging
    {
      && id == old(id) + 1 && current.Some? && current.value.mode == flow && current.value.tag == tag
      && past == old(past) + (if old(current).Some? then [Past(old(current).value.mode, old(trace))] else [])
      && trace == FRESH && SameFlags()
    }

    /** Where the live attempt may go on with this claimant at rest. */
    predicate Resting(flow: Flow, phase: Phase)
      reads `current, `pending, `id, `worker
    {
      && current.Some? && current.value.Live() && current.value.mode == flow && worker.None?
      && pending == Some(Pairing(id, flow, phase))
    }

    /** The live single-link attempt of this tag. */
    predicate Tags(tag: Opaque)
      reads `current
    {
      current.Some? && current.value.Live() && current.value.mode == SingleLink && current.value.tag == tag
    }

    // ---- the table of the commands ----

    /** When a command that asks for work is admitted. */
    predicate Ready(c: Command)
      reads this
    {
      match c
      case Reserve(_, _) => Vacant()
      case RecogniseLegacy(_) => Vacant()
      case Contact(tag) => Tags(tag) && entry.Some? && worker.None?
      case UnlockPreview(tag) => Tags(tag) && Resting(SingleLink, IntentShown)
      case PreviewRendered(tag) => Tags(tag) && Resting(SingleLink, PreviewUnpainted)
      case Link(tag) => Tags(tag) && Resting(SingleLink, ReviewReady)
      case ContinueLink(tag) => Tags(tag) && execution.Some? && worker.None?
      case FinishLink(tag) => Tags(tag) && Resting(SingleLink, PayloadSent)
      case RelayDecide(_) => current.Some? && current.value.Live() && relay.Some? && worker.None?
      case PreliminaryDecide(_) => Resting(LegacyTwoDecision, IntentShown)
      case Compare => Resting(LegacyTwoDecision, PreviewReady)
      case FinalDecide(_) => Resting(LegacyTwoDecision, FinalReview)
      case Finish => Resting(LegacyTwoDecision, PayloadSent)
      case _ => true
    }

    /** What an admitted command of the single-link flow does. */
    twostate predicate TakesTagged(c: Command)
      reads this
    {
      match c
      case Contact(tag) =>
        Tags(tag) && Starts(Contacting) && old(entry) == Some(id) && entry.None? && trace == old(trace)
      case UnlockPreview(tag) => Tags(tag) && Resumes(SingleLink, IntentShown, false) && trace == old(trace)
      case PreviewRendered(tag) =>
        Tags(tag) && Resumes(SingleLink, PreviewUnpainted, true) && trace == old(trace).(rendered := true)
      case Link(tag) => Tags(tag) && Resumes(SingleLink, ReviewReady, true) && trace == old(trace).(linked := true)
      case ContinueLink(tag) =>
        && Tags(tag) && old(execution) == Some(Pairing(id, SingleLink, Comparing)) && execution.None?
        && Starts(AwaitingComparison(old(execution).value)) && trace == old(trace)
      case FinishLink(tag) => Tags(tag) && Resumes(SingleLink, PayloadSent, true) && trace == old(trace)
      case CancelLink(tag) =>
        && SameFlags()
        && if old(current).Some? && old(current).value.mode == SingleLink && old(current).value.tag == tag
           then Revokes()
           else Keeps()
      case _ => false
    }

    /** What an admitted command of the earlier flow does. */
    twostate predicate TakesLegacy(c: Command)
      reads this
    {
      match c
      case RelayDecide(approve) =>
        old(relay).Some? && Starts(if approve then Connecting else Declining) && trace == old(trace)
      case PreliminaryDecide(approve) =>
        && Resumes(LegacyTwoDecision, IntentShown, approve)
        && trace == if approve then old(trace).(approved := true) else old(trace)
      case Compare => Resumes(LegacyTwoDecision, PreviewReady, true) && trace == old(trace)
      case FinalDecide(approve) =>
        && Resumes(LegacyTwoDecision, FinalReview, approve)
        && trace == if approve then old(trace).(confirmed := true) else old(trace)
      case Finish => Resumes(LegacyTwoDecision, PayloadSent, true) && trace == old(trace)
      case Cancel =>
        SameFlags() && if old(current).None? || old(current).value.mode == LegacyTwoDecision then Revokes() else Keeps()
      case _ => false
    }

    /** What a new reservation or the platform does. */
    twostate predicate TakesPlatform(c: Command)
      reads this
    {
      match c
      case Reserve(tag, root) =>
        && old(Vacant()) && Begins(SingleLink, tag) && worker.None?
        && (if current.value.Live()
            then Reserved(root)
            else entry == old(entry) && SameRest())
      case RecogniseLegacy(tag) =>
        && old(Vacant()) && Begins(LegacyTwoDecision, tag) && current.value.Live() && pending.None? && relay.None?
        && worker == Some(Work(Recognising, false))
      case Background(away) =>
        && SameAttempt() && SameRest() && entry == old(entry) && worker == old(worker) && trace == old(trace)
        && background == away && rootChanging == old(rootChanging) && (if away then Dead() else current == old(current))
      case RootChange(changing) =>
        && rootChanging == changing && background == old(background)
        && if changing then Revokes()
           else SameAttempt() && SameRest() && entry == old(entry) && worker == old(worker) && trace == old(trace)
      case DropFuture => Keeps() && Dead()
      case _ => false
    }

    /** What an admitted command does. */
    twostate predicate Takes(c: Command)
      reads this
    {
      if c.Advance? then Steps() else TakesTagged(c) || TakesLegacy(c) || TakesPlatform(c)
    }

    /** The claimant at rest in this phase is taken out for the work its phase leads to, or declined. */
    twostate predicate Resumes(flow: Flow, phase: Phase, approve: bool)
      reads this
    {
      var p := Pairing(id, flow, phase);
      && old(pending) == Some(p)
      && match phase
         case IntentShown =>
           Starts(if flow == SingleLink then Unlocking(p) else if approve then SendingIntent(p) else Declining)
         case PreviewUnpainted => Starts(Putting(p.(phase := ReviewReady)))
         case ReviewReady => Starts(SendingIntent(p.(phase := Comparing)))
         case PreviewReady => Starts(SendingPreparation(p.(phase := Comparing)))
         case FinalReview => Starts(if approve then SendingFinal(p) else Declining)
         case PayloadSent => Starts(Finishing(p))
         case Comparing => false
    }

    /** A fresh live single-link attempt holds the recognised entry, and nothing else is at rest or at work. */
    predicate Reserved(root: Opaque)
      reads this
      requires current.Some?
    {
      && current.value.rootGeneration == Some(root) && current.value.custody.None? && current.value.deadline.None?
      && entry == Some(id) && pending.None? && relay.None? && execution.None?
    }

    /** A command is refused where it is not ready, and changes nothing. */
    twostate predicate Refuses(c: Command)
      reads this
    {
      Keeps() && !Ready(c)
    }

    /** A command does what the table says or is refused. */
    twostate predicate Effect(c: Command)
      reads this
    {
      Takes(c) || Refuses(c)
    }

    // ---- the table of the worker ----

    /** The job ended or went on, with the attempt's record and what is at rest as they were. */
    twostate predicate Continues(next: Option<Work>)
      reads this
    {
      worker == next && trace == old(trace) && SameRest()
    }

    /** What a job that sends nothing can come to, short of being dropped. */
    twostate predicate Moves(job: Job)
      reads this
    {
      match job
      case Contacting => Continues(Some(Work(Putting(Pairing(id, SingleLink, IntentShown)), false)))
      case Connecting => Continues(Some(Work(Putting(Pairing(id, LegacyTwoDecision, IntentShown)), false)))
      case Unlocking(p) =>
        && Continues(Some(Work(Putting(p.(phase := PreviewUnpainted)), false)))
        && current.Some? && current.value.custody.Some? && current.value.deadline.Some?
      case Previewing(p) => Continues(Some(Work(Putting(p.(phase := PreviewReady)), false)))
      case AwaitingComparison(p) =>
        var next := p.(phase := FinalReview);
        && worker == Some(Work(if p.flow == SingleLink then SendingFinal(next) else Putting(next), false))
        && trace == old(trace).(compared := true) && SameRest()
      case Finishing(p) => Continues(Some(Work(Putting(p), false)))
      case Putting(p) => worker.None? && trace == old(trace) && AtRest(Some(p), old(execution), old(relay))
      case Shelving(p) => worker.None? && trace == old(trace) && AtRest(old(pending), Some(p), old(relay))
      case Recognising => worker.None? && trace == old(trace) && AtRest(old(pending), old(execution), Some(id))
      case _ => false
    }

    predicate AtRest(p: Option<Pairing>, e: Option<Pairing>, r: Option<nat>)
      reads `pending, `execution, `relay
    {
      pending == p && execution == e && relay == r
    }

    /** The object of the send the worker had entered is the one thing that may have left. */
    twostate predicate MaySend()
      reads `trace
    {
      || trace == old(trace)
      || (old(worker).Some? && old(worker).value.entered && Sends(old(worker).value.job)
          && trace == old(trace).(sent := old(trace).sent + [KindOf(old(worker).value.job)]))
    }

    /** The operation was dropped and its attempt is dead. */
    twostate predicate Drops()
      reads this
    {
      worker.None? && Dead() && SameRest() && MaySend()
    }

    twostate predicate SentOne(kind: Kind)
      reads `trace
    {
      trace == old(trace).(sent := old(trace).sent + [kind])
    }

    predicate Goes(job: Job)
      reads `worker
    {
      worker == Some(Work(job, false))
    }

    /** The object this step sends has left, and the step after it is next. */
    twostate predicate Delivers(job: Job)
      reads this
    {
      && SameRest()
      && match job
         case SendingIntent(p) =>
           SentOne(IntentApprove) && Goes(if p.flow == SingleLink then SendingPreparation(p) else Previewing(p))
         case SendingPreparation(p) =>
           SentOne(Preparation) && Goes(if p.flow == SingleLink then Shelving(p) else AwaitingComparison(p))
         case SendingFinal(p) => SentOne(FinalApprove) && Goes(SendingPayload(p))
         case SendingPayload(p) => SentOne(Payload) && Goes(Putting(p.(phase := PayloadSent)))
         case _ => false
    }

    twostate predicate Advances(job: Job)
      reads this
    {
      && current.Some? && current.value.Live()
      && if Sends(job) then Continues(Some(Work(job, true))) else Moves(job)
    }

    /** One step: the fence before anything is entered, the entered send regardless of it. */
    twostate predicate Steps()
      reads this
    {
      if old(worker).None? then Keeps()
      else
        var Work(job, entered) := old(worker).value;
        && SameAttempt() && entry == old(entry) && SameFlags()
        && (Drops() || (if entered then Delivers(job) else Advances(job)))
    }

    /** Whatever the table allows: no decision but the command's own, no send but a worker's, and the fence holds. */
    twostate lemma EffectMeans(c: Command)
      requires old(Inv()) && Effect(c)
      ensures Fenced()
      ensures if c.Advance? then OnlyWorks() else Decides(c)
    {
      if c.Advance? {
        StepsOnlyWork();
        StepsStayFenced();
      }
    }

    twostate lemma StepsOnlyWork()
      requires Steps()
      ensures OnlyWorks()
    {
      if old(worker).Some? && !old(worker).value.entered && Advances(old(worker).value.job) {
        AdvancesOnlyWork(old(worker).value.job);
      }
    }

    twostate lemma AdvancesOnlyWork(job: Job)
      requires Advances(job) && SameAttempt()
      ensures OnlyWorks()
    {}

    twostate lemma StepsStayFenced()
      requires Steps()
      ensures Fenced()
    {}

    // ---- the attempt registry ----

    /** `check` of the current attempt, with whatever the platform answers now. */
    method Check() returns (r: Result<()>)
      requires Inv() && current.Some?
      modifies `current
      ensures Inv() && CheckedOnly() && (r.Ok? <==> current.value.Live())
    {
      var o: Observation := *;
      var (checked, next) := current.value.Check(o);
      current := Some(next);
      r := checked;
    }

    method CancelCurrent()
      requires Inv()
      modifies `current
      ensures Inv() && CheckedOnly() && Dead()
    {
      if current.Some? { current := Some(current.value.Cancel()); }
    }

    /**
     `begin`: one live attempt at a time, and none while a worker of the last one still runs. What the
     session held before is dropped only once the new attempt has passed its first check, under the same lock.
     */
    method Begin(fresh_: Attempt) returns (r: Result<()>)
      requires Inv() && (fresh_.mode == LegacyTwoDecision ==> fresh_.Live())
      modifies `current, `id, `trace, `past, `relay, `pending, `entry, `execution
      ensures Inv() && (r.Ok? <==> old(Vacant())) && r != Err(WrongMode)
      ensures r.Ok? ==> Begins(fresh_.mode, fresh_.tag) && current == Some(fresh_) && worker.None?
      ensures r.Ok? && fresh_.Live() ==>
        && pending.None? && relay.None?
        && (fresh_.mode == SingleLink ==> entry.None? && execution.None?)
      ensures r.Ok? && !fresh_.Live() ==> SameRest() && entry == old(entry)
      ensures r.Err? ==> Keeps() && current == old(current)
    {
      if rootChanging { return Err(RootChanged); }
      if background { return Err(Cancelled); }
      if worker.Some? || (current.Some? && current.value.Live()) { return Err(AlreadyActive); }
      if current.Some? { past, trace := past + [Past(current.value.mode, trace)], FRESH; }
      id := id + 1;
      current := Some(fresh_);
      if fresh_.Live() {
        relay, pending := None, None;
        if fresh_.mode == SingleLink { entry, execution := None, None; }
      }
      return Ok(());
    }

    predicate EntryMode(mode: Flow)
      reads this
    {
      current.None? || (!current.value.Live() && worker.None?) || current.value.mode == mode
    }

    /** `tagged` and the check every tagged command starts with. */
    method Tagged(tag: Opaque) returns (r: Result<()>)
      requires Inv()
      modifies `current
      ensures Inv() && CheckedOnly() && (r.Ok? <==> Tags(tag))
    {
      if current.None? { return Err(StaleAttempt); }
      if current.value.mode != SingleLink { return Err(WrongMode); }
      if current.value.tag != tag { return Err(StaleAttempt); }
      r := Check();
    }

    // ---- taking state out ----

    /** `take_single` and `take_pending`: the exact phase of the current attempt's own claimant, and the only lease. */
    method TakePending(mode: Flow, phase: Phase) returns (r: Result<Pairing>)
      requires Inv()
      modifies `current, `pending
      ensures Inv() && CheckedOnly()
      ensures r.Ok? ==> current.Some? && worker.None? && pending.None? && relay.None? && current.value.mode == mode
      ensures r.Ok? ==> current.value.Live() && old(pending) == Some(r.value) && r.value == Pairing(id, mode, phase)
      ensures r.Ok? ==> Rested(r.value, mode, trace)
      ensures r.Ok? && mode == SingleLink ==> entry.None? && execution.None?
      ensures r.Err? ==> pending == old(pending) && !Resting(mode, phase)
    {
      if pending.None? { return Err(NotStarted); }
      if current.value.mode != mode || pending.value.flow != mode { return Err(WrongMode); }
      var checked := Check();
      if checked.Err? { return Err(checked.error); }
      if pending.value.attempt != id { return Err(Cancelled); }
      if pending.value.phase != phase { return Err(WrongPhase); }
      if worker.Some? { return Err(AlreadyActive); }
      r := Ok(pending.value);
      pending := None;
    }

    /** `take_single`: the tag first, then the claimant. */
    method TakeSingle(tag: Opaque, phase: Phase) returns (r: Result<Pairing>)
      requires Inv()
      modifies `current, `pending
      ensures Inv() && CheckedOnly()
      ensures r.Ok? ==> Tags(tag) && worker.None? && pending.None? && relay.None? && entry.None? && execution.None?
      ensures r.Ok? ==> old(pending) == Some(r.value) && r.value == Pairing(id, SingleLink, phase)
      ensures r.Ok? ==> Rested(r.value, SingleLink, trace)
      ensures r.Err? ==> pending == old(pending) && !(Tags(tag) && Resting(SingleLink, phase))
    {
      var tagged := Tagged(tag);
      if tagged.Err? { return Err(tagged.error); }
      r := TakePending(SingleLink, phase);
    }

    method Lease(job: Job)
      requires Inv() && current.Some? && worker.None? && pending.None? && relay.None?
      requires current.value.mode == SingleLink ==> entry.None? && execution.None?
      requires Working(job, current.value.mode, trace) && OwnedBy(job, id)
      modifies `worker
      ensures Inv() && worker == Some(Work(job, false))
    {
      worker := Some(Work(job, false));
    }

    /** A person's decision goes on record before the work it authorises starts. */
    ghost method Mark(t: Trace)
      requires Inv() && current.Some? && worker.None? && relay.None? && pending.None?
      requires current.value.mode == SingleLink ==> entry.None? && execution.None?
      requires t.sent == trace.sent && Proper(current.value.mode, t)
      modifies `trace
      ensures Inv() && trace == t
    {
      trace := t;
    }

    // ---- the commands ----

    method Reserve(tag: Opaque, root: Opaque) returns (r: Result<()>)
      requires Inv()
      modifies `current, `id, `trace, `past, `relay, `pending, `entry, `execution
      ensures Inv() && Effect(Command.Reserve(tag, root))
      ensures r.Ok? ==> TakesPlatform(Command.Reserve(tag, root)) && !Dead()
      ensures r == Err(WrongMode) <==>
        old(current).Some? && (old(current).value.Live() || worker.Some?) && old(current).value.mode != SingleLink
    {
      if !EntryMode(SingleLink) { return Err(WrongMode); }
      var o: Observation := *;
      var fresh_ := Attempt(None, SingleLink, tag, Some(root), None, 0, None);
      FenceFallsExactlyWhen(fresh_, o, o);
      var (checked, next) := fresh_.Check(o);
      r := Begin(if checked.Ok? then next else next.Cancel());
      if r.Err? { return; }
      if checked.Err? { return Err(checked.error); }
      entry := Some(id);
    }

    method RecogniseLegacy(tag: Opaque) returns (r: Result<()>)
      requires Inv()
      modifies `current, `id, `trace, `past, `relay, `pending, `entry, `execution, `worker
      ensures Inv()
      ensures if r.Ok? then TakesPlatform(Command.RecogniseLegacy(tag)) else Refuses(Command.RecogniseLegacy(tag))
      ensures r == Err(WrongMode) <==>
        old(current).Some? && (old(current).value.Live() || old(worker).Some?) && old(current).value.mode == SingleLink
    {
      if !EntryMode(LegacyTwoDecision) { return Err(WrongMode); }
      r := Begin(Attempt(None, LegacyTwoDecision, tag, None, None, 0, None));
      if r.Err? { return; }
      Lease(Recognising);
    }

    method Contact(tag: Opaque) returns (r: Result<()>)
      requires Inv()
      modifies `current, `entry, `worker
      ensures Inv()
      ensures if r.Ok? then TakesTagged(Command.Contact(tag)) else Refuses(Command.Contact(tag))
    {
      r := Tagged(tag);
      if r.Err? { return; }
      if entry.None? { return Err(WrongPhase); }
      if worker.Some? { return Err(AlreadyActive); }
      entry := None;
      Lease(Contacting);
    }

    method UnlockPreview(tag: Opaque) returns (r: Result<()>)
      requires Inv()
      modifies `current, `pending, `worker
      ensures Inv()
      ensures if r.Ok? then TakesTagged(Command.UnlockPreview(tag)) else Refuses(Command.UnlockPreview(tag))
    {
      var p := TakeSingle(tag, IntentShown);
      if p.Err? { return Err(p.error); }
      Lease(Unlocking(p.value));
      return Ok(());
    }

    /** The page says the preview was painted; nothing is sent. */
    method PreviewRendered(tag: Opaque) returns (r: Result<()>)
      requires Inv()
      modifies `current, `pending, `worker, `trace
      ensures Inv()
      ensures if r.Ok? then TakesTagged(Command.PreviewRendered(tag)) else Refuses(Command.PreviewRendered(tag))
    {
      var p := TakeSingle(tag, PreviewUnpainted);
      if p.Err? { return Err(p.error); }
      Mark(trace.(rendered := true));
      Lease(Putting(p.value.(phase := ReviewReady)));
      return Ok(());
    }

    /** The one person decision of a single-link ceremony, good only from a rendered preview. */
    method Link(tag: Opaque) returns (r: Result<()>)
      requires Inv()
      modifies `current, `pending, `worker, `trace
      ensures Inv()
      ensures if r.Ok? then TakesTagged(Command.Link(tag)) else Refuses(Command.Link(tag))
    {
      var p := TakeSingle(tag, ReviewReady);
      if p.Err? { return Err(p.error); }
      Mark(trace.(linked := true));
      Lease(SendingIntent(p.value.(phase := Comparing)));
      return Ok(());
    }

    method ContinueLink(tag: Opaque) returns (r: Result<()>)
      requires Inv()
      modifies `current, `execution, `worker
      ensures Inv()
      ensures if r.Ok? then TakesTagged(Command.ContinueLink(tag)) else Refuses(Command.ContinueLink(tag))
    {
      r := Tagged(tag);
      if r.Err? { return; }
      if execution.None? { return Err(WrongPhase); }
      if worker.Some? { return Err(AlreadyActive); }
      var p := execution.value;
      execution := None;
      Lease(AwaitingComparison(p));
    }

    method FinishLink(tag: Opaque) returns (r: Result<()>)
      requires Inv()
      modifies `current, `pending, `worker
      ensures Inv()
      ensures if r.Ok? then TakesTagged(Command.FinishLink(tag)) else Refuses(Command.FinishLink(tag))
    {
      var p := TakeSingle(tag, PayloadSent);
      if p.Err? { return Err(p.error); }
      Lease(Finishing(p.value));
      return Ok(());
    }

    /** `cbcl_v2_cancel_link` asks for nothing but the exact tag and flow, even after expiry. */
    method CancelLink(tag: Opaque)
      requires Inv()
      modifies `current, `entry, `execution, `relay, `pending
      ensures Inv() && TakesTagged(Command.CancelLink(tag))
    {
      if current.Some? && current.value.mode == SingleLink && current.value.tag == tag { Revoke(); }
    }

    method RelayDecide(approve: bool) returns (r: Result<()>)
      requires Inv()
      modifies `current, `relay, `worker
      ensures Inv()
      ensures if r.Ok? then TakesLegacy(Command.RelayDecide(approve)) else Refuses(Command.RelayDecide(approve))
    {
      if relay.None? { return Err(NotStarted); }
      if worker.Some? { return Err(AlreadyActive); }
      r := Check();
      if r.Err? { return; }
      relay := None;
      Lease(if approve then Connecting else Declining);
    }

    /** The first of the two decisions of the earlier flow. */
    method PreliminaryDecide(approve: bool) returns (r: Result<()>)
      requires Inv()
      modifies `current, `pending, `worker, `trace
      ensures Inv()
      ensures var c := Command.PreliminaryDecide(approve);
        if r.Ok? then TakesLegacy(c) else Refuses(c)
    {
      var p := TakePending(LegacyTwoDecision, IntentShown);
      if p.Err? { return Err(p.error); }
      if approve {
        Mark(trace.(approved := true));
        Lease(SendingIntent(p.value));
      } else {
        Lease(Declining);
      }
      return Ok(());
    }

    method Compare() returns (r: Result<()>)
      requires Inv()
      modifies `current, `pending, `worker
      ensures Inv()
      ensures if r.Ok? then TakesLegacy(Command.Compare) else Refuses(Command.Compare)
    {
      var p := TakePending(LegacyTwoDecision, PreviewReady);
      if p.Err? { return Err(p.error); }
      Lease(SendingPreparation(p.value.(phase := Comparing)));
      return Ok(());
    }

    method FinalDecide(approve: bool) returns (r: Result<()>)
      requires Inv()
      modifies `current, `pending, `worker, `trace
      ensures Inv()
      ensures if r.Ok? then TakesLegacy(Command.FinalDecide(approve)) else Refuses(Command.FinalDecide(approve))
    {
      var p := TakePending(LegacyTwoDecision, FinalReview);
      if p.Err? { return Err(p.error); }
      if approve {
        Mark(trace.(confirmed := true));
        Lease(SendingFinal(p.value));
      } else {
        Lease(Declining);
      }
      return Ok(());
    }

    method Finish() returns (r: Result<()>)
      requires Inv()
      modifies `current, `pending, `worker
      ensures Inv()
      ensures if r.Ok? then TakesLegacy(Command.Finish) else Refuses(Command.Finish)
    {
      var p := TakePending(LegacyTwoDecision, PayloadSent);
      if p.Err? { return Err(p.error); }
      Lease(Finishing(p.value));
      return Ok(());
    }

    method Cancel()
      requires Inv()
      modifies `current, `entry, `execution, `relay, `pending
      ensures Inv() && TakesLegacy(Command.Cancel)
    {
      if current.None? || current.value.mode == LegacyTwoDecision { Revoke(); }
    }

    /** `revoke_cbcl_v2`: the fence falls and everything at rest is dropped; a running worker keeps its lease. */
    method Revoke()
      requires Inv()
      modifies `current, `entry, `execution, `relay, `pending
      ensures Inv() && Revokes()
    {
      CancelCurrent();
      entry, execution, relay, pending := None, None, None, None;
    }

    /** Going to the background takes the attempt down, whatever is at rest. */
    method Foreground(foreground: bool)
      requires Inv()
      modifies `background, `current
      ensures Inv() && TakesPlatform(Background(!foreground))
    {
      background := !foreground;
      if !foreground { CancelCurrent(); }
    }

    method ChangeRoot(changing: bool)
      requires Inv()
      modifies `rootChanging, `current, `entry, `execution, `relay, `pending
      ensures Inv() && TakesPlatform(RootChange(changing))
    {
      rootChanging := changing;
      if changing { Revoke(); }
    }

    // ---- the worker ----

    /** The operation is dropped unretained: its attempt is revoked and the lease ends. */
    method Abandon()
      requires Inv() && worker.Some?
      modifies `current, `worker
      ensures Inv() && CheckedOnly() && Dead() && worker.None?
    {
      CancelCurrent();
      worker := None;
    }

    method Next(job: Job)
      requires Inv() && worker.Some?
      requires Working(job, current.value.mode, trace) && OwnedBy(job, id)
      modifies `worker
      ensures Inv() && worker == Some(Work(job, false))
    {
      worker := Some(Work(job, false));
    }

    /** One object leaves, after its send was entered; revocation in between does not call it back. */
    method Emit()
      requires Inv() && worker.Some? && worker.value.entered && Sends(worker.value.job)
      modifies `trace, `worker
      ensures Inv() && worker == Some(Work(AfterSend(old(worker).value.job), false))
      ensures trace == old(trace).(sent := old(trace).sent + [KindOf(old(worker).value.job)])
    {
      SendFits(worker.value.job, current.value.mode, trace);
      trace := trace.(sent := trace.sent + [KindOf(worker.value.job)]);
      worker := Some(Work(AfterSend(worker.value.job), false));
    }

    /** The send itself: it may fail before or after the frame is out; either way the operation is dropped. */
    method Send()
      requires Inv() && worker.Some? && worker.value.entered && Sends(worker.value.job)
      modifies `current, `trace, `worker
      ensures Inv() && CheckedOnly() && MaySend()
      ensures (worker.None? && Dead())
              || (worker == Some(Work(AfterSend(old(worker).value.job), false))
                  && trace == old(trace).(sent := old(trace).sent + [KindOf(old(worker).value.job)]))
    {
      if * {
        Abandon();
      } else {
        Emit();
        if * { Abandon(); }
      }
    }

    /** A comparison arrived for this attempt; the single-link flow goes straight on, the other asks the person. */
    method ReceiveComparison(p: Pairing)
      requires Inv() && worker.Some? && worker.value.job == AwaitingComparison(p)
      modifies `trace, `worker
      ensures Inv() && trace == old(trace).(compared := true)
      ensures var next := p.(phase := FinalReview);
        worker == Some(Work(if p.flow == SingleLink then SendingFinal(next) else Putting(next), false))
    {
      var next := p.(phase := FinalReview);
      worker := Some(Work(if p.flow == SingleLink then SendingFinal(next) else Putting(next), false));
      trace := trace.(compared := true);
    }

    /** Unlock, bind the clock, retain the root: no decision is built and nothing is sent. */
    method Unlock(p: Pairing)
      requires Inv() && worker.Some? && worker.value.job == Unlocking(p)
      modifies `current, `worker
      ensures Inv() && CheckedOnly()
      ensures (worker.None? && Dead())
              || (worker == Some(Work(Putting(p.(phase := PreviewUnpainted)), false))
                  && current.value.Live() && current.value.custody.Some? && current.value.deadline.Some?)
    {
      var o: Observation, o': Observation, o'': Observation, start: Snapshot := *, *, *, *;
      var offer: nat, carrier: nat, root: Opaque := *, *, *;
      var (bound, a) := current.value.Bind(o, o', start, offer, carrier);
      current := Some(a);
      if bound.Err? {
        Abandon();
        return;
      }
      var (retained, held) := a.Retain(o'', root);
      current := Some(held);
      if retained.Err? {
        Abandon();
        return;
      }
      Next(Putting(p.(phase := PreviewUnpainted)));
    }

    /** The end of a job: what it holds goes back to rest, and the attempt is retained. */
    method Settle()
      requires Inv() && worker.Some? && current.Some?
      requires worker.value.job.Putting? || worker.value.job.Shelving? || worker.value.job.Recognising?
      modifies `worker, `pending, `execution, `relay
      ensures Inv() && worker.None?
      ensures var job := old(worker).value.job;
        if job.Putting? then AtRest(Some(job.p), old(execution), old(relay))
        else if job.Shelving? then AtRest(old(pending), Some(job.p), old(relay))
        else AtRest(old(pending), old(execution), Some(id))
    {
      var job := worker.value.job;
      worker := None;
      if job.Putting? { pending := Some(job.p); }
      else if job.Shelving? { execution := Some(job.p); }
      else { relay := Some(id); }
    }

    /** A step that fails drops its operation; only the finisher puts its claimant back for another try. */
    method Refuse()
      requires Inv() && worker.Some? && !worker.value.entered && current.Some? && current.value.Live()
      modifies `current, `worker
      ensures Inv() && CheckedOnly() && (Drops() || (current.value.Live() && Moves(old(worker).value.job)))
      ensures old(worker).value.job.Finishing? ==> worker.Some?
    {
      if worker.value.job.Finishing? { Next(Putting(worker.value.job.p)); } else { Abandon(); }
    }

    /** A step that sends none of the four objects. */
    method Perform()
      requires Inv() && worker.Some? && current.Some? && current.value.Live()
      requires !Sends(worker.value.job) && !worker.value.entered
      modifies `current, `worker, `pending, `execution, `relay, `trace
      ensures Inv() && CheckedOnly() && (Drops() || (current.value.Live() && Moves(old(worker).value.job)))
    {
      var job := worker.value.job;
      if job.Declining? || job.Finishing? { Abandon(); }
      else if job.Putting? || job.Shelving? || job.Recognising? { Settle(); }
      else { Obtain(); }
    }

    /** A step that obtains something: an offer, an unlocked preview, a comparison. */
    method Obtain()
      requires Inv() && worker.Some? && current.Some? && current.value.Live() && !worker.value.entered
      requires var job := worker.value.job;
        job.Contacting? || job.Connecting? || job.Unlocking? || job.Previewing? || job.AwaitingComparison?
      modifies `current, `worker, `trace
      ensures Inv() && CheckedOnly() && (Drops() || (current.value.Live() && Moves(old(worker).value.job)))
    {
      var job := worker.value.job;
      if job.Contacting? || job.Connecting? { Meet(); }
      else if job.Unlocking? { Unlock(job.p); }
      else if job.Previewing? { Next(Putting(job.p.(phase := PreviewReady))); }
      else { ReceiveComparison(job.p); }
    }

    /** The authenticated offer arrived; the claimant's flow is its contact's provenance. */
    method Meet()
      requires Inv() && worker.Some? && current.Some? && (worker.value.job.Contacting? || worker.value.job.Connecting?)
      modifies `worker
      ensures Inv()
      ensures var flow := if old(worker).value.job.Contacting? then SingleLink else LegacyTwoDecision;
        worker == Some(Work(Putting(Pairing(id, flow, IntentShown)), false))
    {
      Next(Putting(Pairing(id, if worker.value.job.Contacting? then SingleLink else LegacyTwoDecision, IntentShown)));
    }

    /** One step of the leased worker: the fence first, then whatever the step does. */
    method Proceed()
      requires Inv()
      modifies `current, `worker, `pending, `execution, `relay, `trace
      ensures Inv() && Steps()
    {
      if worker.None? { return; }
      if worker.value.entered { Deliver(); } else { PassFence(); }
    }

    /** The step the worker had entered happens, whatever befell the attempt meanwhile. */
    method Deliver()
      requires Inv() && worker.Some? && worker.value.entered
      modifies `current, `worker, `trace
      ensures Inv() && Steps()
    {
      if Sends(worker.value.job) { Send(); } else { Abandon(); }
    }

    /** The fence first; then the step, which may fail. */
    method PassFence()
      requires Inv() && worker.Some? && !worker.value.entered
      modifies `current, `worker, `pending, `execution, `relay, `trace
      ensures Inv() && Steps()
    {
      var checked := Check();
      if checked.Err? { Abandon(); } else { Act(); }
    }

    method Act()
      requires Inv() && worker.Some? && !worker.value.entered && current.Some? && current.value.Live()
      modifies `current, `worker, `pending, `execution, `relay, `trace
      ensures Inv() && CheckedOnly() && (Drops() || Advances(old(worker).value.job))
    {
      if * { Refuse(); }
      else if Sends(worker.value.job) { worker := Some(worker.value.(entered := true)); }
      else { Perform(); }
    }

    // ---- any interleaving ----

    predicate IsTagged(c: Command) {
      c.Contact? || c.UnlockPreview? || c.PreviewRendered? || c.Link? || c.ContinueLink? || c.FinishLink?
        || c.CancelLink?
    }

    predicate IsPlatform(c: Command) {
      c.Reserve? || c.RecogniseLegacy? || c.Background? || c.RootChange? || c.DropFuture?
    }

    /** The commands of the single-link flow, each naming its attempt by tag. */
    method DoTagged(command: Command)
      requires Inv() && IsTagged(command)
      modifies `current, `entry, `execution, `relay, `pending, `worker, `trace
      ensures Inv() && Effect(command)
    {
      var r: Result<()> := Ok(());
      match command {
        case Contact(tag) => r := Contact(tag);
        case UnlockPreview(tag) => r := UnlockPreview(tag);
        case PreviewRendered(tag) => r := PreviewRendered(tag);
        case Link(tag) => r := Link(tag);
        case ContinueLink(tag) => r := ContinueLink(tag);
        case FinishLink(tag) => r := FinishLink(tag);
        case CancelLink(tag) => CancelLink(tag);
      }
    }

    /** The commands of the earlier two-decision flow. */
    method DoLegacy(command: Command)
      requires Inv() && !IsPlatform(command) && !IsTagged(command) && !command.Advance?
      modifies `current, `entry, `execution, `relay, `pending, `worker, `trace
      ensures Inv() && Effect(command)
    {
      var r: Result<()> := Ok(());
      match command {
        case RelayDecide(approve) => r := RelayDecide(approve);
        case PreliminaryDecide(approve) => r := PreliminaryDecide(approve);
        case Compare => r := Compare();
        case FinalDecide(approve) => r := FinalDecide(approve);
        case Finish => r := Finish();
        case Cancel => Cancel();
      }
    }

    /** New reservations, and what the platform does to the current one. */
    method DoPlatform(command: Command)
      requires Inv() && IsPlatform(command)
      modifies this
      ensures Inv() && Effect(command)
    {
      var r: Result<()> := Ok(());
      match command {
        case Reserve(tag, root) => r := Reserve(tag, root);
        case RecogniseLegacy(tag) => r := RecogniseLegacy(tag);
        case Background(away) => Foreground(!away);
        case RootChange(changing) => ChangeRoot(changing);
        case DropFuture => CancelCurrent();
      }
    }

    method Do(command: Command)
      requires Inv()
      modifies this
      ensures Inv() && Effect(command)
      ensures Fenced() && if command.Advance? then OnlyWorks() else Decides(command)
    {
      if command.Advance? { Proceed(); }
      else if IsTagged(command) { DoTagged(command); }
      else if IsPlatform(command) { DoPlatform(command); }
      else { DoLegacy(command); }
      EffectMeans(command);
    }

    /** What the attempt that was the `n`th past one, or is the current one, has done. */
    ghost function TraceOf(n: nat): Trace
      reads this
    {
      if n < |past| then past[n].trace else trace
    }

    /** Of the attempt that was dead at this point, with this work under way: all it did since. */
    ghost predicate Spent(n: nat, before: Trace, work: Option<Work>)
      reads this
    {
      var last := work.Some? && work.value.entered && Sends(work.value.job);
      && n <= |past|
      && (TraceOf(n) == before || (last && TraceOf(n) == before.(sent := before.sent + [KindOf(work.value.job)])))
      && (|past| == n ==>
          && current.Some? && !current.value.Live()
          && (worker.Some? && worker.value.entered ==> worker == work && trace == before))
    }

    /**
     Over every interleaving, every attempt ever reserved is proper; and an attempt that was dead at any point,
     cancelled, expired or left in the background, has since done nothing but the one send it had entered.
     */
    method Run(schedule: seq<Command>)
      requires Inv()
      modifies this
      ensures Inv()
      ensures forall i :: 0 <= i < |past| ==> Proper(past[i].flow, past[i].trace)
      ensures current.Some? ==> Proper(current.value.mode, trace)
      ensures old(current).Some? && !old(current).value.Live() ==> Spent(|old(past)|, old(trace), old(worker))
    {
      ghost var dead := current.Some? && !current.value.Live();
      for k := 0 to |schedule|
        invariant Inv() && (dead ==> Spent(|old(past)|, old(trace), old(worker)))
      {
        label before:
        Do(schedule[k]);
        assert past[..|old@before(past)|] == old@before(past);
      }
    }
  }

  /** What a proper trace means: each object at most once, in order, and none ahead of its consent. */
  lemma ProperMeans(flow: Flow, t: Trace, i: nat)
    requires Proper(flow, t) && i < |t.sent|
    ensures t.sent <= [IntentApprove, Preparation, FinalApprove, Payload]
    ensures forall j :: 0 <= j < i ==> t.sent[j] != t.sent[i]
    ensures flow == SingleLink ==> t.rendered && t.linked
    ensures flow == LegacyTwoDecision ==> t.approved
    ensures t.sent[i] in {FinalApprove, Payload} ==> t.compared && (flow == LegacyTwoDecision ==> t.confirmed)
    ensures t.sent[i] == Payload ==>
      && FinalApprove in t.sent[..i] && Preparation in t.sent[..i]
      && IntentApprove in t.sent[..i]
  {
    assert t.sent == PATH[..|t.sent|];
    if t.sent[i] == Payload {
      assert i == 3 && t.sent[..3] == PATH[..3];
      assert PATH[..3][2] == FinalApprove && PATH[..3][1] == Preparation && PATH[..3][0] == IntentApprove;
    }
  }
}
