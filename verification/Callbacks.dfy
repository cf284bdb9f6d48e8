/**
 * Callback settlement. Preparing, skipping, delivering and giving up each take a copy of the run read earlier, change
 * it, and write all of it back if the stored status is still the copy's. Any number of copies may be about: the
 * executor's own, dispatchers', a resend's, a cancellation's.
 */
module Callbacks {
  import opened Common
  import opened RunRows
  import RunLease

  datatype CallbackStatus = PENDING | DELIVERED | FAILED_DELIVERY | SKIPPED
  datatype Report = ReportSucceeded | ReportFailed | ReportCanceled | ReportUnknown

  datatype Stored = Stored(row: Row, callback: CallbackStatus)

  /** The event a run is reported as. */
  function Reported(status: RunStatus, error: Option<ErrorType>): Report {
    if status == WAITING_CALLBACK && error.Some? then ReportFailed
    else if Succeeded(status) then ReportSucceeded
    else if status == FAILED || status == TIMEOUT then ReportFailed
    else if status == CANCELED then ReportCanceled
    else ReportUnknown
  }

  /** The business outcome: what a run settles on and is reported as, with its output and error. */
  datatype Outcome = Outcome(settled: RunStatus, report: Report, output: Option<string>, error: Option<ErrorType>)

  function OutcomeOf(r: Row): Outcome {
    Outcome(Settled(r.status, r.error), Reported(r.status, r.error), r.output, r.error)
  }

  function Skipped(s: Stored): Stored {
    Stored(s.row.(status := Settled(s.row.status, s.row.error)), SKIPPED)
  }

  function Awaiting(s: Stored): Stored {
    var renames := s.row.status == AGENT_SUCCEEDED || s.row.status == SUCCEEDED;
    Stored(if renames then s.row.(status := WAITING_CALLBACK) else s.row, PENDING)
  }

  function Delivered(s: Stored): Stored {
    Stored(s.row.(status := Settled(s.row.status, s.row.error)), DELIVERED)
  }

  function Exhausted(s: Stored): Stored { s.(callback := FAILED_DELIVERY) }

  /** Preparing keeps the outcome exactly when a status of success that it would rename carries no error. */
  lemma PrepareKeepsOutcomeIff(s: Stored)
    ensures OutcomeOf(Awaiting(s).row) == OutcomeOf(s.row)
       <==> !((s.row.status == AGENT_SUCCEEDED || s.row.status == SUCCEEDED) && s.row.error.Some?)
  {
  }

  /** Settling, by skip or by delivery, keeps the outcome exactly when AGENT_SUCCEEDED carries no error. */
  lemma SettleKeepsOutcomeIff(s: Stored)
    ensures OutcomeOf(Skipped(s).row) == OutcomeOf(s.row) <==> !(s.row.status == AGENT_SUCCEEDED && s.row.error.Some?)
    ensures Delivered(s).row == Skipped(s).row
  {
  }

  /** An empty `events` asks for the default pair; `url` says that there is somewhere to call. */
  datatype Subscription = Subscription(url: bool, events: set<Report>)

  predicate Wanted(sub: Subscription, report: Report) {
    sub.url && (if sub.events == {} then report == ReportSucceeded || report == ReportFailed else report in sub.events)
  }

  datatype Payload = Payload(report: Report, output: Option<string>)

  function PayloadOf(r: Row): Payload { Payload(Reported(r.status, r.error), r.output) }

  /** `copies` are the in-memory runs; `payloads` the delivery records' bodies; `sent` what was posted, in order. */
  datatype State = State(stored: Stored, copies: map<nat, Stored>, payloads: set<Payload>, sent: seq<Payload>)

  datatype Event =
    | Load(d: nat)
    | Prepare(d: nat)
    | Post(d: nat, recorded: Option<Payload>)
    | Deliver(d: nat)
    | Exhaust(d: nat)
    | Release(d: nat)                 // the executor gives up its lease
    | Cancel(d: nat)

  /** What the step makes of the copy, and whether the write also compares the worker. */
  function Change(copy: Stored, sub: Subscription, e: Event): Stored {
    match e
    case Prepare(_) => if Wanted(sub, Reported(copy.row.status, copy.row.error)) then Awaiting(copy) else Skipped(copy)
    case Deliver(_) => Delivered(copy)
    case Exhaust(_) => Exhausted(copy)
    case Release(_) => copy.(row := copy.row.(worker := None, lease := None))
    case Cancel(_) =>
      if Terminal(copy.row.status) then copy
      else copy.(row := copy.row.(status := CANCELED, worker := None, lease := None))
    case _ => copy
  }

  predicate WriteFits(stored: Stored, copy: Stored, e: Event) {
    && stored.row.status == copy.row.status
    && (e.Prepare? || e.Release? ==> stored.row.worker == copy.row.worker)
    && (e.Cancel? ==> !Terminal(copy.row.status))
  }

  function Step(s: State, sub: Subscription, e: Event): State {
    if e.Load? then s.(copies := s.copies[e.d := s.stored])
    else if e.d !in s.copies then s
    else if e.Post? then
      if e.recorded.Some? && e.recorded.value !in s.payloads then s
      else s.(sent := s.sent + [if e.recorded.Some? then e.recorded.value else PayloadOf(s.copies[e.d].row)])
    else
      var copy := s.copies[e.d];
      var changed := Change(copy, sub, e);
      var fits := WriteFits(s.stored, copy, e);
      s.(stored := if fits then changed else s.stored,
         copies := s.copies[e.d := changed],
         payloads := if fits && e.Prepare? && Wanted(sub, PayloadOf(copy.row).report)
                     then s.payloads + {PayloadOf(copy.row)} else s.payloads)
  }

  function Run(s: State, sub: Subscription, es: seq<Event>): State
    decreases |es|
  {
    if es == [] then s else Run(Step(s, sub, es[0]), sub, es[1..])
  }

  // -- Invariant ---------------------------------------------------------------------------------------------

  /** What the executor leaves: the execution is over, and a success carries no error. */
  predicate Finished(r: Row) {
    && (Succeeded(r.status) || r.status == FAILED || r.status == TIMEOUT || r.status == CANCELED)
    && (Succeeded(r.status) ==> r.error.None?)
  }

  function CanceledOutcome(o: Outcome): Outcome { o.(settled := CANCELED, report := ReportCanceled) }

  predicate RowOk(r: Row, o: Outcome, canceled: bool) {
    Finished(r) && (OutcomeOf(r) == o || (canceled && OutcomeOf(r) == CanceledOutcome(o)))
  }

  predicate PayloadOk(p: Payload, o: Outcome, canceled: bool) {
    p.output == o.output && (p.report == o.report || (canceled && p.report == ReportCanceled))
  }

  /** `canceled`: a cancellation has gone through, or a canceling copy is about. */
  ghost predicate Inv(s: State, o: Outcome, canceled: bool) {
    && RowOk(s.stored.row, o, canceled)
    && (forall d: nat :: d in s.copies ==> RowOk(s.copies[d].row, o, canceled))
    && (forall p :: p in s.payloads ==> PayloadOk(p, o, canceled))
    && (forall i :: 0 <= i < |s.sent| ==> PayloadOk(s.sent[i], o, canceled))
  }

  lemma ChangeKeepsRow(copy: Stored, sub: Subscription, e: Event, o: Outcome, canceled: bool)
    requires RowOk(copy.row, o, canceled)
    ensures RowOk(Change(copy, sub, e).row, o, canceled || e.Cancel?)
    ensures PayloadOk(PayloadOf(copy.row), o, canceled)
  {
  }

  lemma StepKeepsInv(s: State, sub: Subscription, e: Event, o: Outcome, canceled: bool)
    requires Inv(s, o, canceled)
    ensures Inv(Step(s, sub, e), o, canceled || e.Cancel?)
  {
    hide Change; hide OutcomeOf; hide PayloadOf; hide Finished;
    if e.d in s.copies { ChangeKeepsRow(s.copies[e.d], sub, e, o, canceled); }
  }

  predicate Cancels(es: seq<Event>) { exists i :: 0 <= i < |es| && es[i].Cancel? }

  lemma {:induction false} RunKeepsInv(s: State, sub: Subscription, es: seq<Event>, o: Outcome, canceled: bool)
    requires Inv(s, o, canceled)
    ensures Inv(Run(s, sub, es), o, canceled || Cancels(es))
    decreases |es|
  {
    hide Inv; hide Step;
    if es != [] {
      var later := canceled || es[0].Cancel?;
      StepKeepsInv(s, sub, es[0], o, canceled);
      RunKeepsInv(Step(s, sub, es[0]), sub, es[1..], o, later);
      assert Cancels(es) <==> es[0].Cancel? || Cancels(es[1..]) by { CancelsFirst(es); }
    }
  }

  lemma CancelsFirst(es: seq<Event>)
    requires es != []
    ensures Cancels(es) <==> es[0].Cancel? || Cancels(es[1..])
  {
    if Cancels(es[1..]) {
      var i :| 0 <= i < |es[1..]| && es[1..][i].Cancel?;
      assert es[i + 1].Cancel?;
    }
    if Cancels(es) && !es[0].Cancel? {
      var i :| 0 <= i < |es| && es[i].Cancel?;
      assert es[1..][i - 1].Cancel?;
    }
  }

  // -- What every run keeps ----------------------------------------------------------------------------------

  /** Callback steps never change the business outcome, and everything posted reports that outcome. */
  lemma OutcomeIsKept(stored: Stored, sub: Subscription, es: seq<Event>)
    requires Finished(stored.row) && !Cancels(es)
    ensures var s := Run(State(stored, map[], {}, []), sub, es);
            && OutcomeOf(s.stored.row) == OutcomeOf(stored.row)
            && forall i :: 0 <= i < |s.sent| ==> s.sent[i] == PayloadOf(stored.row)
  {
    RunKeepsInv(State(stored, map[], {}, []), sub, es, OutcomeOf(stored.row), false);
  }

  /**
   * The two protocols together: however the run was executed under leases, once its row shows a finished execution
   * no sequence of callback steps changes what it settles on, what it is reported as, or its output.
   */
  lemma LeasedOutcomeIsKept(
      schedule: Schedule, max: nat, execution: seq<RunLease.Event>, callback: CallbackStatus, sub: Subscription,
      es: seq<Event>)
    requires var r := RunLease.Run(RunLease.Init(schedule), max, execution).row;
             Succeeded(r.status) || r.status == FAILED || r.status == TIMEOUT || r.status == CANCELED
    requires !Cancels(es)
    ensures var r := RunLease.Run(RunLease.Init(schedule), max, execution).row;
            OutcomeOf(Run(State(Stored(r, callback), map[], {}, []), sub, es).stored.row) == OutcomeOf(r)
  {
    hide RunLease.Run; hide Run;
    RunLease.CommitOnce(schedule, max, execution);
    OutcomeIsKept(Stored(RunLease.Run(RunLease.Init(schedule), max, execution).row, callback), sub, es);
  }

  /** With cancellations about, the outcome is the original one or CANCELED, with the same output. */
  lemma OutcomeOrCanceled(stored: Stored, sub: Subscription, es: seq<Event>)
    requires Finished(stored.row)
    ensures var r := Run(State(stored, map[], {}, []), sub, es).stored.row;
            OutcomeOf(r) == OutcomeOf(stored.row) || OutcomeOf(r) == CanceledOutcome(OutcomeOf(stored.row))
  {
    RunKeepsInv(State(stored, map[], {}, []), sub, es, OutcomeOf(stored.row), Cancels(es));
  }

  /**
   * A settled status is never left by a copy of another status: a canceled run stays canceled, whatever is still about.
   */
  lemma CanceledStays(s: State, sub: Subscription, e: Event)
    requires s.stored.row.status == CANCELED
    ensures Step(s, sub, e).stored.row.status == CANCELED
  {
  }

  lemma {:induction false} CanceledIsFinal(s: State, sub: Subscription, es: seq<Event>)
    requires s.stored.row.status == CANCELED
    ensures Run(s, sub, es).stored.row.status == CANCELED
    decreases |es|
  {
    hide Step;
    if es != [] {
      CanceledStays(s, sub, es[0]);
      CanceledIsFinal(Step(s, sub, es[0]), sub, es[1..]);
    }
  }

  /**
   * Everything posted for a finished run says succeeded if and only if its execution succeeded, failed if and only if
   * it failed or timed out, and carries its output.
   */
  lemma PostedSaysWhatHappened(stored: Stored, sub: Subscription, es: seq<Event>, i: nat)
    requires Finished(stored.row) && !Cancels(es)
    requires i < |Run(State(stored, map[], {}, []), sub, es).sent|
    ensures var posted, status := Run(State(stored, map[], {}, []), sub, es).sent[i], stored.row.status;
            && (posted.report == ReportSucceeded <==>
                  status == AGENT_SUCCEEDED || status == WAITING_CALLBACK || status == SUCCEEDED)
            && (posted.report == ReportFailed <==> status == FAILED || status == TIMEOUT)
            && (posted.report == ReportCanceled <==> status == CANCELED)
            && posted.output == stored.row.output
  {
    hide Run;
    OutcomeIsKept(stored, sub, es);
  }

  // -- One callback --------------------------------------------------------------------------------------------

  lemma RunOfTwo(s: State, sub: Subscription, a: Event, b: Event)
    ensures Run(s, sub, [a, b]) == Step(Step(s, sub, a), sub, b)
  {
    hide Step;
    assert [a, b][1..] == [b] && [b][1..] == [];
    var s1 := Step(s, sub, a);
    assert Run(s1, sub, [b]) == Run(Step(s1, sub, b), sub, []);
  }

  /** `sub` asks for the event, or for the default pair, which holds it. */
  predicate AsksFor(sub: Subscription, succeeded: bool) {
    && sub.url
    && (sub.events == {} || (if succeeded then ReportSucceeded else ReportFailed) in sub.events)
  }

  /**
   * Preparing the callback of a finished execution: if it is asked for, a delivery is recorded and a success waits for
   * it; if not, the callback is skipped and a success is settled. A failure keeps its status either way.
   */
  lemma CallbackIsPrepared(s: State, sub: Subscription, d: nat)
    requires var r := s.stored.row;
             || ((r.status == AGENT_SUCCEEDED || r.status == SUCCEEDED) && r.error.None?)
             || r.status == FAILED || r.status == TIMEOUT
    ensures var s', r := Run(s, sub, [Load(d), Prepare(d)]), s.stored.row;
            var succeeded := r.status == AGENT_SUCCEEDED || r.status == SUCCEEDED;
            var payload := Payload(if succeeded then ReportSucceeded else ReportFailed, r.output);
            if AsksFor(sub, succeeded)
            then && s'.stored == Stored(if succeeded then r.(status := WAITING_CALLBACK) else r, PENDING)
                 && s'.payloads == s.payloads + {payload}
            else && s'.stored == Stored(if succeeded then r.(status := SUCCEEDED) else r, SKIPPED)
                 && s'.payloads == s.payloads
  {
    hide Run;
    RunOfTwo(s, sub, Load(d), Prepare(d));
  }

  /** A delivered callback settles a success and leaves a failure, also in rows written by older releases. */
  lemma DeliverySettles(s: State, sub: Subscription, d: nat)
    ensures var s', r := Run(s, sub, [Load(d), Deliver(d)]), s.stored.row;
            && s'.stored.callback == DELIVERED && s'.stored.row == r.(status := s'.stored.row.status)
            && s'.stored.row.status ==
               if r.status != AGENT_SUCCEEDED && r.status != WAITING_CALLBACK then r.status
               else if r.error.None? then SUCCEEDED
               else if r.error.value == RUN_TIMEOUT then TIMEOUT else FAILED
  {
    hide Run;
    RunOfTwo(s, sub, Load(d), Deliver(d));
  }

  /** The executor's release takes away worker and lease, and a cancellation everything but what was achieved. */
  lemma ReleaseAndCancel(s: State, sub: Subscription, d: nat)
    ensures Run(s, sub, [Load(d), Release(d)]).stored.row == s.stored.row.(worker := None, lease := None)
    ensures s.stored.row.status == WAITING_CALLBACK || s.stored.row.status == AGENT_SUCCEEDED ==>
              Run(s, sub, [Load(d), Cancel(d)]).stored.row
              == s.stored.row.(status := CANCELED, worker := None, lease := None)
  {
    hide Run;
    RunOfTwo(s, sub, Load(d), Release(d));
    RunOfTwo(s, sub, Load(d), Cancel(d));
  }

  /** Giving up changes nothing but the callback's status. */
  lemma ExhaustionIsRecorded(s: State, sub: Subscription, d: nat)
    ensures Run(s, sub, [Load(d), Exhaust(d)]).stored == Stored(s.stored.row, FAILED_DELIVERY)
  {
    hide Run;
    RunOfTwo(s, sub, Load(d), Exhaust(d));
  }

  /** A post carries a recorded payload, or else one made from the copy. */
  lemma PostSends(s: State, sub: Subscription, d: nat, recorded: Option<Payload>)
    requires d in s.copies && (recorded.Some? ==> recorded.value in s.payloads)
    ensures var s', r := Step(s, sub, Post(d, recorded)), s.copies[d].row;
            && |s'.sent| == |s.sent| + 1 && s'.sent[..|s.sent|] == s.sent && s'.stored == s.stored
            && (recorded.Some? ==> s'.sent[|s.sent|] == recorded.value)
            && (recorded.None? ==> s'.sent[|s.sent|].output == r.output)
  {
  }

  /**
   * A copy is written back exactly if the stored status is still its own, for a preparation or a release the worker
   * too, and for a cancellation the run is not finished; and then it is the copy that is stored.
   */
  lemma WrittenIff(s: State, sub: Subscription, e: Event)
    requires e.d in s.copies && !e.Load? && !e.Post?
    ensures var s', copy := Step(s, sub, e), s.copies[e.d].row;
            var status := copy.status;
            var finished := status == SUCCEEDED || status == FAILED || status == TIMEOUT || status == CANCELED;
            && e.d in s'.copies && s'.sent == s.sent
            && s'.stored == if && copy.status == s.stored.row.status
                               && (e.Prepare? || e.Release? ==> copy.worker == s.stored.row.worker)
                               && (e.Cancel? ==> !finished)
                            then s'.copies[e.d] else s.stored
  {
  }
}
