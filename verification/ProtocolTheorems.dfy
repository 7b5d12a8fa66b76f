/** The promises of the request protocol, for every run from the beginning. */
module ProtocolTheorems {
  import opened ChatTypes
  import opened Wrappers
  import opened Transcript
  import opened Protocol
  import opened ProtocolInvariant
  import opened ProtocolSteps
  import opened ProtocolOutcomes
  import opened ProtocolRecovery
  import opened ProtocolSafety
  import opened ProtocolEvolution
  import M = Messages

  lemma RefusedSubmission(s: State, target: Target, action: Action, draftRevision: u64, text: string, nowMs: u64, command: Option<CommandCapture>)
    requires SubmitRefusal(s, target, action, text).Some?
    ensures Submit(s, target, action, draftRevision, text, nowMs, command) == s
  {
    hide SubmitRefusal, M.Refreshed;
  }

  // ----------------------------------------------- receipts and requests

  function WithState(items: seq<MessageView>, state: MessageState): set<RequestId> {
    set v | v in items && v.state == state :: v.id
  }

  function UndecidedIds(p: Option<Pending>): set<RequestId> {
    if p.Some? && p.value.outcome.None? then {p.value.request.id} else {}
  }

  function RejectedIds(p: Option<Pending>): set<RequestId> {
    if p.Some? && p.value.outcome.Some? && p.value.outcome.value.Rejected? then {p.value.request.id} else {}
  }

  lemma WithStateIsLookup(items: seq<MessageView>, state: MessageState)
    requires M.Distinct(items)
    ensures WithState(items, state) == set id | id in M.ById(items) && M.ById(items)[id].state == state
  {
    forall v | v in items
      ensures v.id in M.ById(items) && M.ById(items)[v.id] == v
    {
      var i :| 0 <= i < |items| && items[i] == v;
      M.AtPosition(items, i);
    }
    forall id | id in M.ById(items)
      ensures M.ById(items)[id] in items && M.ById(items)[id].id == id
    {
      M.LookupIsMember(items, id);
    }
  }

  lemma RolesByState(m: map<RequestId, MessageView>, q: set<RequestId>, r: set<RequestId>, p: Option<Pending>,
                     current: Option<RequestId>, task: Option<Task>)
    requires Roles(m, q, r, p, current, task)
    ensures (set id | id in m && m[id].state == Queued) == q
    ensures (set id | id in m && m[id].state == Held) == r + RejectedIds(p)
    ensures (set id | id in m && m[id].state == AwaitingOutcome) == UndecidedIds(p)
    ensures (set id | id in m && m[id].state == Running) == if current.Some? then {current.value} else {}
    ensures (set id | id in m && m[id].state == UnknownOutcome) == {}
  {
  }

  lemma ReceiptsMatchRequestsIn(s: State)
    requires Linked(s)
    ensures var items := s.messages.items;
            && M.Distinct(items)
            && WithState(items, Queued) == RetainedIds(s.queued)
            && WithState(items, Held) == RetainedIds(s.recoverable) + RejectedIds(s.pending)
            && WithState(items, AwaitingOutcome) == UndecidedIds(s.pending)
            && WithState(items, UnknownOutcome) == {}
            && (s.task.None? ==> WithState(items, Running) == {})
            && (s.task.Some? ==> exists id :: id in M.ById(items) && WithState(items, Running) == {id}
                                              && Executing(M.ById(items)[id], s.task.value.ref.id))
            && Shown(M.ById(items), s.queued) && Shown(M.ById(items), s.recoverable)
            && (s.pending.Some? ==> s.pending.value.request.id in M.ById(items)
                                    && Shows(M.ById(items)[s.pending.value.request.id], s.pending.value.request))
  {
    hide M.ById, M.Distinct, RetainedIds, WithState, RoleOk, Ordered, Ledgered, TargetsOk, Protected, Shown, RejectedIds, UndecidedIds;
    var items := s.messages.items;
    WithStateIsLookup(items, Queued);
    WithStateIsLookup(items, Held);
    WithStateIsLookup(items, AwaitingOutcome);
    WithStateIsLookup(items, UnknownOutcome);
    WithStateIsLookup(items, Running);
    RolesByState(M.ById(items), RetainedIds(s.queued), RetainedIds(s.recoverable), s.pending, s.ledger.current, s.task);
    if s.task.Some? {
      var id := s.ledger.current.value;
      assert WithState(items, Running) == {id};
    }
  }

  /** In every reachable state the receipts agree exactly with the executable state: queued receipts
      are the queue, held receipts are the recoverable texts and a rejected pending one, exactly one
      receipt runs while a task is active and it names that task, and receipts show the target, action
      and text of the pending, queued and recoverable requests. */
  lemma ReceiptsMatchRequests(project: Project, steps: seq<Step>)
    ensures var s := Run(Initial(project), steps); var items := s.messages.items;
            && M.Distinct(items)
            && WithState(items, Queued) == RetainedIds(s.queued)
            && WithState(items, Held) == RetainedIds(s.recoverable) + RejectedIds(s.pending)
            && WithState(items, AwaitingOutcome) == UndecidedIds(s.pending)
            && WithState(items, UnknownOutcome) == {}
            && (s.task.None? ==> WithState(items, Running) == {})
            && (s.task.Some? ==> exists id :: id in M.ById(items) && WithState(items, Running) == {id}
                                              && Executing(M.ById(items)[id], s.task.value.ref.id))
            && Shown(M.ById(items), s.queued) && Shown(M.ById(items), s.recoverable)
            && (s.pending.Some? ==> s.pending.value.request.id in M.ById(items)
                                    && Shows(M.ById(items)[s.pending.value.request.id], s.pending.value.request))
  {
    ReachableIsInv(project, steps);
    var s := Run(Initial(project), steps);
    hide Inv, Sound, Linked, Run, Waiting;
    SoundOf(s);
    LinkedOf(s);
    ReceiptsMatchRequestsIn(s);
  }

  /** Receipts only move forward, keep what they show, and never return once gone; within one
      generation this relates any state of a run to any later one. */
  lemma ReceiptsOnlyMoveForward(s: State, steps: seq<Step>, id: RequestId)
    requires Inv(s) && id in M.ById(s.messages.items)
    ensures var t := Run(s, steps);
            t.scope == s.scope && id in M.ById(t.messages.items)
            ==> ViewEvolves(M.ById(s.messages.items)[id], M.ById(t.messages.items)[id])
  {
    hide Inv, Run, StandingEvolves, M.ById, ViewEvolves;
    RunEvolves(s, steps);
  }

  lemma PrunedReceiptsNeverReturn(s: State, steps: seq<Step>, id: RequestId)
    requires Inv(s) && id !in M.ById(s.messages.items) && id.sequence < s.nextRequest
    ensures var t := Run(s, steps); t.scope == s.scope ==> id !in M.ById(t.messages.items)
  {
    hide Inv, Run, StandingEvolves, M.ById, ViewEvolves;
    RunEvolves(s, steps);
  }

  // ----------------------------------------------------------- conservation

  lemma {:induction false} OrderedIsOnce(issued: seq<Request>, r: Request)
    requires forall i, j :: 0 <= i < j < |issued| ==> Before(issued[i].id, issued[j].id)
    ensures multiset(issued)[r] <= 1
  {
    if issued != [] {
      var front, last := issued[..|issued| - 1], issued[|issued| - 1];
      assert issued == front + [last];
      OrderedIsOnce(front, r);
      if r == last {
        assert last !in front;
      }
    }
  }

  /** In how many places the text of a request is. */
  ghost function PlaceCount(s: State, r: Request): nat {
    multiset(Unplaced(s.pending))[r] + multiset(Requests(s.queued))[r] + multiset(Requests(s.recoverable))[r]
    + multiset(s.ledger.consumed)[r] + multiset(s.ledger.discarded)[r]
  }

  lemma PlaceCountIn(s: State, r: Request)
    requires Linked(s)
    ensures PlaceCount(s, r) == if r in s.ledger.issued then 1 else 0
  {
    hide Projected, Ordered, TargetsOk, Protected, Requests, Unplaced, AppliedInOrder, FollowUpsInOrder, Before;
    OrderedIsOnce(s.ledger.issued, r);
    assert Places(s.ledger, s.pending, s.queued, s.recoverable)[r] == PlaceCount(s, r);
    assert r in s.ledger.issued <==> r in multiset(s.ledger.issued);
  }

  /** No text is lost, altered or duplicated: in every reachable state each issued request, with its
      identity, text, target, action, draft revision and command capture, is in exactly one place:
      pending without an accepted outcome, queued, recoverable, consumed by one effect, or discarded. */
  lemma EveryTextIsInOnePlace(project: Project, steps: seq<Step>, r: Request)
    ensures var s := Run(Initial(project), steps);
            PlaceCount(s, r) == if r in s.ledger.issued then 1 else 0
  {
    ReachableIsInv(project, steps);
    var s := Run(Initial(project), steps);
    hide Inv, Sound, Linked, Run, Waiting, PlaceCount;
    SoundOf(s);
    LinkedOf(s);
    PlaceCountIn(s, r);
  }

  /** What was issued stays issued, so a request keeps having exactly one place as the run goes on. */
  lemma IssuedTextIsNeverLost(s: State, steps: seq<Step>, r: Request)
    requires Inv(s) && r in s.ledger.issued
    ensures PlaceCount(Run(s, steps), r) == 1
  {
    hide Inv, Sound, Linked, Run, Waiting, PlaceCount, SameGeneration;
    var t := Run(s, steps);
    RunEvolves(s, steps);
    RunKeepsInv(s, steps);
    SoundOf(t);
    LinkedOf(t);
    assert r in t.ledger.issued by {
      var i :| 0 <= i < |s.ledger.issued| && s.ledger.issued[i] == r;
      assert t.ledger.issued[i] == r;
    }
    PlaceCountIn(t, r);
  }

  /** A consumed or discarded text never becomes live again. */
  lemma PlacedTextStaysPlaced(s: State, steps: seq<Step>, r: Request)
    requires Inv(s) && (r in s.ledger.consumed || r in s.ledger.discarded)
    ensures var t := Run(s, steps);
            && r !in Unplaced(t.pending) && r !in Requests(t.queued) && r !in Requests(t.recoverable)
            && (r in s.ledger.consumed ==> r !in t.ledger.discarded)
  {
    hide Inv, Sound, Linked, Run, Waiting, SameGeneration, Unplaced, Requests;
    var t := Run(s, steps);
    RunEvolves(s, steps);
    RunKeepsInv(s, steps);
    SoundOf(t);
    LinkedOf(t);
    PlaceCountIn(t, r);
    assert r in s.ledger.consumed ==> r in t.ledger.consumed;
    assert r in s.ledger.discarded ==> r in t.ledger.discarded;
    assert multiset(t.ledger.consumed)[r] + multiset(t.ledger.discarded)[r] >= 1;
    CountIsMembership(Unplaced(t.pending), r);
    CountIsMembership(Requests(t.queued), r);
    CountIsMembership(Requests(t.recoverable), r);
    CountIsMembership(t.ledger.discarded, r);
    CountIsMembership(t.ledger.consumed, r);
  }

  lemma CountIsMembership(list: seq<Request>, r: Request)
    ensures r in list <==> multiset(list)[r] > 0
  {
    assert r in list <==> r in multiset(list);
  }

  // ------------------------------------------------------------ exactly once

  lemma ApplicationsIn(s: State)
    requires Linked(s)
    ensures forall i, j :: 0 <= i < j < |s.ledger.applied| ==> s.ledger.applied[i] != s.ledger.applied[j]
    ensures s.pending.Some? && s.pending.value.outcome != Some(Accepted) ==> s.pending.value.request.id !in s.ledger.applied
  {
    hide Projected, Ordered, TargetsOk, Protected, Requests, Unplaced, IssuedInOrder, FollowUpsInOrder, Places;
  }

  /** Effects are applied at most once per identity in any interleaving of acceptance,
      acknowledgement, lost acknowledgement, disconnection and reconnection. */
  lemma EffectsAreAppliedOnce(project: Project, steps: seq<Step>)
    ensures var s := Run(Initial(project), steps);
            && (forall i, j :: 0 <= i < j < |s.ledger.applied| ==> s.ledger.applied[i] != s.ledger.applied[j])
            && (s.pending.Some? && s.pending.value.outcome != Some(Accepted) ==> s.pending.value.request.id !in s.ledger.applied)
  {
    ReachableIsInv(project, steps);
    var s := Run(Initial(project), steps);
    hide Inv, Sound, Linked, Run, Waiting;
    SoundOf(s);
    LinkedOf(s);
    ApplicationsIn(s);
  }

  /** Why a pending request is rejected, in the order in which the reasons are looked for. */
  function RejectionOf(s: State, r: Request): Option<Reason> {
    if r.target != CurrentTarget(s) then Some(Refused(StaleTarget))
    else if r.action == NewTurn && s.task.Some? then Some(Refused(RequiresChoice))
    else if r.action != NewTurn && s.task.None? then Some(Refused(NoActiveTask))
    else if r.command.Some? && ValidateCommand(s.catalogue, r.command.value).Some?
    then Some(Refused(ValidateCommand(s.catalogue, r.command.value).value))
    else if s.rejectArmed then Some(FixtureRejected)
    else if (r.action == NewTurn && s.nextTask == U64_MAX) || (r.action == Steer && s.task.value.ref.revision == U64_MAX)
    then Some(Refused(IdentityExhausted))
    else None
  }

  /** A pending request is accepted exactly when its captured target still holds, its action fits the
      work, its command still validates, the fixture is not armed and an identity is left; it then has
      the effect of its action, once, and otherwise none, with the first reason that applies. */
  lemma AcceptanceIsDecisive(s: State, nowMs: u64)
    requires CanAccept(s)
    ensures var t := Accept(s, nowMs); var r := s.pending.value.request;
            && t.pending == Some(s.pending.value.(outcome := t.pending.value.outcome)) && t.deliveryHeld && t.recoverable == s.recoverable
            && (t.pending.value.outcome == Some(Accepted) <==>
                  && r.target == CurrentTarget(s) && (r.action == NewTurn <==> s.task.None?)
                  && (r.command.Some? ==> ValidateCommand(s.catalogue, r.command.value).None?)
                  && !s.rejectArmed && (r.action == NewTurn ==> s.nextTask < U64_MAX)
                  && (r.action == Steer ==> s.task.Some? && s.task.value.ref.revision < U64_MAX))
            && t.pending.value.outcome == Some(if RejectionOf(s, r).Some? then Rejected(RejectionOf(s, r).value) else Accepted)
            && t.rejectArmed == (s.rejectArmed && t.pending.value.outcome != Some(Rejected(FixtureRejected)))
            && (t.pending.value.outcome != Some(Accepted) ==>
                  t.pending.value.outcome.Some? && t.ledger == s.ledger && t.queued == s.queued && t.task == s.task)
            && (t.pending.value.outcome == Some(Accepted) ==>
                  && t.ledger.applied == s.ledger.applied + [r.id] && t.ledger.discarded == s.ledger.discarded
                  && (r.action == Queue ==> t.queued == s.queued + [Retained(r, QueuedBehindTask)] && t.task == s.task
                                            && t.ledger.consumed == s.ledger.consumed)
                  && (r.action != Queue ==> t.queued == s.queued && t.ledger.consumed == s.ledger.consumed + [r])
                  && (r.action == NewTurn ==> t.task.Some? && t.task.value.ref == TaskRef(s.nextTask, 1) && t.ledger.current == Some(r.id))
                  && (r.action == Steer ==> t.task.Some? && t.task.value.ref == TaskRef(s.task.value.ref.id, s.task.value.ref.revision + 1)))
  {
    hide Refresh, ValidateCommand, Effect, Reject;
    var timed := s.(nowMs := Later(s.nowMs, nowMs));
    var held, r := timed.(deliveryHeld := true), s.pending.value.request;
    RefreshFrame(Decide(timed));
    EffectFrame(held, r);
    EffectOf(held, r);
    if OwnerRefusal(held, r).Some? {
      RejectFrame(held, Refused(OwnerRefusal(held, r).value));
    } else if s.rejectArmed {
      RejectFrame(held.(rejectArmed := false), FixtureRejected);
    } else if EffectRefusal(held, r).Some? {
      RejectFrame(held, Refused(EffectRefusal(held, r).value));
    }
  }

  /** What an effect does to the queue, the task and the record. */
  lemma EffectOf(s: State, r: Request)
    ensures EffectRefusal(s, r).None? ==>
              var t := Effect(s, r);
              && t.ledger.applied == s.ledger.applied && t.ledger.discarded == s.ledger.discarded
              && (r.action == Queue ==> t.queued == s.queued + [Retained(r, QueuedBehindTask)] && t.task == s.task && t.ledger == s.ledger)
              && (r.action != Queue ==> t.queued == s.queued && t.ledger.consumed == s.ledger.consumed + [r])
              && (r.action == NewTurn ==> t.task.Some? && t.task.value.ref == TaskRef(s.nextTask, 1) && t.ledger.current == Some(r.id))
              && (r.action == Steer ==> s.task.Some? && t.task.Some?
                                        && t.task.value.ref == TaskRef(s.task.value.ref.id, s.task.value.ref.revision + 1))
  {
    hide M.ChangeMessage, Append, NoteAppend, BeginTurn, SteerTask, Enqueue;
    match r.action
    case NewTurn =>
      if s.nextTask < U64_MAX {
        BeginOf(s, r);
      }
    case Steer =>
      if s.task.Some? && s.task.value.ref.revision < U64_MAX {
        SteerOf(s, r);
      }
    case Queue =>
      EnqueueOf(s, r);
  }

  lemma BeginOf(s: State, r: Request)
    requires s.nextTask < U64_MAX
    ensures var t := BeginTurn(s, r);
            && t.queued == s.queued && t.task.Some? && t.task.value.ref == TaskRef(s.nextTask, 1)
            && t.ledger == s.ledger.(consumed := s.ledger.consumed + [r], current := Some(r.id))
  {
    hide M.ChangeMessage, Append, NoteAppend;
  }

  lemma SteerOf(s: State, r: Request)
    requires s.task.Some? && s.task.value.ref.revision < U64_MAX
    ensures var t := SteerTask(s, r);
            && t.queued == s.queued && t.ledger == s.ledger.(consumed := s.ledger.consumed + [r])
            && t.task.Some? && t.task.value.ref == TaskRef(s.task.value.ref.id, s.task.value.ref.revision + 1)
  {
    hide M.ChangeMessage, Append, NoteAppend;
  }

  lemma EnqueueOf(s: State, r: Request)
    ensures var t := Enqueue(s, r);
            t.queued == s.queued + [Retained(r, QueuedBehindTask)] && t.task == s.task && t.ledger == s.ledger
  {
    hide M.ChangeMessage, Append, NoteAppend;
  }

  // -------------------------------------------------------------- the clock

  /** The same state but for the clock and the time of the next progress report. */
  ghost predicate SameButClock(s: State, t: State) {
    t == s.(nowMs := t.nowMs,
            task := if s.task.Some? && t.task.Some? then Some(s.task.value.(nextProgressMs := t.task.value.nextProgressMs)) else s.task)
  }

  /** Advancing the clock reports a change exactly when it changes more than the clock. */
  lemma AdvanceReportsChanges(s: State, nowMs: u64)
    requires Inv(s)
    ensures AdvanceReports(s, nowMs) <==> !SameButClock(s, Advance(s, nowMs))
  {
    hide Inv, AcknowledgePending, Complete, Sound, Waiting, Targets;
    var timed := s.(nowMs := Later(s.nowMs, nowMs));
    NowKeepsInv(s, timed.nowMs);
    if AcknowledgementDue(timed) {
      AdvanceDelivers(s, timed);
      CompleteKeepsPending(AcknowledgePending(timed), timed.nowMs);
      CompleteKeepsPending(AcknowledgePending(timed), AcknowledgePending(timed).nowMs);
    } else if TaskDue(timed) {
      TargetsOf(timed);
      CompleteEndsTask(timed);
    }
  }

  lemma AdvanceDelivers(s: State, timed: State)
    requires Inv(timed) && AcknowledgementDue(timed)
    ensures AcknowledgePending(timed).pending.None?
  {
    hide Inv, Sound, Waiting, Acknowledge;
    SoundOf(timed);
    AcknowledgeRestores(timed);
  }

  lemma CompleteKeepsPending(s: State, nowMs: u64)
    ensures Complete(s, nowMs).pending == s.pending
  {
    hide M.ChangeMessage, Append, NoteAppend, FinishedItems, Refresh, HoldFrom;
    if s.task.Some? {
      var timed := s.(nowMs := Later(s.nowMs, nowMs));
      var ended := Emit(FinishTurn(timed, Completed, None), Notice(TaskCompleted));
      HoldEverythingInOrder(ended, Refused(IdentityExhausted));
      RefreshFrame(ended);
      RefreshFrame(HoldFrom(ended, 0, Everything, Refused(IdentityExhausted)));
      if ended.queued != [] && ended.nextTask < U64_MAX {
        RefreshFrame(StartNext(ended));
      }
    }
  }

  lemma CompleteEndsTask(s: State)
    requires Inv(s) && s.task.Some? && Targets(s)
    ensures var t := Complete(s, s.nowMs); t.task.Some? ==> t.task.value.ref.id != s.task.value.ref.id
  {
    hide Inv, Complete;
    CompletionStartsTheOldest(s, s.nowMs);
  }

  // ------------------------------------------------------------- reconnection

  lemma StaleIsRejected(s: State)
    requires CanAccept(s) && s.pending.value.request.target.connectionRevision != s.connectionRevision
    ensures Decide(s) == Reject(s.(deliveryHeld := true), Refused(StaleTarget))
  {
    hide Reject, Effect, ValidateCommand;
  }

  lemma RejectShape(s: State, reason: Reason)
    requires s.pending.Some?
    ensures var t := Reject(s, reason);
            && t.queued == s.queued && t.recoverable == s.recoverable && t.task == s.task && t.ledger == s.ledger
            && t.pending == Some(s.pending.value.(outcome := Some(Rejected(reason))))
  {
    hide M.ChangeMessage, Append, NoteAppend;
  }

  /** What acknowledging a pending request does when its capture belongs to another connection. */
  lemma AcknowledgeStale(s: State)
    requires s.connected && s.pending.Some? && s.pending.value.request.target.connectionRevision != s.connectionRevision
    ensures var t := Acknowledge(s, s.pending.value.request.id); var p := s.pending.value;
            && t.queued == s.queued && t.ledger == s.ledger && t.pending.None? && t.task == s.task && t.connected
            && t.recoverable == s.recoverable + match p.outcome
               case None => [Retained(p.request, Refused(StaleTarget))]
               case Some(Accepted) => []
               case Some(Rejected(reason)) => [Retained(p.request, reason)]
  {
    hide Decide, Refresh, Deliver, Reject;
    var p := s.pending.value;
    var accepted := Accept(s, s.nowMs);
    if p.outcome.None? {
      var timed := s.(nowMs := Later(s.nowMs, s.nowMs));
      StaleIsRejected(timed);
      RejectShape(timed.(deliveryHeld := true), Refused(StaleTarget));
      DecideShape(timed);
      RefreshFrame(Decide(timed));
    } else {
      AcceptRepeated(s);
    }
    DeliverFrame(Resolve(accepted));
  }

  /** Reconnection reconciles without repeating anything: no effect is applied or consumed, the queue
      and the task stay, an unrecorded outcome becomes a rejection of the original request, a recorded
      rejection is delivered, and afterwards nothing is pending or withheld and the delivered
      projection is the internal one. */
  lemma ReconnectionReconciles(s: State)
    requires Inv(s) && CanSetConnected(s, true)
    ensures var t := SetConnected(s, true);
            && t.ledger == s.ledger && t.queued == s.queued && (t.task.Some? <==> s.task.Some?)
            && t.pending.None? && !Blocked(t) && t.display.backlog == [] && t.delivered == t.messages
            && t.recoverable == s.recoverable + match s.pending
               case None => []
               case Some(p) => match p.outcome
                 case None => [Retained(p.request, Refused(StaleTarget))]
                 case Some(Accepted) => []
                 case Some(Rejected(reason)) => [Retained(p.request, reason)]
  {
    hide Switch, Acknowledge, Deliver, Sound, Synced, Waiting;
    SwitchShape(s, true);
    ReconnectRestores(s);
    var switched := Switch(s, true);
    if switched.pending.Some? {
      AcknowledgeStale(switched);
    }
    DeliverFrame(AcknowledgePending(switched));
    BacklogFlushed(SetConnected(s, true));
  }

  lemma BacklogFlushed(s: State)
    requires Inv(s) && !Blocked(s)
    ensures s.display.backlog == []
  {
    hide Linked, DeliveredOk, Sourced, Synced;
    assert s.stream.withheld == [];
    assert Bytes([]) == 0;
  }

  // --------------------------------------------------------------- capacity

  /** In every reachable state at most eight requests are protected, both projections hold at most
      seventeen distinct receipts, and no live request is without its receipt. */
  lemma CapacityHolds(project: Project, steps: seq<Step>)
    ensures var s := Run(Initial(project), steps);
            && ProtectedCount(s) <= PROTECTED_LIMIT
            && |s.messages.items| <= 17 && M.Distinct(s.messages.items)
            && |s.delivered.items| <= 17 && M.Distinct(s.delivered.items)
            && RetainedIds(s.queued) + RetainedIds(s.recoverable) <= M.Ids(s.messages.items)
            && (s.pending.Some? ==> s.pending.value.request.id in M.Ids(s.messages.items) * M.Ids(s.delivered.items))
            && (s.queued != [] ==> s.task.Some?)
  {
    ReachableIsInv(project, steps);
    CapacityIn(Run(Initial(project), steps));
  }

  lemma CapacityIn(s: State)
    requires Inv(s)
    ensures ProtectedCount(s) <= PROTECTED_LIMIT
    ensures |s.messages.items| <= 17 && M.Distinct(s.messages.items)
    ensures |s.delivered.items| <= 17 && M.Distinct(s.delivered.items)
    ensures RetainedIds(s.queued) + RetainedIds(s.recoverable) <= M.Ids(s.messages.items)
    ensures s.pending.Some? ==> s.pending.value.request.id in M.Ids(s.messages.items) * M.Ids(s.delivered.items)
    ensures s.queued != [] ==> s.task.Some?
  {
    TrayBound(s);
    LiveOrPrunable(s);
    if s.pending.Some? {
      PendingHasReceipt(s);
    }
    hide Agrees, Ordered, Ledgered, TargetsOk, Protected, Sourced, DisplayOk, M.PrunableCount, M.PrunableIds, M.Ids, RetainedIds, M.Distinct;
  }

  lemma VisiblePendingIsUnheld(s: State)
    requires Inv(s) && !Blocked(s) && s.pending.Some?
    ensures s.pending.value.request.id !in RetainedIds(s.queued)
    ensures s.pending.value.request.id !in RetainedIds(s.recoverable)
  {
    hide Ordered, Ledgered, TargetsOk, Protected, DeliveredOk, Sourced, DisplayOk, Synced, Shown, RetainedIds, M.ById;
    var v := M.ById(s.messages.items)[s.pending.value.request.id];
    assert v.state == AwaitingOutcome;
  }

  /** Whenever recovered text is visible, discarding it succeeds, removes exactly that request and its
      receipt, and frees exactly one protected place. */
  lemma VisibleRecoveryCanBeDiscarded(s: State, r: Retained)
    requires Inv(s) && !Blocked(s) && r in s.recoverable
    ensures CanDiscard(s, r.request.id)
    ensures var t := Discard(s, r.request.id);
            && ProtectedCount(t) == ProtectedCount(s) - 1
            && t.queued == s.queued && t.pending == s.pending && t.task == s.task
            && RetainedIds(t.recoverable) == RetainedIds(s.recoverable) - {r.request.id}
            && t.ledger.discarded == s.ledger.discarded + [r.request]
  {
    if s.pending.Some? {
      VisiblePendingIsUnheld(s);
    }
    assert r.request.id in RetainedIds(s.recoverable);
    DiscardKeepsInv(s, r.request.id);
    DistinctRecoverable(s);
    DiscardShape(s, r);
    hide Inv, Discard, RetainedIds;
  }

  lemma DistinctRecoverable(s: State)
    requires Inv(s)
    ensures DistinctRetained(s.recoverable)
  {
    hide Projected, Ledgered, TargetsOk, Protected, DeliveredOk, Sourced, DisplayOk, Synced, Waiting, DistinctRetained;
  }

  lemma DiscardShape(s: State, r: Retained)
    requires CanDiscard(s, r.request.id) && r in s.recoverable && DistinctRetained(s.recoverable)
    ensures var t := Discard(s, r.request.id);
            && t.queued == s.queued && t.pending == s.pending && t.task == s.task
            && RetainedIds(t.recoverable) == RetainedIds(s.recoverable) - {r.request.id}
            && t.ledger.discarded == s.ledger.discarded + [r.request]
  {
    hide Refresh, DropId, RetainedPosition;
    var at := RetainedPosition(s.recoverable, r.request.id);
    var i :| 0 <= i < |s.recoverable| && s.recoverable[i] == r;
    assert i == at;
    RetainedIdsWithout(s.recoverable, at);
    RefreshFrame(Dropped(s, at));
  }

  // --------------------------------------------------------------- the queue

  /** The queue is strictly increasing in request sequence; consumed follow-ups were consumed in
      issue order and before everything that still waits. */
  lemma QueueIsFifo(project: Project, steps: seq<Step>)
    ensures var s := Run(Initial(project), steps);
            && Increasing(s.queued)
            && FollowUpsInOrder(s.ledger.consumed, s.queued, NextId(s))
  {
    ReachableIsInv(project, steps);
    QueueIsFifoIn(Run(Initial(project), steps));
  }

  lemma QueueIsFifoIn(s: State)
    requires Inv(s)
    ensures Increasing(s.queued) && FollowUpsInOrder(s.ledger.consumed, s.queued, NextId(s))
  {
    hide Projected, TargetsOk, Protected, DeliveredOk, Sourced, DisplayOk, Synced, Waiting, Places, IssuedInOrder, AppliedInOrder,
      DistinctRetained, RetainedIds, DeliveryOk;
  }

  /** Success starts at most one follow-up, the oldest; when task identities are exhausted every
      follow-up is held instead, in order and under its own identity. */
  lemma CompletionStartsTheOldest(s: State, nowMs: u64)
    requires Inv(s) && s.task.Some?
    ensures var t := Complete(s, nowMs);
            && (s.queued == [] ==> t.task.None? && t.queued == [] && t.ledger.consumed == s.ledger.consumed)
            && (s.queued != [] && s.nextTask < U64_MAX ==>
                  && t.queued == s.queued[1..] && t.ledger.consumed == s.ledger.consumed + [s.queued[0].request]
                  && t.ledger.current == Some(s.queued[0].request.id)
                  && t.task.Some? && t.task.value.ref == TaskRef(s.nextTask, 1) && t.recoverable == s.recoverable)
            && (s.queued != [] && s.nextTask == U64_MAX ==>
                  && t.task.None? && t.queued == [] && t.ledger.consumed == s.ledger.consumed
                  && Requests(t.recoverable) == Requests(s.recoverable) + Requests(s.queued))
  {
    hide M.ChangeMessage, Append, NoteAppend, FinishedItems, Refresh, HoldFrom, Requests, Inv;
    var timed := s.(nowMs := Later(s.nowMs, nowMs));
    var ended := Emit(FinishTurn(timed, Completed, None), Notice(TaskCompleted));
    if ended.queued == [] {
      RefreshFrame(ended);
    } else if ended.nextTask < U64_MAX {
      RefreshFrame(StartNext(ended));
    } else {
      HoldEverythingInOrder(ended, Refused(IdentityExhausted));
      RefreshFrame(HoldFrom(ended, 0, Everything, Refused(IdentityExhausted)));
    }
  }

  lemma {:induction false} HoldEverythingInOrder(s: State, reason: Reason)
    ensures var t := HoldFrom(s, 0, Everything, reason);
            && t.queued == [] && t.task == s.task && t.ledger == s.ledger && t.pending == s.pending
            && Requests(t.recoverable) == Requests(s.recoverable) + Requests(s.queued)
    decreases |s.queued|
  {
    hide M.ChangeMessage;
    if s.queued != [] {
      var u := HoldAt(s, 0, reason);
      assert u.queued == s.queued[1..];
      HoldEverythingInOrder(u, reason);
      RequestsConcat(s.recoverable, [Retained(s.queued[0].request, reason)]);
      assert Requests([Retained(s.queued[0].request, reason)]) == [s.queued[0].request];
      assert Requests(s.queued) == [s.queued[0].request] + Requests(s.queued[1..]);
    }
  }

  /** Stopping or failing holds every follow-up for recovery, in order, with its content intact. */
  lemma EndingHoldsTheQueue(s: State, state: MessageState, reason: Reason)
    requires s.task.Some?
    ensures var t := EndUnsuccessfully(s, state, reason);
            && t.task.None? && t.queued == [] && t.ledger.consumed == s.ledger.consumed
            && Requests(t.recoverable) == Requests(s.recoverable) + Requests(s.queued)
  {
    hide M.ChangeMessage, Append, NoteAppend, FinishedItems, Refresh, HoldFrom, Requests;
    var finished := FinishTurn(s, state, Some(reason));
    HoldEverythingInOrder(finished, reason);
    RefreshFrame(Emit(HoldFrom(finished, 0, Everything, reason), Notice(EndedLine(reason))));
  }

  // ---------------------------------------------------------- the transcript

  /** The transcript and identities that appending every emitted entry at once would give. */
  function Immediate(emitted: seq<Entry>): (seq<Entry>, int) {
    (Trim(emitted), |emitted| - |Trim(emitted)|)
  }

  /** In every reachable state the transcript is the longest suffix of what was published that fits
      both limits, identities are positions in that stream, and the backlog's size is exact. While
      delivery is not withheld, transcript and identities are those of immediate appends if and only
      if no withheld entry was ever discarded. */
  lemma TranscriptIsFaithful(project: Project, steps: seq<Step>)
    ensures var s := Run(Initial(project), steps); var d := s.display;
            && d.transcript == Trim(s.stream.published) && d.baseId + |d.transcript| == |s.stream.published|
            && d.backlogBytes == Bytes(d.backlog) && Fits(d.backlog)
            && (d.truncated <==> d.baseId > 0 || s.stream.lost > 0)
            && (!Blocked(s) ==> ((d.transcript, d.baseId as int) == Immediate(s.stream.emitted) <==> s.stream.lost == 0))
  {
    ReachableIsInv(project, steps);
    TranscriptIsFaithfulIn(Run(Initial(project), steps));
  }

  lemma TranscriptIsFaithfulIn(s: State)
    requires Inv(s)
    ensures var d := s.display;
            && d.transcript == Trim(s.stream.published) && d.baseId + |d.transcript| == |s.stream.published|
            && d.backlogBytes == Bytes(d.backlog) && Fits(d.backlog)
            && (d.truncated <==> d.baseId > 0 || s.stream.lost > 0)
            && (!Blocked(s) ==> ((d.transcript, d.baseId as int) == Immediate(s.stream.emitted) <==> s.stream.lost == 0))
  {
    hide Linked, DeliveredOk, Sourced, Synced, Waiting, Trim, Fits, Bytes;
    TrimKeepsSuffix(s.stream.published);
    TrimKeepsSuffix(s.stream.withheld);
    TrimKeepsSuffix(s.stream.emitted);
    if !Blocked(s) && s.stream.lost == 0 {
      assert s.stream.published + [] == s.stream.published;
      assert s.stream.emitted == s.stream.published;
    }
  }

  /** The entry behind an identity, when it is still retained. */
  function EntryAt(d: Display, identity: nat): Option<Entry> {
    if d.baseId <= identity < d.baseId + |d.transcript| then Some(d.transcript[identity - d.baseId]) else None
  }

  /** An identity names the same entry for as long as the generation lasts, or nothing once evicted. */
  lemma IdentitiesAreNeverReused(s: State, steps: seq<Step>, identity: nat)
    requires Inv(s) && EntryAt(s.display, identity).Some?
    ensures var t := Run(s, steps);
            t.scope == s.scope ==> EntryAt(t.display, identity) == EntryAt(s.display, identity)
                                   || (EntryAt(t.display, identity).None? && identity < t.display.baseId)
  {
    RunEvolves(s, steps);
    RunKeepsInv(s, steps);
    var t := Run(s, steps);
    hide Run, Linked, DeliveredOk, Sourced, Synced, Waiting, Trim, Fits, Bytes, ReceiptsEvolve, M.ById;
    EntriesArePublished(s, identity);
    if t.scope == s.scope && EntryAt(t.display, identity).Some? {
      EntriesArePublished(t, identity);
    }
    TrimKeepsSuffix(t.stream.published);
  }

  lemma EntriesArePublished(s: State, identity: nat)
    requires Inv(s) && EntryAt(s.display, identity).Some?
    ensures identity < |s.stream.published| && EntryAt(s.display, identity).value == s.stream.published[identity]
  {
    hide Linked, DeliveredOk, Sourced, Synced, Waiting, Fits, Bytes, Trim;
    TrimmedEntry(s.stream.published, identity - s.display.baseId);
  }

  lemma TrimmedEntry(entries: seq<Entry>, i: nat)
    requires i < |Trim(entries)|
    ensures |Trim(entries)| <= |entries| && Trim(entries)[i] == entries[|entries| - |Trim(entries)| + i]
  {
    TrimIsLongestFittingSuffix(entries);
    hide Trim, Fits;
    var d := |entries| - |Trim(entries)|;
    assert entries[d..][i] == entries[d + i];
  }
}
