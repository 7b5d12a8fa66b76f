/** Captured targets, decisions and commands: once stale, stale for good. */
module ProtocolTargets {
  import opened ChatTypes
  import opened Wrappers
  import opened Transcript
  import opened Protocol
  import opened ProtocolInvariant
  import opened ProtocolSafety
  import opened ProtocolEvolution
  import Theorems = ProtocolTheorems
  import Steps = ProtocolSteps
  import M = Messages

  /** Two states of one run that stand at the same place, with a third between them. */
  lemma SameStanding(s: State, t: State, u: State)
    requires Evolves(s, t) && Evolves(t, u) && u.scope == s.scope && PositionOf(s) == PositionOf(u) && s.task.Some?
    ensures t.scope == s.scope && t.connected == s.connected && t.task.Some?
    ensures CurrentTarget(t) == CurrentTarget(s) && OpenDecision(t) == OpenDecision(s)
  {
    hide ReceiptsEvolve, LedgerEvolves, M.ById;
  }

  lemma ValidTargetStanding(s: State, u: State, target: Target)
    requires TargetValid(s, target) && TargetValid(u, target) && target.task.Some?
    ensures u.scope == s.scope && PositionOf(s) == PositionOf(u) && s.task.Some?
  {
  }

  /** A captured target that names an active task never becomes valid again once it stopped being
      valid, whatever steering, decisions, completions, disconnections or resets follow. */
  lemma TargetsNeverRevive(s: State, during: seq<Step>, after: seq<Step>, target: Target)
    requires Inv(s) && TargetValid(s, target) && target.task.Some?
    requires !TargetValid(Run(s, during), target)
    ensures !TargetValid(Run(Run(s, during), after), target)
  {
    hide Inv, Run, Evolves;
    var t := Run(s, during);
    var u := Run(t, after);
    RunEvolves(s, during);
    RunKeepsInv(s, during);
    RunEvolves(t, after);
    if TargetValid(u, target) {
      ValidTargetStanding(s, u, target);
      SameStanding(s, t, u);
    }
  }

  /** The same for a decision and the target it was raised for: an expired or answered decision can
      never answer its replacement. */
  lemma DecisionsNeverRevive(s: State, during: seq<Step>, after: seq<Step>, target: Target, id: u64)
    requires Inv(s) && DecisionOpen(s, target, id) && !DecisionOpen(Run(s, during), target, id)
    ensures !DecisionOpen(Run(Run(s, during), after), target, id)
    ensures forall answer :: RespondRefusal(Run(Run(s, during), after), target, id, answer) == Some(StaleDecision)
  {
    hide Inv, Run, Evolves;
    var t := Run(s, during);
    var u := Run(t, after);
    RunEvolves(s, during);
    RunKeepsInv(s, during);
    RunEvolves(t, after);
    if DecisionOpen(u, target, id) {
      ValidTargetStanding(s, u, target);
      SameStanding(s, t, u);
    }
  }

  /** Running a submitted new turn to acknowledgement. */
  lemma TurnBegins(s: State)
    requires s.connected && s.task.None? && s.pending.Some? && s.pending.value.outcome.None? && !s.rejectArmed
    requires s.pending.value.request.action == NewTurn && s.pending.value.request.command.None?
    requires s.pending.value.request.target == CurrentTarget(s) && s.nextTask < U64_MAX
    ensures var t := Acknowledge(s, s.pending.value.request.id);
            && t.task.Some? && t.queued == s.queued && t.scope == s.scope && t.connected && t.connectionRevision == s.connectionRevision
  {
    hide M.ChangeMessage, Append, NoteAppend, Flush, NoteFlush, M.Refreshed;
    assert EffectRefusal(s.(deliveryHeld := true), s.pending.value.request).None?;
  }

  /** Everything that changes the work or the connection makes the captured target invalid: an
      applied steer, a raised, expired or answered decision, the end of the task, a lost
      connection, and a reset. */
  lemma WorkChangesInvalidateTargets(s: State, request: Request, id: u64, answer: DecisionAction, nowMs: u64)
    requires Inv(s) && TargetValid(s, CurrentTarget(s))
    ensures request.action == Steer && EffectRefusal(s, request).None? ==> !TargetValid(Effect(s, request), CurrentTarget(s))
    ensures CanToggleDecision(s) ==> !TargetValid(ToggleDecision(s), CurrentTarget(s))
    ensures RespondRefusal(s, CurrentTarget(s), id, answer).None? ==> !TargetValid(Respond(s, CurrentTarget(s), id, answer), CurrentTarget(s))
    ensures s.task.Some? ==> !TargetValid(Complete(s, nowMs), CurrentTarget(s))
    ensures s.task.Some? ==> !TargetValid(StopTask(s), CurrentTarget(s)) && !TargetValid(FailTask(s), CurrentTarget(s))
    ensures CanSetConnected(s, false) ==> !TargetValid(SetConnected(s, false), CurrentTarget(s))
    ensures s.scope.generation < U64_MAX ==> !TargetValid(Reset(s), CurrentTarget(s))
  {
    hide Inv, Complete, EndUnsuccessfully, SetConnected, M.ChangeMessage, Append, NoteAppend, Requests, Unplaced;
    if s.task.Some? {
      TargetsOf(s);
      Theorems.CompletionStartsTheOldest(s, nowMs);
      Theorems.EndingHoldsTheQueue(s, Stopped, WorkStopped);
      Theorems.EndingHoldsTheQueue(s, Failed, WorkFailed);
    }
    if CanSetConnected(s, false) {
      LosesConnection(s);
    }
  }

  lemma LosesConnection(s: State)
    requires CanSetConnected(s, false)
    ensures !SetConnected(s, false).connected
  {
    hide Switch;
    SwitchShape(s, false);
  }

  /** An open decision holds the work: time neither ends the task nor closes the decision. All it can
      do is deliver a request in flight, and of those only an applied steer moves the task, by one
      revision, carrying the decision along. */
  lemma DecisionsHoldTheWork(s: State, nowMs: u64)
    requires Inv(s) && s.task.Some? && s.task.value.decision.Some?
    ensures var t := Advance(s, nowMs); var timed := s.(nowMs := Later(s.nowMs, nowMs));
            && t.task.Some? && t.task.value.decision.Some?
            && t.task.value.ref.id == s.task.value.ref.id && t.task.value.decision.value.id == s.task.value.decision.value.id
            && t.ledger.current == s.ledger.current
            && (t.task.value.ref.revision == s.task.value.ref.revision
                || (AcknowledgementDue(timed) && s.pending.value.request.action == Steer
                    && t.task.value.ref.revision == s.task.value.ref.revision + 1))
            && (!AcknowledgementDue(timed) ==>
                  t.ledger == s.ledger && t.queued == s.queued && t.pending == s.pending && CurrentTarget(t) == CurrentTarget(s)
                  && t.task.value.decision == s.task.value.decision)
  {
    hide Inv, Sound, Waiting, Complete, AcknowledgePending;
    var timed := s.(nowMs := Later(s.nowMs, nowMs));
    NowKeepsInv(s, timed.nowMs);
    if AcknowledgementDue(timed) {
      AcknowledgementKeepsDecision(timed);
    }
  }

  lemma AcknowledgementKeepsDecision(s: State)
    requires Inv(s) && s.task.Some? && s.task.value.decision.Some? && s.connected && s.pending.Some?
    ensures var t := AcknowledgePending(s);
            && t.task.Some? && t.task.value.decision.Some?
            && t.task.value.ref.id == s.task.value.ref.id && t.task.value.decision.value.id == s.task.value.decision.value.id
            && t.ledger.current == s.ledger.current
            && (t.task.value.ref.revision == s.task.value.ref.revision
                || (s.pending.value.request.action == Steer && t.task.value.ref.revision == s.task.value.ref.revision + 1))
  {
    hide Inv, Sound, Waiting, Decide, Refresh, Deliver, Resolve;
    var accepted := Accept(s, s.nowMs);
    SoundOf(s);
    if CanAccept(s) {
      var timed := s.(nowMs := Later(s.nowMs, s.nowMs));
      assert timed == s;
      DecisionDecided(s);
      DecideShape(s);
      RefreshFrame(Decide(s));
    } else {
      AcceptRepeated(s);
    }
    ResolveShape(accepted);
    DeliverFrame(Resolve(accepted));
  }

  lemma DecisionDecided(s: State)
    requires CanAccept(s) && s.task.Some? && s.task.value.decision.Some?
    ensures var t := Decide(s);
            && t.task.Some? && t.task.value.decision.Some?
            && t.task.value.ref.id == s.task.value.ref.id && t.task.value.decision.value.id == s.task.value.decision.value.id
            && t.ledger.current == s.ledger.current
            && (t.task.value.ref.revision == s.task.value.ref.revision
                || (s.pending.value.request.action == Steer && t.task.value.ref.revision == s.task.value.ref.revision + 1))
  {
    hide Effect, Reject, EffectRefusal, ValidateCommand;
    var held, r := s.(deliveryHeld := true), s.pending.value.request;
    EffectFrame(held, r);
    EffectOnDecision(held, r);
    if OwnerRefusal(held, r).Some? {
      RejectFrame(held, Refused(OwnerRefusal(held, r).value));
    } else if s.rejectArmed {
      RejectFrame(held.(rejectArmed := false), FixtureRejected);
    } else if EffectRefusal(held, r).Some? {
      RejectFrame(held, Refused(EffectRefusal(held, r).value));
    }
  }

  lemma EffectOnDecision(s: State, r: Request)
    requires s.task.Some? && s.task.value.decision.Some?
    ensures EffectRefusal(s, r).None? && r.action != NewTurn ==>
              var t := Effect(s, r);
              && t.task.Some? && t.task.value.decision.Some?
              && t.task.value.ref.id == s.task.value.ref.id && t.task.value.decision.value.id == s.task.value.decision.value.id
              && t.ledger.current == s.ledger.current
              && t.task.value.ref.revision == s.task.value.ref.revision + (if r.action == Steer then 1 else 0)
  {
    hide M.ChangeMessage, Append, NoteAppend, BeginTurn;
  }

  /** Naming a task matters: the target of an idle conversation stops being valid when a turn begins
      and is valid again when that turn completes. */
  lemma IdleTargetsRevive(s: State)
    requires Inv(s) && s.connected && s.task.None? && s.pending.None? && !s.rejectArmed
    requires ProtectedCount(s) < PROTECTED_LIMIT && s.nextRequest < U64_MAX && s.nextTask < U64_MAX
    ensures var target := CurrentTarget(s);
            var begun := Acknowledge(Submit(s, target, NewTurn, 0, "a", 0, None), NextId(s));
            && TargetValid(s, target) && !TargetValid(begun, target) && TargetValid(Complete(begun, 0), target)
  {
    var target := CurrentTarget(s);
    assert !Blank("a") by {
      assert 'a' in "a";
    }
    assert TextBytes("a") <= 4;
    hide Sound, Synced, DeliveryOk, Acknowledge, TextBytes, Blank, ProtectedCount, M.ChangeMessage, M.Refreshed, Append, NoteAppend, FinishedItems;
    var submitted := Submit(s, target, NewTurn, 0, "a", 0, None);
    assert submitted.pending.Some? && submitted.pending.value.request.target == CurrentTarget(submitted);
    TurnBegins(submitted);
  }

  /** An accepted answer closes the decision, so no decision is answered twice. */
  lemma AnswersCloseDecisions(s: State, target: Target, id: u64, answer: DecisionAction)
    requires Inv(s) && RespondRefusal(s, target, id, answer).None?
    ensures !DecisionOpen(Respond(s, target, id, answer), target, id)
  {
    hide Inv, Append, NoteAppend, FinishedItems, HoldFrom, Refresh;
    if answer == Stop {
      var finished := FinishTurn(s, Stopped, Some(WorkStopped));
      HoldKeepsTask(finished, 0, Everything, WorkStopped);
      RefreshFrame(Emit(HoldFrom(finished, 0, Everything, WorkStopped), Notice(EndedLine(WorkStopped))));
    }
  }

  lemma {:induction false} HoldKeepsTask(s: State, i: nat, filter: Filter, reason: Reason)
    requires i <= |s.queued|
    ensures HoldFrom(s, i, filter, reason).task == s.task
    decreases |s.queued| - i
  {
    hide M.ChangeMessage, Selected;
    if i < |s.queued| {
      if Selected(filter, s.queued[i].request) {
        HoldKeepsTask(HoldAt(s, i, reason), i, filter, reason);
      } else {
        HoldKeepsTask(s, i + 1, filter, reason);
      }
    }
  }

  /** In every reachable state an open decision names the current target. */
  lemma OpenDecisionsAreCurrent(project: Project, steps: seq<Step>)
    ensures var s := Run(Initial(project), steps);
            s.task.Some? && s.task.value.decision.Some? ==>
              && s.task.value.decision.value.target == CurrentTarget(s)
              && s.task.value.decision.value.id < s.nextDecision
  {
    hide Inv, Run;
    ReachableIsInv(project, steps);
    TargetsOf(Run(Initial(project), steps));
  }

  // -------------------------------------------------------------- commands

  /** In every reachable state the source of every queued command is available, so a completion never
      starts work from a revoked source. */
  lemma QueuedCommandsAreBacked(project: Project, steps: seq<Step>, r: Retained)
    ensures var s := Run(Initial(project), steps);
            r in s.queued && r.request.command.Some? ==>
              && r.request.command.value.source != NoSource
              && SourceOf(s.catalogue, r.request.command.value.source).availability == Available
  {
    ReachableIsInv(project, steps);
    var s := Run(Initial(project), steps);
    hide Inv, Run;
    if r in s.queued && r.request.command.Some? {
      BackedIn(s, r);
    }
  }

  lemma BackedIn(s: State, r: Retained)
    requires Inv(s) && r in s.queued && r.request.command.Some?
    ensures r.request.command.value.source != NoSource
    ensures SourceOf(s.catalogue, r.request.command.value.source).availability == Available
  {
    hide Linked, DeliveredOk, DisplayOk, Synced, Waiting, DeliveryOk;
  }

  /** A source change happens completely or not at all. One that happens raises the catalogue
      revision; a withdrawal holds exactly the queued commands of the withdrawn sources, in order, and
      nothing else leaves the queue. */
  lemma SourceChangesAreAtomic(s: State, source: Source, available: bool)
    ensures !CanChangeSources(s) ==> ChangeSources(s, available) == s
    ensures CanChangeSources(s) ==>
              var c := ChangeSources(s, available).catalogue;
              && c.revision == s.catalogue.revision + 1
              && (forall x :: x != NoSource ==> SourceOf(c, x) == Moved(SourceOf(s.catalogue, x), available))
              && Withdraws(s, ChangeSources(s, available), available, AnyCommand)
    ensures !CanReplaceSource(s, source) ==> ReplaceSource(s, source, available) == s
    ensures CanReplaceSource(s, source) ==>
              var c := ReplaceSource(s, source, available).catalogue;
              && c.revision == s.catalogue.revision + 1
              && SourceOf(c, source) == Moved(SourceOf(s.catalogue, source), available)
              && (forall x :: x != NoSource && x != source ==> SourceOf(c, x) == SourceOf(s.catalogue, x))
              && Withdraws(s, ReplaceSource(s, source, available), available, CommandFrom(source))
  {
    ChangeIsExact(s, available);
    ReplaceIsExact(s, source, available);
  }

  lemma ChangeIsExact(s: State, available: bool)
    ensures CanChangeSources(s) ==>
              var c := ChangeSources(s, available).catalogue;
              && c.revision == s.catalogue.revision + 1
              && (forall x :: x != NoSource ==> SourceOf(c, x) == Moved(SourceOf(s.catalogue, x), available))
              && Withdraws(s, ChangeSources(s, available), available, AnyCommand)
  {
    hide HoldFrom, Refresh, Picked, HeldAs;
    if CanChangeSources(s) && !available {
      var c := s.catalogue;
      var catalogue := Catalogue(c.revision + 1, c.complete, Moved(c.core, available), Moved(c.checks, available),
                                 Moved(c.other, available), Moved(c.skill, available));
      var changed := s.(catalogue := catalogue);
      HoldKeepsCatalogue(changed, 0, AnyCommand);
      RefreshFrame(HoldFrom(changed, 0, AnyCommand, SourceUnavailable));
      HoldWithdraws(s, catalogue, AnyCommand);
    }
  }

  lemma ReplaceIsExact(s: State, source: Source, available: bool)
    ensures CanReplaceSource(s, source) ==>
              var c := ReplaceSource(s, source, available).catalogue;
              && c.revision == s.catalogue.revision + 1
              && SourceOf(c, source) == Moved(SourceOf(s.catalogue, source), available)
              && (forall x :: x != NoSource && x != source ==> SourceOf(c, x) == SourceOf(s.catalogue, x))
              && Withdraws(s, ReplaceSource(s, source, available), available, CommandFrom(source))
  {
    hide HoldFrom, Refresh, Picked, HeldAs;
    if CanReplaceSource(s, source) && !available {
      var catalogue := WithSource(s.catalogue, source, Moved(SourceOf(s.catalogue, source), available)).(revision := s.catalogue.revision + 1);
      var changed := s.(catalogue := catalogue);
      HoldKeepsCatalogue(changed, 0, CommandFrom(source));
      RefreshFrame(HoldFrom(changed, 0, CommandFrom(source), SourceUnavailable));
      HoldWithdraws(s, catalogue, CommandFrom(source));
    }
  }

  /** Which queued commands a source change takes out of the queue. */
  ghost predicate Withdraws(s: State, t: State, available: bool, filter: Filter) {
    if available then t.queued == s.queued && t.recoverable == s.recoverable
    else t.queued == Picked(s.queued, filter, false)
         && t.recoverable == s.recoverable + HeldAs(Picked(s.queued, filter, true), SourceUnavailable)
  }

  lemma HoldWithdraws(s: State, catalogue: Catalogue, filter: Filter)
    ensures Withdraws(s, Refresh(HoldFrom(s.(catalogue := catalogue), 0, filter, SourceUnavailable)), false, filter)
  {
    hide HoldFrom, Refresh, Picked, HeldAs;
    var changed := s.(catalogue := catalogue);
    Steps.HoldFromIsExact(changed, 0, filter, SourceUnavailable);
    assert changed.queued[0..] == s.queued && changed.queued[..0] == [];
    RefreshFrame(HoldFrom(changed, 0, filter, SourceUnavailable));
  }

  lemma {:induction false} HoldKeepsCatalogue(s: State, i: nat, filter: Filter)
    requires i <= |s.queued|
    ensures HoldFrom(s, i, filter, SourceUnavailable).catalogue == s.catalogue
    decreases |s.queued| - i
  {
    hide M.ChangeMessage, Selected;
    if i < |s.queued| {
      if Selected(filter, s.queued[i].request) {
        HoldKeepsCatalogue(HoldAt(s, i, SourceUnavailable), i, filter);
      } else {
        HoldKeepsCatalogue(s, i + 1, filter);
      }
    }
  }

  lemma LaterCatalogue(s: State, t: State, u: State)
    requires Evolves(s, t) && Evolves(t, u)
    requires t.scope != s.scope || t.catalogue.revision != s.catalogue.revision
    ensures u.scope != s.scope || s.catalogue.revision < u.catalogue.revision
  {
    hide ReceiptsEvolve, LedgerEvolves, M.ById;
  }

  /** A capture made before a source change or a reset is refused ever after: at submission, and by
      the owner if it was already submitted. Restoring the source does not revive it. */
  lemma CapturesNeverRevive(s: State, during: seq<Step>, after: seq<Step>, capture: CommandCapture, raw: string, request: Request)
    requires Inv(s) && capture.target.scope == s.scope && capture.catalogueRevision == s.catalogue.revision
    requires request.command == Some(capture) && request.target == capture.target
    requires var t := Run(s, during); t.scope != s.scope || t.catalogue.revision != s.catalogue.revision
    ensures var u := Run(Run(s, during), after);
            CommandRefusal(u, capture, raw).Some? && OwnerRefusal(u, request).Some?
  {
    hide Inv, Run, Evolves, TextBytes, Blank, ArgumentsMatch, CommandName, ProtectedCount;
    var t := Run(s, during);
    var u := Run(t, after);
    RunEvolves(s, during);
    RunKeepsInv(s, during);
    RunEvolves(t, after);
    LaterCatalogue(s, t, u);
  }

  /** After a reset the catalogue alone accepts an old capture exactly when it was made at the initial
      revisions, because revisions begin again; the captured target is what refuses it, as stale. */
  lemma ResetRenewsTheCatalogue(s: State, capture: CommandCapture, raw: string)
    requires s.scope.generation < U64_MAX && CommandRefusal(s, capture, raw).None?
    ensures ValidateCommand(Reset(s).catalogue, capture).None?
            <==> capture.catalogueRevision == 1 && capture.sourceRevision == 1 && capture.definitionRevision == 1
    ensures CommandRefusal(Reset(s), capture, raw)
            == if capture.catalogueRevision == 1 && capture.sourceRevision == 1 && capture.definitionRevision == 1
               then Some(StaleTarget) else Some(StaleCommand)
  {
    hide Requests, Unplaced, TextBytes, Blank, ArgumentsMatch, CommandName, ProtectedCount;
  }
}
