/**
 * The journals that the tools themselves write: a first copy, then reconciliations and resumptions in any order, each
 * cut off anywhere. tools/python/devex_clone_resume.py, lines 90-132; devex_clone_ledger.py, lines 188-449.
 */
module LedgerSittings {
  import opened Options
  import opened LedgerEvents
  import opened LedgerHistory
  import opened LedgerResume
  import opened LedgerReconcile

  /**
   * One process over the ledger: it opens a session, records the first `cut` of the events that are due, and may
   * still close the session or record a fault.
   */
  datatype Sitting = Sitting(session: Token, mode: Mode, seen: map<Token, Image>, cut: nat, ends: seq<Event>)

  /** `resume_steps` writes only when every registered step is planned and settled. */
  ghost predicate Ready(existing: map<Token, Step>, plan: seq<Item>) {
    AllSettled(existing) && forall k :: k in existing ==> exists i :: 0 <= i < |plan| && plan[i].step == k
  }

  /** The events that are due in a session. */
  ghost function Due(plan: seq<Item>, existing: map<Token, Step>, s: Sitting): seq<Event> {
    match s.mode
    case Apply => Work(map[], plan)
    case Reconcile => Recon(existing, plan, s.seen)
    case Resume => if Ready(existing, plan) then Work(existing, plan) else []
  }

  predicate Ends(events: seq<Event>) {
    forall e :: e in events ==> e.Closed? || e.Fault?
  }

  /** Only the process that creates the ledger copies for the first time. */
  ghost predicate Sits(plan: seq<Item>, events: seq<Event>, s: Sitting, later: seq<Event>) {
    && Accepted(events) && events != [] && (s.mode == Apply ==> |events| == 1)
    && Accepted(later) && Ends(s.ends)
    && var due := Due(plan, StepsOf(events), s);
       s.cut <= |due| && later == events + [Opened(s.session, s.mode)] + due[..s.cut] + s.ends
  }

  ghost predicate Journals(plan: seq<Item>, journals: seq<seq<Event>>, sittings: seq<Sitting>) {
    && |journals| == |sittings| + 1 && |journals[0]| == 1 && Accepted(journals[0])
    && forall i :: 0 <= i < |sittings| ==> Sits(plan, journals[i], sittings[i], journals[i + 1])
  }

  ghost predicate ProducedBy(plan: seq<Item>, events: seq<Event>, journals: seq<seq<Event>>, sittings: seq<Sitting>) {
    Journals(plan, journals, sittings) && journals[|sittings|] == events
  }

  ghost predicate Produced(plan: seq<Item>, events: seq<Event>) {
    exists journals, sittings :: ProducedBy(plan, events, journals, sittings)
  }

  // ---- They follow the plan ----

  lemma OpenedIsPlanDriven(plan: seq<Item>, events: seq<Event>, session: Token, mode: Mode)
    requires Accepted(events) && PlanDriven(plan, events) && Accepted(events + [Opened(session, mode)])
    ensures PlanDriven(plan, events + [Opened(session, mode)])
    ensures StepsOf(events + [Opened(session, mode)]) == StepsOf(events)
  {
    PlanDrivenGrows(plan, events, Opened(session, mode));
    hide PlanDriven;
    ReplayAppend(events, Opened(session, mode));
  }

  lemma CreatedOnly(events: seq<Event>)
    requires Accepted(events) && |events| == 1
    ensures Replay(events) == Some(Initial)
  {
    assert events[..0] == [];
  }

  /** Whatever the session was to write, its journal stays plan-driven where it is cut off. */
  lemma DueIsPlanDriven(plan: seq<Item>, events: seq<Event>, s: Sitting, later: seq<Event>)
    requires PlanOk(plan) && Accepted(events) && events != [] && PlanDriven(plan, events)
    requires s.mode == Apply ==> |events| == 1
    requires var started := events + [Opened(s.session, s.mode)];
      Accepted(later) && started <= later <= started + Due(plan, StepsOf(events), s)
    ensures PlanDriven(plan, later)
  {
    hide PlanOk, PlanDriven, Work, Recon, AllSettled;
    var started := events + [Opened(s.session, s.mode)];
    assert later == started + later[|started|..];
    AcceptedGrows(started, later[|started|..]);
    OpenedIsPlanDriven(plan, events, s.session, s.mode);
    if s.mode == Reconcile {
      ReconIsPlanDriven(plan, started, StepsOf(events), plan, s.seen, later);
    } else if later != started {
      if s.mode == Apply { CreatedOnly(events); }
      OpenedWrites(events, s.session, s.mode);
      hide Accepted, Replay;
      assert AllSettled(StepsOf(started)) by { NothingSettled(StepsOf(started)); }
      ResumeIsPlanDriven(plan, started, later);
    }
  }

  lemma NothingSettled(steps: map<Token, Step>)
    ensures steps == map[] ==> AllSettled(steps)
  {
  }

  lemma OpenedWrites(events: seq<Event>, session: Token, mode: Mode)
    requires Accepted(events) && events != [] && Accepted(events + [Opened(session, mode)])
    requires mode == Resume || (mode == Apply && StepsOf(events) == map[])
    ensures Writing(StepsOf(events), Replay(events + [Opened(session, mode)]).value)
  {
    ReplayAppend(events, Opened(session, mode));
  }

  lemma SittingIsPlanDriven(plan: seq<Item>, events: seq<Event>, s: Sitting, later: seq<Event>)
    requires PlanOk(plan) && Sits(plan, events, s, later) && PlanDriven(plan, events)
    ensures PlanDriven(plan, later)
  {
    hide PlanOk, PlanDriven, Due, Accepted;
    var due := Due(plan, StepsOf(events), s);
    var started := events + [Opened(s.session, s.mode)];
    var cut := started + due[..s.cut];
    AcceptedGrows(cut, s.ends);
    assert started + due == cut + due[s.cut..];
    DueIsPlanDriven(plan, events, s, cut);
    QuietIsPlanDriven(plan, cut, s.ends);
  }

  lemma CreatedIsPlanDriven(plan: seq<Item>, events: seq<Event>)
    requires Accepted(events) && |events| == 1
    ensures PlanDriven(plan, events)
  {
    assert events[..0] == [];
    assert !events[0].Intent?;
  }

  /** Every journal of any sequence of sessions is accepted, and its intents follow the plan. */
  lemma {:induction false} JournalsArePlanDriven(plan: seq<Item>, journals: seq<seq<Event>>, sittings: seq<Sitting>)
    requires PlanOk(plan) && Journals(plan, journals, sittings)
    ensures Accepted(journals[|sittings|]) && journals[|sittings|] != [] && PlanDriven(plan, journals[|sittings|])
    decreases |sittings|
  {
    hide PlanOk, PlanDriven, Sits, Accepted;
    if sittings == [] {
      CreatedIsPlanDriven(plan, journals[0]);
    } else {
      var n := |sittings| - 1;
      JournalsArePlanDriven(plan, journals[..n + 1], sittings[..n]);
      SitsAccepted(plan, journals[n], sittings[n], journals[n + 1]);
      SittingIsPlanDriven(plan, journals[n], sittings[n], journals[n + 1]);
    }
  }

  lemma SitsAccepted(plan: seq<Item>, events: seq<Event>, s: Sitting, later: seq<Event>)
    requires Sits(plan, events, s, later)
    ensures Accepted(later) && later != []
  {
  }

  lemma ProducedIsPlanDriven(plan: seq<Item>, events: seq<Event>)
    requires PlanOk(plan) && Produced(plan, events)
    ensures Accepted(events) && events != [] && PlanDriven(plan, events)
  {
    hide PlanOk, PlanDriven, Journals, Accepted;
    var journals, sittings :| ProducedBy(plan, events, journals, sittings);
    JournalsArePlanDriven(plan, journals, sittings);
  }

  lemma ProducedGrows(plan: seq<Item>, events: seq<Event>, s: Sitting, later: seq<Event>)
    requires Produced(plan, events) && Sits(plan, events, s, later)
    ensures Produced(plan, later)
  {
    hide Sits, Accepted;
    var journals, sittings :| ProducedBy(plan, events, journals, sittings);
    assert ProducedBy(plan, later, journals + [later], sittings + [s]);
  }

  // ---- Recovery ----

  /** In a produced journal that paused with settled steps a resumption cut off anywhere leaves a produced journal. */
  lemma ResumeCut(plan: seq<Item>, events: seq<Event>, session: Token, cut: nat)
    requires PlanOk(plan) && Produced(plan, events) && Accepted(events)
    requires Resumable(plan, Replay(events).value) && session !in Replay(events).value.sessions
    requires cut <= |Work(StepsOf(events), plan)|
    ensures var later := events + [Opened(session, Resume)] + Work(StepsOf(events), plan)[..cut];
      Accepted(later) && Produced(plan, later)
  {
    hide PlanOk, PlanDriven, Produced, NoGap, Work, FromPlan, AllSettled, InOrder;
    ProducedIsPlanDriven(plan, events);
    PlanDrivenInOrder(plan, events);
    StepsWellFormed(events);
    InOrderHasNoGap(plan, Replay(events).value);
    ResumeCompletes(events, plan, session);
    var work := Work(StepsOf(events), plan);
    var started := events + [Opened(session, Resume)];
    assert started + work == (started + work[..cut]) + work[cut..];
    AcceptedGrows(started + work[..cut], work[cut..]);
    var s := Sitting(session, Resume, map[], cut, []);
    FromPlanPlanned(plan, StepsOf(events));
    assert started + work[..cut] + [] == started + work[..cut];
    ProducedGrows(plan, events, s, started + work[..cut]);
  }

  lemma FromPlanPlanned(plan: seq<Item>, steps: map<Token, Step>)
    requires FromPlan(plan, steps)
    ensures forall k :: k in steps ==> exists i :: 0 <= i < |plan| && plan[i].step == k
  {
    forall k | k in steps
      ensures exists i :: 0 <= i < |plan| && plan[i].step == k
    {
      assert Planned(plan, k, steps[k]);
    }
  }

  /**
   * From any journal the tools produced, whatever crashes left open, one reconcile session in which every resource
   * shows its before or after image ends in a paused ledger that a resume session carries to completion.
   */
  lemma RecoveryCompletes(events: seq<Event>, plan: seq<Item>, order: seq<Token>, seen: map<Token, Image>,
                          first: Token, second: Token)
    requires PlanOk(plan) && Produced(plan, events)
    requires Accepted(events) && CoversOnce(order, Replay(events).value) && SeenClean(Replay(events).value, seen)
    requires forall i :: 0 <= i < |order| ==> order[i] in seen
    requires first !in Replay(events).value.sessions && second !in Replay(events).value.sessions && first != second
    ensures var paused := events + ReconcileSession(order, seen, first);
            && Accepted(paused)
            && Resumable(plan, Replay(paused).value)
            && var full := paused + [Opened(second, Resume)] + Work(Replay(paused).value.steps, plan);
               Accepted(full) && AllPlannedDone(plan, Replay(full).value)
  {
    hide *;
    ProducedIsPlanDriven(plan, events);
    RecoverDriven(events, plan, order, seen, first, second);
  }

  /** What `reconcile_steps` records, closed as partial, is a ledger that `resume_steps` carries to completion. */
  lemma ReconcileThenResume(events: seq<Event>, plan: seq<Item>, seen: map<Token, Image>, first: Token, second: Token)
    requires PlanOk(plan) && Produced(plan, events)
    requires Accepted(events) && AllFit(Replay(events).value.steps, plan, seen) && SeenClean(Replay(events).value, seen)
    requires first !in Replay(events).value.sessions && second !in Replay(events).value.sessions && first != second
    ensures var existing := Replay(events).value.steps;
            var paused := events + ([Opened(first, Reconcile)] + Recon(existing, plan, seen) + [Closed(Partial, None)]);
            && Accepted(paused) && Produced(plan, paused)
            && var full := paused + [Opened(second, Resume)] + Work(Replay(paused).value.steps, plan);
               Accepted(full) && AllPlannedDone(plan, Replay(full).value)
  {
    hide *;
    ProducedIsPlanDriven(plan, events);
    ReconcileResumes(events, plan, seen, first, second);
    PausedIsProduced(events, plan, seen, first);
  }

  lemma PausedIsProduced(events: seq<Event>, plan: seq<Item>, seen: map<Token, Image>, session: Token)
    requires Produced(plan, events) && Accepted(events) && events != []
    requires var recon := Recon(Replay(events).value.steps, plan, seen);
      Accepted(events + ([Opened(session, Reconcile)] + recon + [Closed(Partial, None)]))
    ensures var recon := Recon(Replay(events).value.steps, plan, seen);
      Produced(plan, events + ([Opened(session, Reconcile)] + recon + [Closed(Partial, None)]))
  {
    hide Produced, Recon, Accepted;
    var recon := Recon(StepsOf(events), plan, seen);
    var s := Sitting(session, Reconcile, seen, |recon|, [Closed(Partial, None)]);
    var later := events + ([Opened(session, Reconcile)] + recon + [Closed(Partial, None)]);
    assert recon[..|recon|] == recon;
    assert later == events + [Opened(session, Reconcile)] + recon + [Closed(Partial, None)];
    ProducedGrows(plan, events, s, later);
  }
}
