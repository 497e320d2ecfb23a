/** Reconciling and resuming a copy: tools/python/devex_clone_resume.py and devex_clone_transfer.py over the ledger. */
module LedgerResume {
  import opened Options
  import opened LedgerEvents
  import opened LedgerHistory
  import opened LedgerFiles
  import opened LedgerRuns
  import opened LedgerObject

  /** One planned step with the images the plan derives for it; equal images need no write. */
  datatype Item = Item(step: Token, before: Image, after: Image, artifact: Token)

  predicate Noop(item: Item) {
    item.before == item.after
  }

  ghost predicate PlanOk(plan: seq<Item>) {
    && (forall i, j :: 0 <= i < j < |plan| ==> plan[i].step != plan[j].step)
    && (forall i, j :: 0 <= i < j < |plan| ==> plan[i].before.resource != plan[j].before.resource)
    && (forall i :: 0 <= i < |plan| && !Noop(plan[i]) ==> ImagePair(plan[i].before, plan[i].after))
  }

  predicate Matches(step: Step, item: Item) {
    step.before == item.before && step.after == item.after && step.artifact == item.artifact
  }

  ghost predicate Planned(plan: seq<Item>, k: Token, step: Step) {
    exists i :: 0 <= i < |plan| && plan[i].step == k && Matches(step, plan[i])
  }

  /** Every step of the ledger is a planned one, registered with the planned images. */
  ghost predicate FromPlan(plan: seq<Item>, steps: map<Token, Step>) {
    forall k :: k in steps ==> Planned(plan, k, steps[k])
  }

  ghost predicate AllSettled(steps: map<Token, Step>) {
    forall k :: k in steps ==> steps[k].phase == Done || steps[k].phase == Before
  }

  /** The ledger events of one planned step when its write succeeds. */
  function Piece(existing: map<Token, Step>, item: Item): seq<Event> {
    if item.step in existing then
      if existing[item.step].phase == Before
      then [Resumed(item.step, item.before), Confirmed(item.step, item.after)]
      else []
    else if Noop(item) then []
    else [IntentOf(item), Confirmed(item.step, item.after)]
  }

  /** The ledger events of `resume_steps`, or of a first copy when nothing is registered yet. */
  function Work(existing: map<Token, Step>, plan: seq<Item>): seq<Event> {
    if plan == [] then [] else Piece(existing, plan[0]) + Work(existing, plan[1..])
  }

  /** No unregistered step that needs a write is planned before one that waits at its before image. */
  ghost predicate NoGap(existing: map<Token, Step>, plan: seq<Item>) {
    forall i, j :: 0 <= i < j < |plan| && plan[i].step !in existing && !Noop(plan[i]) && plan[j].step in existing
      ==> existing[plan[j].step].phase != Before
  }

  // ---- Progress through the plan ----

  /** A resume session, or the first copy while nothing is registered. */
  ghost predicate Writing(existing: map<Token, Step>, s: State) {
    && s.session.Some? && s.session.value.outcome == Open
    && (s.session.value.mode == Resume || (s.session.value.mode == Apply && existing == map[]))
  }

  /** The steps after the first `i` planned items were handled. */
  ghost predicate Progress(existing: map<Token, Step>, plan: seq<Item>, i: nat, s: State) {
    && i <= |plan|
    && Writing(existing, s)
    && PairedImages(s)
    && FromPlan(plan, s.steps)
    && AllSettled(s.steps)
    && (forall j :: 0 <= j < i && (plan[j].step in existing || !Noop(plan[j])) ==>
          plan[j].step in s.steps && s.steps[plan[j].step].phase == Done)
    && (forall j :: i <= j < |plan| ==> (plan[j].step in s.steps <==> plan[j].step in existing))
    && (forall j :: i <= j < |plan| && plan[j].step in existing ==>
         s.steps[plan[j].step].phase == existing[plan[j].step].phase)
  }

  lemma NoGapTail(existing: map<Token, Step>, plan: seq<Item>)
    requires plan != []
    ensures NoGap(existing, plan) <==>
      && NoGap(existing, plan[1..])
      && (plan[0].step !in existing && !Noop(plan[0]) ==>
           forall j :: 1 <= j < |plan| && plan[j].step in existing ==> existing[plan[j].step].phase != Before)
  {
    var rest := plan[1..];
    if NoGap(existing, plan) {
      forall i, j | 0 <= i < j < |rest| && rest[i].step !in existing && !Noop(rest[i]) && rest[j].step in existing
        ensures existing[rest[j].step].phase != Before
      {
        assert rest[i] == plan[i + 1] && rest[j] == plan[j + 1];
      }
    }
    if NoGap(existing, rest) && (plan[0].step !in existing && !Noop(plan[0]) ==>
         forall j :: 1 <= j < |plan| && plan[j].step in existing ==> existing[plan[j].step].phase != Before) {
      forall i, j | 0 <= i < j < |plan| && plan[i].step !in existing && !Noop(plan[i]) && plan[j].step in existing
        ensures existing[plan[j].step].phase != Before
      {
        if i > 0 { assert rest[i - 1] == plan[i] && rest[j - 1] == plan[j]; }
      }
    }
  }

  /** The state between the authorisation of item `i` and its confirmation. */
  ghost predicate Midway(existing: map<Token, Step>, plan: seq<Item>, i: nat, s: State, t: State) {
    && i < |plan| && Progress(existing, plan, i, s) && Writing(existing, t)
    && plan[i].step in t.steps
    && t.steps == s.steps[plan[i].step := t.steps[plan[i].step]]
    && t.steps[plan[i].step].phase == Unknown
    && t.steps[plan[i].step].session == t.session.value.id
    && Matches(t.steps[plan[i].step], plan[i])
    && ImagePair(plan[i].before, plan[i].after)
  }

  /** The confirmation is accepted and changes only the one step, which is done then. */
  lemma ConfirmAdvance(existing: map<Token, Step>, plan: seq<Item>, i: nat, s: State, index: nat, t: State)
    requires PlanOk(plan) && index > 0 && Midway(existing, plan, i, s, t)
    ensures var k := plan[i].step; var u := Advance(t, index, Confirmed(k, plan[i].after));
            && u.Some? && Writing(existing, u.value) && k in u.value.steps
            && u.value.steps == s.steps[k := u.value.steps[k]]
            && u.value.steps[k].phase == Done && Matches(u.value.steps[k], plan[i])
  {
    hide FromPlan, Planned, PairedImages, AllSettled;
    var k := plan[i].step;
    var u := Advance(t, index, Confirmed(k, plan[i].after)).value;
    assert u.steps == s.steps[k := u.steps[k]];
  }

  lemma ConfirmMidway(existing: map<Token, Step>, plan: seq<Item>, i: nat, s: State, index: nat, t: State)
    requires PlanOk(plan) && index > 0 && Midway(existing, plan, i, s, t)
    ensures var u := Advance(t, index, Confirmed(plan[i].step, plan[i].after));
            u.Some? && Progress(existing, plan, i + 1, u.value)
  {
    hide FromPlan, Planned, Advance, Writing;
    ConfirmAdvance(existing, plan, i, s, index, t);
    var u := Advance(t, index, Confirmed(plan[i].step, plan[i].after)).value;
    FromPlanGrows(plan, s.steps, i, u.steps);
  }

  lemma FromPlanGrows(plan: seq<Item>, steps: map<Token, Step>, i: nat, grown: map<Token, Step>)
    requires i < |plan| && FromPlan(plan, steps) && plan[i].step in grown
    requires grown == steps[plan[i].step := grown[plan[i].step]] && Matches(grown[plan[i].step], plan[i])
    ensures FromPlan(plan, grown)
  {
    forall j | j in grown
      ensures Planned(plan, j, grown[j])
    {
      if j != plan[i].step { assert Planned(plan, j, steps[j]); }
    }
  }

  /** A waiting step resumes. */
  lemma ResumePiece(existing: map<Token, Step>, plan: seq<Item>, i: nat, s: State, index: nat)
    requires PlanOk(plan) && i < |plan| && index > 0 && Progress(existing, plan, i, s)
    requires plan[i].step in existing && existing[plan[i].step].phase == Before
    ensures var t := Advance(s, index, Resumed(plan[i].step, plan[i].before));
            t.Some? && Midway(existing, plan, i, s, t.value)
  {
    var k := plan[i].step;
    assert k in s.steps && s.steps[k].phase == Before;
    assert Planned(plan, k, s.steps[k]);
    assert Matches(s.steps[k], plan[i]);
  }

  function IntentOf(item: Item): Event {
    Intent(item.step, item.before, item.after, item.artifact)
  }

  /** While nothing waits at its before image, everything registered so far is confirmed. */
  lemma NothingWaits(existing: map<Token, Step>, plan: seq<Item>, i: nat, s: State)
    requires i < |plan| && Progress(existing, plan, i, s) && plan[i].step !in existing
    ensures (forall j :: j in s.steps ==> s.steps[j].phase == Done)
      <==> forall j :: i + 1 <= j < |plan| && plan[j].step in existing ==> existing[plan[j].step].phase != Before
  {
    if forall j :: i + 1 <= j < |plan| && plan[j].step in existing ==> existing[plan[j].step].phase != Before {
      forall j | j in s.steps
        ensures s.steps[j].phase == Done
      {
        assert Planned(plan, j, s.steps[j]);
        var p :| 0 <= p < |plan| && plan[p].step == j && Matches(s.steps[j], plan[p]);
        assert !Noop(plan[p]);
      }
    }
  }

  /** An unregistered step is accepted exactly when nothing waits at its before image. */
  lemma IntentAllowed(existing: map<Token, Step>, plan: seq<Item>, i: nat, s: State, index: nat)
    requires PlanOk(plan) && i < |plan| && index > 0 && Progress(existing, plan, i, s)
    requires plan[i].step !in existing && !Noop(plan[i])
    ensures Advance(s, index, IntentOf(plan[i])).Some?
      <==> forall j :: i + 1 <= j < |plan| && plan[j].step in existing ==> existing[plan[j].step].phase != Before
  {
    NothingWaits(existing, plan, i, s);
    forall j | j in s.steps
      ensures s.steps[j].before.resource != plan[i].before.resource
    {
      assert Planned(plan, j, s.steps[j]);
    }
  }

  lemma IntentPiece(existing: map<Token, Step>, plan: seq<Item>, i: nat, s: State, index: nat, t: State)
    requires PlanOk(plan) && i < |plan| && index > 0 && Progress(existing, plan, i, s)
    requires plan[i].step !in existing && !Noop(plan[i])
    requires Advance(s, index, IntentOf(plan[i])) == Some(t)
    ensures Midway(existing, plan, i, s, t)
  {
    AdvanceSteps(s, index, IntentOf(plan[i]), t);
  }

  lemma SkipPiece(existing: map<Token, Step>, plan: seq<Item>, i: nat, s: State)
    requires i < |plan| && Progress(existing, plan, i, s)
    requires Piece(existing, plan[i]) == []
    ensures Progress(existing, plan, i + 1, s)
  {
    if plan[i].step in existing {
      assert s.steps[plan[i].step].phase == existing[plan[i].step].phase;
    }
  }

  lemma AcceptedGrows(events: seq<Event>, more: seq<Event>)
    requires Accepted(events + more)
    ensures Accepted(events)
  {
    ReplayPrefix(events + more, |events|);
    assert (events + more)[..|events|] == events;
  }

  lemma TwoMore(events: seq<Event>, a: Event, b: Event)
    requires Accepted(events)
    ensures Accepted(events + [a, b]) <==>
      && Advance(Replay(events).value, |events|, a).Some?
      && Advance(Advance(Replay(events).value, |events|, a).value, |events| + 1, b).Some?
    ensures Accepted(events + [a, b]) ==>
      Replay(events + [a, b]) == Advance(Advance(Replay(events).value, |events|, a).value, |events| + 1, b)
  {
    ReplayAppend(events, a);
    ReplayAppend(events + [a], b);
    assert events + [a, b] == events + [a] + [b];
  }

  /** One planned step: its events are accepted unless it would jump ahead of a waiting one. */
  lemma PieceAccepted(events: seq<Event>, existing: map<Token, Step>, plan: seq<Item>, i: nat)
    requires Accepted(events) && events != [] && PlanOk(plan) && i < |plan|
    requires Progress(existing, plan, i, Replay(events).value)
    ensures Accepted(events + Piece(existing, plan[i])) <==>
      (plan[i].step !in existing && !Noop(plan[i]) ==>
        forall j :: i + 1 <= j < |plan| && plan[j].step in existing ==> existing[plan[j].step].phase != Before)
    ensures Accepted(events + Piece(existing, plan[i])) ==>
      Progress(existing, plan, i + 1, Replay(events + Piece(existing, plan[i])).value)
  {
    var s := Replay(events).value;
    var piece := Piece(existing, plan[i]);
    hide Progress, PlanOk;
    if piece == [] {
      assert events + piece == events;
      SkipPiece(existing, plan, i, s);
    } else {
      var a, b := piece[0], piece[1];
      assert piece == [a, b];
      TwoMore(events, a, b);
      if plan[i].step in existing {
        ResumePiece(existing, plan, i, s, |events|);
      } else {
        IntentAllowed(existing, plan, i, s, |events|);
      }
      var t := Advance(s, |events|, a);
      if t.Some? {
        if plan[i].step !in existing { IntentPiece(existing, plan, i, s, |events|, t.value); }
        ConfirmMidway(existing, plan, i, s, |events| + 1, t.value);
      }
    }
  }

  /** The rest of the plan is accepted exactly when it has no gap. */
  lemma {:induction false} WorkAccepted(events: seq<Event>, existing: map<Token, Step>, plan: seq<Item>, i: nat)
    requires Accepted(events) && events != [] && PlanOk(plan) && i <= |plan|
    requires Progress(existing, plan, i, Replay(events).value)
    ensures Accepted(events + Work(existing, plan[i..])) <==> NoGap(existing, plan[i..])
    ensures Accepted(events + Work(existing, plan[i..])) ==>
      Progress(existing, plan, |plan|, Replay(events + Work(existing, plan[i..])).value)
    decreases |plan| - i
  {
    var rest := plan[i..];
    if i == |plan| {
      assert events + Work(existing, rest) == events;
    } else {
      var piece, tail := Piece(existing, plan[i]), Work(existing, plan[i + 1..]);
      assert rest[1..] == plan[i + 1..] && rest[0] == plan[i];
      assert events + Work(existing, rest) == (events + piece) + tail;
      PieceAccepted(events, existing, plan, i);
      NoGapTail(existing, rest);
      GapHere(existing, plan, i);
      if Accepted(events + piece) {
        WorkAccepted(events + piece, existing, plan, i + 1);
      } else if Accepted(events + Work(existing, rest)) {
        AcceptedGrows(events + piece, tail);
      }
    }
  }

  lemma GapHere(existing: map<Token, Step>, plan: seq<Item>, i: nat)
    requires i < |plan|
    ensures (forall j :: 1 <= j < |plan[i..]| && plan[i..][j].step in existing ==>
      existing[plan[i..][j].step].phase != Before)
       <==> (forall j :: i + 1 <= j < |plan| && plan[j].step in existing ==> existing[plan[j].step].phase != Before)
  {
    var rest := plan[i..];
    if forall j :: 1 <= j < |rest| && rest[j].step in existing ==> existing[rest[j].step].phase != Before {
      forall j | i + 1 <= j < |plan| && plan[j].step in existing
        ensures existing[plan[j].step].phase != Before
      {
        assert rest[j - i] == plan[j];
      }
    }
    if forall j :: i + 1 <= j < |plan| && plan[j].step in existing ==> existing[plan[j].step].phase != Before {
      forall j | 1 <= j < |rest| && rest[j].step in existing
        ensures existing[rest[j].step].phase != Before
      {
        assert rest[j] == plan[j + i];
      }
    }
  }

  /** Every planned step that needs a write is registered and confirmed. */
  ghost predicate AllPlannedDone(plan: seq<Item>, s: State) {
    && (forall i :: 0 <= i < |plan| && !Noop(plan[i]) ==>
         plan[i].step in s.steps && s.steps[plan[i].step].phase == Done)
    && AllDone(s)
  }

  /** The test at the head of `resume_steps` and `check_continuation`. */
  ghost predicate Resumable(plan: seq<Item>, s: State) {
    && FromPlan(plan, s.steps)
    && AllSettled(s.steps)
    && s.session.Some? && s.session.value.outcome == Partial
  }

  /**
   * From any paused ledger a resume session is accepted to its end, with every planned step confirmed,
   * exactly when no step that is still to be registered comes before a waiting one.
   */
  lemma ResumeCompletes(events: seq<Event>, plan: seq<Item>, session: Token)
    requires Accepted(events) && PlanOk(plan) && Resumable(plan, Replay(events).value)
    requires session !in Replay(events).value.sessions
    ensures var existing := Replay(events).value.steps;
            var full := events + [Opened(session, Resume)] + Work(existing, plan);
            && (Accepted(full) <==> NoGap(existing, plan))
            && (Accepted(full) ==> AllPlannedDone(plan, Replay(full).value))
  {
    var existing := Replay(events).value.steps;
    var started := events + [Opened(session, Resume)];
    StepsWellFormed(events);
    ReplayAppend(events, Opened(session, Resume));
    assert events != [];
    assert Progress(existing, plan, 0, Replay(started).value);
    assert plan[0..] == plan;
    WorkAccepted(started, existing, plan, 0);
    if Accepted(started + Work(existing, plan)) {
      ProgressEnds(existing, plan, Replay(started + Work(existing, plan)).value);
    }
  }

  lemma ProgressEnds(existing: map<Token, Step>, plan: seq<Item>, s: State)
    requires Progress(existing, plan, |plan|, s)
    ensures AllPlannedDone(plan, s)
  {
    forall k | k in s.steps
      ensures s.steps[k].phase == Done
    {
      assert Planned(plan, k, s.steps[k]);
      var p :| 0 <= p < |plan| && plan[p].step == k && Matches(s.steps[k], plan[p]);
    }
  }

  // ---- Intents follow plan order ----

  /** The registered steps are a prefix of the planned writes. */
  ghost predicate InOrder(plan: seq<Item>, steps: map<Token, Step>) {
    forall i, j :: 0 <= i < j < |plan| && !Noop(plan[i]) && !Noop(plan[j]) && plan[j].step in steps ==>
      plan[i].step in steps
  }

  ghost predicate NextInPlan(plan: seq<Item>, i: int, steps: map<Token, Step>, e: Event) {
    && 0 <= i < |plan| && !Noop(plan[i]) && e == IntentOf(plan[i])
    && forall j :: 0 <= j < i && !Noop(plan[j]) ==> plan[j].step in steps
  }

  ghost predicate IntentInPlan(plan: seq<Item>, steps: map<Token, Step>, e: Event) {
    e.Intent? ==> exists i :: NextInPlan(plan, i, steps, e)
  }

  /** Every intent registers the first planned write that is still missing. */
  ghost predicate PlanDriven(plan: seq<Item>, events: seq<Event>)
    requires Accepted(events)
  {
    forall m :: 0 <= m < |events| ==> IntentInPlan(plan, At(events, m).steps, events[m])
  }

  lemma PlanDrivenGrows(plan: seq<Item>, events: seq<Event>, e: Event)
    requires Accepted(events) && Accepted(events + [e]) && PlanDriven(plan, events)
    requires IntentInPlan(plan, Replay(events).value.steps, e)
    ensures PlanDriven(plan, events + [e])
  {
    var grown := events + [e];
    hide IntentInPlan;
    forall m | 0 <= m < |grown|
      ensures IntentInPlan(plan, At(grown, m).steps, grown[m])
    {
      assert grown[..|events|] == events;
      AtPrefix(grown, |events|, m);
      if m == |events| { Final(events); }
    }
  }

  lemma PlanDrivenPrefix(plan: seq<Item>, events: seq<Event>, n: nat)
    requires Accepted(events) && PlanDriven(plan, events) && n <= |events|
    ensures Accepted(events[..n]) && PlanDriven(plan, events[..n])
  {
    ReplayPrefix(events, n);
    hide IntentInPlan;
    forall m | 0 <= m < n
      ensures IntentInPlan(plan, At(events[..n], m).steps, events[..n][m])
    {
      AtPrefix(events, n, m);
      assert IntentInPlan(plan, At(events, m).steps, events[m]);
    }
  }

  /** In a plan-driven journal the registered steps are planned ones and form a prefix of the plan. */
  lemma {:induction false} PlanDrivenInOrder(plan: seq<Item>, events: seq<Event>)
    requires Accepted(events) && PlanOk(plan) && PlanDriven(plan, events)
    ensures InOrder(plan, Replay(events).value.steps) && FromPlan(plan, Replay(events).value.steps)
  {
    if events != [] {
      var n := |events| - 1;
      PlanDrivenPrefix(plan, events, n);
      PlanDrivenInOrder(plan, events[..n]);
      var s, t := Replay(events[..n]).value, Replay(events).value;
      AdvanceSteps(s, n, events[n], t);
      assert At(events, n) == s;
      assert IntentInPlan(plan, s.steps, events[n]);
      OrderStep(plan, s, events[n], t);
    }
  }

  lemma OrderStep(plan: seq<Item>, s: State, e: Event, t: State)
    requires PlanOk(plan) && InOrder(plan, s.steps) && FromPlan(plan, s.steps) && IntentInPlan(plan, s.steps, e)
    requires IsStepEvent(e) ==> s.session.Some? && StepEvent(s, s.session.value, e) == Some(t)
    requires !IsStepEvent(e) ==> t.steps == s.steps
    ensures InOrder(plan, t.steps) && FromPlan(plan, t.steps)
  {
    if e.Intent? {
      var i :| NextInPlan(plan, i, s.steps, e);
      assert Matches(t.steps[e.step], plan[i]);
    }
    forall k | k in t.steps
      ensures Planned(plan, k, t.steps[k])
    {
      if k in s.steps {
        assert Planned(plan, k, s.steps[k]);
        var p :| 0 <= p < |plan| && plan[p].step == k && Matches(s.steps[k], plan[p]);
        assert Matches(t.steps[k], plan[p]);
      }
    }
  }

  lemma InOrderHasNoGap(plan: seq<Item>, s: State)
    requires PlanOk(plan) && InOrder(plan, s.steps) && FromPlan(plan, s.steps) && PairedImages(s)
    ensures NoGap(s.steps, plan)
  {
    forall j: nat | j < |plan| && plan[j].step in s.steps
      ensures !Noop(plan[j])
    {
      RegisteredWrites(plan, s, j);
    }
  }

  /** A planned step that is registered is one that needs a write. */
  lemma RegisteredWrites(plan: seq<Item>, s: State, j: nat)
    requires PlanOk(plan) && FromPlan(plan, s.steps) && PairedImages(s) && j < |plan| && plan[j].step in s.steps
    ensures !Noop(plan[j]) && Matches(s.steps[plan[j].step], plan[j])
  {
    assert Planned(plan, plan[j].step, s.steps[plan[j].step]);
  }

  lemma ProgressIsNext(existing: map<Token, Step>, plan: seq<Item>, i: nat, s: State)
    requires i < |plan| && Progress(existing, plan, i, s) && !Noop(plan[i])
    ensures IntentInPlan(plan, s.steps, IntentOf(plan[i]))
  {
    assert NextInPlan(plan, i, s.steps, IntentOf(plan[i]));
  }

  lemma PieceIsPlanDriven(events: seq<Event>, existing: map<Token, Step>, plan: seq<Item>, i: nat)
    requires Accepted(events) && events != [] && i < |plan| && Progress(existing, plan, i, Replay(events).value)
    requires PlanDriven(plan, events) && Accepted(events + Piece(existing, plan[i]))
    ensures PlanDriven(plan, events + Piece(existing, plan[i]))
  {
    hide PlanDriven, Progress;
    var piece := Piece(existing, plan[i]);
    if piece == [] {
      assert events + piece == events;
    } else {
      var a, b := piece[0], piece[1];
      assert events + piece == events + [a] + [b];
      AcceptedGrows(events + [a], [b]);
      if a.Intent? { ProgressIsNext(existing, plan, i, Replay(events).value); }
      PlanDrivenGrows(plan, events, a);
      PlanDrivenGrows(plan, events + [a], b);
    }
  }

  /** Working through the plan keeps a journal plan-driven, wherever it is cut off. */
  lemma {:induction false} WorkIsPlanDriven(events: seq<Event>, existing: map<Token, Step>, plan: seq<Item>, i: nat,
                                            later: seq<Event>)
    requires Accepted(events) && events != [] && PlanOk(plan) && i <= |plan|
    requires Progress(existing, plan, i, Replay(events).value)
    requires PlanDriven(plan, events) && Accepted(later) && events <= later <= events + Work(existing, plan[i..])
    ensures PlanDriven(plan, later)
    decreases |plan| - i
  {
    hide Progress, PlanDriven, PlanOk, Accepted, IntentInPlan, Piece, Work;
    if later != events {
      NoWork(existing, plan);
      WorkSplits(existing, plan, i);
      var piece, tail := Piece(existing, plan[i]), Work(existing, plan[i + 1..]);
      assert events + Work(existing, plan[i..]) == (events + piece) + tail;
      PieceLength(existing, plan[i]);
      if |later| < |events + piece| {
        assert later == events + [piece[0]];
        FirstIsNext(events, existing, plan, i);
        PlanDrivenGrows(plan, events, piece[0]);
      } else {
        assert later == (events + piece) + later[|events + piece|..];
        AcceptedGrows(events + piece, later[|events + piece|..]);
        PieceAccepted(events, existing, plan, i);
        PieceIsPlanDriven(events, existing, plan, i);
        WorkIsPlanDriven(events + piece, existing, plan, i + 1, later);
      }
    }
  }

  lemma PieceLength(existing: map<Token, Step>, item: Item)
    ensures |Piece(existing, item)| == 0 || |Piece(existing, item)| == 2
  {
  }

  lemma FirstIsNext(events: seq<Event>, existing: map<Token, Step>, plan: seq<Item>, i: nat)
    requires Accepted(events) && i < |plan| && Progress(existing, plan, i, Replay(events).value)
    requires Piece(existing, plan[i]) != []
    ensures IntentInPlan(plan, Replay(events).value.steps, Piece(existing, plan[i])[0])
  {
    hide Progress, NextInPlan, Replay;
    if plan[i].step !in existing {
      ProgressIsNext(existing, plan, i, Replay(events).value);
    }
  }

  lemma WorkSplits(existing: map<Token, Step>, plan: seq<Item>, i: nat)
    requires i < |plan|
    ensures Work(existing, plan[i..]) == Piece(existing, plan[i]) + Work(existing, plan[i + 1..])
  {
    assert plan[i..][1..] == plan[i + 1..];
  }

  lemma NoWork(existing: map<Token, Step>, plan: seq<Item>)
    ensures Work(existing, plan[|plan|..]) == []
  {
  }

  /** The first copy of a plan is accepted to its end and registers its writes in plan order. */
  lemma FirstCopyCompletes(binding: Binding, plan: seq<Item>, session: Token)
    requires PlanOk(plan)
    ensures var full := [Created(binding), Opened(session, Apply)] + Work(map[], plan);
            Accepted(full) && AllPlannedDone(plan, Replay(full).value) && PlanDriven(plan, full)
  {
    var start := [Created(binding), Opened(session, Apply)];
    ReplayAppend([], Created(binding));
    ReplayAppend([Created(binding)], Opened(session, Apply));
    assert [] + [Created(binding)] == [Created(binding)] && [Created(binding)] + [Opened(session, Apply)] == start;
    assert Progress(map[], plan, 0, Replay(start).value);
    assert plan[0..] == plan;
    WorkAccepted(start, map[], plan, 0);
    WorkIsPlanDriven(start, map[], plan, 0, start + Work(map[], plan));
    ProgressEnds(map[], plan, Replay(start + Work(map[], plan)).value);
  }

  // ---- Reconciling everything after a crash ----

  function Observations(order: seq<Token>, seen: map<Token, Image>): seq<Event>
    requires forall i :: 0 <= i < |order| ==> order[i] in seen
  {
    if order == [] then []
    else Observations(order[..|order| - 1], seen) + [Reconciled(order[|order| - 1], seen[order[|order| - 1]])]
  }

  /** A state inside a reconcile session that has classified the first `n` steps of `order`. */
  ghost predicate Classified(was: State, session: Token, order: seq<Token>, n: nat, seen: map<Token, Image>, s: State) {
    && n <= |order| && s.session.Some? && s.session.value.id == session
    && s.session.Some? && s.session.value.outcome == Open && s.session.value.mode == Reconcile
    && s.steps.Keys == was.steps.Keys
    && s.sessions == was.sessions + {session}
    && (forall k :: k in s.session.value.touched <==> k in order[..n])
    && (forall k :: k in s.steps ==> s.steps[k].before == was.steps[k].before && s.steps[k].after == was.steps[k].after
                                      && s.steps[k].artifact == was.steps[k].artifact)
    && (forall k :: k in order[..n] && k in s.steps && k in seen ==>
          s.steps[k].phase == Classify(s.steps[k].before, s.steps[k].after, seen[k]))
  }

  ghost predicate CoversOnce(order: seq<Token>, s: State) {
    && (forall k :: k in order <==> k in s.steps)
    && (forall i, j :: 0 <= i < j < |order| ==> order[i] != order[j])
  }

  lemma ReconcileAdvance(s: State, index: nat, k: Token, observed: Image)
    requires index > 0 && k in s.steps && s.session.Some? && s.session.value.outcome == Open
    requires s.session.value.mode == Reconcile && k !in s.session.value.touched
    ensures var c, step := s.session.value, s.steps[k];
            Advance(s, index, Reconciled(k, observed)) ==
            Some(State(s.steps[k := step.(phase := Classify(step.before, step.after, observed), session := c.id)],
                       Some(c.(touched := c.touched + {k})), s.sessions))
  {
  }

  lemma ClassifyNext(was: State, session: Token, order: seq<Token>, n: nat, seen: map<Token, Image>, s: State,
                     index: nat)
    requires index > 0 && n < |order| && CoversOnce(order, was) && order[n] in seen
    requires Classified(was, session, order, n, seen, s)
    ensures var t := Advance(s, index, Reconciled(order[n], seen[order[n]]));
            t.Some? && Classified(was, session, order, n + 1, seen, t.value)
  {
    hide Advance, Classify;
    var k := order[n];
    NotYetSeen(order, was, n);
    ReconcileAdvance(s, index, k, seen[k]);
  }

  lemma NotYetSeen(order: seq<Token>, was: State, n: nat)
    requires n < |order| && CoversOnce(order, was)
    ensures order[n] in was.steps && order[n] !in order[..n] && order[..n + 1] == order[..n] + [order[n]]
  {
    assert order[n] in order;
  }

  lemma {:induction false} ReconcileAccepted(events: seq<Event>, was: State, session: Token, order: seq<Token>, n: nat,
                                             seen: map<Token, Image>)
    requires Accepted(events) && events != [] && n <= |order| && CoversOnce(order, was)
    requires forall i :: 0 <= i < |order| ==> order[i] in seen
    requires Classified(was, session, order, 0, seen, Replay(events).value)
    ensures Accepted(events + Observations(order[..n], seen))
    ensures Classified(was, session, order, n, seen, Replay(events + Observations(order[..n], seen)).value)
    decreases n
  {
    hide Classified, CoversOnce;
    if n == 0 {
      assert events + Observations(order[..0], seen) == events;
    } else {
      ReconcileAccepted(events, was, session, order, n - 1, seen);
      var k := order[n - 1];
      var sofar := events + Observations(order[..n - 1], seen);
      assert order[..n][..n - 1] == order[..n - 1];
      assert events + Observations(order[..n], seen) == sofar + [Reconciled(k, seen[k])];
      ReplayAppend(sofar, Reconciled(k, seen[k]));
      ClassifyNext(was, session, order, n - 1, seen, Replay(sofar).value, |sofar|);
    }
  }

  /** Every resource shows the before or the after image of its step. */
  ghost predicate SeenClean(s: State, seen: map<Token, Image>) {
    forall k :: k in s.steps ==> k in seen && (seen[k] == s.steps[k].before || seen[k] == s.steps[k].after)
  }

  function ReconcileSession(order: seq<Token>, seen: map<Token, Image>, session: Token): seq<Event>
    requires forall i :: 0 <= i < |order| ==> order[i] in seen
  {
    [Opened(session, Reconcile)] + Observations(order, seen) + [Closed(Partial, None)]
  }

  /** A reconcile session that classifies every step pauses the ledger with all steps settled. */
  lemma ReconcilePauses(events: seq<Event>, order: seq<Token>, seen: map<Token, Image>, session: Token)
    requires Accepted(events) && events != []
    requires CoversOnce(order, Replay(events).value) && session !in Replay(events).value.sessions
    requires forall i :: 0 <= i < |order| ==> order[i] in seen
    ensures var paused := events + ReconcileSession(order, seen, session);
            && Accepted(paused)
            && Replay(paused).value.sessions == Replay(events).value.sessions + {session}
            && Replay(paused).value.session.Some? && Replay(paused).value.session.value.outcome == Partial
            && SameImages(Replay(events).value.steps, Replay(paused).value.steps)
            && (SeenClean(Replay(events).value, seen) ==> AllSettled(Replay(paused).value.steps))
  {
    hide Classified, CoversOnce, SeenClean, AllSettled, SameImages, Advance;
    var s := Replay(events).value;
    var reconciling := events + [Opened(session, Reconcile)];
    ReconcileOpens(events, order, seen, session);
    ReconcileAccepted(reconciling, s, session, order, |order|, seen);
    assert order[..|order|] == order;
    var observed := reconciling + Observations(order, seen);
    ReconcileEnds(observed, s, session, order, seen);
    assert events + ReconcileSession(order, seen, session) == observed + [Closed(Partial, None)];
    ClassifiedSettles(s, session, order, seen, Replay(observed).value);
  }

  lemma ReconcileOpens(events: seq<Event>, order: seq<Token>, seen: map<Token, Image>, session: Token)
    requires Accepted(events) && events != [] && session !in Replay(events).value.sessions
    ensures var reconciling := events + [Opened(session, Reconcile)];
            && Accepted(reconciling)
            && Classified(Replay(events).value, session, order, 0, seen, Replay(reconciling).value)
  {
    ReplayAppend(events, Opened(session, Reconcile));
  }

  lemma ReconcileEnds(events: seq<Event>, was: State, session: Token, order: seq<Token>, seen: map<Token, Image>)
    requires Accepted(events) && events != [] && Classified(was, session, order, |order|, seen, Replay(events).value)
    ensures var closed := events + [Closed(Partial, None)];
            && Accepted(closed)
            && Replay(closed).value.steps == Replay(events).value.steps
            && Replay(closed).value.sessions == was.sessions + {session}
            && Replay(closed).value.session.Some? && Replay(closed).value.session.value.outcome == Partial
  {
    ReplayAppend(events, Closed(Partial, None));
  }

  ghost predicate SameImages(was: map<Token, Step>, now: map<Token, Step>) {
    && now.Keys == was.Keys
    && forall k :: k in now ==> now[k].before == was[k].before && now[k].after == was[k].after
                                && now[k].artifact == was[k].artifact
  }

  lemma ClassifiedSettles(was: State, session: Token, order: seq<Token>, seen: map<Token, Image>, s: State)
    requires Classified(was, session, order, |order|, seen, s) && CoversOnce(order, was)
    ensures SameImages(was.steps, s.steps)
    ensures SeenClean(was, seen) ==> AllSettled(s.steps)
  {
    assert order[..|order|] == order;
  }

  /**
   * From any plan-driven journal, whatever a crash left open, one reconcile session in which every resource shows
   * its before or after image ends in a paused ledger that a resume session carries to completion.
   */
  lemma RecoverDriven(events: seq<Event>, plan: seq<Item>, order: seq<Token>, seen: map<Token, Image>,
                      first: Token, second: Token)
    requires Accepted(events) && events != [] && PlanOk(plan) && PlanDriven(plan, events)
    requires CoversOnce(order, Replay(events).value) && SeenClean(Replay(events).value, seen)
    requires forall i :: 0 <= i < |order| ==> order[i] in seen
    requires first !in Replay(events).value.sessions && second !in Replay(events).value.sessions && first != second
    ensures var paused := events + ReconcileSession(order, seen, first);
            && Accepted(paused)
            && Resumable(plan, Replay(paused).value)
            && var full := paused + [Opened(second, Resume)] + Work(Replay(paused).value.steps, plan);
               Accepted(full) && AllPlannedDone(plan, Replay(full).value)
  {
    hide CoversOnce, PlanDriven;
    var s := Replay(events).value;
    ReconcilePauses(events, order, seen, first);
    var paused := events + ReconcileSession(order, seen, first);
    PlanDrivenInOrder(plan, events);
    hide InOrder, FromPlan, PlanOk, NoGap, SeenClean, AllSettled, PairedImages, ReconcileSession, SameImages;
    KeysKeepOrder(plan, s, Replay(paused).value);
    StepsWellFormed(paused);
    InOrderHasNoGap(plan, Replay(paused).value);
    ResumeCompletes(paused, plan, second);
  }

  lemma KeysKeepOrder(plan: seq<Item>, s: State, t: State)
    requires InOrder(plan, s.steps) && FromPlan(plan, s.steps) && SameImages(s.steps, t.steps)
    ensures InOrder(plan, t.steps) && FromPlan(plan, t.steps)
  {
    forall k | k in t.steps
      ensures Planned(plan, k, t.steps[k])
    {
      assert Planned(plan, k, s.steps[k]);
      var p :| 0 <= p < |plan| && plan[p].step == k && Matches(s.steps[k], plan[p]);
      assert Matches(t.steps[k], plan[p]);
    }
    forall j | 0 <= j < |plan|
      ensures plan[j].step in s.steps <==> plan[j].step in t.steps
    {
      assert plan[j].step in s.steps.Keys <==> plan[j].step in t.steps.Keys;
    }
  }

  // ---- The client loop ----

  ghost function StepsOf(events: seq<Event>): map<Token, Step>
    requires Accepted(events)
  {
    Replay(events).value.steps
  }

  /** How the events and the write of one planned step end. */
  datatype Faults = Faults(stop: Option<Stop>, fits: bool, wrote: bool, stopAfter: Option<Stop>, fitsAfter: bool)

  predicate Clean(f: Faults) {
    f.stop.None? && f.fits && f.wrote && f.stopAfter.None? && f.fitsAfter
  }

  /** An object that is sound and not finished can record these events. */
  ghost predicate Records(l: Ledger, more: seq<Event>) {
    more != [] ==> Writable(l) && !l.mem.finishing && Accepted(EventsOf(l.mem.frames) + more)
  }

  /** Exactly these events were recorded, and the object is as sound as before. */
  ghost predicate Recorded(l: Ledger, more: seq<Event>, n: Ledger) {
    && EventsOf(n.mem.frames) == EventsOf(l.mem.frames) + more
    && (Writable(n) <==> Writable(l)) && n.mem.finishing == l.mem.finishing
  }

  lemma RecordsNone(l: Ledger)
    ensures Records(l, []) && Recorded(l, [], l)
  {
  }

  lemma RecordsSplit(l: Ledger, first: seq<Event>, m: Ledger, second: seq<Event>)
    requires Recorded(l, first, m) && Records(l, first)
    ensures Records(l, first + second) <==> Records(m, second)
  {
    hide Writable, Accepted;
    assert EventsOf(l.mem.frames) + (first + second) == EventsOf(m.mem.frames) + second;
    if second == [] {
      assert first + second == first;
    }
  }

  lemma RecordsPart(l: Ledger, first: seq<Event>, second: seq<Event>)
    requires Records(l, first + second)
    ensures Records(l, first)
  {
    hide Writable, Accepted;
    var events := EventsOf(l.mem.frames);
    if first != [] {
      assert events + (first + second) == (events + first) + second;
      AcceptedGrows(events + first, second);
    }
  }

  lemma RecordedJoin(l: Ledger, first: seq<Event>, m: Ledger, second: seq<Event>, n: Ledger)
    requires Recorded(l, first, m) && Recorded(m, second, n)
    ensures Recorded(l, first + second, n)
  {
    hide Writable, EventsOf;
  }

  /** One event, recorded. */
  lemma RecordsOne(l: Ledger, e: Event, stop: Option<Stop>, fits: bool)
    requires l.mem.frames != []
    ensures !l.mem.finishing && Appends(l, e, stop, fits) <==> Records(l, [e]) && stop.None? && fits
    ensures !l.mem.finishing && Appends(l, e, stop, fits) ==> Recorded(l, [e], Do(l, Append(e, stop, fits)))
  {
    hide Accepted, Readable, EventsOf, NextFrame;
    AppendsIff(l, e, stop, fits);
    AppendOutcome(l, e, stop, fits);
  }

  /**
   * An authorising event, the write, and the confirmation; `wrote` says whether the write and its observation
   * succeeded.
   */
  method RecordPair(ledger: CloneLedger, first: Event, second: Event, faults: Faults)
    returns (done: bool, ghost trace: seq<Action>)
    requires ledger.Entered() && IsStepEvent(first) && IsStepEvent(second)
    modifies ledger`events, ledger`frames, ledger`poisoned, ledger.dir
    ensures ledger.Entered() && Follows(old(ledger.Value()), trace, ledger.Value())
    ensures done <==> Records(old(ledger.Value()), [first, second]) && Clean(faults)
    ensures done ==> Recorded(old(ledger.Value()), [first, second], ledger.Value())
    ensures done ==> ledger.events == old(ledger.events) + [first, second]
    ensures old(ledger.events) <= ledger.events <= old(ledger.events) + [first, second]
  {
    hide Follows, Own, Accepted, EventsOf, Records, Recorded, Appends, Writable, Readable, DoAppend;
    ghost var start := ledger.Value();
    assert [first, second] == [first] + [second];
    EnteredFrames(ledger);
    RecordsOne(start, first, faults.stop, faults.fits);
    done, trace := ledger.Record(first, faults.stop, faults.fits);
    if !done || !faults.wrote {
      if Records(start, [first, second]) {
        RecordsPart(start, [first], [second]);
      }
      return false, trace;
    }
    ghost var middle, more := ledger.Value(), [];
    RecordsSplit(start, [first], middle, [second]);
    EnteredFrames(ledger);
    RecordsOne(middle, second, faults.stopAfter, faults.fitsAfter);
    done, more := ledger.Record(second, faults.stopAfter, faults.fitsAfter);
    FollowsJoin(start, trace, middle, more, ledger.Value());
    trace := trace + more;
    if done {
      RecordedJoin(start, [first], middle, [second], ledger.Value());
    }
  }

  lemma EnteredFrames(ledger: CloneLedger)
    requires ledger.Entered()
    ensures ledger.frames != [] && Accepted(ledger.events) && ledger.events == EventsOf(ledger.frames)
  {
  }

  /** One planned step: nothing to do, a write authorised anew, or a first write. */
  method HandleItem(ledger: CloneLedger, existing: map<Token, Step>, item: Item, faults: Faults)
    returns (done: bool, ghost trace: seq<Action>)
    requires ledger.Entered()
    modifies ledger`events, ledger`frames, ledger`poisoned, ledger.dir
    ensures ledger.Entered() && Follows(old(ledger.Value()), trace, ledger.Value())
    ensures done <==>
      Records(old(ledger.Value()), Piece(existing, item)) && (Piece(existing, item) != [] ==> Clean(faults))
    ensures done ==> Recorded(old(ledger.Value()), Piece(existing, item), ledger.Value())
    ensures done ==> ledger.events == old(ledger.events) + Piece(existing, item)
    ensures old(ledger.events) <= ledger.events <= old(ledger.events) + Piece(existing, item)
  {
    hide Follows, Own, Accepted, EventsOf, Records, Recorded;
    if (item.step in existing && existing[item.step].phase != Before) || (item.step !in existing && Noop(item)) {
      FollowsNone(ledger.Value());
      RecordsNone(ledger.Value());
      return true, [];
    }
    var first := if item.step in existing then Resumed(item.step, item.before) else IntentOf(item);
    done, trace := RecordPair(ledger, first, Confirmed(item.step, item.after), faults);
  }

  /** The write of every planned step that needs one goes through, with its events. */
  ghost predicate AllClean(existing: map<Token, Step>, plan: seq<Item>, faults: nat -> Faults) {
    forall i: nat :: i < |plan| && Piece(existing, plan[i]) != [] ==> Clean(faults(i))
  }

  /** The loop over the planned steps. */
  method WorkThrough(ledger: CloneLedger, existing: map<Token, Step>, plan: seq<Item>, faults: nat -> Faults)
    returns (done: bool, ghost trace: seq<Action>)
    requires ledger.Entered()
    modifies ledger`events, ledger`frames, ledger`poisoned, ledger.dir
    ensures ledger.Entered() && Follows(old(ledger.Value()), trace, ledger.Value())
    ensures done <==> Records(old(ledger.Value()), Work(existing, plan)) && AllClean(existing, plan, faults)
    ensures done ==> Recorded(old(ledger.Value()), Work(existing, plan), ledger.Value())
    ensures old(ledger.events) <= ledger.events <= old(ledger.events) + Work(existing, plan)
    ensures done ==> ledger.events == old(ledger.events) + Work(existing, plan)
  {
    hide Follows, Own, Work, Piece, Accepted, EventsOf, Records, Recorded, Clean;
    ghost var start, were := ledger.Value(), ledger.events;
    FollowsNone(start);
    RecordsNone(start);
    trace := [];
    ghost var work, past := Work(existing, plan), [];
    assert plan[0..] == plan && [] + work == work;
    for i := 0 to |plan|
      invariant ledger.Entered() && Follows(start, trace, ledger.Value())
      invariant past + Work(existing, plan[i..]) == work && ledger.events == were + past
      invariant Records(start, past) && Recorded(start, past, ledger.Value())
      invariant forall j: nat :: j < i && Piece(existing, plan[j]) != [] ==> Clean(faults(j))
    {
      WorkSplits(existing, plan, i);
      ghost var middle, more := ledger.Value(), [];
      ghost var now, piece, rest := ledger.events, Piece(existing, plan[i]), Work(existing, plan[i + 1..]);
      RecordsSplit(start, past, middle, piece);
      done, more := HandleItem(ledger, existing, plan[i], faults(i));
      FollowsJoin(start, trace, middle, more, ledger.Value());
      trace := trace + more;
      PieceDone(were, past, piece, rest, work, now, ledger.events);
      if !done {
        if Records(start, work) {
          RecordsPart(start, past + piece, rest);
        }
        return false, trace;
      }
      RecordedJoin(start, past, middle, piece, ledger.Value());
      past := past + piece;
    }
    NoWork(existing, plan);
    assert past + [] == past;
    done := true;
  }

  /** A writing session that starts from settled steps. */
  ghost predicate Starts(plan: seq<Item>, events: seq<Event>)
    requires Accepted(events)
  {
    PlanOk(plan) && PlanDriven(plan, events) && Writing(StepsOf(events), Replay(events).value)
  }

  lemma StartsProgress(plan: seq<Item>, events: seq<Event>)
    requires Accepted(events) && Starts(plan, events) && AllSettled(StepsOf(events))
    ensures Progress(StepsOf(events), plan, 0, Replay(events).value)
  {
    hide PlanDriven, PlanOk, InOrder, FromPlan, Accepted, Replay, Writing, AllSettled, PairedImages;
    PlanDrivenInOrder(plan, events);
    StepsWellFormed(events);
  }

  lemma ResumeIsPlanDriven(plan: seq<Item>, events: seq<Event>, later: seq<Event>)
    requires Accepted(events) && Accepted(later) && Starts(plan, events) && AllSettled(StepsOf(events))
    requires events <= later <= events + Work(StepsOf(events), plan)
    ensures PlanDriven(plan, later)
  {
    hide PlanDriven, PlanOk, Accepted, Progress, Writing, AllSettled, Work;
    StartsProgress(plan, events);
    assert plan[0..] == plan;
    WritingBegan(StepsOf(events), events);
    WorkIsPlanDriven(events, StepsOf(events), plan, 0, later);
  }

  lemma WritingBegan(existing: map<Token, Step>, events: seq<Event>)
    requires Accepted(events) && Writing(existing, Replay(events).value)
    ensures events != []
  {
  }

  /** What a resumption that nothing disturbs starts from. */
  ghost predicate Resumes(plan: seq<Item>, events: seq<Event>)
    requires Accepted(events)
  {
    Starts(plan, events) && AllSettled(StepsOf(events))
  }

  /** All of the remaining plan is accepted, and leaves every registered step confirmed. */
  lemma ResumesToEnd(plan: seq<Item>, events: seq<Event>)
    requires Accepted(events) && Resumes(plan, events)
    ensures var full := events + Work(StepsOf(events), plan); Accepted(full) && AllDone(Replay(full).value)
    ensures forall k :: k in StepsOf(events) ==> exists i :: 0 <= i < |plan| && plan[i].step == k
  {
    hide PlanDriven, PlanOk, InOrder, FromPlan, Replay, Writing, AllSettled, PairedImages, Work, NoGap, Progress;
    var existing := StepsOf(events);
    PlanDrivenInOrder(plan, events);
    PlannedKeys(plan, existing);
    StepsWellFormed(events);
    InOrderHasNoGap(plan, Replay(events).value);
    StartsProgress(plan, events);
    WritingBegan(existing, events);
    assert plan[0..] == plan;
    WorkAccepted(events, existing, plan, 0);
    ProgressEnds(existing, plan, Replay(events + Work(existing, plan)).value);
  }

  lemma PlannedKeys(plan: seq<Item>, steps: map<Token, Step>)
    requires FromPlan(plan, steps)
    ensures forall k :: k in steps ==> exists i :: 0 <= i < |plan| && plan[i].step == k
  {
    forall k | k in steps
      ensures exists i :: 0 <= i < |plan| && plan[i].step == k
    {
      assert Planned(plan, k, steps[k]);
    }
  }

  /**
   * `resume_steps`: the events recorded are those of the plan, cut short where something failed. A resumption of settled
   * steps that nothing disturbs goes through to `finish`.
   */
  method ResumeSteps(ledger: CloneLedger, plan: seq<Item>, faults: nat -> Faults)
    returns (done: bool, ghost trace: seq<Action>)
    requires ledger.Entered()
    modifies ledger`events, ledger`frames, ledger`poisoned, ledger`finishing, ledger.dir
    ensures ledger.Entered() && Follows(old(ledger.Value()), trace, ledger.Value())
    ensures old(ledger.events) <= ledger.events <= old(ledger.events) + Work(StepsOf(old(ledger.events)), plan)
    ensures done ==> ledger.events == old(ledger.events) + Work(StepsOf(old(ledger.events)), plan)
    ensures done ==> ledger.finishing || StepsOf(ledger.events) == map[]
    ensures Resumes(plan, old(ledger.events)) && Writable(old(ledger.Value())) && !old(ledger.finishing) &&
            ledger.mode != Reconcile ==>
      (done <==> AllClean(StepsOf(old(ledger.events)), plan, faults))
    ensures Starts(plan, old(ledger.events)) ==> PlanDriven(plan, ledger.events)
  {
    hide Follows, Finishable, Work, EventsOf, Starts, PlanDriven, AllClean, AllDone, Recorded, Records, Writable;
    ghost var start, were := ledger.Value(), ledger.events;
    FollowsNone(start);
    StartsDriven(plan, were);
    EnteredFrames(ledger);
    if Resumes(plan, were) {
      ResumesToEnd(plan, were);
    }
    var state := Project(ledger.events);
    var existing := state.value.steps;
    if exists k :: k in existing && !(exists i :: 0 <= i < |plan| && plan[i].step == k) {
      return false, [];
    }
    if exists k :: k in existing && existing[k].phase != Done && existing[k].phase != Before {
      return false, [];
    }
    ResumeRecords(plan, start);
    done, trace := WorkThrough(ledger, existing, plan, faults);
    if Starts(plan, were) {
      ResumeIsPlanDriven(plan, were, ledger.events);
    }
    if !done {
      return;
    }
    state := Project(ledger.events);
    if state.value.steps != map[] {
      ghost var middle, more := ledger.Value(), [];
      WorkedFinishes(start, Work(existing, plan), middle);
      done, more := ledger.Finish();
      FollowsJoin(start, trace, middle, more, ledger.Value());
      trace := trace + more;
    }
  }

  lemma ResumeRecords(plan: seq<Item>, l: Ledger)
    requires Acceptable(l.mem)
    ensures var events := EventsOf(l.mem.frames);
      Resumes(plan, events) && Writable(l) && !l.mem.finishing ==> Records(l, Work(StepsOf(events), plan))
  {
    hide EventsOf, Resumes, Work, Writable, Accepted;
    if Resumes(plan, EventsOf(l.mem.frames)) {
      ResumesToEnd(plan, EventsOf(l.mem.frames));
    }
  }

  /** After the plan's events a session that does not reconcile can be finished. */
  lemma WorkedFinishes(l: Ledger, work: seq<Event>, n: Ledger)
    requires Recorded(l, work, n) && Own(n.mem)
    ensures && Writable(l) && !l.mem.finishing && n.mem.mode != Reconcile && AllDone(StateOf(n.mem))
            && StateOf(n.mem).steps != map[] ==>
      n.mem.active && !n.mem.poisoned && !n.mem.finishing && Finishable(n.mem)
  {
    hide EventsOf, Replay, AllDone;
  }

  lemma StartsDriven(plan: seq<Item>, events: seq<Event>)
    requires Accepted(events)
    ensures Starts(plan, events) ==> PlanDriven(plan, events)
  {
  }

  lemma PieceDone(were: seq<Event>, past: seq<Event>, piece: seq<Event>, rest: seq<Event>, work: seq<Event>,
                  now: seq<Event>, next: seq<Event>)
    requires past + (piece + rest) == work && now == were + past && now <= next <= now + piece
    ensures (past + piece) + rest == work && were <= next <= were + work
    ensures next == now + piece ==> next == were + (past + piece)
  {
    assert past + (piece + rest) == (past + piece) + rest;
    assert were + work == (now + piece) + rest;
  }
}
