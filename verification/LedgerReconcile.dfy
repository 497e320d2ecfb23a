/**
 * Reconciling and continuing a ledger: tools/python/devex_clone_resume.py, lines 90-132; devex_clone_transfer.py,
 * lines 384-492.
 */
module LedgerReconcile {
  import opened Options
  import opened LedgerEvents
  import opened LedgerHistory
  import opened LedgerFiles
  import opened LedgerRuns
  import opened LedgerObject
  import opened LedgerResume

  /** The reconciliations of the registered steps, in plan order. */
  function Recon(existing: map<Token, Step>, plan: seq<Item>, seen: map<Token, Image>): seq<Event> {
    if plan == [] then []
    else
      var item := plan[|plan| - 1];
      Recon(existing, plan[..|plan| - 1], seen)
      + if item.step in existing && item.step in seen then [Reconciled(item.step, seen[item.step])] else []
  }

  /**
   * The observation fits the item: a registered step has the planned images, an unregistered one still looks as
   * before.
   */
  predicate Fits(existing: map<Token, Step>, item: Item, seen: map<Token, Image>) {
    && item.step in seen
    && if item.step in existing then Matches(existing[item.step], item) else seen[item.step] == item.before
  }

  predicate AllFit(existing: map<Token, Step>, plan: seq<Item>, seen: map<Token, Image>) {
    forall i :: 0 <= i < |plan| ==> Fits(existing, plan[i], seen)
  }

  function Flat(batches: seq<seq<Item>>): seq<Item> {
    if batches == [] then [] else Flat(batches[..|batches| - 1]) + batches[|batches| - 1]
  }

  lemma {:induction false} ReconJoins(existing: map<Token, Step>, a: seq<Item>, b: seq<Item>, seen: map<Token, Image>)
    ensures Recon(existing, a + b, seen) == Recon(existing, a, seen) + Recon(existing, b, seen)
    decreases |b|
  {
    if b == [] {
      assert a + b == a;
    } else {
      var n := |b| - 1;
      assert (a + b)[..|a| + n] == a + b[..n];
      ReconJoins(existing, a, b[..n], seen);
    }
  }

  method BatchFits(existing: map<Token, Step>, batch: seq<Item>, seen: map<Token, Image>) returns (ok: bool)
    ensures ok <==> AllFit(existing, batch, seen)
  {
    for i := 0 to |batch|
      invariant AllFit(existing, batch[..i], seen)
    {
      if !Fits(existing, batch[i], seen) {
        return false;
      }
      assert batch[..i + 1] == batch[..i] + [batch[i]];
    }
    assert batch[..|batch|] == batch;
    ok := true;
  }

  /** No reconciliation of these steps is cut off or refused for its size. */
  ghost predicate AllWritten(existing: map<Token, Step>, plan: seq<Item>, stops: Token -> Option<Stop>, fits: Token -> bool) {
    forall i :: 0 <= i < |plan| && plan[i].step in existing ==> stops(plan[i].step).None? && fits(plan[i].step)
  }

  /** The reconciliations of one batch that fits. */
  method RecordBatch(ledger: CloneLedger, existing: map<Token, Step>, batch: seq<Item>, seen: map<Token, Image>,
                     stops: Token -> Option<Stop>, fits: Token -> bool)
    returns (done: bool, ghost trace: seq<LedgerRuns.Action>)
    requires ledger.Entered() && AllFit(existing, batch, seen)
    modifies ledger`events, ledger`frames, ledger`poisoned, ledger.dir
    ensures ledger.Entered() && Follows(old(ledger.Value()), trace, ledger.Value())
    ensures done <==>
      Records(old(ledger.Value()), Recon(existing, batch, seen)) && AllWritten(existing, batch, stops, fits)
    ensures done ==> Recorded(old(ledger.Value()), Recon(existing, batch, seen), ledger.Value())
    ensures old(ledger.events) <= ledger.events <= old(ledger.events) + Recon(existing, batch, seen)
    ensures done ==> ledger.events == old(ledger.events) + Recon(existing, batch, seen)
  {
    hide Follows, Own, Accepted, EventsOf, Recon, Records, Recorded;
    ghost var start := ledger.Value();
    FollowsNone(start);
    RecordsNone(start);
    done, trace := true, [];
    ReconNone(existing, batch[..0], seen);
    for i := 0 to |batch|
      invariant ledger.Entered() && Follows(start, trace, ledger.Value()) && done
      invariant ledger.events == old(ledger.events) + Recon(existing, batch[..i], seen)
      invariant Records(start, Recon(existing, batch[..i], seen))
      invariant Recorded(start, Recon(existing, batch[..i], seen), ledger.Value())
      invariant AllWritten(existing, batch[..i], stops, fits)
    {
      ReconStep(existing, batch, i, seen);
      assert Fits(existing, batch[i], seen);
      ghost var past := Recon(existing, batch[..i], seen);
      assert past + [] == past;
      if batch[i].step in existing {
        ghost var middle, more := ledger.Value(), [];
        var k := batch[i].step;
        done, more := RecordOne(ledger, Reconciled(k, seen[k]), stops(k), fits(k), start, past);
        FollowsJoin(start, trace, middle, more, ledger.Value());
        trace := trace + more;
        if !done {
          WholeFails(existing, batch, i, seen, start, stops, fits);
          return;
        }
      }
    }
    assert batch[..|batch|] == batch;
  }

  /** One more event after those recorded so far. */
  method RecordOne(ledger: CloneLedger, e: Event, stop: Option<Stop>, fits: bool, ghost start: Ledger, ghost past: seq<Event>)
    returns (done: bool, ghost trace: seq<LedgerRuns.Action>)
    requires ledger.Entered() && IsStepEvent(e) && Records(start, past) && Recorded(start, past, ledger.Value())
    modifies ledger`events, ledger`frames, ledger`poisoned, ledger.dir
    ensures ledger.Entered() && Follows(old(ledger.Value()), trace, ledger.Value())
    ensures done <==> Records(start, past + [e]) && stop.None? && fits
    ensures done ==> Recorded(start, past + [e], ledger.Value())
    ensures ledger.events == old(ledger.events) + if done then [e] else []
  {
    hide Follows, Own, Accepted, EventsOf, Records, Recorded, Appends, Writable, DoAppend;
    EnteredFrames(ledger);
    ghost var middle := ledger.Value();
    RecordsSplit(start, past, middle, [e]);
    RecordsOne(middle, e, stop, fits);
    done, trace := ledger.Record(e, stop, fits);
    if done {
      RecordedJoin(start, past, middle, [e], ledger.Value());
    }
  }

  /** If the reconciliation of item `i` fails, so does the whole batch. */
  lemma WholeFails(existing: map<Token, Step>, plan: seq<Item>, i: nat, seen: map<Token, Image>, l: Ledger,
                   stops: Token -> Option<Stop>, fits: Token -> bool)
    requires i < |plan| && plan[i].step in existing && plan[i].step in seen
    requires !(Records(l, Recon(existing, plan[..i + 1], seen)) && stops(plan[i].step).None? && fits(plan[i].step))
    ensures !(Records(l, Recon(existing, plan, seen)) && AllWritten(existing, plan, stops, fits))
  {
    hide Records, Recon;
    ReconStep(existing, plan, i, seen);
    var now, whole := Recon(existing, plan[..i + 1], seen), Recon(existing, plan, seen);
    if Records(l, whole) {
      assert now + whole[|now|..] == whole;
      RecordsPart(l, now, whole[|now|..]);
    }
  }

  lemma ReconNone(existing: map<Token, Step>, plan: seq<Item>, seen: map<Token, Image>)
    requires plan == []
    ensures Recon(existing, plan, seen) == []
  {
  }

  /** One batch is observed and checked as a whole before any of its steps is classified. */
  method ReconcileBatch(ledger: CloneLedger, existing: map<Token, Step>, batch: seq<Item>, seen: map<Token, Image>,
                        stops: Token -> Option<Stop>, fits: Token -> bool)
    returns (done: bool, ghost trace: seq<LedgerRuns.Action>)
    requires ledger.Entered()
    modifies ledger`events, ledger`frames, ledger`poisoned, ledger.dir
    ensures ledger.Entered() && Follows(old(ledger.Value()), trace, ledger.Value())
    ensures done <==>
      && AllFit(existing, batch, seen)
      && Records(old(ledger.Value()), Recon(existing, batch, seen)) && AllWritten(existing, batch, stops, fits)
    ensures done ==> Recorded(old(ledger.Value()), Recon(existing, batch, seen), ledger.Value())
    ensures old(ledger.events) <= ledger.events <= old(ledger.events) + Recon(existing, batch, seen)
    ensures done ==> ledger.events == old(ledger.events) + Recon(existing, batch, seen)
    ensures !AllFit(existing, batch, seen) ==> ledger.events == old(ledger.events)
  {
    hide Follows, Own, Accepted, EventsOf, Recon, AllFit, Records, Recorded, AllWritten;
    var fit := BatchFits(existing, batch, seen);
    FollowsNone(ledger.Value());
    done, trace := false, [];
    if fit {
      done, trace := RecordBatch(ledger, existing, batch, seen, stops, fits);
    }
  }

  lemma {:induction false} ReconStep(existing: map<Token, Step>, plan: seq<Item>, i: nat, seen: map<Token, Image>)
    requires i < |plan|
    ensures Recon(existing, plan[..i + 1], seen) == Recon(existing, plan[..i], seen)
      + if plan[i].step in existing && plan[i].step in seen then [Reconciled(plan[i].step, seen[plan[i].step])] else []
    ensures Recon(existing, plan[..i + 1], seen) <= Recon(existing, plan, seen)
  {
    assert plan[..i + 1][..i] == plan[..i];
    assert plan[..i + 1] + plan[i + 1..] == plan;
    ReconJoins(existing, plan[..i + 1], plan[i + 1..], seen);
  }

  lemma FlatStep(batches: seq<seq<Item>>, i: nat)
    requires i < |batches|
    ensures Flat(batches[..i + 1]) == Flat(batches[..i]) + batches[i]
  {
    assert batches[..i + 1][..i] == batches[..i];
  }

  lemma {:induction false} FlatPrefix(batches: seq<seq<Item>>, i: nat)
    requires i <= |batches|
    ensures Flat(batches[..i]) <= Flat(batches)
    decreases |batches| - i
  {
    if i == |batches| {
      assert batches[..i] == batches;
    } else {
      FlatStep(batches, i);
      FlatPrefix(batches, i + 1);
    }
  }

  lemma ReconPrefix(existing: map<Token, Step>, a: seq<Item>, b: seq<Item>, seen: map<Token, Image>)
    requires a <= b
    ensures Recon(existing, a, seen) <= Recon(existing, b, seen)
  {
    assert a + b[|a|..] == b;
    ReconJoins(existing, a, b[|a|..], seen);
  }

  method ReconcileAll(ledger: CloneLedger, existing: map<Token, Step>, batches: seq<seq<Item>>, seen: map<Token, Image>,
                      stops: Token -> Option<Stop>, fits: Token -> bool)
    returns (done: bool, ghost trace: seq<LedgerRuns.Action>)
    requires ledger.Entered()
    modifies ledger`events, ledger`frames, ledger`poisoned, ledger.dir
    ensures ledger.Entered() && Follows(old(ledger.Value()), trace, ledger.Value())
    ensures done <==>
      && AllFit(existing, Flat(batches), seen)
      && Records(old(ledger.Value()), Recon(existing, Flat(batches), seen))
      && AllWritten(existing, Flat(batches), stops, fits)
    ensures old(ledger.events) <= ledger.events <= old(ledger.events) + Recon(existing, Flat(batches), seen)
    ensures done ==> ledger.events == old(ledger.events) + Recon(existing, Flat(batches), seen)
  {
    hide Follows, Own, EventsOf, Accepted, Fits, Recon, Flat, AllFit, AllWritten, Records, Recorded;
    ghost var start, were := ledger.Value(), ledger.events;
    FollowsNone(start);
    RecordsNone(start);
    done, trace := true, [];
    NothingYet(existing, batches[..0], seen, stops, fits);
    for i := 0 to |batches|
      invariant ledger.Entered() && Follows(start, trace, ledger.Value()) && done
      invariant ledger.events == were + Recon(existing, Flat(batches[..i]), seen)
      invariant AllFit(existing, Flat(batches[..i]), seen) && AllWritten(existing, Flat(batches[..i]), stops, fits)
      invariant Records(start, Recon(existing, Flat(batches[..i]), seen))
      invariant Recorded(start, Recon(existing, Flat(batches[..i]), seen), ledger.Value())
    {
      BatchStep(existing, batches, i, seen, stops, fits);
      ghost var middle, more := ledger.Value(), [];
      ghost var now := ledger.events;
      ghost var past, piece := Recon(existing, Flat(batches[..i]), seen), Recon(existing, batches[i], seen);
      RecordsSplit(start, past, middle, piece);
      done, more := ReconcileBatch(ledger, existing, batches[i], seen, stops, fits);
      FollowsJoin(start, trace, middle, more, ledger.Value());
      trace := trace + more;
      WithinWhole(were, now, ledger.events, past, piece, Recon(existing, Flat(batches), seen));
      if !done {
        LaterFails(start, past + piece, Recon(existing, Flat(batches), seen));
        return;
      }
      RecordedJoin(start, past, middle, piece, ledger.Value());
    }
    assert batches[..|batches|] == batches;
  }

  lemma LaterFails(l: Ledger, now: seq<Event>, whole: seq<Event>)
    requires now <= whole
    ensures Records(l, whole) ==> Records(l, now)
  {
    hide Records;
    if Records(l, whole) {
      assert now + whole[|now|..] == whole;
      RecordsPart(l, now, whole[|now|..]);
    }
  }

  lemma NothingYet(existing: map<Token, Step>, batches: seq<seq<Item>>, seen: map<Token, Image>,
                   stops: Token -> Option<Stop>, fits: Token -> bool)
    requires batches == []
    ensures Recon(existing, Flat(batches), seen) == [] && AllFit(existing, Flat(batches), seen)
    ensures AllWritten(existing, Flat(batches), stops, fits)
  {
  }

  lemma BatchStep(existing: map<Token, Step>, batches: seq<seq<Item>>, i: nat, seen: map<Token, Image>,
                  stops: Token -> Option<Stop>, fits: Token -> bool)
    requires i < |batches|
    ensures var past, batch, now := Flat(batches[..i]), batches[i], Flat(batches[..i + 1]);
            && Recon(existing, now, seen) == Recon(existing, past, seen) + Recon(existing, batch, seen)
            && Recon(existing, now, seen) <= Recon(existing, Flat(batches), seen)
            && (AllFit(existing, now, seen) <==> AllFit(existing, past, seen) && AllFit(existing, batch, seen))
            && (AllFit(existing, Flat(batches), seen) ==> AllFit(existing, now, seen))
            && (AllWritten(existing, now, stops, fits) <==>
                 AllWritten(existing, past, stops, fits) && AllWritten(existing, batch, stops, fits))
            && (AllWritten(existing, Flat(batches), stops, fits) ==> AllWritten(existing, now, stops, fits))
  {
    hide Recon, AllFit, AllWritten;
    FlatStep(batches, i);
    FlatPrefix(batches, i + 1);
    var past, batch, now := Flat(batches[..i]), batches[i], Flat(batches[..i + 1]);
    ReconJoins(existing, past, batch, seen);
    ReconPrefix(existing, now, Flat(batches), seen);
    AllJoin(existing, past, batch, seen, stops, fits);
    AllJoin(existing, now, Flat(batches)[|now|..], seen, stops, fits);
    assert now + Flat(batches)[|now|..] == Flat(batches);
  }

  lemma AllJoin(existing: map<Token, Step>, a: seq<Item>, b: seq<Item>, seen: map<Token, Image>,
                stops: Token -> Option<Stop>, fits: Token -> bool)
    ensures AllFit(existing, a + b, seen) <==> AllFit(existing, a, seen) && AllFit(existing, b, seen)
    ensures AllWritten(existing, a + b, stops, fits) <==>
      AllWritten(existing, a, stops, fits) && AllWritten(existing, b, stops, fits)
  {
    hide Fits;
    var c := a + b;
    assert forall i :: 0 <= i < |a| ==> c[i] == a[i];
    assert forall i :: 0 <= i < |b| ==> c[|a| + i] == b[i];
    if AllFit(existing, a, seen) && AllFit(existing, b, seen) {
      forall i | 0 <= i < |c|
        ensures Fits(existing, c[i], seen)
      {
        assert i >= |a| ==> c[i] == b[i - |a|];
      }
    }
    if AllWritten(existing, a, stops, fits) && AllWritten(existing, b, stops, fits) {
      forall i | 0 <= i < |c| && c[i].step in existing
        ensures stops(c[i].step).None? && fits(c[i].step)
      {
        assert i >= |a| ==> c[i] == b[i - |a|];
      }
    }
  }

  /**
   * `reconcile_steps`: the databases are one batch, the objects come in bounded ones; `seen` is what they look
   * like.
   */
  method ReconcileSteps(ledger: CloneLedger, batches: seq<seq<Item>>, seen: map<Token, Image>,
                        stops: Token -> Option<Stop>, fits: Token -> bool)
    returns (done: bool, ghost trace: seq<LedgerRuns.Action>)
    requires ledger.Entered()
    modifies ledger`events, ledger`frames, ledger`poisoned, ledger.dir
    ensures ledger.Entered() && Follows(old(ledger.Value()), trace, ledger.Value())
    ensures var recon := Recon(StepsOf(old(ledger.events)), Flat(batches), seen);
            && old(ledger.events) <= ledger.events <= old(ledger.events) + recon
            && (done ==> ledger.events == old(ledger.events) + recon)
            && (done <==>
                 && Covers(Flat(batches), StepsOf(old(ledger.events)))
                 && AllFit(StepsOf(old(ledger.events)), Flat(batches), seen)
                 && Records(old(ledger.Value()), recon)
                 && AllWritten(StepsOf(old(ledger.events)), Flat(batches), stops, fits))
    ensures PlanDriven(Flat(batches), old(ledger.events)) ==> PlanDriven(Flat(batches), ledger.events)
  {
    hide Follows, EventsOf, Recon, AllFit, PlanDriven, Records, AllWritten;
    FollowsNone(ledger.Value());
    ghost var were := ledger.events;
    done, trace := false, [];
    var projected := Project(ledger.events);
    var existing := projected.value.steps;
    var plan := Flat(batches);
    if exists k :: k in existing && !(exists i :: 0 <= i < |plan| && plan[i].step == k) {
      return;
    }
    done, trace := ReconcileAll(ledger, existing, batches, seen, stops, fits);
    if PlanDriven(plan, were) {
      ReconIsPlanDriven(plan, were, existing, plan, seen, ledger.events);
    }
  }

  predicate NoIntent(events: seq<Event>) {
    forall e :: e in events ==> !e.Intent?
  }

  /** Without intents a journal stays plan-driven. */
  lemma {:induction false} QuietIsPlanDriven(plan: seq<Item>, events: seq<Event>, more: seq<Event>)
    requires Accepted(events) && PlanDriven(plan, events) && Accepted(events + more) && NoIntent(more)
    ensures PlanDriven(plan, events + more)
    decreases |more|
  {
    hide Accepted, PlanDriven;
    if more == [] {
      assert events + more == events;
    } else {
      var rest, last := more[..|more| - 1], more[|more| - 1];
      assert events + more == events + rest + [last] && more == rest + [last];
      AcceptedGrows(events + rest, [last]);
      assert NoIntent(rest);
      QuietIsPlanDriven(plan, events, rest);
      PlanDrivenGrows(plan, events + rest, last);
    }
  }

  lemma {:induction false} ReconHasNoIntent(existing: map<Token, Step>, plan: seq<Item>, seen: map<Token, Image>)
    ensures NoIntent(Recon(existing, plan, seen))
  {
    if plan != [] {
      ReconHasNoIntent(existing, plan[..|plan| - 1], seen);
    }
  }

  lemma ReconIsPlanDriven(plan: seq<Item>, events: seq<Event>, existing: map<Token, Step>, items: seq<Item>,
                          seen: map<Token, Image>, later: seq<Event>)
    requires Accepted(events) && PlanDriven(plan, events) && Accepted(later)
    requires events <= later <= events + Recon(existing, items, seen)
    ensures PlanDriven(plan, later)
  {
    hide Accepted, PlanDriven, Recon;
    var more := later[|events|..];
    assert later == events + more && more == Recon(existing, items, seen)[..|more|];
    ReconHasNoIntent(existing, items, seen);
    QuietIsPlanDriven(plan, events, more);
  }

  /** Every registered step is a planned one. */
  ghost predicate Covers(plan: seq<Item>, steps: map<Token, Step>) {
    forall k :: k in steps ==> exists i :: 0 <= i < |plan| && plan[i].step == k
  }

  lemma WithinWhole(were: seq<Event>, now: seq<Event>, next: seq<Event>, before: seq<Event>, piece: seq<Event>,
                    whole: seq<Event>)
    requires now == were + before && now <= next <= now + piece && before + piece <= whole
    ensures were <= next <= were + whole
    ensures next == now + piece ==> next == were + (before + piece)
  {
    assert were + (before + piece) == (were + before) + piece;
  }

  // ---- From a crash to completion through these two commands ----

  /** The registered steps, in plan order. */
  function Order(existing: map<Token, Step>, plan: seq<Item>): seq<Token> {
    if plan == [] then []
    else Order(existing, plan[..|plan| - 1]) + if plan[|plan| - 1].step in existing then [plan[|plan| - 1].step] else []
  }

  lemma {:induction false} OrderHolds(existing: map<Token, Step>, plan: seq<Item>)
    requires forall i, j :: 0 <= i < j < |plan| ==> plan[i].step != plan[j].step
    ensures forall k :: k in Order(existing, plan) <==>
      k in existing && exists i :: 0 <= i < |plan| && plan[i].step == k
    ensures forall i, j :: 0 <= i < j < |Order(existing, plan)| ==> Order(existing, plan)[i] != Order(existing, plan)[j]
  {
    if plan != [] {
      var rest, last := plan[..|plan| - 1], plan[|plan| - 1];
      OrderHolds(existing, rest);
      assert forall i :: 0 <= i < |rest| ==> rest[i] == plan[i];
      LastAppended(existing, plan);
      hide Order;
      forall k
        ensures k in Order(existing, plan) <==> k in existing && exists i :: 0 <= i < |plan| && plan[i].step == k
      {
        if k in existing && exists i :: 0 <= i < |plan| && plan[i].step == k {
          var i :| 0 <= i < |plan| && plan[i].step == k;
          assert i < |rest| ==> rest[i].step == k;
        }
        if k in Order(existing, rest) {
          var i :| 0 <= i < |rest| && rest[i].step == k;
          assert plan[i].step == k;
        }
      }
      assert last.step !in Order(existing, rest);
    }
  }

  lemma LastAppended(existing: map<Token, Step>, plan: seq<Item>)
    requires plan != []
    ensures var last := plan[|plan| - 1];
      Order(existing, plan) == Order(existing, plan[..|plan| - 1]) + if last.step in existing then [last.step] else []
  {
  }

  lemma {:induction false} ReconObserves(existing: map<Token, Step>, plan: seq<Item>, seen: map<Token, Image>)
    requires AllFit(existing, plan, seen)
    ensures forall i :: 0 <= i < |Order(existing, plan)| ==> Order(existing, plan)[i] in seen
    ensures Recon(existing, plan, seen) == Observations(Order(existing, plan), seen)
  {
    if plan != [] {
      var rest, last := plan[..|plan| - 1], plan[|plan| - 1];
      assert AllFit(existing, rest, seen);
      ReconObserves(existing, rest, seen);
      assert Fits(existing, last, seen);
      if last.step in existing {
        assert Order(existing, plan)[..|Order(existing, rest)|] == Order(existing, rest);
      } else {
        assert Order(existing, plan) == Order(existing, rest);
      }
    }
  }

  /** The same from any plan-driven journal. */
  lemma ReconcileResumes(events: seq<Event>, plan: seq<Item>, seen: map<Token, Image>, first: Token, second: Token)
    requires Accepted(events) && events != [] && PlanOk(plan) && PlanDriven(plan, events)
    requires AllFit(Replay(events).value.steps, plan, seen) && SeenClean(Replay(events).value, seen)
    requires first !in Replay(events).value.sessions && second !in Replay(events).value.sessions && first != second
    ensures var existing := Replay(events).value.steps;
            var paused := events + ([Opened(first, Reconcile)] + Recon(existing, plan, seen) + [Closed(Partial, None)]);
            && Accepted(paused)
            && var full := paused + [Opened(second, Resume)] + Work(Replay(paused).value.steps, plan);
               Accepted(full) && AllPlannedDone(plan, Replay(full).value)
  {
    hide CoversOnce, PlanDriven, AllFit, SeenClean, PlanOk, InOrder, FromPlan, Order, Recon, Observations, Work, Replay;
    var s := Replay(events).value;
    var order := Order(s.steps, plan);
    ReconObserves(s.steps, plan, seen);
    PlanDrivenInOrder(plan, events);
    OrderCovers(plan, s);
    RecoverDriven(events, plan, order, seen, first, second);
  }

  /** Every registered step of a plan-driven journal is in the order once. */
  lemma OrderCovers(plan: seq<Item>, s: State)
    requires PlanOk(plan) && FromPlan(plan, s.steps)
    ensures CoversOnce(Order(s.steps, plan), s)
  {
    hide Order, Matches;
    OrderHolds(s.steps, plan);
    forall k | k in s.steps
      ensures k in Order(s.steps, plan)
    {
      assert Planned(plan, k, s.steps[k]);
    }
  }

  /** `check_continuation`: no lock is left, and a resumption needs a session that paused with every step settled. */
  method CheckContinuation(ledger: CloneLedger) returns (ok: bool)
    requires ledger.Valid() && !ledger.active && ledger.mode != LedgerEvents.Apply
    modifies ledger`events, ledger`frames, ledger`receipt
    ensures ok <==>
      var disk := ledger.dir.disk;
      && Inspected(disk, ledger.binding, ledger.poisoned).Some? && disk.lock.None?
      && (ledger.mode == Resume ==> MayResume(Replay(EventsOf(disk.files.journal.lines)).value))
  {
    var status := ledger.Inspect();
    if status.None? || ledger.dir.disk.lock.Some? {
      return false;
    }
    var state := Project(ledger.events);
    var s := state.value;
    ok := ledger.mode == Reconcile
          || (s.session.value.outcome == Partial && forall k :: k in s.steps ==> s.steps[k].phase == Done || s.steps[k].phase == Before);
  }

  ghost predicate MayResume(s: State) {
    s.session.Some? && s.session.value.outcome == Partial && AllSettled(s.steps)
  }
}
