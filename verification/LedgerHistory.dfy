/** What every accepted ledger journal satisfies: tools/python/devex_clone_ledger.py, lines 101-185. */
module LedgerHistory {
  import opened Options
  import opened LedgerEvents

  ghost predicate Accepted(events: seq<Event>) {
    Replay(events).Some?
  }

  /** The state before event `i`. */
  ghost function At(events: seq<Event>, i: nat): (s: State)
    requires Accepted(events) && i <= |events|
  {
    ReplayPrefix(events, i);
    Replay(events[..i]).value
  }

  lemma Final(events: seq<Event>)
    requires Accepted(events)
    ensures At(events, |events|) == Replay(events).value
  {
    assert events[..|events|] == events;
  }

  lemma Step1(events: seq<Event>, i: nat)
    requires Accepted(events) && i < |events|
    ensures Advance(At(events, i), i, events[i]) == Some(At(events, i + 1))
  {
    assert events[..i + 1] == events[..i] + [events[i]];
    ReplayAppend(events[..i], events[i]);
    ReplayPrefix(events, i + 1);
  }

  lemma AtPrefix(events: seq<Event>, n: nat, i: nat)
    requires Accepted(events) && i <= n <= |events|
    ensures Accepted(events[..n]) && At(events[..n], i) == At(events, i)
  {
    ReplayPrefix(events, n);
    assert events[..n][..i] == events[..i];
  }

  /** `Advance` on anything but a step event keeps the steps; on a step event it is `StepEvent`. */
  lemma AdvanceSteps(s: State, index: nat, e: Event, t: State)
    requires Advance(s, index, e) == Some(t)
    ensures !IsStepEvent(e) ==> t.steps == s.steps
    ensures IsStepEvent(e) ==> index > 0 && s.session.Some? && s.session.value.outcome == Open
                               && StepEvent(s, s.session.value, e) == Some(t)
  {
  }

  // ---- The steps of an accepted journal ----

  ghost predicate OneUnknown(s: State) {
    forall j, k :: j in s.steps && k in s.steps && s.steps[j].phase == Unknown && s.steps[k].phase == Unknown ==> j == k
  }

  ghost predicate DistinctResources(s: State) {
    forall j, k :: j in s.steps && k in s.steps && s.steps[j].before.resource == s.steps[k].before.resource ==> j == k
  }

  ghost predicate PairedImages(s: State) {
    forall k :: k in s.steps ==> ImagePair(s.steps[k].before, s.steps[k].after)
  }

  /** At most one step is unknown, no resource is shared, every pair of images can be told apart. */
  lemma {:induction false} StepsWellFormed(events: seq<Event>)
    requires Accepted(events)
    ensures OneUnknown(Replay(events).value)
    ensures DistinctResources(Replay(events).value)
    ensures PairedImages(Replay(events).value)
  {
    if events != [] {
      var n := |events| - 1;
      ReplayPrefix(events, n);
      StepsWellFormed(events[..n]);
      var s, t := Replay(events[..n]).value, Replay(events).value;
      AdvanceSteps(s, n, events[n], t);
      if IsStepEvent(events[n]) {
        StepStaysWellFormed(s, events[n], t);
      }
    }
  }

  lemma StepStaysWellFormed(s: State, e: Event, t: State)
    requires IsStepEvent(e) && s.session.Some? && StepEvent(s, s.session.value, e) == Some(t)
    requires OneUnknown(s) && DistinctResources(s) && PairedImages(s)
    ensures OneUnknown(t) && DistinctResources(t) && PairedImages(t)
  {
    hide StepEvent, ImagePair;
    StepChanges(s, e, t);
  }

  /** A step event changes its own step only, and leaves it unknown only where no other step is. */
  lemma StepChanges(s: State, e: Event, t: State)
    requires IsStepEvent(e) && s.session.Some? && StepEvent(s, s.session.value, e) == Some(t)
    ensures forall k :: k in t.steps && k != e.step ==> k in s.steps && t.steps[k] == s.steps[k]
    ensures e.step in t.steps
    ensures e.step in s.steps || ImagePair(t.steps[e.step].before, t.steps[e.step].after)
    ensures e.step in s.steps ==>
      t.steps[e.step].before == s.steps[e.step].before && t.steps[e.step].after == s.steps[e.step].after
    ensures e.step !in s.steps ==>
      forall k :: k in s.steps ==> s.steps[k].before.resource != t.steps[e.step].before.resource
    ensures t.steps[e.step].phase == Unknown ==>
      forall k :: k in s.steps && k != e.step ==> s.steps[k].phase != Unknown
  {
    hide ImagePair;
  }

  /**
   * The images of a registered step are of one resource and can be told apart: a database keeps its schema and preserved
   * rows, an object was absent and is present.
   */
  lemma StepImages(events: seq<Event>, k: Token)
    requires Accepted(events) && k in Replay(events).value.steps
    ensures var before, after := Replay(events).value.steps[k].before, Replay(events).value.steps[k].after;
            && before.resource == after.resource && before != after
            && (before.Database? ==> after.Database? && before.schema == after.schema && before.preserved == after.preserved)
            && (before.Object? ==> after.Object? && before.content.None? && after.content.Some?)
  {
    StepsWellFormed(events);
  }

  lemma {:induction false} TouchedStays(events: seq<Event>, i: nat, m: nat, k: Token)
    requires Accepted(events) && i < m <= |events| && Names(events[i], k)
    requires forall n :: i < n < m ==> !events[n].Opened?
    ensures At(events, m).session.Some? && k in At(events, m).session.value.touched
    decreases m
  {
    Step1(events, m - 1);
    if i < m - 1 {
      TouchedStays(events, i, m - 1, k);
    }
  }

  /** A session reconciles a step at most once, and not after it wrote it. */
  lemma ReconciledOnce(events: seq<Event>, i: nat, j: nat, k: Token)
    requires Accepted(events) && i < j < |events| && Names(events[i], k) && events[j].Reconciled? && events[j].step == k
    ensures exists n :: i < n < j && events[n].Opened?
  {
    Step1(events, j);
    if forall n :: i < n < j ==> !events[n].Opened? {
      TouchedStays(events, i, j, k);
    }
  }

  predicate Names(e: Event, k: Token) {
    IsStepEvent(e) && e.step == k
  }

  ghost function ResumeCount(events: seq<Event>, k: Token): nat {
    if events == [] then 0
    else ResumeCount(events[..|events| - 1], k) + (if events[|events| - 1].Resumed? && Names(events[|events| - 1], k) then 1 else 0)
  }

  /** Position of the last event naming `k`, or -1. */
  ghost function LatestAt(events: seq<Event>, k: Token): (m: int)
    ensures -1 <= m < |events|
    ensures m >= 0 ==> Names(events[m], k)
    ensures forall x :: m < x < |events| ==> !Names(events[x], k)
  {
    if events == [] then -1
    else if Names(events[|events| - 1], k) then |events| - 1
    else LatestAt(events[..|events| - 1], k)
  }

  /** The phase that the last word about a step implies. */
  function Settled(step: Step, e: Event): Phase
    requires IsStepEvent(e)
  {
    match e
    case Intent(_, _, _, _) => Unknown
    case Resumed(_, _) => Unknown
    case Confirmed(_, observed) => Classify(step.before, step.after, observed)
    case Reconciled(_, observed) => Classify(step.before, step.after, observed)
  }

  ghost predicate PhaseIsLatest(events: seq<Event>, k: Token, step: Step) {
    LatestAt(events, k) >= 0 && step.phase == Settled(step, events[LatestAt(events, k)])
  }

  /** Each phase is the classification of the latest observation; attempts count the resumptions. */
  lemma {:induction false} PhaseAndAttempt(events: seq<Event>, k: Token)
    requires Accepted(events) && k in Replay(events).value.steps
    ensures PhaseIsLatest(events, k, Replay(events).value.steps[k])
    ensures Replay(events).value.steps[k].attempt == 1 + ResumeCount(events, k)
  {
    var n := |events| - 1;
    ReplayPrefix(events, n);
    var s, t := Replay(events[..n]).value, Replay(events).value;
    AdvanceSteps(s, n, events[n], t);
    if k in s.steps {
      PhaseAndAttempt(events[..n], k);
    } else {
      NoResumeBefore(events[..n], k);
    }
  }

  lemma {:induction false} NoResumeBefore(events: seq<Event>, k: Token)
    requires Accepted(events) && k !in Replay(events).value.steps
    ensures ResumeCount(events, k) == 0
  {
    if events != [] {
      var n := |events| - 1;
      ReplayPrefix(events, n);
      AdvanceSteps(Replay(events[..n]).value, n, events[n], Replay(events).value);
      NoResumeBefore(events[..n], k);
    }
  }

  /** A registered step stays registered with the same images and artifact. */
  lemma {:induction false} StepsPersist(events: seq<Event>, i: nat, k: Token)
    requires Accepted(events) && i <= |events| && k in At(events, i).steps
    ensures k in Replay(events).value.steps
    ensures Replay(events).value.steps[k].before == At(events, i).steps[k].before
    ensures Replay(events).value.steps[k].after == At(events, i).steps[k].after
    ensures Replay(events).value.steps[k].artifact == At(events, i).steps[k].artifact
  {
    var n := |events| - 1;
    if i == |events| {
      Final(events);
    } else {
      ReplayPrefix(events, n);
      AtPrefix(events, n, i);
      StepsPersist(events[..n], i, k);
      AdvanceSteps(Replay(events[..n]).value, n, events[n], Replay(events).value);
    }
  }

  // ---- Authorisations ----

  /** The events after which the caller may write the resource of `k` once. */
  predicate Authorises(e: Event, k: Token) {
    (e.Intent? || e.Resumed?) && e.step == k
  }

  /** At event `m` a reconcile session records the complete before image of step `k`. */
  ghost predicate SawBefore(events: seq<Event>, m: nat, k: Token)
    requires Accepted(events) && m < |events|
  {
    && k in At(events, m).steps
    && events[m] == Reconciled(k, At(events, m).steps[k].before)
    && At(events, m).session.Some?
    && At(events, m).session.value.mode == Reconcile
  }

  /** A step stands at Before only because its latest word was a reconciliation that saw the before image. */
  lemma BeforeWasSeen(events: seq<Event>, k: Token)
    requires Accepted(events) && k in Replay(events).value.steps && Replay(events).value.steps[k].phase == Before
    ensures LatestAt(events, k) >= 0 && SawBefore(events, LatestAt(events, k), k)
  {
    PhaseAndAttempt(events, k);
    StepsWellFormed(events);
    var m: nat := LatestAt(events, k);
    Step1(events, m);
    AdvanceSteps(At(events, m), m, events[m], At(events, m + 1));
    assert k in At(events, m + 1).steps;
    StepsPersist(events, m + 1, k);
  }

  /** Between two authorisations of one step an independent reconcile session saw its complete before image. */
  lemma SecondAuthorisationNeedsBefore(events: seq<Event>, i: nat, j: nat, k: Token)
    requires Accepted(events) && i < j < |events| && Authorises(events[i], k) && Authorises(events[j], k)
    ensures exists m: nat :: i < m < j && SawBefore(events, m, k) && forall x :: m < x < j ==> !Names(events[x], k)
  {
    hide Replay, Accepted;
    var past := events[..j];
    AtPrefix(events, j, j);
    Final(past);
    AuthorisedIsStep(past, i, k);
    Step1(events, j);
    AdvanceSteps(At(events, j), j, events[j], At(events, j + 1));
    BeforeWasSeen(past, k);
    var m: nat := LatestAt(past, k);
    assert Names(past[i], k) && !past[i].Reconciled?;
    AtPrefix(events, j, m);
    assert past[m] == events[m];
    assert SawBefore(events, m, k);
    forall x | m < x < j
      ensures !Names(events[x], k)
    {
      assert past[x] == events[x];
    }
  }

  lemma AuthorisedIsStep(events: seq<Event>, i: nat, k: Token)
    requires Accepted(events) && i < |events| && Authorises(events[i], k)
    ensures k in Replay(events).value.steps
  {
    Step1(events, i);
    AdvanceSteps(At(events, i), i, events[i], At(events, i + 1));
    StepsPersist(events, i + 1, k);
  }

  // ---- Sealed sessions ----

  /** At event `i` a session had failed, was publishing, or is being abandoned while open. */
  ghost predicate Sealed(events: seq<Event>, i: nat)
    requires Accepted(events) && i < |events|
  {
    var session := At(events, i).session;
    && session.Some?
    && (session.value.outcome == Open ==> events[i].Opened?)
    && session.value.outcome != Partial
  }

  ghost predicate ReconcileCloses(events: seq<Event>, k: nat)
    requires Accepted(events) && k < |events|
  {
    && events[k] == Closed(Partial, None)
    && At(events, k).session.Some?
    && At(events, k).session.value.mode == Reconcile
  }

  ghost predicate Blocked(s: State) {
    && s.session.Some?
    && s.session.value.outcome != Partial
    && (s.session.value.outcome == Open ==> s.session.value.mode == Reconcile)
  }

  lemma {:induction false} BlockedUntilReconciled(events: seq<Event>, i: nat, m: nat)
    requires Accepted(events) && i < m <= |events| && Sealed(events, i)
    requires forall k :: i < k < m ==> !ReconcileCloses(events, k)
    ensures Blocked(At(events, m))
    decreases m
  {
    Step1(events, m - 1);
    if m > i + 1 {
      BlockedUntilReconciled(events, i, m - 1);
      assert !ReconcileCloses(events, m - 1);
    }
  }

  /** After a sealed session nothing may be written before a reconcile session closed as partial. */
  lemma SealedNeedsReconcile(events: seq<Event>, i: nat, j: nat, step: Token)
    requires Accepted(events) && i <= j < |events| && Sealed(events, i) && Authorises(events[j], step)
    ensures exists k :: i < k < j && ReconcileCloses(events, k)
  {
    Step1(events, j);
    if forall k :: i < k < j ==> !ReconcileCloses(events, k) {
      if i < j {
        BlockedUntilReconciled(events, i, j);
      }
      assert false;
    }
  }
}
