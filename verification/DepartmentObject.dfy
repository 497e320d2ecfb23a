/** `apply_one` and `reconcile_one` step by step: tools/python/devex_clone_department.py, lines 570-669. */
module DepartmentObject {
  import opened Options
  import opened DepartmentEvidence
  import opened DepartmentRuns
  import opened DepartmentSafety

  datatype Step = Step(effect: Effect, torn: bool)

  function DoStep(a: Action, s: Site, e: Step): Site {
    if Permitted(a, s, e.effect) then Do(a, s, e.effect, e.torn) else s
  }

  ghost function DoAll(a: Action, s: Site, trace: seq<Step>): Site {
    if trace == [] then s else DoStep(a, DoAll(a, s, trace[..|trace| - 1]), trace[|trace| - 1])
  }

  ghost predicate AllPermitted(a: Action, s: Site, trace: seq<Step>) {
    trace == [] ||
    (AllPermitted(a, s, trace[..|trace| - 1]) && Permitted(a, DoAll(a, s, trace[..|trace| - 1]), trace[|trace| - 1].effect))
  }

  /** `s` leads to `t` by effects the run model permits. */
  ghost predicate Follows(a: Action, s: Site, trace: seq<Step>, t: Site) {
    AllPermitted(a, s, trace) && DoAll(a, s, trace) == t
  }

  lemma FollowsOne(a: Action, s: Site, trace: seq<Step>, t: Site, e: Step)
    requires Follows(a, s, trace, t) && Permitted(a, t, e.effect)
    ensures Follows(a, s, trace + [e], Do(a, t, e.effect, e.torn))
  {
    assert (trace + [e])[..|trace|] == trace;
  }

  /** What `reconcile_one` hands back. */
  datatype Outcome = Raised | Nothing | Reconciled(state: Class)

  function KeyFor(chain: seq<Attempt>, drawn: string): string {
    if chain != [] && Last(chain).intent.Whole? then Last(chain).intent.value.key else drawn
  }

  /** The attempt of a write whose response and following image were good. */
  function Proved(key: string, before: Obs, response: Response, run: nat, after: Obs): Attempt {
    Attempt(Whole(before), Whole(Intent(key, before)), Whole(response), map[run := Whole(after)], map[],
            Whole(Confirmation(run, after, true, run)))
  }

  /** Nothing stands in the way of a new attempt. */
  predicate Appliable(a: Action, chain: seq<Attempt>, drawn: string) {
    chain == [] || Releases(a, Last(chain), KeyFor(chain, drawn))
  }

  /** Every observation and the response are good. */
  predicate GoodWrite(a: Action, before: Option<Obs>, response: Option<Response>, after: Option<Obs>) {
    && before.Some? && ClassOf(a, before.value) == Some(Before)
    && response.Some? && response.value.valid
    && after.Some? && ClassOf(a, after.value) == Some(After)
    && ImageOf(a, after.value).value.department == Some(response.value.created)
  }

  /**
   * The directories of one tenant and the process working on them. The process dies after `left` more effects;
   * `torn` says whether it dies inside the next one.
   */
  class Tenant {
    const plan: Action
    var chain: seq<Attempt>
    var job: Job
    var left: nat
    var torn: bool

    constructor (plan: Action, chain: seq<Attempt>)
      ensures this.plan == plan && this.chain == chain && job == Idle
    {
      this.plan, this.chain, job, left, torn := plan, chain, Idle, 0, false;
    }

    function Value(): Site
      reads this
    {
      Site(chain, job)
    }

    /** One effect, unless the process dies first. */
    method Take(e: Effect, ghost start: Site, ghost trace: seq<Step>) returns (alive: bool, ghost longer: seq<Step>)
      requires Permitted(plan, Value(), e) && Follows(plan, start, trace, Value())
      modifies this
      ensures alive <==> old(left) > 0
      ensures alive ==> Value() == Do(plan, old(Value()), e, false) && left == old(left) - 1
      ensures !alive && old(torn) ==> Value() == Do(plan, old(Value()), e, true)
      ensures !alive && !old(torn) ==> Value() == old(Value())
      ensures torn == old(torn)
      ensures Follows(plan, start, longer, Value())
      ensures longer == trace + if alive || old(torn) then [Step(e, !alive)] else []
    {
      alive, longer := left > 0, trace;
      if !alive && !torn {
        assert trace + [] == trace;
        return;
      }
      FollowsOne(plan, start, trace, Value(), Step(e, !alive));
      longer := trace + [Step(e, !alive)];
      var after := if alive then NextJob(job, e) else Idle;
      chain := if e.MakeAttempt? then chain + [EmptyAttempt] else WithLast(chain, Saved(plan, Last(chain), job, e, !alive));
      job := after;
      if alive {
        left := left - 1;
      }
    }

    /** `apply_one` up to the write intent; `drawn` is its new idempotency key. */
    method PrepareWrite(run: nat, drawn: string, before: Option<Obs>) returns (ready: bool, ghost trace: seq<Step>)
      requires job == Started(run) && (chain == [] || Last(chain).confirmed == Absent)
      modifies this
      ensures Follows(plan, Site(old(chain), Started(run)), trace, Value())
      ensures ready <==> && Appliable(plan, old(chain), drawn) && old(left) >= 3
                         && before.Some? && ClassOf(plan, before.value) == Some(Before)
      ensures ready ==>
        && job == Intended(run) && left == old(left) - 3
        && chain == old(chain) + [EmptyAttempt.(before := Whole(before.value),
                                                intent := Whole(Intent(KeyFor(old(chain), drawn), before.value)))]
      ensures Appliable(plan, old(chain), drawn) && old(left) >= 2 && before.Some? && ImageOf(plan, before.value).Some? ==>
        |chain| == |old(chain)| + 1 && Last(chain).before == Whole(before.value)
      ensures !Appliable(plan, old(chain), drawn) ==> chain == old(chain)
      ensures old(chain) <= chain && |chain| <= |old(chain)| + 1
      ensures torn == old(torn)
    {
      hide ImageOf, Classify, ReconciledBefore, Follows, IntentOk, ProvesBefore;
      trace, ready := [], false;
      FollowsNone(plan, Value());
      if chain != [] && Last(chain).intent != Absent {
        if !ReconciledBefore(plan, Last(chain)) {
          return;
        }
        assert Last(chain).intent.Whole? by { ReconciledHasIntent(plan, Last(chain)); }
      } else if chain != [] && !Bare(Last(chain)) {
        return;
      }
      ready, trace := WriteIntent(run, KeyFor(chain, drawn), before);
    }

    /** The three files of a new attempt up to its write intent. */
    method WriteIntent(run: nat, key: string, before: Option<Obs>) returns (ready: bool, ghost trace: seq<Step>)
      requires job == Started(run) && (chain == [] || Releases(plan, Last(chain), key))
      modifies this
      ensures Follows(plan, Site(old(chain), Started(run)), trace, Value())
      ensures ready <==> old(left) >= 3 && before.Some? && ClassOf(plan, before.value) == Some(Before)
      ensures ready ==>
        && job == Intended(run) && left == old(left) - 3
        && chain == old(chain) + [EmptyAttempt.(before := Whole(before.value), intent := Whole(Intent(key, before.value)))]
      ensures old(left) >= 2 && before.Some? && ImageOf(plan, before.value).Some? ==>
        |chain| == |old(chain)| + 1 && Last(chain).before == Whole(before.value)
      ensures old(chain) <= chain && |chain| <= |old(chain)| + 1
      ensures torn == old(torn)
    {
      hide ImageOf, ClassOf, ReconciledBefore, Follows, IntentOk, Releases, ProvesBefore;
      ghost var start := Value();
      FollowsNone(plan, start);
      ready, trace := Take(MakeAttempt(key), start, []);
      if ready && before.Some? {
        ClassIffImage(plan, before.value);
      }
      if !ready || before.None? || ImageOf(plan, before.value).None? {
        return false, trace;
      }
      ready, trace := WriteBefore(run, key, before.value, start, trace);
    }

    /** The before image of a new attempt, and its intent. */
    method WriteBefore(run: nat, key: string, before: Obs, ghost start: Site, ghost past: seq<Step>)
      returns (ready: bool, ghost trace: seq<Step>)
      requires job == Made(run, key) && chain != [] && Last(chain) == EmptyAttempt && ImageOf(plan, before).Some?
      requires Follows(plan, start, past, Value())
      modifies this
      ensures Follows(plan, start, trace, Value())
      ensures ready <==> old(left) >= 2 && ClassOf(plan, before) == Some(Before)
      ensures |chain| == |old(chain)| && chain[..|chain| - 1] == old(chain)[..|chain| - 1] && torn == old(torn)
      ensures ready ==>
        && job == Intended(run) && left == old(left) - 2
        && Last(chain) == EmptyAttempt.(before := Whole(before), intent := Whole(Intent(key, before)))
      ensures old(left) >= 1 ==> Last(chain).before == Whole(before)
    {
      hide ImageOf, ClassOf, Follows, Releases;
      ready, trace := Take(SaveBefore(before), start, past);
      if ready {
        ready, trace := TakeIntent(run, key, before, start, trace);
      }
    }

    method TakeIntent(run: nat, key: string, before: Obs, ghost start: Site, ghost past: seq<Step>)
      returns (ready: bool, ghost trace: seq<Step>)
      requires job == Prepared(run, key) && chain != [] && Last(chain) == EmptyAttempt.(before := Whole(before))
      requires Follows(plan, start, past, Value())
      modifies this
      ensures Follows(plan, start, trace, Value())
      ensures ready <==> old(left) >= 1 && ClassOf(plan, before) == Some(Before)
      ensures ready ==> && job == Intended(run) && left == old(left) - 1
                        && chain == WithLast(old(chain), Last(old(chain)).(intent := Whole(Intent(key, before))))
      ensures |chain| == |old(chain)| && chain[..|chain| - 1] == old(chain)[..|chain| - 1] && torn == old(torn)
      ensures Last(chain).before == Whole(before)
    {
      hide ImageOf, ClassOf, Follows, Releases;
      ready, trace := false, past;
      if ClassOf(plan, before) == Some(Before) {
        ready, trace := Take(SaveIntent, start, trace);
      }
    }

    /** The request and everything after it. */
    method Deliver(run: nat, response: Option<Response>, after: Option<Obs>, ghost start: Site, ghost before: seq<Step>)
      returns (done: bool, ghost trace: seq<Step>)
      requires job == Intended(run) && chain != [] && Fresh(Last(chain))
      requires Follows(plan, start, before, Value())
      modifies this
      ensures Follows(plan, start, trace, Value())
      ensures done <==> && old(left) >= 4 && response.Some? && response.value.valid
                        && after.Some? && ClassOf(plan, after.value) == Some(After)
                        && ImageOf(plan, after.value).value.department == Some(response.value.created)
      ensures done ==> chain == WithLast(old(chain), Last(old(chain)).(
        response := Whole(response.value), observed := map[run := Whole(after.value)],
        confirmed := Whole(Confirmation(run, after.value, true, run))))
      ensures |chain| == |old(chain)| && chain[..|chain| - 1] == old(chain)[..|chain| - 1]
      ensures old(left) >= 2 && response.Some? ==> Last(chain).response == Whole(response.value)
      ensures Last(chain).before == Last(old(chain)).before && Last(chain).intent == Last(old(chain)).intent
    {
      hide ImageOf, ClassOf, Follows, ReconciledBefore, ProvesBefore, Releases;
      done, trace := Take(Post, start, before);
      if !done {
        return;
      }
      if response.None? {
        return false, trace;
      }
      done, trace := Take(SaveResponse(response.value), start, trace);
      if !done {
        return;
      }
      if !response.value.valid || after.None? || !Proven(plan, Last(chain), after.value) {
        return false, trace;
      }
      ClassIffImage(plan, after.value);
      done, trace := Take(SaveObserved(after.value), start, trace);
      if !done {
        return;
      }
      done, trace := Take(SaveConfirmed, start, trace);
    }

    /** `apply_one`: Some(true) after a write, Some(false) if it was confirmed before, None when it raises or dies. */
    method ApplyOne(run: nat, drawn: string, before: Option<Obs>, response: Option<Response>, after: Option<Obs>)
      returns (wrote: Option<bool>, ghost trace: seq<Step>)
      requires job == Started(run)
      modifies this
      ensures Follows(plan, Site(old(chain), Started(run)), trace, Value())
      ensures wrote == Some(true) <==>
        && (old(chain) == [] || Last(old(chain)).confirmed == Absent)
        && Appliable(plan, old(chain), drawn) && GoodWrite(plan, before, response, after) && old(left) >= 7
      ensures wrote == Some(true) ==>
        chain == old(chain) + [Proved(KeyFor(old(chain), drawn), before.value, response.value, run, after.value)]
      ensures wrote == Some(false) <==>
        && old(chain) != [] && ConfirmationOk(plan, Last(old(chain)))
        && before.Some? && ClassOf(plan, before.value) == Some(After)
      ensures wrote == Some(false) ==> chain == old(chain) && trace == []
      ensures (old(chain) != [] && Last(old(chain)).confirmed != Absent) || !Appliable(plan, old(chain), drawn) ==>
        chain == old(chain)
      ensures
        (old(chain) == [] || Last(old(chain)).confirmed == Absent) && Appliable(plan, old(chain), drawn) && before.Some? ==>
        && (old(left) >= 2 && ImageOf(plan, before.value).Some? ==>
              |chain| == |old(chain)| + 1 && Last(chain).before == Whole(before.value))
        && (old(left) >= 3 && ClassOf(plan, before.value) == Some(Before) ==>
              && |chain| == |old(chain)| + 1
              && Last(chain).intent == Whole(Intent(KeyFor(old(chain), drawn), before.value))
              && (old(left) >= 5 && response.Some? ==> Last(chain).response == Whole(response.value)))
      ensures old(chain) <= chain && |chain| <= |old(chain)| + 1
    {
      hide ImageOf, ClassOf, Follows, Releases, Appliable, ProvesBefore, ResponseOk, IntentOk, Bare;
      if before.Some? {
        ClassIffImage(plan, before.value);
      }
      if chain != [] && Last(chain).confirmed != Absent {
        var same := ConfirmationOk(plan, Last(chain)) && before.Some? && ClassOf(plan, before.value) == Some(After);
        wrote, trace := if same then Some(false) else None, [];
        FollowsNone(plan, Value());
        return;
      }
      var ready: bool;
      ready, trace := PrepareWrite(run, drawn, before);
      wrote := None;
      if ready {
        var done: bool;
        done, trace := Deliver(run, response, after, Site(old(chain), Started(run)), trace);
        wrote := if done then Some(true) else None;
      }
    }

    /** `reconcile_one`; `seen` is its observation. */
    method ReconcileOne(run: nat, seen: Option<Obs>) returns (outcome: Outcome, ghost trace: seq<Step>)
      requires job == Started(run)
      modifies this
      ensures Follows(plan, Site(old(chain), Started(run)), trace, Value())
      ensures |chain| == |old(chain)| && forall i :: 0 <= i < |chain| - 1 ==> chain[i] == old(chain)[i]
      ensures outcome == Nothing <==>
        old(chain) == [] || (Last(old(chain)).confirmed == Absent && Last(old(chain)).intent == Absent)
      ensures outcome == Nothing ==> chain == old(chain)
      ensures (old(chain) != [] && Last(old(chain)).confirmed != Absent) ==> chain == old(chain)
      ensures outcome == Reconciled(Before) <==>
        && Watches(plan, old(chain), run, seen) && Unanswered(Last(old(chain)), run)
        && ClassOf(plan, seen.value) == Some(Before) && old(left) >= 2
      ensures outcome == Reconciled(After) <==>
        seen.Some? && ClassOf(plan, seen.value) == Some(After) && old(chain) != [] &&
        if Last(old(chain)).confirmed != Absent then ConfirmationOk(plan, Last(old(chain)))
        else
          && Watches(plan, old(chain), run, seen)
          && if Last(old(chain)).response != Absent then Proven(plan, Last(old(chain)), seen.value) && old(left) >= 2
             else Unanswered(Last(old(chain)), run) && old(left) >= 3
      ensures Watches(plan, old(chain), run, seen) && old(left) >= 1 ==>
        Last(chain).observed == Last(old(chain)).observed[run := Whole(seen.value)]
      ensures Watches(plan, old(chain), run, seen) && Unanswered(Last(old(chain)), run) && old(left) >= 2 ==>
        Last(chain) == WithSeen(Last(old(chain)), run, seen.value).(
          reconciles := Last(old(chain)).reconciles[run :=
            Whole(Proof(Last(old(chain)).intent.value, run, seen.value, ClassOf(plan, seen.value).value))],
          confirmed := Last(chain).confirmed)
      ensures outcome == Reconciled(Before) ==> Last(chain).confirmed == Absent
      ensures outcome == Reconciled(After) && Last(old(chain)).confirmed == Absent ==>
        && Last(chain).confirmed == Whole(Confirmation(run, seen.value, Last(old(chain)).response != Absent, run))
      ensures outcome != Reconciled(Mismatch)
    {
      hide ImageOf, ClassOf, ReconciledBefore, ProvesBefore, Follows, Bare;
      trace, outcome := [], Raised;
      ghost var start := Value();
      FollowsNone(plan, start);
      if chain == [] {
        return Nothing, trace;
      }
      if Last(chain).confirmed != Absent {
        if ConfirmationOk(plan, Last(chain)) && seen.Some? && ClassOf(plan, seen.value) == Some(After) {
          outcome := Reconciled(After);
        }
        return;
      }
      if Last(chain).intent == Absent {
        return Nothing, trace;
      }
      if seen.Some? {
        ClassIffImage(plan, seen.value);
      }
      if !IntentOk(Last(chain)) || seen.None? || ImageOf(plan, seen.value).None? || run in Last(chain).observed {
        return;
      }
      var alive: bool;
      alive, trace := Take(SaveObserved(seen.value), start, trace);
      if alive {
        outcome, trace := Settle(run, seen.value, start, trace);
      }
    }

    /** The rest of `reconcile_one` once the observation is saved. */
    method Settle(run: nat, seen: Obs, ghost start: Site, ghost before: seq<Step>)
      returns (outcome: Outcome, ghost trace: seq<Step>)
      requires job == Looked(run, seen) && chain != [] && Last(chain).confirmed == Absent && Last(chain).intent.Whole?
      requires ClassOf(plan, seen).Some? && Follows(plan, start, before, Value())
      modifies this
      ensures Follows(plan, start, trace, Value())
      ensures outcome == Reconciled(Before) <==>
        Unanswered(Last(old(chain)), run) && ClassOf(plan, seen) == Some(Before) && old(left) >= 1
      ensures outcome == Reconciled(After) <==>
        && ClassOf(plan, seen) == Some(After)
        && if Last(old(chain)).response != Absent then Proven(plan, Last(old(chain)), seen) && old(left) >= 1
           else Unanswered(Last(old(chain)), run) && old(left) >= 2
      ensures outcome != Nothing && outcome != Reconciled(Mismatch)
      ensures |chain| == |old(chain)| && chain[..|chain| - 1] == old(chain)[..|chain| - 1]
      ensures Last(chain).observed == Last(old(chain)).observed
      ensures Unanswered(Last(old(chain)), run) && old(left) >= 1 ==>
        Last(chain) == Last(old(chain)).(
          reconciles := Last(old(chain)).reconciles[run :=
            Whole(Proof(Last(old(chain)).intent.value, run, seen, ClassOf(plan, seen).value))],
          confirmed := Last(chain).confirmed)
      ensures outcome == Reconciled(Before) ==> Last(chain).confirmed == Absent
      ensures outcome == Reconciled(After) ==>
        Last(chain).confirmed == Whole(Confirmation(run, seen, Last(old(chain)).response != Absent, run))
    {
      hide ImageOf, ClassOf, ReconciledBefore, ProvesBefore, Follows, Bare;
      trace, outcome := before, Raised;
      if Last(chain).response != Absent {
        if !Proven(plan, Last(chain), seen) {
          return;
        }
        var alive: bool;
        alive, trace := Take(SaveConfirmed, start, trace);
        if alive {
          outcome := Reconciled(ClassOf(plan, seen).value);
        }
        return;
      }
      if run !in Last(chain).reconciles {
        outcome, trace := RecordState(run, seen, start, trace);
      }
    }

    /** The part of `reconcile_one` for a write whose response never arrived. */
    method RecordState(run: nat, seen: Obs, ghost start: Site, ghost before: seq<Step>)
      returns (outcome: Outcome, ghost trace: seq<Step>)
      requires job == Looked(run, seen) && chain != [] && Last(chain).intent.Whole? && Last(chain).response == Absent
      requires run !in Last(chain).reconciles && ClassOf(plan, seen).Some?
      requires Follows(plan, start, before, Value())
      modifies this
      ensures Follows(plan, start, trace, Value())
      ensures outcome == Reconciled(Before) <==> ClassOf(plan, seen) == Some(Before) && old(left) >= 1
      ensures outcome == Reconciled(After) <==> ClassOf(plan, seen) == Some(After) && old(left) >= 2
      ensures outcome != Nothing && outcome != Reconciled(Mismatch)
      ensures |chain| == |old(chain)| && chain[..|chain| - 1] == old(chain)[..|chain| - 1]
      ensures Last(chain).observed == Last(old(chain)).observed
      ensures old(left) >= 1 ==>
        Last(chain) == Last(old(chain)).(
          reconciles := Last(old(chain)).reconciles[run :=
            Whole(Proof(Last(old(chain)).intent.value, run, seen, ClassOf(plan, seen).value))],
          confirmed := Last(chain).confirmed)
      ensures outcome == Reconciled(Before) ==> Last(chain).confirmed == Last(old(chain)).confirmed
      ensures outcome == Reconciled(After) ==> Last(chain).confirmed == Whole(Confirmation(run, seen, false, run))
    {
      hide ImageOf, Classify, ReconciledBefore, ProvesBefore, Follows, ResponseOk;
      var state := ClassOf(plan, seen).value;
      outcome := Raised;
      var alive: bool;
      alive, trace := Take(SaveReconcile, start, before);
      if alive && state == After {
        alive, trace := Take(SaveConfirmed, start, trace);
      } else if state != Before {
        return;
      }
      if alive {
        outcome := Reconciled(state);
      }
    }
  }

  /** The last attempt has a good intent and no confirmation, and this run has a good observation to add. */
  predicate Watches(a: Action, chain: seq<Attempt>, run: nat, seen: Option<Obs>) {
    && chain != [] && Last(chain).confirmed == Absent && Last(chain).intent != Absent && IntentOk(Last(chain))
    && seen.Some? && ClassOf(a, seen.value).Some? && run !in Last(chain).observed
  }

  /** No response arrived, and this run has not recorded a state yet. */
  predicate Unanswered(t: Attempt, run: nat) {
    t.response == Absent && run !in t.reconciles
  }

  function WithSeen(t: Attempt, run: nat, o: Obs): Attempt {
    t.(observed := t.observed[run := Whole(o)])
  }

  lemma ReconciledHasIntent(a: Action, t: Attempt)
    requires ReconciledBefore(a, t)
    ensures t.intent.Whole?
  {
  }

  lemma FollowsNone(a: Action, s: Site)
    ensures Follows(a, s, [], s)
  {
  }

  // ---- The methods' effects are moves of a run ----

  ghost function Drive(a: Action, m: Machine, e: Step): Machine {
    var w := m.world;
    Machine(
      DoStep(a, m.site, e),
      if e.effect.Post? && m.site.chain != [] && Last(m.site.chain).intent.Whole?
      then w.(pending := w.pending + multiset{Last(m.site.chain).intent.value.key}) else w,
      if e.effect.MakeAttempt? then m.used + {e.effect.key} else m.used)
  }

  ghost function Driven(a: Action, m: Machine, trace: seq<Step>): Machine {
    if trace == [] then m else Drive(a, Driven(a, m, trace[..|trace| - 1]), trace[|trace| - 1])
  }

  /** What the process is told is true, and a key it draws is new. */
  ghost predicate Honest(a: Action, m: Machine, trace: seq<Step>) {
    forall i :: 0 <= i < |trace| ==>
      && Truthful(Driven(a, m, trace[..i]).world, trace[i].effect)
      && (trace[i].effect.MakeAttempt? && DrawsKey(Driven(a, m, trace[..i]).site) ==>
            trace[i].effect.key !in Driven(a, m, trace[..i]).used)
  }

  /** What the methods do, effect by effect, is a run of the model, so every point of it keeps the invariant. */
  lemma {:induction false} TraceIsRun(a: Action, m: Machine, trace: seq<Step>)
    requires Invariant(a, m) && AllPermitted(a, m.site, trace) && Honest(a, m, trace)
    ensures Driven(a, m, trace).site == DoAll(a, m.site, trace) && Invariant(a, Driven(a, m, trace))
    ensures trace != [] ==>
      var e := trace[|trace| - 1];
      Next(a, Driven(a, m, trace[..|trace| - 1]), Act(e.effect, e.torn), Driven(a, m, trace))
  {
    hide Invariant, Permitted, Do, Truthful, DrawsKey, Drive;
    if trace != [] {
      var rest, e := trace[..|trace| - 1], trace[|trace| - 1];
      assert forall i :: 0 <= i < |rest| ==> rest[..i] == trace[..i];
      TraceIsRun(a, m, rest);
      assert trace[..|rest|] == rest;
      DriveIsNext(a, Driven(a, m, rest), e);
      NextKeeps(a, Driven(a, m, rest), Act(e.effect, e.torn), Driven(a, m, trace));
    }
  }

  lemma DriveIsNext(a: Action, m: Machine, e: Step)
    requires Permitted(a, m.site, e.effect) && Truthful(m.world, e.effect)
    requires e.effect.MakeAttempt? && DrawsKey(m.site) ==> e.effect.key !in m.used
    ensures Next(a, m, Act(e.effect, e.torn), Drive(a, m, e)) && Drive(a, m, e).site == DoStep(a, m.site, e)
  {
    hide ClassOf, ImageOf, Proven, Saved;
  }
}
