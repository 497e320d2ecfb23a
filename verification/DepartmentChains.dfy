/** Main results about the department action: which chains are accepted, and how many departments are created. */
module DepartmentChains {
  import opened Options
  import opened Ordering
  import opened DepartmentEvidence
  import opened DepartmentRuns
  import opened DepartmentSafety

  // ---- The chains the writer leaves, and the validator ----

  /** Every attempt after the first intent has one. */
  predicate NoGap(chain: seq<Attempt>) {
    forall i, j :: 0 <= i < j < |chain| && chain[i].intent.Whole? ==> chain[j].intent.Whole?
  }

  predicate AbandonedBefore(a: Action, chain: seq<Attempt>) {
    forall i :: 0 <= i < |chain| && chain[i].intent == Absent && chain[i].before != Absent ==> ProvesBefore(a, chain[i])
  }

  predicate NoMismatch(t: Attempt) {
    forall n :: n in t.reconciles ==> t.reconciles[n].Whole? && t.reconciles[n].value.state != Mismatch
  }

  lemma SettledIsOk(a: Action, t: Attempt)
    requires Settled(a, t)
    ensures AttemptOk(a, t, false) <==> (t.intent == Absent && t.before != Absent ==> ProvesBefore(a, t))
  {
    hide ClassOf, ImageOf;
  }

  lemma ConfirmedIsOk(a: Action, t: Attempt)
    requires Open(a, t) && t.confirmed.Whole?
    ensures t.intent.Whole?
    ensures AttemptOk(a, t, true) <==> NoMismatch(t)
  {
    hide ClassOf, ImageOf;
    forall n | n in t.reconciles
      ensures ReconcileOk(a, t, n) <==> t.reconciles[n].Whole? && t.reconciles[n].value.state != Mismatch
    {
      assert Describes(a, t, n);
    }
  }

  /** Two attempts carry one key exactly when every attempt between them wrote an intent. */
  lemma SameKeyIffLinked(a: Action, machines: seq<Machine>, moves: seq<Move>, at: nat, i: nat, k: nat)
    requires Run(a, machines, moves) && at < |machines|
    requires var chain := machines[at].site.chain;
             i < k < |chain| && chain[i].intent.Whole? && chain[k].intent.Whole?
    ensures var chain := machines[at].site.chain;
            chain[i].intent.value.key == chain[k].intent.value.key <==>
            forall j :: i < j < k ==> chain[j].intent.Whole?
  {
    hide Next, Init, ChainOk, JobFits, WorldOk;
    RunInvariant(a, machines, moves, at);
    var chain := machines[at].site.chain;
    assert KeyFits(chain, k, chain[k].intent.value.key);
    assert Linked(chain, i, k) <==> forall j :: i < j < k ==> chain[j].intent.Whole?;
  }

  lemma OneKeyIffNoGap(m: Machine)
    requires KeysOk(m) && m.site.chain != [] && Last(m.site.chain).intent.Whole?
    ensures OneKey(m.site.chain) <==> NoGap(m.site.chain)
  {
    var chain := m.site.chain;
    var last := |chain| - 1;
    var key := chain[last].intent.value.key;
    assert KeyFits(chain, last, key);
    if OneKey(chain) {
      forall i, j | 0 <= i < j < |chain| && chain[i].intent.Whole?
        ensures chain[j].intent.Whole?
      {
        assert i < last ==> Linked(chain, i, last);
      }
    }
    if NoGap(chain) {
      forall i | 0 <= i < |chain| && chain[i].intent.Whole?
        ensures chain[i].intent.value.key == key
      {
        if i < last {
          assert Linked(chain, i, last);
        }
      }
    }
  }

  /**
   * A chain that any run leaves confirmed is accepted exactly when no mismatched or torn reconciliation is on record,
   * abandoned before images are whole and show the planned directory, and no attempt after an intent lacks one.
   */
  lemma ConfirmedChainAccepted(a: Action, machines: seq<Machine>, moves: seq<Move>, at: nat)
    requires Run(a, machines, moves) && at < |machines|
    requires var chain := machines[at].site.chain; chain != [] && Last(chain).confirmed.Whole?
    ensures var chain := machines[at].site.chain;
            HistoryOk(a, chain) <==> NoMismatch(Last(chain)) && AbandonedBefore(a, chain) && NoGap(chain)
  {
    hide Next, Init, Settled, Open, AttemptOk, NoMismatch, OneKey, NoGap, KeysOk, WorldOk, JobFits;
    RunInvariant(a, machines, moves, at);
    var chain := machines[at].site.chain;
    ConfirmedIsOk(a, Last(chain));
    OneKeyIffNoGap(machines[at]);
    forall i | 0 <= i < |chain| - 1
      ensures AttemptOk(a, chain[i], false) <==>
        (chain[i].intent == Absent && chain[i].before != Absent ==> ProvesBefore(a, chain[i]))
    {
      SettledIsOk(a, chain[i]);
    }
    assert AttemptOk(a, Last(chain), true) <==> NoMismatch(Last(chain));
  }

  // ---- Between two intents ----

  /** The attempt holds a whole observation of exactly the planned directory, taken for its own intent. */
  ghost predicate ObservedBefore(a: Action, t: Attempt, n: nat) {
    && n in t.observed && t.observed[n].Whole?
    && Records(t.observed[n].value.items) == Records(a.before) && t.observed[n].value.paths == a.beforePaths
    && t.intent.Whole? && n in t.reconciles
    && t.reconciles[n] == Whole(Proof(t.intent.value, n, t.observed[n].value, Before))
  }

  /** An intent that has a successor was reconciled, only ever against the planned directory, and had no response. */
  lemma BetweenIntents(a: Action, machines: seq<Machine>, moves: seq<Move>, at: nat, i: nat)
    requires ActionOk(a) && Run(a, machines, moves) && at < |machines|
    requires i < |machines[at].site.chain| - 1 && machines[at].site.chain[i].intent != Absent
    ensures var t := machines[at].site.chain[i];
            && t.response == Absent && t.confirmed == Absent && t.reconciles != map[]
            && forall n :: n in t.reconciles ==> ObservedBefore(a, t, n)
  {
    hide Next, Init, Open, KeysOk, WorldOk, JobFits, ClassOf, ProvesBefore;
    RunInvariant(a, machines, moves, at);
    var t := machines[at].site.chain[i];
    assert Settled(a, t);
    forall n | n in t.reconciles
      ensures ObservedBefore(a, t, n)
    {
      assert ReconciledAs(a, t, n, Before);
      BeforeIsExactly(a, t.reconciles[n].value.observed);
    }
  }

  /** The last attempt holds evidence that forbids another request. */
  predicate Barred(a: Action, t: Attempt) {
    && t.intent != Absent
    && (t.intent.Torn? || t.response != Absent || t.confirmed != Absent
        || exists n :: n in t.reconciles && !ReconciledAs(a, t, n, Before))
  }

  /** The effects a barred attempt still allows add observations, proofs and the confirmation. */
  predicate Adds(t: Attempt, u: Attempt) {
    && u.intent == t.intent && (t.response != Absent ==> u.response != Absent) && (t.confirmed != Absent ==>
         u.confirmed != Absent)
    && (forall n :: n in t.observed ==> n in u.observed && u.observed[n] == t.observed[n])
    && (forall n :: n in t.reconciles ==> n in u.reconciles && u.reconciles[n] == t.reconciles[n])
  }

  lemma BarredAdds(a: Action, s: Site, e: Effect, torn: bool)
    requires JobFits(a, s) && Permitted(a, s, e) && s.chain != [] && Barred(a, Last(s.chain))
    ensures !e.MakeAttempt? && !e.Post? && Adds(Last(s.chain), Saved(a, Last(s.chain), s.job, e, torn))
  {
    hide ClassOf, ImageOf, Proven, ProvesBefore, ReconciledAs, ResponseOk;
  }

  lemma AddedStaysBarred(a: Action, t: Attempt, u: Attempt)
    requires Open(a, t) && Adds(t, u) && Barred(a, t)
    ensures Barred(a, u)
  {
    hide ClassOf, ImageOf, ProvesBefore, ConfirmationOk;
    if k :| k in t.reconciles && !ReconciledAs(a, t, k, Before) {
      assert t.intent.Whole? ==> Describes(a, t, k);
      assert k in u.reconciles && !ReconciledAs(a, u, k, Before);
    }
  }

  lemma BarredStep(a: Action, m: Machine, move: Move, n: Machine)
    requires Invariant(a, m) && Next(a, m, move, n) && m.site.chain != [] && Barred(a, Last(m.site.chain))
    ensures NothingSent(m, n) && Barred(a, Last(n.site.chain))
  {
    hide Barred, Open, Permitted, JobFits, KeysOk, WorldOk, Lands;
    if move.Act? {
      BarredAdds(a, m.site, move.effect, move.torn);
      AddedStaysBarred(a, Last(m.site.chain), Last(n.site.chain));
    } else if move.Land? {
      LandShrinks(a, m.world, move.key, move.created, n.world);
    }
  }

  lemma LandShrinks(a: Action, w: World, key: string, d: Dept, x: World)
    requires Lands(a, w, key, d, x)
    ensures x.pending <= w.pending
  {
  }

  /** From `m` to `n` no attempt was added, the last intent is the same, and no request was sent. */
  ghost predicate NothingSent(m: Machine, n: Machine) {
    && m.site.chain != [] && |n.site.chain| == |m.site.chain|
    && Last(n.site.chain).intent == Last(m.site.chain).intent
    && n.world.pending <= m.world.pending
  }

  lemma NothingSentJoins(l: Machine, m: Machine, n: Machine)
    requires NothingSent(l, m) && NothingSent(m, n)
    ensures NothingSent(l, n)
  {
  }

  lemma StepOf(a: Action, machines: seq<Machine>, moves: seq<Move>, i: nat)
    requires Run(a, machines, moves) && i + 1 < |machines|
    ensures Invariant(a, machines[i]) && Next(a, machines[i], moves[i], machines[i + 1])
  {
    RunInvariant(a, machines, moves, i);
  }

  /**
   * Once a response, a mismatch or a torn intent or proof is on record, no run ever writes another intent or
   * request.
   */
  lemma {:induction false} BarredForGood(a: Action, machines: seq<Machine>, moves: seq<Move>, i: nat, j: nat)
    requires Run(a, machines, moves) && i <= j < |machines|
    requires machines[i].site.chain != [] && Barred(a, Last(machines[i].site.chain))
    ensures NothingSent(machines[i], machines[j]) && Barred(a, Last(machines[j].site.chain))
    decreases j
  {
    hide Barred, Next, Invariant, Init;
    if i < j {
      BarredForGood(a, machines, moves, i, j - 1);
      StepOf(a, machines, moves, j - 1);
      BarredStep(a, machines[j - 1], moves[j - 1], machines[j]);
      NothingSentJoins(machines[i], machines[j - 1], machines[j]);
    }
  }

  // ---- How many departments are created ----

  /** No request is under way except while its caller waits for it. */
  ghost predicate Prompt(machines: seq<Machine>) {
    forall i :: 0 <= i < |machines| && machines[i].world.pending != multiset{} ==> machines[i].site.job.Posted?
  }

  predicate AboutToPost(a: Action, s: Site) {
    s.job.Intended? || (s.job.Prepared? && s.chain != [] && ProvesBefore(a, Last(s.chain)))
  }

  ghost predicate Single(a: Action, m: Machine) {
    && |m.world.made| + |m.world.pending| <= 1
    && (AboutToPost(a, m.site) ==> m.world.made == [] && m.world.pending == multiset{})
  }

  lemma SingleAct(a: Action, m: Machine, move: Move, n: Machine)
    requires JobFits(a, m.site) && WorldOk(a, m) && Single(a, m) && Next(a, m, move, n) && move.Act?
    requires m.world.pending != multiset{} ==> m.site.job.Posted?
    ensures Single(a, n)
  {
    hide ClassOf, ImageOf, Proven, SeesCreation, HoldsKey, ReconciledBefore, ResponseOk, IntentOk, Watched;
    if move.effect.SaveBefore? {
      var o := move.effect.obs;
      if !move.torn && ClassOf(a, o) == Some(Before) {
        BeforeNamesNone(a, o);
        assert m.world.items == Records(o.items);
        assert m.world.made == [];
      }
    }
  }

  lemma SingleStep(a: Action, m: Machine, move: Move, n: Machine)
    requires Invariant(a, m) && Single(a, m) && Next(a, m, move, n)
    requires m.world.pending != multiset{} ==> m.site.job.Posted?
    ensures Single(a, n)
  {
    hide ClassOf, ImageOf, KeysOk, ChainOk, Proven, WorldOk, JobFits, Permitted, Truthful, ProvesBefore;
    if move.Act? {
      SingleAct(a, m, move, n);
    }
  }

  lemma InitSingle(a: Action, m: Machine)
    requires Init(a, m)
    ensures Single(a, m)
  {
  }

  lemma {:induction false} PromptSingle(a: Action, machines: seq<Machine>, moves: seq<Move>, i: nat)
    requires Run(a, machines, moves) && Prompt(machines) && i < |machines|
    ensures Single(a, machines[i])
  {
    hide Single, Next, Invariant, Init;
    if i == 0 {
      InitSingle(a, machines[0]);
    } else {
      PromptSingle(a, machines, moves, i - 1);
      RunInvariant(a, machines, moves, i - 1);
      SingleStep(a, machines[i - 1], moves[i - 1], machines[i]);
    }
  }

  /** Requests that take effect while their caller waits, or never, create at most one department. */
  lemma PromptCreatesOnce(a: Action, machines: seq<Machine>, moves: seq<Move>, i: nat)
    requires Run(a, machines, moves) && Prompt(machines) && i < |machines|
    ensures |machines[i].world.made| <= 1
  {
    PromptSingle(a, machines, moves, i);
  }

  lemma OneKeyHeld(chain: seq<Attempt>, k: string, l: string)
    requires OneKey(chain) && HoldsKey(chain, k) && HoldsKey(chain, l)
    ensures k == l
  {
    var p :| HasKey(chain, p, k);
    var q :| HasKey(chain, q, l);
  }

  /** Requests that land arbitrarily late create at most one department under one key. */
  lemma OneKeyCreatesOnce(a: Action, machines: seq<Machine>, moves: seq<Move>, i: nat)
    requires Run(a, machines, moves) && i < |machines| && OneKey(machines[i].site.chain)
    ensures |machines[i].world.made| <= 1
  {
    hide Next, Init, ChainOk, KeysOk, JobFits, OneKey, HoldsKey;
    RunInvariant(a, machines, moves, i);
    var m := machines[i];
    if |m.world.made| > 1 {
      OneKeyHeld(m.site.chain, m.world.made[0], m.world.made[1]);
    }
  }

  /** An accepted chain means the department was created exactly once, and a created one is never gone. */
  lemma AcceptedCreatedOnce(a: Action, machines: seq<Machine>, moves: seq<Move>, i: nat)
    requires Run(a, machines, moves) && i < |machines| && HistoryOk(a, machines[i].site.chain)
    ensures |machines[i].world.made| == 1
    ensures exists d :: d in machines[i].world.items && Named(a, d)
  {
    hide Next, Init, KeysOk, JobFits, ClassOf, ImageOf;
    OneKeyCreatesOnce(a, machines, moves, i);
    RunInvariant(a, machines, moves, i);
    var m := machines[i];
    var t := Last(m.site.chain);
    assert AttemptOk(a, t, true);
    assert ConfirmationOk(a, t);
    assert t.observed[t.confirmed.value.number].Whole?;
  }
}
