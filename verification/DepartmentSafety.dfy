/** What every run of the department action keeps, whatever crashes and however late a request lands. */
module DepartmentSafety {
  import opened Options
  import opened Ordering
  import opened DepartmentEvidence
  import opened DepartmentRuns

  // ---- The chain ----

  /** An attempt that has a successor. */
  predicate Settled(a: Action, t: Attempt) {
    && t.confirmed == Absent
    && if t.intent == Absent then Bare(t) else ProvesBefore(a, t) && ReconciledBefore(a, t)
  }

  /** A written reconciliation describes its observation; it may still record a mismatch. */
  predicate Describes(a: Action, t: Attempt, n: nat)
    requires n in t.reconciles && t.intent.Whole?
  {
    t.reconciles[n].Whole? ==>
      var p := t.reconciles[n].value;
      && p.intent == t.intent.value && p.number == n
      && n in t.observed && t.observed[n] == Whole(p.observed)
      && ClassOf(a, p.observed) == Some(p.state)
  }

  predicate Confirms(a: Action, t: Attempt) {
    && ConfirmationOk(a, t)
    && (t.response != Absent <==> t.confirmed.value.proven)
  }

  /** The last attempt. */
  predicate Open(a: Action, t: Attempt) {
    match t.intent
    case Absent => Bare(t)
    case Torn => ProvesBefore(a, t) && t == EmptyAttempt.(before := t.before, intent := Torn)
    case Whole(_) =>
      && ProvesBefore(a, t) && IntentOk(t)
      && (t.response != Absent ==> t.reconciles == map[])
      && (forall n :: n in t.reconciles ==> Describes(a, t, n))
      && (t.confirmed.Whole? ==> Confirms(a, t))
  }

  /** What the process remembers is on disk. */
  predicate JobFits(a: Action, s: Site) {
    (s.job.Idle? || s.job.Started? || s.chain != []) &&
    match s.job
    case Idle => true
    case Started(_) => true
    case Made(_, _) => Last(s.chain) == EmptyAttempt
    case Prepared(_, _) => Last(s.chain).before.Whole? && Last(s.chain) == EmptyAttempt.(before := Last(s.chain).before)
    case Intended(_) => Fresh(Last(s.chain))
    case Posted(_) => Fresh(Last(s.chain))
    case Answered(_) =>
      var t := Last(s.chain);
      t.response.Whole? && t.intent.Whole? && t == EmptyAttempt.(before := t.before, intent := t.intent, response := t.response)
    case Looked(run, o) => Watched(a, Last(s.chain), run, o)
    case Noted(run, o) =>
      var t := Last(s.chain);
      && Watched(a, t, run, o) && t.response == Absent
      && run in t.reconciles && t.reconciles[run] == Whole(Proof(t.intent.value, run, o, ClassOf(a, o).value))
  }

  /** Only the write intent follows the before image. */
  predicate Fresh(t: Attempt) {
    t.intent.Whole? && t == EmptyAttempt.(before := t.before, intent := t.intent)
  }

  predicate Watched(a: Action, t: Attempt, run: nat, o: Obs) {
    && t.intent.Whole? && t.confirmed == Absent && ClassOf(a, o).Some?
    && run in t.observed && t.observed[run] == Whole(o)
  }

  predicate ChainOk(a: Action, chain: seq<Attempt>) {
    && (forall i :: 0 <= i < |chain| - 1 ==> Settled(a, chain[i]))
    && (chain != [] ==> Open(a, Last(chain)))
  }

  lemma SavedKeepsOpen(a: Action, s: Site, e: Effect, torn: bool)
    requires !e.MakeAttempt? && Permitted(a, s, e) && JobFits(a, s) && Open(a, Last(s.chain))
    ensures Open(a, Saved(a, Last(s.chain), s.job, e, torn))
  {
    hide ClassOf, ImageOf;
    var t := Last(s.chain);
    var u := Saved(a, t, s.job, e, torn);
    if e.SaveObserved? {
      forall n | n in u.reconciles
        ensures Describes(a, u, n)
      {
        assert Describes(a, t, n);
      }
    }
  }

  lemma ClassIffImage(a: Action, o: Obs)
    ensures ClassOf(a, o).Some? <==> ImageOf(a, o).Some?
  {
    hide ImageOf, Classify;
  }

  lemma SavedFits(a: Action, s: Site, e: Effect)
    requires !e.MakeAttempt? && Permitted(a, s, e) && JobFits(a, s) && Open(a, Last(s.chain))
    ensures JobFits(a, Do(a, s, e, false))
  {
    hide ClassOf, ImageOf, Proven, ReconciledBefore, ResponseOk, ConfirmationOk, Describes, Confirms;
    match e
    case SaveObserved(o) =>
      ClassIffImage(a, o);
      ObservedFits(a, s, o);
    case SaveReconcile =>
      ReconciledFits(a, s);
    case _ =>
      hide Open;
  }

  lemma ObservedFits(a: Action, s: Site, o: Obs)
    requires Permitted(a, s, SaveObserved(o)) && JobFits(a, s) && ClassOf(a, o).Some? && Open(a, Last(s.chain))
    ensures JobFits(a, Do(a, s, SaveObserved(o), false))
  {
    hide ClassOf, ImageOf, Proven, ReconciledBefore, ResponseOk, ConfirmationOk, Describes, Confirms, ProvesBefore, Bare;
  }

  lemma ReconciledFits(a: Action, s: Site)
    requires Permitted(a, s, SaveReconcile) && JobFits(a, s)
    ensures JobFits(a, Do(a, s, SaveReconcile, false))
  {
    hide ClassOf, ImageOf, Proven, ReconciledBefore, ResponseOk, ProvesBefore, Bare;
  }

  lemma ReleasedIsSettled(a: Action, t: Attempt, key: string)
    requires Open(a, t) && Releases(a, t, key)
    ensures Settled(a, t)
  {
    hide ClassOf, ReconciledAs;
  }

  lemma DoKeepsChain(a: Action, s: Site, e: Effect, torn: bool)
    requires Permitted(a, s, e) && JobFits(a, s) && ChainOk(a, s.chain)
    ensures ChainOk(a, Do(a, s, e, torn).chain) && JobFits(a, Do(a, s, e, torn))
  {
    hide Settled, Releases, ProvesBefore, ReconciledBefore, Proven, ClassOf, ImageOf, IntentOk, ResponseOk;
    if e.MakeAttempt? {
      if s.chain != [] {
        ReleasedIsSettled(a, Last(s.chain), e.key);
      }
    } else {
      SavedKeepsOpen(a, s, e, torn);
      SavedFits(a, s, e);
    }
  }

  // ---- The keys ----

  predicate HasKey(chain: seq<Attempt>, i: nat, key: string) {
    i < |chain| && chain[i].intent.Whole? && chain[i].intent.value.key == key
  }

  ghost predicate HoldsKey(chain: seq<Attempt>, key: string) {
    exists i :: HasKey(chain, i, key)
  }

  /** No attempt strictly between the two lacks an intent. */
  predicate Linked(chain: seq<Attempt>, i: nat, k: nat)
    requires k <= |chain|
  {
    forall j :: i < j < k ==> chain[j].intent.Whole?
  }

  /** `key` is for attempt `k`: it repeats an earlier key exactly when every attempt in between had an intent. */
  predicate KeyFits(chain: seq<Attempt>, k: nat, key: string)
    requires k <= |chain|
  {
    forall i :: 0 <= i < k && chain[i].intent.Whole? ==> (chain[i].intent.value.key == key <==> Linked(chain, i, k))
  }

  predicate KeysOk(m: Machine) {
    && (forall k :: 0 <= k < |m.site.chain| && m.site.chain[k].intent.Whole? ==>
          m.site.chain[k].intent.value.key in m.used && KeyFits(m.site.chain, k, m.site.chain[k].intent.value.key))
    && (m.site.chain != [] && (m.site.job.Made? || m.site.job.Prepared?) ==>
          m.site.job.key in m.used && KeyFits(m.site.chain, |m.site.chain| - 1, m.site.job.key))
  }

  lemma KeyFitsSame(c: seq<Attempt>, d: seq<Attempt>, k: nat, key: string)
    requires k <= |c| && k <= |d| && c[..k] == d[..k]
    requires KeyFits(c, k, key)
    ensures KeyFits(d, k, key)
  {
    assert forall j :: 0 <= j < k ==> c[j] == c[..k][j] && d[j] == d[..k][j];
    forall i | 0 <= i < k && d[i].intent.Whole?
      ensures d[i].intent.value.key == key <==> Linked(d, i, k)
    {
      assert Linked(c, i, k) <==> Linked(d, i, k);
    }
  }

  /** The key of a new attempt: the last intent's, or one never drawn before. */
  lemma NewKeyFits(m: Machine, key: string)
    requires KeysOk(m)
    requires m.site.chain != [] && !DrawsKey(m.site) ==>
      Last(m.site.chain).intent.Whole? && key == Last(m.site.chain).intent.value.key
    requires DrawsKey(m.site) ==> key !in m.used
    ensures KeyFits(m.site.chain, |m.site.chain|, key)
  {
    var chain := m.site.chain;
    forall i | 0 <= i < |chain| && chain[i].intent.Whole?
      ensures chain[i].intent.value.key == key <==> Linked(chain, i, |chain|)
    {
      var last := |chain| - 1;
      if DrawsKey(m.site) {
        assert chain[last].intent == Absent;
      } else if i < last {
        assert KeyFits(chain, last, key);
        assert Linked(chain, i, last) <==> Linked(chain, i, |chain|);
      }
    }
  }

  lemma MakeKeepsKeys(a: Action, m: Machine, move: Move, n: Machine)
    requires KeysOk(m) && Next(a, m, move, n) && move.Act? && move.effect.MakeAttempt?
    ensures KeysOk(n)
  {
    hide ReconciledAs;
    var c, d := m.site.chain, n.site.chain;
    NewKeyFits(m, move.effect.key);
    KeyFitsSame(c, d, |c|, move.effect.key);
    forall k | 0 <= k < |d| && d[k].intent.Whole?
      ensures d[k].intent.value.key in n.used && KeyFits(d, k, d[k].intent.value.key)
    {
      assert d[k] == c[k];
      KeyFitsSame(c, d, k, d[k].intent.value.key);
    }
  }

  lemma SaveKeepsKeys(a: Action, m: Machine, move: Move, n: Machine)
    requires JobFits(a, m.site) && KeysOk(m) && Next(a, m, move, n) && move.Act? && !move.effect.MakeAttempt?
    ensures KeysOk(n)
  {
    hide Proven, ProvesBefore, ImageOf, ClassOf, KeyFits, IntentOk, ReconciledBefore, ResponseOk;
    var c, d := m.site.chain, n.site.chain;
    forall k | 0 <= k < |d| && d[k].intent.Whole?
      ensures d[k].intent.value.key in n.used && KeyFits(d, k, d[k].intent.value.key)
    {
      assert c[..k] == d[..k];
      KeyFitsSame(c, d, k, d[k].intent.value.key);
    }
    if n.site.job.Prepared? {
      assert c[..|c| - 1] == d[..|c| - 1];
      KeyFitsSame(c, d, |c| - 1, n.site.job.key);
    }
  }

  // ---- The requests and the directory ----

  /** A complete image after the write was seen only when a request had created the department. */
  predicate SeesCreation(a: Action, t: Attempt, w: World) {
    forall n :: n in t.observed && t.observed[n].Whole? && ClassOf(a, t.observed[n].value) == Some(After) ==>
      w.made != []
  }

  ghost predicate WorldOk(a: Action, m: Machine) {
    && (forall i, j :: 0 <= i < j < |m.world.made| ==> m.world.made[i] != m.world.made[j])
    && (forall key :: key in m.world.made || key in m.world.pending ==> HoldsKey(m.site.chain, key))
    && (m.world.made != [] <==> exists d :: d in m.world.items && Named(a, d))
    && (m.site.chain != [] ==> SeesCreation(a, Last(m.site.chain), m.world))
  }

  lemma SaveKeepsKeyHolders(a: Action, s: Site, e: Effect, torn: bool, key: string)
    requires Permitted(a, s, e) && JobFits(a, s) && HoldsKey(s.chain, key)
    ensures HoldsKey(Do(a, s, e, torn).chain, key)
  {
    hide Proven, ProvesBefore, ImageOf, ClassOf, ReconciledBefore;
    var i :| HasKey(s.chain, i, key);
    assert HasKey(Do(a, s, e, torn).chain, i, key);
  }

  /** An after image lists the department. */
  lemma AfterNames(a: Action, o: Obs)
    requires ClassOf(a, o) == Some(After)
    ensures o.valid && exists d :: d in Records(o.items) && Named(a, d)
  {
    var d := ImageOf(a, o).value.department.value;
    var directory := SortById(o.items);
    assert d in NamedIn(a, directory);
    assert d in Records(directory);
  }

  /** A before image does not. */
  lemma BeforeNamesNone(a: Action, o: Obs)
    requires ClassOf(a, o) == Some(Before)
    ensures o.valid && forall d :: d in Records(o.items) ==> !Named(a, d)
  {
    var directory := SortById(o.items);
    forall d | d in Records(o.items)
      ensures !Named(a, d)
    {
      assert d in Records(directory) && d in directory;
      assert Named(a, d) ==> d in NamedIn(a, directory);
    }
  }

  lemma ObservedSees(a: Action, m: Machine, o: Obs, torn: bool)
    requires WorldOk(a, m) && Permitted(a, m.site, SaveObserved(o)) && Truthful(m.world, SaveObserved(o))
    ensures SeesCreation(a, Last(Do(a, m.site, SaveObserved(o), torn).chain), m.world)
  {
    hide ImageOf, ClassOf, Proven;
    if ClassOf(a, o) == Some(After) {
      AfterNames(a, o);
    }
  }

  lemma ActKeepsWorld(a: Action, m: Machine, move: Move, n: Machine)
    requires JobFits(a, m.site) && WorldOk(a, m) && Next(a, m, move, n) && move.Act?
    ensures WorldOk(a, n)
  {
    hide ImageOf, ClassOf, Proven, ProvesBefore, ReconciledBefore, Bare, HoldsKey;
    var e := move.effect;
    forall key | key in n.world.made || key in n.world.pending
      ensures HoldsKey(n.site.chain, key)
    {
      if key !in m.world.made && key !in m.world.pending {
        PostedKeyHeld(m.site.chain);
      }
      SaveKeepsKeyHolders(a, m.site, e, move.torn, key);
    }
    if e.SaveObserved? {
      ObservedSees(a, m, e.obs, move.torn);
    }
  }

  lemma PostedKeyHeld(chain: seq<Attempt>)
    requires chain != [] && Last(chain).intent.Whole?
    ensures HoldsKey(chain, Last(chain).intent.value.key)
  {
    assert HasKey(chain, |chain| - 1, Last(chain).intent.value.key);
  }

  lemma ElseKeepsWorld(a: Action, m: Machine, move: Move, n: Machine)
    requires WorldOk(a, m) && Next(a, m, move, n) && !move.Act?
    ensures WorldOk(a, n)
  {
    hide ClassOf, HoldsKey, Lands;
    if move.Land? {
      LandKeepsWorld(a, m, move.key, move.created, n);
    } else if move.Drift? {
      assert forall d :: Named(a, d) ==> (d in m.world.items <==> d in n.world.items);
    }
  }

  lemma LandKeepsWorld(a: Action, m: Machine, key: string, d: Dept, n: Machine)
    requires WorldOk(a, m) && Lands(a, m.world, key, d, n.world) && n == m.(world := n.world)
    ensures WorldOk(a, n)
  {
    hide ClassOf, HoldsKey;
    assert HoldsKey(m.site.chain, key);
    if key in m.world.made {
      assert n.world.made == m.world.made && n.world.items == m.world.items;
    } else {
      assert d in n.world.items && Named(a, d);
    }
  }

  // ---- Runs ----

  ghost predicate Invariant(a: Action, m: Machine) {
    ChainOk(a, m.site.chain) && JobFits(a, m.site) && KeysOk(m) && WorldOk(a, m)
  }

  lemma NextKeeps(a: Action, m: Machine, move: Move, n: Machine)
    requires Invariant(a, m) && Next(a, m, move, n)
    ensures Invariant(a, n)
  {
    hide ChainOk, JobFits, KeysOk, WorldOk;
    if move.Act? {
      DoKeepsChain(a, m.site, move.effect, move.torn);
      ActKeepsWorld(a, m, move, n);
      if move.effect.MakeAttempt? {
        MakeKeepsKeys(a, m, move, n);
      } else {
        SaveKeepsKeys(a, m, move, n);
      }
    } else {
      ElseKeepsWorld(a, m, move, n);
      JobAloneKeeps(a, m, move, n);
    }
  }

  lemma JobAloneKeeps(a: Action, m: Machine, move: Move, n: Machine)
    requires ChainOk(a, m.site.chain) && JobFits(a, m.site) && KeysOk(m) && Next(a, m, move, n) && !move.Act?
    ensures ChainOk(a, n.site.chain) && JobFits(a, n.site) && KeysOk(n)
  {
    hide ChainOk, KeyFits, Watched;
  }

  lemma {:induction false} RunInvariant(a: Action, machines: seq<Machine>, moves: seq<Move>, i: nat)
    requires Run(a, machines, moves) && i < |machines|
    ensures Invariant(a, machines[i])
  {
    hide Invariant, Next;
    if i == 0 {
      InitHolds(a, machines[0]);
    } else {
      RunInvariant(a, machines, moves, i - 1);
      NextKeeps(a, machines[i - 1], moves[i - 1], machines[i]);
    }
  }

  lemma InitHolds(a: Action, m: Machine)
    requires Init(a, m)
    ensures Invariant(a, m)
  {
  }
}
