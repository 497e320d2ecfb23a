/**
 * Every run of `apply_one` and `reconcile_one` for one tenant, with crashes between and inside file writes:
 * tools/python/devex_clone_department.py, lines 564-669.
 */
module DepartmentRuns {
  import opened Options
  import opened DepartmentEvidence

  /** Where the process of this tenant stands; `run` is the number of its output directory. */
  datatype Job =
    | Idle
    | Started(run: nat)
    | Made(run: nat, key: string)
    | Prepared(run: nat, key: string)
    | Intended(run: nat)
    | Posted(run: nat)
    | Answered(run: nat)
    | Looked(run: nat, seen: Obs)
    | Noted(run: nat, seen: Obs)

  /** Effects in the order the two functions may take them. */
  datatype Effect =
    | MakeAttempt(key: string)
    | SaveBefore(obs: Obs)
    | SaveIntent
    | Post
    | SaveResponse(response: Response)
    | SaveObserved(obs: Obs)
    | SaveReconcile
    | SaveConfirmed

  /** The attempt directories of the tenant, and the process. */
  datatype Site = Site(chain: seq<Attempt>, job: Job)

  function Last(chain: seq<Attempt>): Attempt
    requires chain != []
  {
    chain[|chain| - 1]
  }

  function WithLast(chain: seq<Attempt>, t: Attempt): seq<Attempt>
    requires chain != []
  {
    chain[..|chain| - 1] + [t]
  }

  // ---- When an effect may happen ----

  /** An attempt without an intent may hold only `before.json`. */
  predicate Bare(t: Attempt) {
    t == EmptyAttempt.(before := t.before)
  }

  /** `reconciled_before` accepts the attempt. */
  predicate ReconciledBefore(a: Action, t: Attempt) {
    IntentOk(t) && t.response == Absent && t.reconciles != map[]
    && forall n :: n in t.reconciles ==> ReconciledAs(a, t, n, Before)
  }

  /** A new attempt may follow this one, under this key. */
  predicate Releases(a: Action, t: Attempt, key: string) {
    && t.confirmed == Absent
    && if t.intent == Absent then Bare(t) else ReconciledBefore(a, t) && key == t.intent.value.key
  }

  /** The response is good, and the complete image that followed holds exactly what it created. */
  predicate Proven(a: Action, t: Attempt, o: Obs) {
    && ResponseOk(t) && ClassOf(a, o) == Some(After)
    && ImageOf(a, o).value.department == Some(t.response.value.created)
  }

  predicate Permitted(a: Action, s: Site, e: Effect) {
    (e.MakeAttempt? || s.chain != []) &&
    match e
    case MakeAttempt(key) => s.job.Started? && (s.chain == [] || Releases(a, Last(s.chain), key))
    case SaveBefore(o) => s.job.Made? && ImageOf(a, o).Some?
    case SaveIntent => s.job.Prepared? && ProvesBefore(a, Last(s.chain))
    case Post => s.job.Intended? && Last(s.chain).intent.Whole?
    case SaveResponse(_) => s.job.Posted?
    case SaveObserved(o) =>
      && ImageOf(a, o).Some?
      && (s.job.Answered? || s.job.Started?) && s.job.run !in Last(s.chain).observed
      && (s.job.Answered? ==> Proven(a, Last(s.chain), o))
      && (s.job.Started? ==> Last(s.chain).confirmed == Absent && IntentOk(Last(s.chain)))
    case SaveReconcile =>
      && s.job.Looked? && Last(s.chain).response == Absent && s.job.run !in Last(s.chain).reconciles
      && Last(s.chain).intent.Whole? && ClassOf(a, s.job.seen).Some?
    case SaveConfirmed =>
      || (s.job.Looked? && Last(s.chain).response != Absent && Proven(a, Last(s.chain), s.job.seen))
      || (s.job.Noted? && ClassOf(a, s.job.seen) == Some(After))
  }

  // ---- What it does ----

  function Written<T>(value: T, torn: bool): File<T> {
    if torn then Torn else Whole(value)
  }

  /** The files of the last attempt after the effect. */
  function Saved(a: Action, t: Attempt, job: Job, e: Effect, torn: bool): Attempt
    requires e.SaveIntent? ==> job.Prepared? && t.before.Whole?
    requires e.SaveObserved? ==> !job.Idle?
    requires e.SaveReconcile? ==> job.Looked? && t.intent.Whole? && ClassOf(a, job.seen).Some?
    requires e.SaveConfirmed? ==> job.Looked? || job.Noted?
  {
    match e
    case SaveBefore(o) => t.(before := Written(o, torn))
    case SaveIntent => t.(intent := Written(Intent(job.key, t.before.value), torn))
    case SaveResponse(r) => t.(response := Written(r, torn))
    case SaveObserved(o) => t.(observed := t.observed[job.run := Written(o, torn)])
    case SaveReconcile =>
      var proof := Proof(t.intent.value, job.run, job.seen, ClassOf(a, job.seen).value);
      t.(reconciles := t.reconciles[job.run := Written(proof, torn)])
    case SaveConfirmed => t.(confirmed := Written(Confirmation(job.run, job.seen, job.Looked?, job.run), torn))
    case _ => t
  }

  function NextJob(job: Job, e: Effect): Job
    requires !e.SaveConfirmed? ==> !job.Idle?
    requires e.SaveBefore? ==> job.Made?
    requires e.SaveReconcile? ==> job.Looked?
  {
    match e
    case MakeAttempt(key) => Made(job.run, key)
    case SaveBefore(_) => Prepared(job.run, job.key)
    case SaveIntent => Intended(job.run)
    case Post => Posted(job.run)
    case SaveResponse(_) => Answered(job.run)
    case SaveObserved(o) => Looked(job.run, o)
    case SaveReconcile => Noted(job.run, job.seen)
    case SaveConfirmed => Idle
  }

  /** `torn`: the process dies inside the effect, which leaves a file it was writing torn. */
  function Do(a: Action, s: Site, e: Effect, torn: bool): Site
    requires Permitted(a, s, e)
  {
    var job := if torn then Idle else NextJob(s.job, e);
    if e.MakeAttempt? then Site(s.chain + [EmptyAttempt], job)
    else Site(WithLast(s.chain, Saved(a, Last(s.chain), s.job, e, torn)), job)
  }

  // ---- The product's API, and everyone else ----

  /** `pending` holds the keys of requests under way, `made` the keys of those that created a department. */
  datatype World = World(items: set<Dept>, pending: multiset<string>, made: seq<string>)

  /** `used`: the idempotency keys drawn so far. */
  datatype Machine = Machine(site: Site, world: World, used: set<string>)

  datatype Move =
    | Start(run: nat)
    | Act(effect: Effect, torn: bool)
    | Gone
    | Land(key: string, created: Dept)
    | Lose(key: string)
    | Drift(items: set<Dept>)

  ghost predicate SameNamed(a: Action, s: set<Dept>, t: set<Dept>) {
    forall d :: Named(a, d) ==> (d in s <==> d in t)
  }

  /** A complete observation lists the tenant's directory. */
  ghost predicate Truthful(w: World, e: Effect) {
    match e
    case SaveBefore(o) => o.valid ==> Records(o.items) == w.items
    case SaveObserved(o) => o.valid ==> Records(o.items) == w.items
    case _ => true
  }

  predicate DrawsKey(s: Site) {
    s.chain == [] || Last(s.chain).intent == Absent
  }

  /** A request creates a department, under a new id, unless its key already did. */
  ghost predicate Lands(a: Action, w: World, key: string, d: Dept, x: World) {
    && key in w.pending && Named(a, d) && (forall other :: other in w.items ==> other.id != d.id)
    && x == if key in w.made then w.(pending := w.pending - multiset{key})
            else World(w.items + {d}, w.pending - multiset{key}, w.made + [key])
  }

  ghost predicate Next(a: Action, m: Machine, move: Move, n: Machine) {
    match move
    case Start(run) => m.site.job.Idle? && n == m.(site := m.site.(job := Started(run)))
    case Act(e, torn) =>
      && Permitted(a, m.site, e) && Truthful(m.world, e)
      && (e.MakeAttempt? && DrawsKey(m.site) ==> e.key !in m.used)
      && n.site == Do(a, m.site, e, torn)
      && n.world == (if e.Post? then m.world.(pending := m.world.pending + multiset{Last(m.site.chain).intent.value.key})
                     else m.world)
      && n.used == if e.MakeAttempt? then m.used + {e.key} else m.used
    case Gone => n == m.(site := m.site.(job := Idle))
    case Land(key, d) => Lands(a, m.world, key, d, n.world) && n == m.(world := n.world)
    case Lose(key) => key in m.world.pending && n == m.(world := m.world.(pending := m.world.pending - multiset{key}))
    case Drift(items) => SameNamed(a, m.world.items, items) && n == m.(world := m.world.(items := items))
  }

  ghost predicate Init(a: Action, m: Machine) {
    && m.site == Site([], Idle) && m.used == {}
    && m.world.pending == multiset{} && m.world.made == []
    && forall d :: d in m.world.items ==> !Named(a, d)
  }

  ghost predicate Run(a: Action, machines: seq<Machine>, moves: seq<Move>) {
    && |machines| == |moves| + 1 && Init(a, machines[0])
    && forall i :: 0 <= i < |moves| ==> Next(a, machines[i], moves[i], machines[i + 1])
  }
}
