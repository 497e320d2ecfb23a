/**
 * A run in which a crash between two files loses the idempotency key, and a late request creates a second
 * department.
 */
module DepartmentLostKey {
  import opened Options
  import opened DepartmentEvidence
  import opened DepartmentRuns
  import DepartmentChains

  const PLAN := Action("dept", "", [], [])
  const EMPTY := Obs(true, [], [])
  const FIRST := Intent("k1", EMPTY)
  const SECOND := Intent("k2", EMPTY)
  const PREPARED := EmptyAttempt.(before := Whole(EMPTY))
  const SENT := PREPARED.(intent := Whole(FIRST))
  const WATCHED := SENT.(observed := map[2 := Whole(EMPTY)])
  const RECONCILED := WATCHED.(reconciles := map[2 := Whole(Proof(FIRST, 2, EMPTY, Before))])

  /** A machine of this run: nothing has landed yet. */
  function At(chain: seq<Attempt>, job: Job, pending: multiset<string>, used: set<string>): Machine {
    Machine(Site(chain, job), World({}, pending, []), used)
  }

  function Machines(): seq<Machine> {
    var p, k := multiset{"k1"}, {"k1"};
    [ At([], Idle, multiset{}, {}),
      At([], Started(1), multiset{}, {}),
      At([EmptyAttempt], Made(1, "k1"), multiset{}, k),
      At([PREPARED], Prepared(1, "k1"), multiset{}, k),
      At([SENT], Intended(1), multiset{}, k),
      At([SENT], Idle, p, k),
      At([SENT], Started(2), p, k),
      At([WATCHED], Looked(2, EMPTY), p, k),
      At([RECONCILED], Noted(2, EMPTY), p, k),
      At([RECONCILED], Idle, p, k) ]
  }

  function Moves(): seq<Move> {
    [ Start(1), Act(MakeAttempt("k1"), false), Act(SaveBefore(EMPTY), false), Act(SaveIntent, false), Act(Post, true),
      Start(2), Act(SaveObserved(EMPTY), false), Act(SaveReconcile, false), Gone ]
  }

  function LaterMachines(): seq<Machine> {
    var p, k, l := multiset{"k1"}, {"k1"}, {"k1", "k2"};
    var abandoned := [RECONCILED, EmptyAttempt];
    var q := multiset{"k1", "k2"};
    var chain := abandoned + [PREPARED.(intent := Whole(SECOND))];
    [ At([RECONCILED], Idle, p, k),
      At([RECONCILED], Started(3), p, k),
      At(abandoned, Made(3, "k1"), p, k),
      At(abandoned, Idle, p, k),
      At(abandoned, Started(4), p, k),
      At(abandoned + [EmptyAttempt], Made(4, "k2"), p, l),
      At(abandoned + [PREPARED], Prepared(4, "k2"), p, l),
      At(chain, Intended(4), p, l),
      At(chain, Posted(4), q, l),
      Machine(Site(chain, Posted(4)), World({Dept(1, "dept", "")}, multiset{"k2"}, ["k1"]), l),
      Machine(Site(chain, Posted(4)), World({Dept(1, "dept", ""), Dept(2, "dept", "")}, multiset{}, ["k1", "k2"]), l) ]
  }

  function LaterMoves(): seq<Move> {
    [ Start(3), Act(MakeAttempt("k1"), false), Gone, Start(4), Act(MakeAttempt("k2"), false), Act(SaveBefore(EMPTY), false),
      Act(SaveIntent, false), Act(Post, false), Land("k1", Dept(1, "dept", "")), Land("k2", Dept(2, "dept", "")) ]
  }

  lemma EmptyIsBefore()
    ensures ImageOf(PLAN, EMPTY).Some? && ClassOf(PLAN, EMPTY) == Some(Before)
    ensures Records(EMPTY.items) == {}
  {
  }

  lemma FirstAttempt(i: nat)
    requires i < 5
    ensures Next(PLAN, Machines()[i], Moves()[i], Machines()[i + 1])
  {
    EmptyIsBefore();
    hide ClassOf, ImageOf, Records, ReconciledBefore, ResponseOk;
    if i == 0 || i == 1 {
    } else if i == 2 || i == 3 {
    } else {
    }
  }

  lemma FirstReconcile(i: nat)
    requires 5 <= i < 9
    ensures Next(PLAN, Machines()[i], Moves()[i], Machines()[i + 1])
  {
    EmptyIsBefore();
    hide ClassOf, ImageOf, Records, ReconciledBefore, ResponseOk;
  }

  lemma ReleasesRetry()
    ensures Releases(PLAN, RECONCILED, "k1")
  {
    EmptyIsBefore();
    assert 2 in RECONCILED.reconciles;
    hide ClassOf;
  }

  lemma SecondHalf(i: nat)
    requires i < |LaterMoves()|
    ensures Next(PLAN, LaterMachines()[i], LaterMoves()[i], LaterMachines()[i + 1])
  {
    EmptyIsBefore();
    ReleasesRetry();
    hide ClassOf, ImageOf, Records, ReconciledBefore;
    if i == 8 {
      assert multiset{"k1", "k2"} - multiset{"k1"} == multiset{"k2"};
    }
    if i == 9 {
      assert multiset{"k2"} - multiset{"k2"} == multiset{};
      assert {Dept(1, "dept", "")} + {Dept(2, "dept", "")} == {Dept(1, "dept", ""), Dept(2, "dept", "")};
    }
  }

  /** Without the condition on keys, a late request can create a second department. */
  lemma LostKeyCreatesTwice()
    ensures Run(PLAN, Machines() + LaterMachines()[1..], Moves() + LaterMoves())
    ensures ActionOk(PLAN)
    ensures var last := LaterMachines()[|LaterMoves()|];
            (Machines() + LaterMachines()[1..])[|Moves() + LaterMoves()|] == last
            && |last.world.made| == 2 && !DepartmentChains.NoGap(last.site.chain)
  {
    var machines, moves := Machines() + LaterMachines()[1..], Moves() + LaterMoves();
    hide Next;
    forall i | 0 <= i < |moves|
      ensures Next(PLAN, machines[i], moves[i], machines[i + 1])
    {
      if i < 5 {
        FirstAttempt(i);
      } else if i < |Moves()| {
        FirstReconcile(i);
      } else {
        SecondHalf(i - |Moves()|);
        assert Machines()[|Moves()|] == LaterMachines()[0];
      }
    }
    var chain := LaterMachines()[|LaterMoves()|].site.chain;
    assert chain[0].intent.Whole? && !chain[1].intent.Whole? && 0 < 1 < |chain|;
  }
}
