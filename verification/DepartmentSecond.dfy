/** When requests that land late can create a second department: exactly under two keys that a lost intent separates. */
module DepartmentSecond {
  import opened Options
  import opened DepartmentEvidence
  import opened DepartmentRuns
  import opened DepartmentSafety

  /** Requests land, one after the other, and nothing else happens. */
  ghost predicate Landings(a: Action, machines: seq<Machine>, moves: seq<Move>) {
    && |machines| == |moves| + 1
    && forall i :: 0 <= i < |moves| ==> moves[i].Land? && Next(a, machines[i], moves[i], machines[i + 1])
  }

  /** By landing requests alone the product can end up with two departments. */
  ghost predicate Second(a: Action, m: Machine) {
    exists machines: seq<Machine>, moves: seq<Move> ::
      Landings(a, machines, moves) && machines[0] == m && |machines[|moves|].world.made| >= 2
  }

  /** A request under this key is under way or created a department. */
  predicate Live(w: World, key: string) {
    key in w.pending || key in w.made
  }

  ghost predicate TwoKeys(w: World, k: string, l: string) {
    k != l && Live(w, k) && Live(w, l)
  }

  // ---- Two keys, and two departments ----

  lemma LandKeepsKeys(a: Action, m: Machine, move: Move, n: Machine, key: string)
    requires move.Land? && Next(a, m, move, n)
    ensures Live(n.world, key) ==> Live(m.world, key)
  {
  }

  lemma {:induction false} LandingsKeep(a: Action, machines: seq<Machine>, moves: seq<Move>)
    requires Landings(a, machines, moves) && Invariant(a, machines[0])
    ensures Invariant(a, machines[|moves|])
    ensures forall key :: Live(machines[|moves|].world, key) ==> Live(machines[0].world, key)
    decreases |moves|
  {
    hide Invariant, Next, Live;
    if moves != [] {
      var k := |moves| - 1;
      LandingsKeep(a, machines[..k + 1], moves[..k]);
      NextKeeps(a, machines[k], moves[k], machines[k + 1]);
      forall key | Live(machines[k + 1].world, key)
        ensures Live(machines[k].world, key)
      {
        LandKeepsKeys(a, machines[k], moves[k], machines[k + 1], key);
      }
    }
  }

  lemma MadeTwice(a: Action, m: Machine)
    requires WorldOk(a, m) && |m.world.made| >= 2
    ensures TwoKeys(m.world, m.world.made[0], m.world.made[1])
  {
    hide HoldsKey, SeesCreation;
  }

  lemma FreshId(items: set<Dept>) returns (id: nat)
    ensures forall d :: d in items ==> d.id < id
    decreases |items|
  {
    if items == {} {
      id := 0;
    } else {
      var d :| d in items;
      var above := FreshId(items - {d});
      id := if above > d.id then above else d.id + 1;
    }
  }

  /** The request under this key lands now, or has landed before. */
  lemma LandOne(a: Action, m: Machine, key: string) returns (machines: seq<Machine>, moves: seq<Move>, n: Machine)
    requires Live(m.world, key)
    ensures Reaches(a, machines, moves, m, n) && machines != []
    ensures key in n.world.made && forall k :: Live(m.world, k) ==> Live(n.world, k)
    ensures m.world.made <= n.world.made
  {
    if key in m.world.made {
      machines, moves, n := [m], [], m;
    } else {
      var w := m.world;
      var id := FreshId(w.items);
      var d := Dept(id, a.name, "");
      n := m.(world := World(w.items + {d}, w.pending - multiset{key}, w.made + [key]));
      machines, moves := [m, n], [Land(key, d)];
      assert Next(a, m, Land(key, d), n);
    }
  }

  ghost predicate Reaches(a: Action, machines: seq<Machine>, moves: seq<Move>, m: Machine, n: Machine) {
    Landings(a, machines, moves) && machines[0] == m && machines[|moves|] == n
  }

  lemma ReachesJoin(a: Action, s: seq<Machine>, u: seq<Move>, t: seq<Machine>, v: seq<Move>, l: Machine, m: Machine,
                    n: Machine)
    requires Reaches(a, s, u, l, m) && Reaches(a, t, v, m, n)
    ensures Reaches(a, s + t[1..], u + v, l, n)
  {
    hide Next;
    var machines, moves := s + t[1..], u + v;
    forall i | 0 <= i < |moves|
      ensures moves[i].Land? && Next(a, machines[i], moves[i], machines[i + 1])
    {
      if i < |u| {
        assert machines[i] == s[i] && machines[i + 1] == s[i + 1] && moves[i] == u[i];
      } else {
        assert machines[i] == t[i - |u|] && machines[i + 1] == t[i - |u| + 1] && moves[i] == v[i - |u|];
      }
    }
  }

  lemma BothLand(a: Action, m: Machine, k: string, l: string)
    requires TwoKeys(m.world, k, l)
    ensures Second(a, m)
  {
    hide Reaches, Live;
    var s, u, n := LandOne(a, m, k);
    var t, v, o := LandOne(a, n, l);
    ReachesJoin(a, s, u, t, v, m, n, o);
    ReachesSecond(a, s + t[1..], u + v, m, o, k, l);
  }

  lemma ReachesSecond(a: Action, machines: seq<Machine>, moves: seq<Move>, m: Machine, n: Machine, k: string, l: string)
    requires Reaches(a, machines, moves, m, n) && k != l && k in n.world.made && l in n.world.made
    ensures Second(a, m)
  {
    hide Next;
    assert |n.world.made| >= 2;
  }

  /** In every reachable state: two departments are within reach of the requests under way iff two keys are live. */
  lemma SecondIffTwoKeys(a: Action, machines: seq<Machine>, moves: seq<Move>, at: nat)
    requires Run(a, machines, moves) && at < |machines|
    ensures Second(a, machines[at]) <==> exists k, l :: TwoKeys(machines[at].world, k, l)
  {
    hide Next, Invariant, TwoKeys, Init;
    RunInvariant(a, machines, moves, at);
    var m := machines[at];
    if Second(a, m) {
      var later: seq<Machine>, landings: seq<Move> :|
        Landings(a, later, landings) && later[0] == m && |later[|landings|].world.made| >= 2;
      LandingsKeep(a, later, landings);
      var n := later[|landings|];
      InvariantWorld(a, n);
      MadeTwice(a, n);
      TwoKeysBefore(n.world, m.world, n.world.made[0], n.world.made[1]);
    }
    if k, l :| TwoKeys(m.world, k, l) {
      BothLand(a, m, k, l);
    }
  }

  lemma TwoKeysBefore(w: World, x: World, k: string, l: string)
    requires TwoKeys(w, k, l) && forall key :: Live(w, key) ==> Live(x, key)
    ensures TwoKeys(x, k, l)
  {
  }

  lemma InvariantWorld(a: Action, m: Machine)
    requires Invariant(a, m)
    ensures WorldOk(a, m) && KeysOk(m)
  {
  }

  // ---- What the attempt directories show ----

  /** Two attempts with live keys, and between them one that wrote no intent. */
  predicate Separated(m: Machine, p: nat, q: nat) {
    var chain := m.site.chain;
    && p < q < |chain| && chain[p].intent.Whole? && chain[q].intent.Whole?
    && Live(m.world, chain[p].intent.value.key) && Live(m.world, chain[q].intent.value.key)
    && !Linked(chain, p, q)
  }

  lemma HoldersSeparated(m: Machine, k: string, l: string, p: nat, q: nat)
    requires KeysOk(m) && TwoKeys(m.world, k, l) && HasKey(m.site.chain, p, k) && HasKey(m.site.chain, q, l)
    ensures Separated(m, p, q) || Separated(m, q, p)
  {
    hide Linked, Live;
    var chain := m.site.chain;
    if p < q {
      assert KeyFits(chain, q, l);
    } else {
      assert KeyFits(chain, p, k);
    }
  }

  lemma SeparatedKeys(m: Machine, p: nat, q: nat)
    requires KeysOk(m) && Separated(m, p, q)
    ensures exists k, l :: TwoKeys(m.world, k, l)
  {
    hide Linked, Live;
    var chain := m.site.chain;
    assert KeyFits(chain, q, chain[q].intent.value.key);
    assert TwoKeys(m.world, chain[p].intent.value.key, chain[q].intent.value.key);
  }

  /**
   * In every reachable state: requests that land late can create a second department exactly when two attempts have
   * live keys and some attempt between them died before its intent.
   */
  lemma SecondIffSeparated(a: Action, machines: seq<Machine>, moves: seq<Move>, at: nat)
    requires Run(a, machines, moves) && at < |machines|
    ensures Second(a, machines[at]) <==> exists p, q :: Separated(machines[at], p, q)
  {
    hide Next, Invariant, TwoKeys, Second, Separated, Init;
    SecondIffTwoKeys(a, machines, moves, at);
    RunInvariant(a, machines, moves, at);
    var m := machines[at];
    InvariantWorld(a, m);
    if k, l :| TwoKeys(m.world, k, l) {
      LiveHeld(a, m, k, l);
      var p :| HasKey(m.site.chain, p, k);
      var q :| HasKey(m.site.chain, q, l);
      HoldersSeparated(m, k, l, p, q);
    }
    if p, q :| Separated(m, p, q) {
      SeparatedKeys(m, p, q);
    }
  }

  lemma LiveHeld(a: Action, m: Machine, k: string, l: string)
    requires WorldOk(a, m) && TwoKeys(m.world, k, l)
    ensures HoldsKey(m.site.chain, k) && HoldsKey(m.site.chain, l)
  {
    hide HoldsKey, SeesCreation;
  }

  /** A new attempt takes a key that no earlier intent has exactly when the attempt before it has no intent. */
  lemma NewKeyExactly(a: Action, machines: seq<Machine>, moves: seq<Move>, at: nat, key: string, torn: bool)
    requires Run(a, machines, moves) && at < |moves| && moves[at] == Act(MakeAttempt(key), torn)
    requires machines[at].site.chain != []
    ensures var chain := machines[at].site.chain;
      HoldsKey(chain, key) <==> Last(chain).intent.Whole?
  {
    hide Init, ChainOk, JobFits, WorldOk, ReconciledAs;
    RunInvariant(a, machines, moves, at);
    var m := machines[at];
    assert Next(a, m, moves[at], machines[at + 1]);
    var chain := m.site.chain;
    if Last(chain).intent.Whole? {
      assert HasKey(chain, |chain| - 1, key);
    } else {
      NewKeyFits(m, key);
      forall i: nat
        ensures !HasKey(chain, i, key)
      {
        NoHolder(chain, key, i);
      }
    }
  }

  lemma NoHolder(chain: seq<Attempt>, key: string, i: nat)
    requires chain != [] && !Last(chain).intent.Whole? && KeyFits(chain, |chain|, key)
    ensures !HasKey(chain, i, key)
  {
    if i < |chain| - 1 {
      assert !chain[|chain| - 1].intent.Whole?;
    }
  }
}
