/** What a completion report of `inspect` guarantees: tools/python/devex_clone_ledger.py, lines 386-449. */
module LedgerComplete {
  import opened Options
  import opened LedgerEvents
  import opened LedgerHistory
  import opened LedgerFiles
  import opened LedgerRuns
  import opened LedgerSafety
  import LedgerObject

  /** While the outcome is `publishing`, the publishing close is the last event: no fault came after it. */
  lemma PublishingIsLast(events: seq<Event>)
    requires Accepted(events)
    requires var s := Replay(events).value; s.session.Some? && s.session.value.outcome == Publishing
    ensures events != []
    ensures events[|events| - 1].Closed? && events[|events| - 1].outcome == Publishing
    ensures At(events, |events| - 1).steps == Replay(events).value.steps
  {
    Final(events);
    Step1(events, |events| - 1);
    AdvanceSteps(At(events, |events| - 1), |events| - 1, events[|events| - 1], Replay(events).value);
  }

  /** In every run, a directory that `inspect` calls complete has no lock, and each step took effect exactly once. */
  lemma CompleteMeansExactlyOnce(machines: seq<Machine>, moves: seq<Move>, i: nat, binding: Binding, poisoned: bool,
                                 k: Token)
    requires Run(machines, moves) && i < |machines|
    requires LedgerObject.Inspected(machines[i].disk, binding, poisoned) == Some(LedgerObject.Complete)
    ensures machines[i].disk.lock.None? && Whole(machines[i].disk.files)
    ensures Journaled(machines[i].disk.files).steps != map[] && AllDone(Journaled(machines[i].disk.files))
    ensures k in Journaled(machines[i].disk.files).steps ==>
      var step := Journaled(machines[i].disk.files).steps[k]; var w := machines[i].world; var r := step.before.resource;
      r in w.writes && r in w.images && w.writes[r] == 1 && w.images[r] == step.after
  {
    var files := machines[i].disk.files;
    HeadBinding(files, binding);
    var events := EventsOf(files.journal.lines);
    PublishingIsLast(events);
    PublishedNonEmpty(machines, moves, i, |events| - 1);
    if k in Journaled(files).steps {
      PhasesAreTrue(machines, moves, i, k);
    }
  }

  // ---- The object's effects are moves of a run ----

  ghost function Driven(m: Machine, trace: seq<Action>): (n: Machine)
    requires m.process.Some?
    ensures n.process.Some?
  {
    if trace == [] then m
    else
      var before := Driven(m, trace[..|trace| - 1]);
      var l := Ledger(before.disk, before.process.value.mem);
      var a := trace[|trace| - 1];
      var t := Do(l, a);
      Machine(t.disk, Some(Process(t.mem, Granted(l, a, before.process.value.auth))), before.world)
  }

  ghost predicate TruthfulTrace(m: Machine, trace: seq<Action>)
    requires m.process.Some?
  {
    forall i :: 0 <= i < |trace| && trace[i].Append? ==>
      Truthful(Driven(m, trace[..i]).process.value.mem, m.world, trace[i].event)
  }

  /** What a method of the object does, step by step, is a run of the model, so every point of it is safe. */
  lemma {:induction false} TraceIsRun(m: Machine, trace: seq<Action>)
    requires m.process.Some? && Invariant(m) && TruthfulTrace(m, trace)
    requires LedgerObject.AllPermitted(Ledger(m.disk, m.process.value.mem), trace)
    ensures var n := Driven(m, trace);
            && Ledger(n.disk, n.process.value.mem) == LedgerObject.DoAll(Ledger(m.disk, m.process.value.mem), trace)
            && n.world == m.world
            && Invariant(n)
    ensures trace != [] ==> Next(Driven(m, trace[..|trace| - 1]), Act(trace[|trace| - 1]), Driven(m, trace))
  {
    if trace != [] {
      var rest, last := trace[..|trace| - 1], trace[|trace| - 1];
      forall i | 0 <= i < |rest| && rest[i].Append?
        ensures Truthful(Driven(m, rest[..i]).process.value.mem, m.world, rest[i].event)
      {
        assert rest[..i] == trace[..i];
      }
      hide Invariant, Truthful, Permitted, Do, Granted;
      TraceIsRun(m, rest);
      assert Next(Driven(m, rest), Act(last), Driven(m, trace));
      NextKeeps(Driven(m, rest), Act(last), Driven(m, trace));
    }
  }
}
