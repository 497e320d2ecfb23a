/** The start and stop controls over one runtime directory: tools/python/devex_clone_runtime.py, lines 86-175. */
module ProducerControl {
  import opened Options
  import opened ProducerHistory
  import opened ProducerRuntime

  /** `Failed`: the call raised. `Dead`: the controller died inside it. */
  datatype Result = Done | Failed | Dead

  /** What became of one start: which of its effects took place. */
  datatype Report = Report(
    role: Role, token: Token, intent: bool, log: bool, child: Option<Identity>, receipt: bool, started: bool, failed: bool)

  function NotAnswered(r: Report): set<Token> {
    if r.intent && !r.started && !r.failed then {r.token} else {}
  }

  function NotLogged(r: Report): set<Log> {
    if r.intent && !r.log then {Log(r.role, r.token)} else {}
  }

  /** The process whose receipt was written without its start being recorded. */
  function NotStarted(r: Report): set<Identity> {
    if r.receipt && !r.started && r.child.Some? then {r.child.value} else {}
  }

  function UnansweredBy(reports: seq<Report>): set<Token> {
    if reports == [] then {} else UnansweredBy(reports[..|reports| - 1]) + NotAnswered(reports[|reports| - 1])
  }

  function UnloggedBy(reports: seq<Report>): set<Log> {
    if reports == [] then {} else UnloggedBy(reports[..|reports| - 1]) + NotLogged(reports[|reports| - 1])
  }

  function LostBy(reports: seq<Report>): set<Identity> {
    if reports == [] then {} else LostBy(reports[..|reports| - 1]) + NotStarted(reports[|reports| - 1])
  }

  /** The events of one start. */
  function KindsOf(r: Report): seq<Kind> {
    (if r.intent then [StartIntent(r.token, Log(r.role, r.token))] else [])
    + (if r.started && r.child.Some? then [Started(r.token, r.child.value)] else [])
    + (if r.failed then [StartFailed(r.token, Log(r.role, r.token))] else [])
  }

  predicate Adds(before: seq<Event>, after: seq<Event>, role: Role, kinds: seq<Kind>) {
    && before <= after && |after| == |before| + |kinds|
    && forall k :: 0 <= k < |kinds| ==> after[|before| + k].kind == kinds[k] && after[|before| + k].role == role
  }

  lemma AddsJoin(a: seq<Event>, b: seq<Event>, c: seq<Event>, role: Role, first: seq<Kind>, second: seq<Kind>)
    requires Adds(a, b, role, first) && Adds(b, c, role, second)
    ensures Adds(a, c, role, first + second)
  {
  }

  lemma AddsNone(events: seq<Event>, role: Role)
    ensures Adds(events, events, role, [])
  {
  }

  lemma AddsGrows(a: seq<Event>, b: seq<Event>, role: Role, kinds: seq<Kind>)
    requires Adds(a, b, role, kinds)
    ensures a <= b
  {
  }

  /** The effects of a start come in order. */
  predicate InOrder(r: Report) {
    && (r.log ==> r.intent) && (r.child.Some? ==> r.log) && (r.receipt ==> r.child.Some?)
    && (r.started ==> r.receipt) && (r.failed ==> r.intent)
  }

  lemma {:induction false} FreshBound(s: set<Identity>) returns (bound: nat)
    ensures forall i :: i in s ==> i.started < bound
    decreases s
  {
    bound := 1;
    if s != {} {
      var i :| i in s;
      var rest := FreshBound(s - {i});
      bound := if rest > i.started then rest else i.started + 1;
    }
  }

  class Runtime {
    const contract: Contract
    /** No write of the history and no termination fails, and the controller is not killed. */
    const steady: bool
    /** Ports are free, logs and receipts are written, and processes start and become ready. */
    const able: bool
    var events: seq<Event>
    var receipts: map<Role, Identity>
    var logs: set<Log>
    var large: set<Log>
    var live: set<Identity>
    var tokens: nat
    var clock: int
    var spawned: set<Identity>
    ghost var unanswered: set<Token>
    ghost var unlogged: set<Log>
    ghost var lost: set<Identity>
    ghost var stray: set<Identity>

    ghost function Value(): Site
      reads this
    {
      Site(events, receipts, logs, large, live, tokens, clock, spawned, unanswered, unlogged, lost, stray)
    }

    ghost predicate Valid()
      reads this
    {
      Sound(contract, Value())
    }

    constructor (contract: Contract, steady: bool, able: bool)
      ensures this.steady == steady && this.able == able
      ensures Valid() && this.contract == contract && events == [] && receipts == map[] && logs == {} && large == {}
      ensures live == {} && unanswered == {} && unlogged == {} && lost == {} && stray == {}
    {
      this.contract, this.steady, this.able := contract, steady, able;
      events, receipts, logs, large, live, tokens, clock := [], map[], {}, {}, {}, 0, 1;
      spawned, unanswered, unlogged, lost, stray := {}, {}, {}, {}, {};
    }

    /** Time passes, processes may exit by themselves, and logs may outgrow what the validator reads. */
    method Wait()
      requires Valid()
      modifies `live, `clock, `large
      ensures Valid() && Frame(contract, old(Value()), Value(), {})
      ensures Value() == old(Value()).(live := live, clock := clock, large := large) && live <= old(live)
    {
      hide Sound, Frame;
      ghost var before := Value();
      var gone: set<Identity> := *;
      var grown: set<Log> := *;
      var passed: nat :| passed >= 0;
      SoundLarge(contract, before);
      live, clock, large := live - gone, clock + passed, large + (grown * logs);
      OnwardSound(contract, before, Value());
    }

    /** `_event`: the whole history is rewritten with one more event, or the call fails before or after that. */
    method Append(role: Role, kind: Kind) returns (r: Result, written: bool)
      modifies `events, `unanswered, `unlogged, `lost, `stray
      ensures Value() == if written then Appended(old(Value()), role, kind) else old(Value())
      ensures r == Done ==> written
      ensures steady ==> r == Done
    {
      ghost var after := Appended(Value(), role, kind);
      written := *;
      written := written || steady;
      if written {
        events := events + [Event(|events|, clock, role, kind)];
        unanswered, unlogged, lost, stray := after.unanswered, after.unlogged, after.lost, after.stray;
      }
      r :| (r == Done || r == Failed || r == Dead) && (steady ==> r == Done);
      if r == Done && !written {
        r := Failed;
      }
    }

    /** `terminate_owned_process`: the process is gone, or the call fails. */
    method Terminate(i: Identity) returns (r: Result)
      modifies `live
      ensures live <= old(live) && (r == Done ==> i !in live)
      ensures steady ==> r == Done
    {
      var works: bool := *;
      works := works || steady;
      live := if works then live - {i} else live;
      r :| (r == Done || r == Failed || r == Dead) && (steady ==> r == Done);
      if r == Done && !works {
        r := Failed;
      }
    }

    /** The handler of `_start_one`: end the process, if there is one, and record the failure. */
    method FailStart(role: Role, t: Token, child: Option<Identity>, ghost recorded: Option<Identity>, ghost start: Site)
      returns (r: Result, written: bool)
      requires Valid() && Pending(contract, Value(), role, t, recorded) && Frame(contract, start, Value(), {}) && t < tokens
      requires recorded.Some? ==> child == recorded && recorded.value !in start.spawned
      modifies `events, `unanswered, `unlogged, `lost, `stray, `live
      ensures Valid() && r != Done && Frame(contract, start, Value(), {})
      ensures Adds(old(events), events, role, if written then [StartFailed(t, Log(role, t))] else [])
      ensures unanswered == old(unanswered) - (if written then {t} else {})
      ensures unlogged == old(unlogged) && lost == old(lost) && stray == old(stray)
      ensures written && child.Some? ==> child.value !in live
      ensures steady ==> written && r == Failed
    {
      hide Sound, Frame, Pending;
      ghost var before := Value();
      written := false;
      if child.Some? {
        r := Terminate(child.value);
        SoundLarge(contract, before);
        OnwardSound(contract, before, Value());
        FrameJoins(contract, start, before, Value(), {});
        PendingSame(contract, before, Value(), role, t, recorded);
        if r != Done {
          return;
        }
      }
      before := Value();
      r, written := Append(role, StartFailed(t, Log(role, t)));
      FailedSound(contract, before, role, t, recorded);
      if written {
        var only := if recorded.Some? then {recorded.value} else {};
        FrameJoins(contract, start, before, Value(), only);
        if recorded.Some? {
          FrameForgets(contract, start, Value(), recorded.value);
        }
      }
      r := if r == Done then Failed else r;
    }

    /** The intent, recorded before anything is started. */
    method Intend(role: Role) returns (r: Result, t: Token, written: bool)
      requires Valid()
      modifies `events, `unanswered, `unlogged, `lost, `stray, `live, `clock, `large, `tokens
      ensures Valid() && Frame(contract, old(Value()), Value(), {})
      ensures Adds(old(events), events, role, if written then [StartIntent(t, Log(role, t))] else [])
      ensures t < tokens && t !in old(unanswered) && unanswered == old(unanswered) + (if written then {t} else {})
      ensures Log(role, t) !in logs && Log(role, t) !in old(unlogged)
      ensures unlogged == old(unlogged) + (if written then {Log(role, t)} else {})
      ensures lost == old(lost) && stray == old(stray)
      ensures written ==> Pending(contract, Value(), role, t, None) && HasLog(events, Log(role, t))
      ensures r == Done ==> written
      ensures steady ==> r == Done
    {
      hide Sound, Frame, Pending, HasLog;
      Wait();
      ghost var before := Value();
      t := tokens;
      tokens := tokens + 1;
      IntentSound(contract, before, role);
      SoundFresh(contract, before);
      r, written := Append(role, StartIntent(t, Log(role, t)));
      if written {
        JustNamed(events, role, t);
      }
      FrameJoins(contract, old(Value()), before, Value(), {});
    }

    /** The log, `Popen` and `record_process`; each may be the last effect of a call that fails or dies. */
    method Launch(role: Role, t: Token) returns (r: Result, created: bool, child: Option<Identity>, written: bool)
      requires Valid() && Pending(contract, Value(), role, t, None) && HasLog(events, Log(role, t))
      modifies `logs, `unlogged, `live, `spawned, `receipts, `lost
      ensures Valid() && Frame(contract, old(Value()), Value(), {}) && Pending(contract, Value(), role, t, None)
      ensures logs == old(logs) + (if created then {Log(role, t)} else {})
      ensures unlogged == old(unlogged) - (if created then {Log(role, t)} else {})
      ensures child.Some? ==>
        created && child.value !in old(spawned) && child.value.executable == Executable(contract, role)
      ensures spawned == old(spawned) + (if child.Some? then {child.value} else {})
      ensures written ==> child.Some? && Unseen(Value(), child.value)
      ensures receipts == if written then old(receipts)[role := child.value] else old(receipts)
      ensures lost == old(lost) + (if written then {child.value} else {})
      ensures r == Done ==> written
      ensures steady ==> r != Dead && (able ==> r == Done)
    {
      hide Sound, Frame, Pending, Unseen, HasLog;
      created, child, written := *, None, false;
      created := created || able;
      r :| (r == Failed || r == Dead) && (steady ==> r == Failed);
      ghost var before := Value();
      if !created {
        FrameSame(contract, before);
        return;
      }
      SoundReceipts(contract, before);
      LoggedSound(contract, before, Log(role, t));
      logs, unlogged := logs + {Log(role, t)}, unlogged - {Log(role, t)};
      PendingSame(contract, before, Value(), role, t, None);
      var launched: bool := *;
      if !launched && !able {
        return;
      }
      child := Spawn(role, t, before);
      r, written := RecordProcess(role, t, child.value, before);
    }

    /** `record_process`: the role's receipt names the process, or the call fails before or after that. */
    method RecordProcess(role: Role, t: Token, i: Identity, ghost start: Site) returns (r: Result, written: bool)
      requires Valid() && Pending(contract, Value(), role, t, None) && Frame(contract, start, Value(), {})
      requires Unseen(Value(), i) && i in spawned && i.executable == Executable(contract, role)
      requires forall other :: other in receipts ==> receipts[other] != i
      modifies `receipts, `lost
      ensures Valid() && Pending(contract, Value(), role, t, None) && Frame(contract, start, Value(), {})
      ensures Unseen(Value(), i)
      ensures receipts == if written then old(receipts)[role := i] else old(receipts)
      ensures lost == old(lost) + (if written then {i} else {})
      ensures r == Done ==> written
      ensures steady ==> r != Dead && (able ==> r == Done)
    {
      hide Sound, Frame, Pending, Unseen;
      written := *;
      written := written || able;
      r :| (r == Done || r == Failed || r == Dead) && (steady ==> r != Dead && (able ==> r == Done));
      if written {
        ghost var running := Value();
        RecordSound(contract, running, role, t, i);
        receipts, lost := receipts[role := i], lost + {i};
        FrameJoins(contract, start, running, Value(), {});
      } else if r == Done {
        r := Failed;
      }
    }

    /** `Popen`: the kernel gives the process a pair of pid and start time that no process ever had. */
    method Spawn(role: Role, t: Token, ghost start: Site) returns (child: Option<Identity>)
      requires Valid() && Pending(contract, Value(), role, t, None) && Frame(contract, start, Value(), {})
      modifies `live, `spawned
      ensures Valid() && Pending(contract, Value(), role, t, None) && Frame(contract, start, Value(), {})
      ensures child.Some? && child.value !in old(spawned) && child.value.executable == Executable(contract, role)
      ensures spawned == old(spawned) + {child.value} && Unseen(Value(), child.value)
    {
      hide Sound, Frame, Pending, Unseen;
      ghost var before := Value();
      ghost var bound := FreshBound(spawned);
      assert Newborn(Value(), Identity(2, bound + 1, ""));
      var pid: nat, started: nat :|
        pid > 1 && started > 0 && forall j :: j in spawned ==> KeyOf(j) != Key(pid, started);
      var i := Identity(pid, started, Executable(contract, role));
      SpawnSound(contract, before, role, t, i);
      live, spawned := live + {i}, spawned + {i};
      FrameJoins(contract, start, before, Value(), {});
      child := Some(i);
    }

    /** The `started` event. */
    method Announce(role: Role, t: Token, i: Identity) returns (r: Result, written: bool)
      requires Valid() && Pending(contract, Value(), role, t, None) && Unseen(Value(), i) && t < tokens
      requires i in spawned && role in receipts && receipts[role] == i
      modifies `events, `unanswered, `unlogged, `lost, `stray
      ensures Valid() && Frame(contract, old(Value()), Value(), {i})
      ensures Pending(contract, Value(), role, t, if written then Some(i) else None)
      ensures Adds(old(events), events, role, if written then [Started(t, i)] else [])
      ensures unanswered == old(unanswered) - (if written then {t} else {})
      ensures lost == old(lost) - (if written then {i} else {})
      ensures unlogged == old(unlogged) && stray == old(stray)
      ensures written ==> Stoppable(contract, Value(), role, i)
      ensures r == Done ==> written
      ensures steady ==> r == Done
    {
      hide Sound, Frame, Pending, Unseen, Stoppable;
      ghost var before := Value();
      StartedSound(contract, before, role, t, i);
      FrameSame(contract, before);
      r, written := Append(role, Started(t, i));
      if !written {
        FrameWeakens(contract, before, Value(), i);
      }
    }

    /** The `started` event and the wait for readiness of a launched process, or the handler. */
    method Follow(role: Role, t: Token, i: Identity, ghost start: Site) returns (r: Result, started: bool, failed: bool)
      requires Valid() && Pending(contract, Value(), role, t, None) && Unseen(Value(), i) && t < tokens
      requires i in spawned && role in receipts && receipts[role] == i
      requires Frame(contract, start, Value(), {}) && i !in start.spawned
      modifies `events, `unanswered, `unlogged, `lost, `stray, `live
      ensures Valid() && Frame(contract, start, Value(), {})
      ensures Adds(old(events), events, role,
                   (if started then [Started(t, i)] else []) + (if failed then [StartFailed(t, Log(role, t))] else []))
      ensures unanswered == old(unanswered) - (if started || failed then {t} else {})
      ensures lost == old(lost) - (if started then {i} else {})
      ensures unlogged == old(unlogged) && stray == old(stray)
      ensures r == Done ==> started && !failed && Stoppable(contract, Value(), role, i)
      ensures failed ==> r != Done && i !in live
      ensures steady ==> started && r == (if failed then Failed else Done) && (able ==> !failed)
    {
      hide Sound, Frame, Pending, Unseen, Stoppable, Adds;
      failed := false;
      r, started := Announce(role, t, i);
      FrameJoins(contract, start, old(Value()), Value(), {i});
      FrameForgets(contract, start, Value(), i);
      assert (if started then [Started(t, i)] else []) + [] == if started then [Started(t, i)] else [];
      var ready: bool := *;
      if r == Dead || (r == Done && (ready || able)) {
        return;
      }
      ghost var announced := Value();
      r, failed := FailStart(role, t, Some(i), if started then Some(i) else None, start);
      AddsJoin(old(events), announced.events, events, role, if started then [Started(t, i)] else [],
               if failed then [StartFailed(t, Log(role, t))] else []);
    }

    /** The part of `_start_one` after the intent. */
    method Continue(role: Role, t: Token, ghost start: Site) returns (r: Result, report: Report)
      requires Valid() && Pending(contract, Value(), role, t, None) && HasLog(events, Log(role, t)) && t < tokens
      requires Frame(contract, start, Value(), {}) && spawned == start.spawned && lost <= spawned
      modifies `events, `unanswered, `unlogged, `lost, `stray, `live, `logs, `spawned, `receipts
      ensures Valid() && Frame(contract, start, Value(), {})
      ensures report.role == role && report.token == t && report.intent && InOrder(report)
      ensures Adds(old(events), events, role, KindsOf(report.(intent := false)))
      ensures unanswered == old(unanswered) - (if report.started || report.failed then {t} else {})
      ensures unlogged == old(unlogged) - (if report.log then {Log(role, t)} else {})
      ensures lost == old(lost) + NotStarted(report) && stray == old(stray)
      ensures report.child.Some? ==> report.child.value !in start.spawned
      ensures receipts == if report.receipt then old(receipts)[role := report.child.value] else old(receipts)
      ensures r == Done ==> report.started && !report.failed && Stoppable(contract, Value(), role, report.child.value)
      ensures report.failed && report.child.Some? ==> report.child.value !in live
      ensures steady ==> r == (if report.failed then Failed else Done) && (able ==> r == Done)
    {
      hide Sound, Frame, Pending, Unseen, Stoppable, HasLog, Adds;
      ghost var before := Value();
      var created, child, recorded;
      r, created, child, recorded := Launch(role, t);
      FrameJoins(contract, start, before, Value(), {});
      report := Report(role, t, true, created, child, recorded, false, false);
      assert KindsOf(report.(intent := false)) == [];
      AddsNone(events, role);
      if r == Dead {
        return;
      }
      var started, failed := false, false;
      if r == Failed {
        r, failed := FailStart(role, t, child, None, start);
      } else {
        r, started, failed := Follow(role, t, child.value, start);
      }
      report := report.(started := started, failed := failed);
      assert KindsOf(report.(intent := false)) ==
        (if started then [Started(t, child.value)] else []) + (if failed then [StartFailed(t, Log(role, t))] else []);
      assert [] + (if failed then [StartFailed(t, Log(role, t))] else []) == if failed then [StartFailed(t, Log(role, t))] else [];
    }

    /** `_start_one`: its report says which effects took place, and the site follows from that. */
    method StartOne(role: Role) returns (r: Result, report: Report)
      requires Valid()
      modifies this
      ensures Valid() && Frame(contract, old(Value()), Value(), {})
      ensures report.role == role && InOrder(report) && Adds(old(events), events, role, KindsOf(report))
      ensures unanswered == old(unanswered) + NotAnswered(report)
      ensures unlogged == old(unlogged) + NotLogged(report)
      ensures lost == old(lost) + NotStarted(report) && stray == old(stray)
      ensures report.child.Some? ==> report.child.value !in old(spawned)
      ensures receipts == if report.receipt then old(receipts)[role := report.child.value] else old(receipts)
      ensures r == Done ==> report.started && !report.failed && Stoppable(contract, Value(), role, report.child.value)
      ensures r == Done ==> report.child.Some? && report.receipt && report.child.value !in lost
      ensures report.failed && report.child.Some? ==> report.child.value !in live
      ensures steady ==> report.intent && r == (if report.failed then Failed else Done) && (able ==> r == Done)
    {
      hide Sound, Frame, Pending, Stoppable, HasLog, Adds;
      SoundLost(contract, Value());
      var t: Token, written: bool;
      r, t, written := Intend(role);
      report := Report(role, t, written, false, None, false, false, false);
      assert KindsOf(report) == if written then [StartIntent(t, Log(role, t))] else [];
      if r != Done {
        return;
      }
      ghost var intended := Value();
      r, report := Continue(role, t, old(Value()));
      AddsJoin(old(events), intended.events, events, role, [StartIntent(t, Log(role, t))], KindsOf(report.(intent := false)));
      assert KindsOf(report) == [StartIntent(t, Log(role, t))] + KindsOf(report.(intent := false));
    }

    /** End one process and record it; only a process whose start was not recorded becomes stray by that. */
    method EndOne(role: Role, kind: Kind) returns (r: Result)
      requires Valid() && (kind.Rollback? || kind.Stopped?) && Stoppable(contract, Value(), role, kind.identity)
      modifies `events, `unanswered, `unlogged, `lost, `stray, `live
      ensures Valid() && Frame(contract, old(Value()), Value(), {kind.identity})
      ensures live <= old(live) && old(events) <= events
      ensures unanswered == old(unanswered) && unlogged == old(unlogged) && lost == old(lost)
      ensures old(stray) <= stray <= old(stray) + (lost * {kind.identity})
      ensures r == Done ==>
        kind.identity !in live && |events| == |old(events)| + 1 && events[|old(events)|].kind == kind
      ensures steady ==> r == Done
    {
      hide Sound, Frame, Stoppable;
      ghost var before := Value();
      r := Terminate(kind.identity);
      ghost var ended := Value();
      SoundLarge(contract, before);
      OnwardSound(contract, before, ended);
      if r != Done {
        FrameWeakens(contract, before, ended, kind.identity);
        return;
      }
      assert Stoppable(contract, ended, role, kind.identity) by {
        FrameGives(contract, before, ended, role, kind.identity);
      }
      var written: bool;
      r, written := Append(role, kind);
      EndSound(contract, ended, role, kind);
      if written {
        FrameJoins(contract, before, ended, Value(), {kind.identity});
      } else {
        FrameWeakens(contract, before, ended, kind.identity);
      }
    }

    /** The roles one after the other, until one fails. */
    method StartAll(roles: seq<Role>) returns (r: Result, reports: seq<Report>, started: seq<(Role, Identity)>)
      requires Valid() && forall i, j :: 0 <= i < j < |roles| ==> roles[i] != roles[j]
      modifies this
      ensures Valid() && old(events) <= events
      ensures unanswered == old(unanswered) + UnansweredBy(reports) && unlogged == old(unlogged) + UnloggedBy(reports)
      ensures lost == old(lost) + LostBy(reports) && stray == old(stray)
      ensures AllStarted(roles, reports, started, lost) && AllStoppable(contract, Value(), started)
      ensures r == Done ==> |started| == |roles| == |reports| && StartEvents(old(events), events, reports, |roles|)
      ensures r == Done ==> forall k :: 0 <= k < |roles| ==> roles[k] in receipts && receipts[roles[k]] == started[k].1
      ensures steady ==> r != Dead && UnansweredBy(reports) == {} && (able ==> r == Done && NothingAmiss(reports))
    {
      hide Sound, Frame, Stoppable, StartEvents, KindsOf, Adds, AllStarted, AllStoppable, InOrder;
      hide NotAnswered, NotLogged, NotStarted, UnansweredBy, UnloggedBy, LostBy, NothingAmiss;
      r, reports, started := Done, [], [];
      NoStartEvents(contract, Value(), roles, reports, started);
      while |started| < |roles| && r == Done
        invariant Valid() && old(events) <= events && |started| <= |roles| && |started| <= |reports|
        invariant r == Done ==> |reports| == |started|
        invariant unanswered == old(unanswered) + UnansweredBy(reports) && unlogged == old(unlogged) + UnloggedBy(reports)
        invariant lost == old(lost) + LostBy(reports) && stray == old(stray)
        invariant AllStarted(roles, reports, started, lost) && AllStoppable(contract, Value(), started)
        invariant r == Done ==> StartEvents(old(events), events, reports, |started|)
        invariant r == Done ==> forall k :: 0 <= k < |started| ==> roles[k] in receipts && receipts[roles[k]] == started[k].1
        invariant steady ==> r != Dead && UnansweredBy(reports) == {} && (able ==> r == Done && NothingAmiss(reports))
        decreases |roles| - |started|, r == Done
      {
        ghost var before, had := Value(), reports;
        AllSpawned(contract, before, started);
        var report: Report;
        r, report := StartOne(roles[|started|]);
        StoppableKept(contract, before, Value(), started);
        OneReport(had, report);
        OneAmiss(had, report);
        AddsGrows(before.events, events, report.role, KindsOf(report));
        MoreStarted(roles, had, started, before.lost, lost, report, before.spawned, r == Done);
        reports := reports + [report];
        if r == Done {
          FreshJoins(contract, before, Value(), started, roles[|started|], report.child.value);
          MoreStartEvents(old(events), before.events, events, had, report);
          started := started + [(roles[|started|], report.child.value)];
        }
      }
    }

    /**
     * `_start`. Its reports say what became of each role that was tried. When a role fails, those started before it are
     * ended, the last first, on top of the log `upTo`; `broken` says that ending one of them failed in its turn.
     */
    method Start(roles: seq<Role>)
      returns (r: Result, reports: seq<Report>, started: seq<(Role, Identity)>, ended: nat, broken: bool, ghost upTo: seq<Event>)
      requires Valid() && forall i, j :: 0 <= i < j < |roles| ==> roles[i] != roles[j]
      modifies this
      ensures Valid() && old(events) <= upTo <= events
      ensures unanswered == old(unanswered) + UnansweredBy(reports) && unlogged == old(unlogged) + UnloggedBy(reports)
      ensures lost == old(lost) + LostBy(reports) && stray == old(stray)
      ensures AllStarted(roles, reports, started, lost)
      ensures r == Done ==> AllStoppable(contract, Value(), started) && |started| == |roles| == |reports|
      ensures r == Done ==> StartEvents(old(events), events, reports, |roles|)
      ensures r == Done ==> forall k :: 0 <= k < |roles| ==> roles[k] in receipts && receipts[roles[k]] == started[k].1
      ensures (exists role :: role in roles && role in old(receipts) && old(receipts)[role] in old(live)) ==>
        r == Failed && reports == [] && events == old(events) && live == old(live)
      ensures r == Failed ==> EndedLast(upTo, events, live, started, ended, true) && (!broken ==> ended == |started|)
      ensures steady ==> r != Dead && !broken && UnansweredBy(reports) == {} && (able ==> NothingAmiss(reports))
      ensures steady && able && !(exists role :: role in roles && role in old(receipts) && old(receipts)[role] in old(live)) ==>
        r == Done
    {
      hide Sound, Frame, Stoppable, EndedLast, StartEvents, AllStarted;
      r, reports, started, ended, broken, upTo := Failed, [], [], 0, false, events;
      EndedNone(events, live, started, true);
      NoStartEvents(contract, Value(), roles, reports, started);
      if exists role :: role in roles && role in receipts && receipts[role] in live {
        return;
      }
      var portsClosed: bool := *;
      if !portsClosed && !able {
        return;
      }
      r, reports, started := StartAll(roles);
      upTo := events;
      if r == Failed {
        NoneLost(roles, reports, started, lost);
        r, ended := EndAll(started, true);
        broken := r != Done;
        r := if r == Done then Failed else r;
      }
    }

    /** End these processes, the last first; `ended` of them are gone and on record. */
    method EndAll(running: seq<(Role, Identity)>, rollback: bool) returns (r: Result, ended: nat)
      requires Valid() && AllStoppable(contract, Value(), running)
      modifies `events, `unanswered, `unlogged, `lost, `stray, `live
      ensures Valid() && old(events) <= events && (r == Done <==> ended == |running|)
      ensures unanswered == old(unanswered) && unlogged == old(unlogged) && lost == old(lost)
      ensures old(stray) <= stray <= old(stray) + (lost * Identified(running))
      ensures EndedLast(old(events), events, live, running, ended, rollback)
      ensures r == Done ==> |events| == |old(events)| + |running|
      ensures steady ==> r == Done
    {
      hide Sound, Frame, Stoppable, EndedLast;
      r, ended := Done, 0;
      EndedNone(events, live, running, rollback);
      while ended < |running|
        invariant Valid() && ended <= |running| && old(events) <= events && |events| == |old(events)| + ended
        invariant unanswered == old(unanswered) && unlogged == old(unlogged) && lost == old(lost)
        invariant old(stray) <= stray <= old(stray) + (lost * Identified(running))
        invariant AllStoppable(contract, Value(), running[..|running| - ended])
        invariant EndedLast(old(events), events, live, running, ended, rollback)
        invariant r == Done
      {
        var k := |running| - 1 - ended;
        ghost var before := Value();
        assert running[..k + 1][k] == running[k] && running[..k + 1][..k] == running[..k];
        assert (running[k].0, running[k].1) in running && running[k].1 in Identified(running);
        r := EndOne(running[k].0, EndKind(running[k].1, rollback));
        EndedMore(old(events), before.events, events, before.live, live, running, ended, rollback, r == Done);
        if r != Done {
          return;
        }
        StoppableButLast(contract, before, Value(), running[..k + 1]);
        ended := ended + 1;
      }
    }

    /** The identities that `_observe` reads before it ends any process. */
    method Identities(roles: seq<Role>) returns (running: seq<(Role, Identity)>)
      requires Valid() && forall i, j :: 0 <= i < j < |roles| ==> roles[i] != roles[j]
      ensures AllStoppable(contract, Value(), running)
      ensures forall role, i :: (role, i) in running <==>
        role in roles && role in receipts && receipts[role] == i && i in live
    {
      hide Sound, Stoppable;
      running := [];
      for n := 0 to |roles|
        invariant AllStoppable(contract, Value(), running)
        invariant forall role, i :: (role, i) in running <==>
          role in roles[..n] && role in receipts && receipts[role] == i && i in live
      {
        assert roles[..n + 1] == roles[..n] + [roles[n]];
        if roles[n] in receipts && receipts[roles[n]] in live {
          RunningIsStoppable(contract, Value(), roles[n]);
          assert forall k :: 0 <= k < |running| ==> (running[k].0, running[k].1) in running;
          DistinctReceipts(contract, Value(), running, roles, n);
          running := running + [(roles[n], receipts[roles[n]])];
        }
      }
    }

    /** `_observe` with `stop`: no start changes, and only a process whose start was not recorded becomes stray. */
    method Stop(roles: seq<Role>) returns (r: Result, found: seq<(Role, Identity)>, ended: nat)
      requires Valid() && forall i, j :: 0 <= i < j < |roles| ==> roles[i] != roles[j]
      modifies `events, `unanswered, `unlogged, `lost, `stray, `live, `clock, `large
      ensures Valid() && old(events) <= events
      ensures unanswered == old(unanswered) && unlogged == old(unlogged) && lost == old(lost)
      ensures old(stray) <= stray <= old(stray) + (lost * Identified(found))
      ensures forall role, i :: (role, i) in found <==>
        role in roles && role in receipts && receipts[role] == i && i in old(live)
      ensures EndedLast(old(events), events, live, found, ended, false)
      ensures r == Done ==> ended == |found| && |events| == |old(events)| + |found|
      ensures steady ==> ended == |found| && (able ==> r == Done)
    {
      hide Sound, Frame, Stoppable, EndedLast;
      found := Identities(roles);
      ghost var start := Value();
      Wait();
      StoppableKept(contract, start, Value(), found);
      r, ended := EndAll(found, false);
      var closed: bool := *;
      r := if r == Done && !closed && !able then Failed else r;
    }

    /** Any sequence of controls: what it leaves follows from what became of its starts. */
    method Operate(controls: seq<Control>) returns (reports: seq<Report>)
      requires Valid() && forall k :: 0 <= k < |controls| ==> Distinct(controls[k].roles)
      modifies this
      ensures Valid() && old(events) <= events
      ensures unanswered == old(unanswered) + UnansweredBy(reports) && unlogged == old(unlogged) + UnloggedBy(reports)
      ensures lost == old(lost) + LostBy(reports)
      ensures steady ==> UnansweredBy(reports) == {} && (able ==> NothingAmiss(reports))
    {
      hide Sound, NotAnswered, NotLogged, NotStarted;
      reports := [];
      for n := 0 to |controls|
        invariant Valid() && old(events) <= events
        invariant unanswered == old(unanswered) + UnansweredBy(reports) && unlogged == old(unlogged) + UnloggedBy(reports)
        invariant lost == old(lost) + LostBy(reports)
        invariant steady ==> UnansweredBy(reports) == {} && (able ==> NothingAmiss(reports))
      {
        var r: Result, ended: nat;
        if controls[n].Starting? {
          var more: seq<Report>, started: seq<(Role, Identity)>, broken: bool;
          ghost var upTo;
          r, more, started, ended, broken, upTo := Start(controls[n].roles);
          ReportsJoin(reports, more);
          reports := reports + more;
        } else {
          var found: seq<(Role, Identity)>;
          r, found, ended := Stop(controls[n].roles);
        }
      }
    }
  }

  datatype Control = Starting(roles: seq<Role>) | Stopping(roles: seq<Role>)

  /** Every start was answered and logged, and no process was started without a record. */
  ghost predicate NothingAmiss(reports: seq<Report>) {
    UnansweredBy(reports) == {} && UnloggedBy(reports) == {} && LostBy(reports) == {}
  }

  lemma OneAmiss(reports: seq<Report>, r: Report)
    requires InOrder(r)
    ensures UnansweredBy(reports) == {} && (r.started || r.failed) ==> UnansweredBy(reports + [r]) == {}
    ensures NothingAmiss(reports) && r.started ==> NothingAmiss(reports + [r])
  {
    OneReport(reports, r);
  }

  predicate Distinct(roles: seq<Role>) {
    forall i, j :: 0 <= i < j < |roles| ==> roles[i] != roles[j]
  }

  /** Every process that got a receipt got its start recorded, and every intent its log. */
  predicate Uncut(r: Report) {
    NotStarted(r) == {} && NotLogged(r) == {}
  }

  /**
   * Whatever controls run over a new directory, its history is accepted exactly when there is one, every start was answered
   * and got its log, no log outgrew the limit, and no process that was started without a record was stopped or is named by
   * a receipt. When no start is cut between receipt and record, an answer to every intent is all it takes; and where nothing
   * fails, every history there is will be accepted.
   */
  method OperateNew(contract: Contract, steady: bool, able: bool, controls: seq<Control>)
    returns (rt: Runtime, reports: seq<Report>)
    requires forall k :: 0 <= k < |controls| ==> Distinct(controls[k].roles)
    ensures fresh(rt) && rt.Valid() && rt.contract == contract
    ensures Accepts(contract, rt.events, rt.receipts, rt.logs - rt.large) <==>
      && rt.events != [] && rt.large == {}
      && (forall k :: 0 <= k < |reports| ==> NotAnswered(reports[k]) == {} && NotLogged(reports[k]) == {})
      && rt.stray == {} && ReceiptsRecorded(rt.Value())
    ensures rt.lost == LostBy(reports) && rt.stray <= rt.lost
    ensures (forall k :: 0 <= k < |reports| ==> Uncut(reports[k])) && rt.large == {} ==>
      (Accepts(contract, rt.events, rt.receipts, rt.logs) <==>
        rt.events != [] && forall k :: 0 <= k < |reports| ==> NotAnswered(reports[k]) == {})
    ensures steady ==> forall k :: 0 <= k < |reports| ==> NotAnswered(reports[k]) == {}
    ensures steady && able && rt.large == {} ==>
      (Accepts(contract, rt.events, rt.receipts, rt.logs) <==> rt.events != [])
  {
    hide Sound, Accepts, NotAnswered, NotLogged, NotStarted;
    rt := new Runtime(contract, steady, able);
    reports := rt.Operate(controls);
    AcceptedExactly(contract, rt.Value());
    SoundLost(contract, rt.Value());
    NothingMissing(reports);
    assert rt.large == {} ==> rt.logs - rt.large == rt.logs;
  }

  /** The unions over all reports are empty exactly when each part is. */
  lemma {:induction false} NothingMissing(reports: seq<Report>)
    ensures UnansweredBy(reports) == {} <==> forall k :: 0 <= k < |reports| ==> NotAnswered(reports[k]) == {}
    ensures UnloggedBy(reports) == {} <==> forall k :: 0 <= k < |reports| ==> NotLogged(reports[k]) == {}
    ensures LostBy(reports) == {} <==> forall k :: 0 <= k < |reports| ==> NotStarted(reports[k]) == {}
  {
    hide NotAnswered, NotLogged, NotStarted;
    if reports != [] {
      NothingMissing(reports[..|reports| - 1]);
    }
  }

  lemma {:induction false} ReportsJoin(a: seq<Report>, b: seq<Report>)
    ensures UnansweredBy(a + b) == UnansweredBy(a) + UnansweredBy(b)
    ensures UnloggedBy(a + b) == UnloggedBy(a) + UnloggedBy(b)
    ensures LostBy(a + b) == LostBy(a) + LostBy(b)
    decreases |b|
  {
    hide NotAnswered, NotLogged, NotStarted;
    if b == [] {
      assert a + b == a;
    } else {
      var n := |b| - 1;
      ReportsJoin(a, b[..n]);
      OneReport(a + b[..n], b[n]);
      assert a + b == a + b[..n] + [b[n]];
    }
  }

  lemma OneReport(reports: seq<Report>, r: Report)
    ensures UnansweredBy(reports + [r]) == UnansweredBy(reports) + NotAnswered(r)
    ensures UnloggedBy(reports + [r]) == UnloggedBy(reports) + NotLogged(r)
    ensures LostBy(reports + [r]) == LostBy(reports) + NotStarted(r)
  {
    assert (reports + [r])[..|reports|] == reports;
  }

  /** A start that succeeded. */
  predicate GoodStart(r: Report, i: Identity) {
    r.child == Some(i) && r.started && !r.failed
  }

  /** The new events are those of the first `n` reports, one start after the other. */
  predicate StartEvents(before: seq<Event>, after: seq<Event>, reports: seq<Report>, n: nat) {
    && n <= |reports| && before <= after && |after| == |before| + 2 * n
    && forall k :: 0 <= k < n ==>
         && reports[k].child.Some?
         && after[|before| + 2 * k].kind == StartIntent(reports[k].token, Log(reports[k].role, reports[k].token))
         && after[|before| + 2 * k + 1].kind == Started(reports[k].token, reports[k].child.value)
  }

  /** The reports are for the first roles in order, and these processes are those of the starts that succeeded. */
  ghost predicate AllStarted(roles: seq<Role>, reports: seq<Report>, started: seq<(Role, Identity)>, lost: set<Identity>) {
    && |started| <= |reports| <= |started| + 1 && |reports| <= |roles|
    && (forall k :: 0 <= k < |reports| ==> InOrder(reports[k]) && reports[k].role == roles[k])
    && forall k :: 0 <= k < |started| ==>
         started[k].0 == roles[k] && GoodStart(reports[k], started[k].1) && started[k].1 !in lost
  }

  lemma MoreStarted(roles: seq<Role>, reports: seq<Report>, started: seq<(Role, Identity)>, was: set<Identity>,
                    lost: set<Identity>, r: Report, spawned: set<Identity>, done: bool)
    requires AllStarted(roles, reports, started, was) && |reports| == |started| < |roles|
    requires InOrder(r) && r.role == roles[|started|] && lost == was + NotStarted(r)
    requires r.child.Some? ==> r.child.value !in spawned
    requires forall k :: 0 <= k < |started| ==> started[k].1 in spawned
    requires done ==> r.started && !r.failed && r.child.value !in lost
    ensures AllStarted(roles, reports + [r], started, lost)
    ensures done ==> AllStarted(roles, reports + [r], started + [(roles[|started|], r.child.value)], lost)
  {
    assert forall k :: 0 <= k < |reports| ==> (reports + [r])[k] == reports[k];
  }

  lemma NoneLost(roles: seq<Role>, reports: seq<Report>, started: seq<(Role, Identity)>, lost: set<Identity>)
    requires AllStarted(roles, reports, started, lost)
    ensures lost * Identified(started) == {}
  {
  }

  lemma NoStartEvents(c: Contract, v: Site, roles: seq<Role>, reports: seq<Report>, started: seq<(Role, Identity)>)
    requires reports == [] && started == []
    ensures StartEvents(v.events, v.events, reports, 0) && AllStarted(roles, reports, started, v.lost)
    ensures AllStoppable(c, v, started)
    ensures UnansweredBy(reports) == {} && UnloggedBy(reports) == {} && LostBy(reports) == {} && NothingAmiss(reports)
  {
  }

  lemma MoreStartEvents(start: seq<Event>, before: seq<Event>, after: seq<Event>, reports: seq<Report>, r: Report)
    requires StartEvents(start, before, reports, |reports|) && InOrder(r) && r.started && !r.failed
    requires Adds(before, after, r.role, KindsOf(r))
    ensures StartEvents(start, after, reports + [r], |reports| + 1)
  {
    var kinds := [StartIntent(r.token, Log(r.role, r.token)), Started(r.token, r.child.value)];
    assert KindsOf(r) == kinds;
    assert after[|before| + 0].kind == kinds[0] && after[|before| + 1].kind == kinds[1];
    assert forall k :: 0 <= k < |reports| ==> (reports + [r])[k] == reports[k];
    assert forall j :: 0 <= j < |before| ==> after[j] == before[j];
  }

  function Identified(running: seq<(Role, Identity)>): set<Identity> {
    set x | x in running :: x.1
  }

  lemma AllSpawned(c: Contract, v: Site, started: seq<(Role, Identity)>)
    requires AllStoppable(c, v, started)
    ensures forall k :: 0 <= k < |started| ==> started[k].1 in v.spawned
  {
  }

  lemma SoundLarge(c: Contract, v: Site)
    requires Sound(c, v)
    ensures v.large <= v.logs
  {
  }

  lemma SoundLost(c: Contract, v: Site)
    requires Sound(c, v)
    ensures v.stray <= v.lost <= v.spawned
  {
  }

  lemma SoundReceipts(c: Contract, v: Site)
    requires Sound(c, v)
    ensures forall role :: role in v.receipts ==> v.receipts[role] in v.spawned
  {
  }

  lemma SoundFresh(c: Contract, v: Site)
    requires Sound(c, v)
    ensures v.tokens !in v.unanswered && forall role :: Log(role, v.tokens) !in v.logs && Log(role, v.tokens) !in v.unlogged
  {
    FreshToken(v);
  }

  lemma JustNamed(events: seq<Event>, role: Role, t: Token)
    requires events != [] && events[|events| - 1].kind == StartIntent(t, Log(role, t))
    ensures HasLog(events, Log(role, t))
  {
    assert NamesLog(events, |events| - 1, Log(role, t));
  }

  function EndKind(i: Identity, rollback: bool): Kind {
    if rollback then Rollback(i) else Stopped(i)
  }

  /** The last `n` of these processes are gone, and their ends are the first new events, the last process first. */
  predicate EndedLast(before: seq<Event>, after: seq<Event>, live: set<Identity>, running: seq<(Role, Identity)>,
                      n: nat, rollback: bool) {
    && |before| + n <= |after| && n <= |running|
    && forall k :: |running| - n <= k < |running| ==>
         after[|before| + |running| - 1 - k].kind == EndKind(running[k].1, rollback) && running[k].1 !in live
  }

  lemma EndedNone(events: seq<Event>, live: set<Identity>, running: seq<(Role, Identity)>, rollback: bool)
    ensures EndedLast(events, events, live, running, 0, rollback)
  {
  }

  lemma EndedMore(start: seq<Event>, before: seq<Event>, after: seq<Event>, was: set<Identity>, live: set<Identity>,
                  running: seq<(Role, Identity)>, n: nat, rollback: bool, done: bool)
    requires EndedLast(start, before, was, running, n, rollback) && n < |running|
    requires |before| == |start| + n && before <= after && live <= was
    requires done ==> |after| == |before| + 1 && after[|before|].kind == EndKind(running[|running| - 1 - n].1, rollback)
                      && running[|running| - 1 - n].1 !in live
    ensures EndedLast(start, after, live, running, if done then n + 1 else n, rollback)
  {
  }

  ghost predicate AllStoppable(c: Contract, v: Site, started: seq<(Role, Identity)>) {
    && (forall k :: 0 <= k < |started| ==> Stoppable(c, v, started[k].0, started[k].1))
    && (forall j, k :: 0 <= j < k < |started| ==> started[j].1 != started[k].1)
  }

  lemma FrameGives(c: Contract, v: Site, w: Site, role: Role, i: Identity)
    requires Frame(c, v, w, {}) && Stoppable(c, v, role, i)
    ensures Stoppable(c, w, role, i)
  {
  }

  lemma StoppableKept(c: Contract, v: Site, w: Site, started: seq<(Role, Identity)>)
    requires Frame(c, v, w, {}) && AllStoppable(c, v, started)
    ensures AllStoppable(c, w, started)
  {
    hide Stoppable;
  }

  lemma StoppableButLast(c: Contract, v: Site, w: Site, started: seq<(Role, Identity)>)
    requires AllStoppable(c, v, started) && started != [] && Frame(c, v, w, {started[|started| - 1].1})
    ensures AllStoppable(c, w, started[..|started| - 1])
  {
    hide Stoppable;
  }

  lemma FreshJoins(c: Contract, v: Site, w: Site, started: seq<(Role, Identity)>, role: Role, i: Identity)
    requires AllStoppable(c, v, started) && AllStoppable(c, w, started) && Stoppable(c, w, role, i) && i !in v.spawned
    ensures AllStoppable(c, w, started + [(role, i)])
  {
    assert forall k :: 0 <= k < |started| ==> Stoppable(c, v, started[k].0, started[k].1);
  }

  lemma DistinctReceipts(c: Contract, v: Site, running: seq<(Role, Identity)>, roles: seq<Role>, n: nat)
    requires Sound(c, v) && AllStoppable(c, v, running) && n < |roles|
    requires forall i, j :: 0 <= i < j < |roles| ==> roles[i] != roles[j]
    requires roles[n] in v.receipts && Stoppable(c, v, roles[n], v.receipts[roles[n]])
    requires forall k :: 0 <= k < |running| ==>
      running[k].0 in roles[..n] && running[k].0 in v.receipts && running[k].1 == v.receipts[running[k].0]
    ensures AllStoppable(c, v, running + [(roles[n], v.receipts[roles[n]])])
  {
    hide Stoppable, Scans, Processes, Books;
    forall k | 0 <= k < |running|
      ensures running[k].1 != v.receipts[roles[n]]
    {
      assert running[k].0 != roles[n];
    }
  }

  lemma FrameSame(c: Contract, v: Site)
    ensures Frame(c, v, v, {})
  {
  }

  lemma FrameWeakens(c: Contract, v: Site, w: Site, i: Identity)
    requires Frame(c, v, w, {})
    ensures Frame(c, v, w, {i})
  {
  }

  lemma PendingSame(c: Contract, v: Site, w: Site, role: Role, t: Token, started: Option<Identity>)
    requires Pending(c, v, role, t, started) && v.events == w.events
    ensures Pending(c, w, role, t, started)
  {
  }
}
