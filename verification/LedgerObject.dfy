/** The `CloneLedger` object: tools/python/devex_clone_ledger.py, lines 188-449. */
module LedgerObject {
  import opened Options
  import opened LedgerEvents
  import opened LedgerHistory
  import opened LedgerFiles
  import opened LedgerRuns

  // ---- Traces of effects ----

  ghost function DoAll(l: Ledger, trace: seq<Action>): Ledger {
    if trace == [] then l else Do(DoAll(l, trace[..|trace| - 1]), trace[|trace| - 1])
  }

  /** Each effect is one the run model lets a process take at that point. */
  ghost predicate AllPermitted(l: Ledger, trace: seq<Action>) {
    trace == [] ||
    (AllPermitted(l, trace[..|trace| - 1]) && Permitted(DoAll(l, trace[..|trace| - 1]), trace[|trace| - 1]))
  }

  /** `l` leads to `m` by permitted effects. */
  ghost predicate Follows(l: Ledger, trace: seq<Action>, m: Ledger) {
    AllPermitted(l, trace) && DoAll(l, trace) == m
  }

  lemma FollowsOne(l: Ledger, trace: seq<Action>, m: Ledger, a: Action)
    requires Follows(l, trace, m) && Permitted(m, a)
    ensures Follows(l, trace + [a], Do(m, a))
  {
    assert (trace + [a])[..|trace|] == trace;
  }

  lemma FollowsNone(l: Ledger)
    ensures Follows(l, [], l)
  {
  }

  lemma {:induction false} FollowsJoin(l: Ledger, first: seq<Action>, m: Ledger, second: seq<Action>, n: Ledger)
    requires Follows(l, first, m) && Follows(m, second, n)
    ensures Follows(l, first + second, n)
    decreases |second|
  {
    if second == [] {
      assert first + second == first;
    } else {
      var rest, last := second[..|second| - 1], second[|second| - 1];
      FollowsJoin(l, first, m, rest, DoAll(m, rest));
      FollowsOne(l, first + rest, DoAll(m, rest), last);
      assert first + second == first + rest + [last];
    }
  }

  /** Where each file operation of one exit is interrupted, if it is. */
  datatype ExitFaults = ExitFaults(
    closing: Option<Stop>, closingFits: bool, release: bool,
    receipt: bool, relockId: nat, fault: Option<Stop>, faultFits: bool, secondRelease: bool)

  class Directory {
    var disk: Disk

    constructor (disk: Disk)
      ensures this.disk == disk
    {
      this.disk := disk;
    }
  }

  class CloneLedger {
    const binding: Binding
    const create: bool
    const mode: Mode
    const session: Token
    const dir: Directory
    var events: seq<Event>
    var frames: seq<Frame>
    var active: bool
    var lockId: nat
    var poisoned: bool
    var finishing: bool
    var receipt: Option<Receipt>

    ghost function Fields(): Memory
      reads this
    {
      Memory(binding, create, mode, session, frames, active, lockId, poisoned, finishing, receipt)
    }

    ghost function Value(): Ledger
      reads this, dir
    {
      Ledger(dir.disk, Fields())
    }

    ghost predicate Valid()
      reads this
    {
      events == EventsOf(frames) && (frames != [] ==> Accepted(events))
    }

    /** After a successful open every recorded event belongs to this object's own session. */
    ghost predicate Entered()
      reads this
    {
      Valid() && Own(Fields())
    }

    constructor (dir: Directory, binding: Binding, create: bool, mode: Mode, session: Token)
      ensures Valid() && this.dir == dir
      ensures Fields() == Memory(binding, create, mode, session, [], false, 0, false, false, None)
    {
      this.dir, this.binding, this.create, this.mode, this.session := dir, binding, create, mode, session;
      events, frames, active, lockId, poisoned, finishing, receipt := [], [], false, 0, false, false, None;
    }

    /** The tests `_append` makes before it touches a file. */
    method Checked(e: Event, fits: bool) returns (ok: bool)
      requires Valid()
      ensures ok <==> AppendChecks(Value(), e, fits)
    {
      if !active || dir.disk.lock != Some(lockId) {
        return false;
      }
      if frames != [] {
        var now := Read(dir.disk.files, binding);
        if now != Some(frames) {
          return false;
        }
      }
      var state := Project(events + [e]);
      ok := state.Some? && fits;
    }

    /** The file operations of `_append`: one journal line, then the head. */
    method WriteFiles(e: Event, stop: Option<Stop>) returns (done: bool)
      requires frames != [] ==> dir.disk.files.journal == Journal(frames, false)
      modifies dir
      ensures done <==> StoppedBy(old(Value()), stop).None?
      ensures dir.disk == old(dir.disk).(files :=
        AppendFiles(old(dir.disk.files), binding, e, if done then HeadReplaced else StoppedBy(old(Value()), stop).value))
    {
      var files := dir.disk.files;
      var frame := NextFrame(frames, e);
      if (frames == [] && files.journal != Journal([], false)) || stop == Some(BeforeLine) {
        return false;
      }
      assert files.journal.lines == frames;
      if stop == Some(TornLine) {
        dir.disk := dir.disk.(files := files.(journal := files.journal.(torn := true)));
        return false;
      }
      files := files.(journal := files.journal.(lines := files.journal.lines + [frame]));
      dir.disk := dir.disk.(files := files);
      if stop == Some(LineOnly) || (frames == [] && files.head.Some?) {
        return false;
      }
      dir.disk := dir.disk.(files := files.(head := Some(Head(binding, frame.sequence, frame.sha))));
      assert stop.None? || stop.value.HeadReplaced?;
      done := stop.None?;
    }

    method AppendEvent(e: Event, stop: Option<Stop>, fits: bool) returns (done: bool)
      requires Valid()
      modifies this`events, this`frames, this`poisoned, dir
      ensures Valid() && Value() == Do(old(Value()), Append(e, stop, fits))
      ensures done <==> AppendSucceeds(old(Value()), e, stop, fits)
      ensures done ==> frames == old(frames) + [NextFrame(old(frames), e)] && events == old(events) + [e]
    {
      hide StoppedBy, AppendFiles, Accepted, Readable, Replay, EventsOf, NextFrame;
      done := false;
      if !poisoned {
        var ok := Checked(e, fits);
        if ok {
          JournalHeld(Value(), e, fits);
          done := WriteFiles(e, stop);
        }
        if done {
          NextFrameEvents(frames, e);
          frames, events := frames + [NextFrame(frames, e)], events + [e];
        } else {
          poisoned := true;
        }
      }
    }

    /** `_release`; `works` says whether removing the lock directory succeeds. */
    method Release(works: bool) returns (done: bool, ghost trace: seq<Action>)
      requires Valid()
      modifies this`active, dir
      ensures Valid() && Follows(old(Value()), trace, Value())
      ensures done <==> old(active) && old(dir.disk.lock) == Some(lockId) && works
      ensures Value() == if done then Do(old(Value()), DropLock) else old(Value())
    {
      if !active || dir.disk.lock != Some(lockId) || !works {
        FollowsNone(Value());
        return false, [];
      }
      FollowsNone(Value());
      FollowsOne(Value(), [], Value(), DropLock);
      dir.disk := dir.disk.(lock := None);
      active := false;
      return true, [DropLock];
    }

    /** `_step`, shared by `intent`, `confirm`, `reconcile` and `resume`. */
    method Record(e: Event, stop: Option<Stop>, fits: bool) returns (done: bool, ghost trace: seq<Action>)
      requires Entered() && IsStepEvent(e)
      modifies this`events, this`frames, this`poisoned, dir
      ensures Entered() && Follows(old(Value()), trace, Value())
      ensures done <==> !old(finishing) && Appends(old(Value()), e, stop, fits)
      ensures Value() == if old(active && !finishing) then Do(old(Value()), Append(e, stop, fits)) else old(Value())
      ensures events == old(events) + if done then [e] else []
      ensures done ==> Writable(Value())
    {
      hide Readable, Replay, NextFrame, Accepted, EventsOf, Follows, DoAppend;
      FollowsNone(Value());
      if !active || finishing {
        return false, [];
      }
      done, trace := AppendOwn(e, stop, fits);
    }

    /** The tests of `finish` on the projected state. */
    method Finished() returns (ok: bool)
      requires Entered()
      ensures ok <==> Finishable(Fields())
    {
      var projected := Project(events);
      var state := projected.value;
      if state.steps == map[] || exists k :: k in state.steps && state.steps[k].phase != Done {
        return false;
      }
      ok := mode != Reconcile || state.session.value.touched == state.steps.Keys;
    }

    method Finish() returns (done: bool, ghost trace: seq<Action>)
      requires Entered()
      modifies this`finishing
      ensures Entered() && Follows(old(Value()), trace, Value())
      ensures done <==> old(active) && !old(poisoned) && !old(finishing) && Finishable(old(Fields()))
      ensures finishing == (old(finishing) || done)
    {
      hide Follows, Finishable, Accepted, Replay;
      FollowsNone(Value());
      trace := [];
      var ready := Finished();
      if !active || poisoned || finishing || !ready {
        return false, [];
      }
      FollowsOne(Value(), [], Value(), SetFinishing);
      assert [] + [SetFinishing] == [SetFinishing];
      finishing := true;
      return true, [SetFinishing];
    }

    /** `_read` into memory, then the test that a writing session starts from settled steps. */
    method LoadSettled() returns (settled: bool, ghost trace: seq<Action>)
      requires Valid() && !create && frames == [] && !poisoned && !finishing
      modifies this`events, this`frames
      ensures Valid() && Follows(old(Value()), trace, Value())
      ensures frames == if Readable(dir.disk.files, binding) then dir.disk.files.journal.lines else []
      ensures settled <==> frames != [] && MayOpen(Fields())
    {
      hide Readable, Replay, NextFrame, EventsOf, Follows, DoAppend;
      FollowsNone(Value());
      settled, trace := false, [];
      var now := Read(dir.disk.files, binding);
      if now.Some? {
        ReadableAccepted(dir.disk.files, binding);
        FollowsOne(Value(), [], Value(), Load);
        frames := now.value;
        events := EventsOf(frames);
        trace := [] + [Load];
        var projected := Project(events);
        var state := projected.value;
        var unsettled := exists k :: k in state.steps && (state.steps[k].phase.Unknown? || state.steps[k].phase.Mismatch?);
        settled := mode == Reconcile || !unsettled;
        assert StateOf(Fields()) == state;
      }
    }

    /** The first half of `_open_locked`: a new journal, or the existing one. */
    method Begin(first: Option<Stop>, firstFits: bool) returns (done: bool, ghost trace: seq<Action>)
      requires Valid() && frames == [] && !poisoned && !finishing
      modifies this`events, this`frames, this`poisoned, dir
      ensures Valid() && Follows(old(Value()), trace, Value())
      ensures Value() == Begun(old(Value()), first, firstFits)
      ensures done <==> Begins(old(Value()), first, firstFits)
      ensures done ==> MayOpen(Fields()) && frames != []
    {
      hide Readable, Replay, NextFrame, Accepted, AppendChecks, StoppedBy, Completed, DoAppend;
      if create {
        FollowsNone(Value());
        FollowsOne(Value(), [], Value(), Append(Created(binding), first, firstFits));
        ghost var was := Fields();
        done := AppendEvent(Created(binding), first, firstFits);
        trace := [] + [Append(Created(binding), first, firstFits)];
        if done { CreatedMayOpen(was, Fields()); }
      } else {
        done, trace := LoadSettled();
      }
    }

    /** `_open_locked` once the lock directory is made. */
    method OpenLocked(first: Option<Stop>, firstFits: bool, second: Option<Stop>, secondFits: bool, release: bool)
      returns (done: bool, ghost trace: seq<Action>)
      requires Valid() && frames == [] && active && !poisoned && !finishing
      modifies this`events, this`frames, this`poisoned, this`active, dir
      ensures Valid() && Follows(old(Value()), trace, Value())
      ensures done ==> Entered() && active
      ensures done ==> StateOf(Fields()).session == Some(Session(session, mode, Open, {}, None))
      ensures done <==> Opens(old(Value()), first, firstFits, second, secondFits)
      ensures done ==> frames == Begun(old(Value()), first, firstFits).mem.frames
                                 + [NextFrame(Begun(old(Value()), first, firstFits).mem.frames, Opened(session, mode))]
      ensures !done && release && old(dir.disk.lock) == Some(lockId) ==> !active && dir.disk.lock.None?
    {
      hide Readable, Replay, NextFrame, Accepted, EventsOf, AppendChecks, StoppedBy, Completed, Follows;
      ghost var start := Value();
      done, trace := Begin(first, firstFits);
      BegunKeepsLock(start, first, firstFits);
      if done {
        ghost var was := Fields();
        FollowsOne(start, trace, Value(), Append(Opened(session, mode), second, secondFits));
        AppendsIff(Value(), Opened(session, mode), second, secondFits);
        AppendOutcome(Value(), Opened(session, mode), second, secondFits);
        done := AppendEvent(Opened(session, mode), second, secondFits);
        trace := trace + [Append(Opened(session, mode), second, secondFits)];
        if done { OpenedIsOwn(was, Fields()); }
      }
      if !done {
        ghost var locked, more := Value(), [];
        var released;
        released, more := Release(release);
        FollowsJoin(start, trace, locked, more, Value());
        trace := trace + more;
      }
    }

    /** `__enter__`: an existing lock is never taken over. */
    method Enter(id: nat, first: Option<Stop>, firstFits: bool, second: Option<Stop>, secondFits: bool, release: bool)
      returns (done: bool, ghost trace: seq<Action>)
      requires Valid() && frames == [] && !active && !poisoned && !finishing
      modifies this`events, this`frames, this`poisoned, this`active, this`lockId, dir
      ensures Valid() && Follows(old(Value()), trace, Value())
      ensures done ==> Entered() && active
      ensures done ==> StateOf(Fields()).session == Some(Session(session, mode, Open, {}, None))
      ensures done <==>
        && (create <==> !old(dir.disk.made)) && old(dir.disk.lock).None?
        && Opens(Locked(old(Value()), id), first, firstFits, second, secondFits)
      ensures old(dir.disk.lock).Some? ==>
        !done && dir.disk.lock == old(dir.disk.lock) && dir.disk.files == old(dir.disk.files)
      ensures !done && release && old(dir.disk.lock).None? ==> !active && dir.disk.lock.None?
    {
      hide Readable, Replay, NextFrame, Accepted, EventsOf, Follows;
      ghost var start := Value();
      FollowsNone(start);
      done, trace := false, [];
      if create {
        if dir.disk.made {
          return;
        }
        FollowsOne(start, trace, Value(), MakeRoot);
        dir.disk := dir.disk.(made := true);
        trace := trace + [MakeRoot];
      }
      if !dir.disk.made || dir.disk.lock.Some? {
        return;
      }
      FollowsOne(start, trace, Value(), TakeLock(id));
      dir.disk := dir.disk.(lock := Some(id));
      lockId, active := id, true;
      trace := trace + [TakeLock(id)];
      ghost var locked, more := Value(), [];
      done, more := OpenLocked(first, firstFits, second, secondFits, release);
      FollowsJoin(start, trace, locked, more, Value());
      trace := trace + more;
    }

    /** `_fault`: record the failure under the lock, taking it again if it is already gone. */
    method RecordFault(stage: Stage, id: nat, stop: Option<Stop>, fits: bool, release: bool)
      returns (ghost trace: seq<Action>)
      requires Entered()
      modifies this`events, this`frames, this`poisoned, this`active, this`lockId, dir
      ensures Entered() && Follows(old(Value()), trace, Value())
      ensures Value() == Faulted(old(Value()), stage, id, stop, fits, release)
    {
      hide Readable, Replay, NextFrame, Accepted, EventsOf, Follows, DoAppend, Completion, Finishable;
      if active {
        var done;
        done, trace := AppendOwn(Fault(stage), stop, fits);
      } else if !dir.disk.made || dir.disk.lock.Some? {
        FollowsNone(Value());
        FollowsOne(Value(), [], Value(), GiveUp);
        poisoned := true;
        trace := [] + [GiveUp];
      } else {
        trace := RecordRelocked(stage, id, stop, fits, release);
      }
    }

    /** `_fault` when the lock is gone: take it again, record the failure, release it. */
    method RecordRelocked(stage: Stage, id: nat, stop: Option<Stop>, fits: bool, release: bool)
      returns (ghost trace: seq<Action>)
      requires Entered() && !active && dir.disk.made && dir.disk.lock.None?
      modifies this`events, this`frames, this`poisoned, this`active, this`lockId, dir
      ensures Entered() && Follows(old(Value()), trace, Value())
      ensures Value() == Faulted(old(Value()), stage, id, stop, fits, release)
    {
      hide Readable, Replay, NextFrame, Accepted, EventsOf, Follows, DoAppend, Completion, Finishable, Writable, Appends;
      hide Permitted;
      ghost var start := Value();
      TakesLock(start, id);
      dir.disk := dir.disk.(lock := Some(id));
      lockId, active := id, true;
      ghost var middle, more := Value(), [];
      AppendOutcome(middle, Fault(stage), stop, fits);
      var done;
      done, more := AppendOwn(Fault(stage), stop, fits);
      FollowsJoin(start, [] + [TakeLock(id)], middle, more, Value());
      trace := [] + [TakeLock(id)] + more;
      middle := Value();
      more := LetGo(release);
      FollowsJoin(start, trace, middle, more, Value());
      trace := trace + more;
    }

    /** The lock that `_fault` took is released again, or the object is given up. */
    method LetGo(release: bool) returns (ghost trace: seq<Action>)
      requires Entered()
      modifies this`poisoned, this`active, dir
      ensures Entered() && Follows(old(Value()), trace, Value())
      ensures Value() ==
        Do(old(Value()), if old(active) && old(dir.disk.lock) == Some(lockId) && release then DropLock else GiveUp)
    {
      hide Readable, Replay, NextFrame, Accepted, EventsOf, Follows, DoAppend;
      ghost var start := Value();
      var done;
      done, trace := Release(release);
      if !done {
        FollowsOne(start, trace, Value(), GiveUp);
        poisoned := true;
        trace := trace + [GiveUp];
      }
    }

    /** An append to this object's own session, with the effect it has on a run. */
    method AppendOwn(e: Event, stop: Option<Stop>, fits: bool) returns (done: bool, ghost trace: seq<Action>)
      requires Entered() && MayAppend(Fields(), e)
      modifies this`events, this`frames, this`poisoned, dir
      ensures Entered() && Follows(old(Value()), trace, Value())
      ensures Value() == Do(old(Value()), Append(e, stop, fits)) && (done <==> Appends(old(Value()), e, stop, fits))
      ensures done ==> Writable(Value()) && events == old(events) + [e]
      ensures !done ==> poisoned && events == old(events) && frames == old(frames)
    {
      hide Readable, Replay, NextFrame, Accepted, EventsOf, Follows, DoAppend, AppendSucceeds;
      ghost var start := Value();
      FollowsNone(start);
      FollowsOne(start, [], start, Append(e, stop, fits));
      AppendOutcome(start, e, stop, fits);
      AppendsIff(start, e, stop, fits);
      done := AppendEvent(e, stop, fits);
      trace := [] + [Append(e, stop, fits)];
      if done {
        StepKeepsOwn(start.mem, e, Fields());
      }
    }

    /** `_completion` of the journal in memory. */
    method CompletionNow() returns (value: Receipt)
      requires Entered()
      ensures value == Completion(Fields())
    {
      var projected := Project(events);
      var state := projected.value;
      value := Receipt(binding, state.session.value.id, frames[|frames| - 1].sha, |state.steps|,
                       state.session.value.completedAt);
    }

    /** `_publish`: the receipt appears only beside the released lock and the journal just closed. */
    method Publish(works: bool) returns (done: bool, ghost trace: seq<Action>)
      requires Entered() && finishing && !poisoned
      modifies this`receipt, dir
      ensures Entered() && Follows(old(Value()), trace, Value())
      ensures dir.disk.files == old(dir.disk.files) && dir.disk.lock == old(dir.disk.lock)
      ensures done <==>
        && old(dir.disk.lock).None? && Readable(old(dir.disk.files), binding) && old(dir.disk.files.journal.lines) == frames
        && works && session !in old(dir.disk.receipts)
      ensures !done ==> Value() == old(Value())
      ensures done ==> receipt == Some(Completion(Fields()))
      ensures done ==> session in dir.disk.receipts && dir.disk.receipts[session] == Completion(Fields())
      ensures done ==>
        dir.disk.lock.None? && Readable(dir.disk.files, binding) && dir.disk.files.journal.lines == frames
    {
      hide Readable, Replay, NextFrame, Accepted, EventsOf, Follows, DoAppend;
      ghost var start := Value();
      FollowsNone(start);
      done, trace := false, [];
      var now := Read(dir.disk.files, binding);
      if dir.disk.lock.Some? || now != Some(frames) {
        return;
      }
      var value := CompletionNow();
      if !works || session in dir.disk.receipts {
        return;
      }
      FollowsOne(start, trace, Value(), WriteReceipt);
      dir.disk := dir.disk.(receipts := dir.disk.receipts[session := value]);
      trace := trace + [WriteReceipt];
      FollowsOne(start, trace, Value(), KeepReceipt);
      receipt := Some(value);
      trace := trace + [KeepReceipt];
      done := true;
    }

    /** The closing event of `_exit_locked`; a poisoned object writes nothing. */
    method CloseSession(error: bool, now: int, stop: Option<Stop>, fits: bool) returns (ok: bool, ghost trace: seq<Action>)
      requires Entered()
      modifies this`events, this`frames, this`poisoned, dir
      ensures Entered() && Follows(old(Value()), trace, Value())
      ensures var c := if error then Closed(Failed, None)
                       else if finishing then Closed(Publishing, Some(Instant(true, now))) else Closed(Partial, None);
              && (ok <==> Appends(old(Value()), c, stop, fits))
              && events == old(events) + if ok then [c] else []
      ensures if ok then Writable(Value()) else poisoned
      ensures dir.disk == old(dir.disk).(files := dir.disk.files)
    {
      hide Readable, Replay, NextFrame, Accepted, EventsOf, Follows, DoAppend, Completion;
      FollowsNone(Value());
      ok, trace := false, [];
      if !poisoned {
        var outcome := if error then Failed else if finishing then Publishing else Partial;
        var closing := Closed(outcome, if outcome == Publishing then Some(Instant(true, now)) else None);
        AppendOutcome(Value(), closing, stop, fits);
        ok, trace := AppendOwn(closing, stop, fits);
      }
    }

    /** The release of `_exit_locked`, or the record that it failed. */
    method ReleaseOrRecord(f: ExitFaults) returns (ok: bool, ghost trace: seq<Action>)
      requires Entered()
      modifies this`events, this`frames, this`poisoned, this`active, this`lockId, dir
      ensures Entered() && Follows(old(Value()), trace, Value())
      ensures ok <==> old(active) && old(dir.disk.lock) == Some(old(lockId)) && f.release
      ensures Value() == if ok then Do(old(Value()), DropLock)
                         else Faulted(old(Value()), LockRelease, f.relockId, f.fault, f.faultFits, f.secondRelease)
    {
      hide Readable, Replay, NextFrame, Accepted, EventsOf, Follows, Completion, Faulted, DoAppend;
      ghost var start, more := Value(), [];
      ok, trace := Release(f.release);
      if !ok {
        ghost var middle := Value();
        more := RecordFault(LockRelease, f.relockId, f.fault, f.faultFits, f.secondRelease);
        FollowsJoin(start, trace, middle, more, Value());
        trace := trace + more;
      }
    }

    /** The receipt of `_exit_locked`, or the record that it could not be published. */
    method PublishOrRecord(f: ExitFaults) returns (ok: bool, ghost trace: seq<Action>)
      requires Entered() && finishing && !poisoned
      modifies this`events, this`frames, this`poisoned, this`active, this`lockId, this`receipt, dir
      ensures Entered() && Follows(old(Value()), trace, Value())
      ensures ok <==>
        && old(dir.disk.lock).None? && Readable(old(dir.disk.files), binding)
        && old(dir.disk.files.journal.lines) == old(frames) && f.receipt && session !in old(dir.disk.receipts)
      ensures ok ==> frames == old(frames) && !poisoned && active == old(active)
      ensures ok ==> receipt == Some(Completion(Fields())) && dir.disk.lock.None?
      ensures ok ==> session in dir.disk.receipts && dir.disk.receipts[session] == Completion(Fields())
      ensures !ok ==>
        Value() == Faulted(old(Value()), ReceiptWrite, f.relockId, f.fault, f.faultFits, f.secondRelease)
    {
      hide Readable, Replay, NextFrame, Accepted, EventsOf, Follows, Completion, Faulted, DoAppend;
      ghost var start, more := Value(), [];
      ok, trace := Publish(f.receipt);
      if !ok {
        ghost var middle := Value();
        more := RecordFault(ReceiptWrite, f.relockId, f.fault, f.faultFits, f.secondRelease);
        FollowsJoin(start, trace, middle, more, Value());
        trace := trace + more;
      }
    }

    /**
     * `_exit_locked`: close, release, then publish if the session was finished without an error. A failure after the
     * closing event is recorded as well, and after an error nothing may be written before a reconciliation.
     */
    method Exit(error: bool, now: int, f: ExitFaults) returns (done: bool, ghost trace: seq<Action>)
      requires Entered()
      modifies this`events, this`frames, this`poisoned, this`active, this`lockId, this`receipt, dir
      ensures Entered() && Follows(old(Value()), trace, Value())
      ensures done ==> !poisoned && !active && dir.disk.lock.None?
      ensures done && finishing ==> receipt == Some(Completion(Fields()))
      ensures done && finishing ==> session in dir.disk.receipts && dir.disk.receipts[session] == Completion(Fields())
      ensures var c := if error then Closed(Failed, None)
                       else if finishing then Closed(Publishing, Some(Instant(true, now))) else Closed(Partial, None);
              var closed := Appends(old(Value()), c, f.closing, f.closingFits);
              var published := f.receipt && session !in old(dir.disk.receipts);
              && (done <==> closed && !error && f.release && (finishing ==> published))
              && (if closed then old(events) + [c] <= events else events == old(events))
              && (closed && f.release && (!error && finishing ==> published) ==> events == old(events) + [c])
              && (closed && !f.release && f.fault.None? && f.faultFits ==> events == old(events) + [c, Fault(LockRelease)])
              && (closed && f.release && !error && finishing && !published ==>
                   (old(dir.disk.made) && f.fault.None? && f.faultFits ==> events == old(events) + [c, Fault(ReceiptWrite)]))
              && (error && closed ==> OnlyReconcile(events))
    {
      hide Readable, Replay, NextFrame, Accepted, EventsOf, Follows, Completion, Faulted, DoAppend, Appends, OnlyReconcile, Own;
      hide Writable;
      ghost var start := Value();
      var closed, released: bool;
      closed, released, trace := CloseAndRelease(error, now, f);
      done := closed && released && !error;
      if done && finishing {
        ghost var middle, more := Value(), [];
        FaultKept(middle, ReceiptWrite, f.relockId, f.fault, f.faultFits, f.secondRelease);
        RelockedWritable(middle, f.relockId);
        done, more := PublishOrRecord(f);
        FollowsJoin(start, trace, middle, more, Value());
        trace := trace + more;
      }
    }

    /** The first two parts of `_exit_locked`. */
    method CloseAndRelease(error: bool, now: int, f: ExitFaults)
      returns (closed: bool, released: bool, ghost trace: seq<Action>)
      requires Entered()
      modifies this`events, this`frames, this`poisoned, this`active, this`lockId, dir
      ensures Entered() && Follows(old(Value()), trace, Value())
      ensures var c := if error then Closed(Failed, None)
                       else if finishing then Closed(Publishing, Some(Instant(true, now))) else Closed(Partial, None);
              && (closed <==> Appends(old(Value()), c, f.closing, f.closingFits))
              && (if closed then old(events) + [c] <= events else events == old(events))
              && (closed && released ==> events == old(events) + [c])
              && (closed && !released && f.fault.None? && f.faultFits ==> events == old(events) + [c, Fault(LockRelease)])
      ensures closed ==> (released <==> f.release)
      ensures closed && released ==>
        && !active && !poisoned && dir.disk.lock.None? && Readable(dir.disk.files, binding)
        && dir.disk.files.journal.lines == frames
      ensures dir.disk.receipts == old(dir.disk.receipts) && dir.disk.made == old(dir.disk.made)
      ensures error && closed ==> OnlyReconcile(events)
    {
      hide Readable, Replay, NextFrame, Accepted, EventsOf, Follows, Completion, Faulted, DoAppend, Appends, OnlyReconcile, Own;
      ghost var start, more := Value(), [];
      closed, trace := CloseSession(error, now, f.closing, f.closingFits);
      ghost var middle, were := Value(), events;
      if error && closed {
        EnteredAccepted();
        FailedSeals(events);
      }
      FaultKept(middle, LockRelease, f.relockId, f.fault, f.faultFits, f.secondRelease);
      released, more := ReleaseOrRecord(f);
      FollowsJoin(start, trace, middle, more, Value());
      trace := trace + more;
    }

    lemma EnteredAccepted()
      requires Entered()
      ensures events != [] && Accepted(events)
    {
    }

    /** `inspect` and `snapshot`; None is a rejected ledger or receipt. */
    method Inspect() returns (status: Option<Status>)
      requires Valid() && !active
      modifies this`events, this`frames, this`receipt
      ensures Valid()
      ensures status == Inspected(dir.disk, binding, poisoned)
      ensures status.Some? ==> frames == dir.disk.files.journal.lines
      ensures status.Some? ==> (receipt.Some? <==> status.value == Complete)
    {
      hide Readable, Replay, EventsOf;
      var now := Read(dir.disk.files, binding);
      if now.None? {
        return None;
      }
      ReadableAccepted(dir.disk.files, binding);
      frames := now.value;
      events := EventsOf(frames);
      receipt := None;
      var projected := Project(events);
      var state := projected.value;
      if state.session.None? {
        return None;
      }
      var last := state.session.value;
      var confirmed := !exists k :: k in state.steps && state.steps[k].phase != Done;
      if last.outcome == Publishing && dir.disk.lock.None? && last.id in dir.disk.receipts {
        var value := dir.disk.receipts[last.id];
        if value != Receipt(binding, last.id, frames[|frames| - 1].sha, |state.steps|, last.completedAt) || !confirmed {
          return None;
        }
        receipt := Some(value);
      }
      var uncertain := poisoned || dir.disk.lock.Some? || last.outcome != Partial || !confirmed;
      status := Some(if receipt.Some? then Complete else if uncertain then NeedsReconciliation else Paused);
    }
  }

  datatype Status = Complete | NeedsReconciliation | Paused

  /** The status that the files of a ledger directory justify. */
  ghost function Inspected(disk: Disk, binding: Binding, poisoned: bool): Option<Status> {
    if !Readable(disk.files, binding) then None
    else
      var s := Replay(EventsOf(disk.files.journal.lines)).value;
      if s.session.None? then None
      else
        var last := s.session.value;
        if last.outcome == Publishing && disk.lock.None? && last.id in disk.receipts then
          if && AllDone(s)
             && disk.receipts[last.id] ==
                Receipt(binding, last.id, disk.files.journal.lines[|disk.files.journal.lines| - 1].sha, |s.steps|, last.completedAt)
          then Some(Complete) else None
        else if poisoned || disk.lock.Some? || last.outcome != Partial || !AllDone(s) then Some(NeedsReconciliation)
        else Some(Paused)
  }

  /** The object holds its lock and a journal that is what it remembers. */
  ghost predicate Writable(l: Ledger) {
    && !l.mem.poisoned && l.mem.active && l.disk.lock == Some(l.mem.lockId)
    && l.mem.frames != [] && Readable(l.disk.files, l.mem.binding) && l.disk.files.journal.lines == l.mem.frames
  }

  /** An append to a loaded journal succeeds. */
  ghost predicate Appends(l: Ledger, e: Event, stop: Option<Stop>, fits: bool) {
    Writable(l) && Accepted(EventsOf(l.mem.frames) + [e]) && stop.None? && fits
  }

  /** The tests and file operations of an append amount to this, and a successful one leaves the object writable. */
  lemma AppendsIff(l: Ledger, e: Event, stop: Option<Stop>, fits: bool)
    requires l.mem.frames != []
    ensures AppendSucceeds(l, e, stop, fits) <==> Appends(l, e, stop, fits)
    ensures Appends(l, e, stop, fits) ==>
      && Writable(DoAppend(l, e, stop, fits))
      && EventsOf(DoAppend(l, e, stop, fits).mem.frames) == EventsOf(l.mem.frames) + [e]
  {
    hide Replay, Accepted, NextFrame;
    if Appends(l, e, stop, fits) {
      AppendCrash(l.disk.files, l.mem.binding, e, HeadReplaced);
      NextFrameEvents(l.mem.frames, e);
    }
  }

  /** After the first half of opening: the journal was created or read. */
  ghost function Begun(l: Ledger, first: Option<Stop>, firstFits: bool): Ledger {
    if l.mem.create then Do(l, Append(Created(l.mem.binding), first, firstFits))
    else if Readable(l.disk.files, l.mem.binding) then Do(l, Load)
    else l
  }

  lemma BegunKeepsLock(l: Ledger, first: Option<Stop>, firstFits: bool)
    ensures var b := Begun(l, first, firstFits);
            b.disk.lock == l.disk.lock && b.mem.active == l.mem.active && b.mem.lockId == l.mem.lockId
  {
    hide DoAppend;
    AppendOutcome(l, Created(l.mem.binding), first, firstFits);
  }

  ghost predicate Begins(l: Ledger, first: Option<Stop>, firstFits: bool) {
    if l.mem.create then AppendSucceeds(l, Created(l.mem.binding), first, firstFits)
    else Readable(l.disk.files, l.mem.binding) && MayOpen(Begun(l, first, firstFits).mem)
  }

  ghost predicate Opens(l: Ledger, first: Option<Stop>, firstFits: bool, second: Option<Stop>, secondFits: bool) {
    && Begins(l, first, firstFits)
    && Appends(Begun(l, first, firstFits), Opened(l.mem.session, l.mem.mode), second, secondFits)
  }

  ghost function Locked(l: Ledger, id: nat): Ledger {
    Do(if l.mem.create then Do(l, MakeRoot) else l, TakeLock(id))
  }

  /** After a failure was recorded, or could not be. */
  ghost function Faulted(l: Ledger, stage: Stage, id: nat, stop: Option<Stop>, fits: bool, release: bool): Ledger {
    if l.mem.active then Do(l, Append(Fault(stage), stop, fits))
    else if !l.disk.made || l.disk.lock.Some? then Do(l, GiveUp)
    else Do(Do(Do(l, TakeLock(id)), Append(Fault(stage), stop, fits)), if release then DropLock else GiveUp)
  }

  lemma TakesLock(l: Ledger, id: nat)
    requires l.disk.made && l.disk.lock.None? && !l.mem.active
    ensures Follows(l, [] + [TakeLock(id)], Do(l, TakeLock(id)))
  {
    FollowsNone(l);
    FollowsOne(l, [], l, TakeLock(id));
  }

  /** A failure is on record or the object is given up; with the lock at hand and nothing else amiss it is on record. */
  lemma FaultKept(l: Ledger, stage: Stage, id: nat, stop: Option<Stop>, fits: bool, release: bool)
    requires Own(l.mem)
    ensures var n := Faulted(l, stage, id, stop, fits, release);
            && (EventsOf(n.mem.frames) == EventsOf(l.mem.frames) + [Fault(stage)]
                || (n.mem.poisoned && n.mem.frames == l.mem.frames))
            && (EventsOf(n.mem.frames) == EventsOf(l.mem.frames) + [Fault(stage)] <==>
                 && (l.mem.active || (l.disk.made && l.disk.lock.None?))
                 && Writable(if l.mem.active then l else Do(l, TakeLock(id))) && stop.None? && fits)
            && (!l.mem.active && l.disk.lock.None? && release ==> n.disk.lock.None?)
            && n.disk.receipts == l.disk.receipts && n.disk.made == l.disk.made
  {
    hide Readable, Replay, NextFrame, EventsOf, DoAppend, Accepted;
    var t := if l.mem.active then l else Do(l, TakeLock(id));
    var events := EventsOf(l.mem.frames);
    AppendsIff(t, Fault(stage), stop, fits);
    AppendOutcome(t, Fault(stage), stop, fits);
    FaultAccepted(l.mem, stage);
    assert |events + [Fault(stage)]| != |events|;
  }

  lemma RelockedWritable(l: Ledger, id: nat)
    requires Own(l.mem) && !l.mem.poisoned && l.disk.lock.None?
    requires Readable(l.disk.files, l.mem.binding) && l.disk.files.journal.lines == l.mem.frames
    ensures Writable(Do(l, TakeLock(id)))
  {
    hide Readable;
  }

  /** The next session to open has to reconcile. */
  ghost predicate OnlyReconcile(events: seq<Event>) {
    forall id, mode :: mode != Reconcile ==> !Accepted(events + [Opened(id, mode)])
  }

  /** After a session that closed as failed, and after a failure recorded since, only a reconciliation may open. */
  lemma FailedSeals(events: seq<Event>)
    requires Accepted(events) && events != [] && events[|events| - 1] == Closed(Failed, None)
    ensures OnlyReconcile(events) && forall stage :: OnlyReconcile(events + [Fault(stage)])
  {
    ReplayPrefix(events, |events| - 1);
    assert events == events[..|events| - 1] + [Closed(Failed, None)];
    ReplayAppend(events[..|events| - 1], Closed(Failed, None));
    FailedBars(events);
    forall stage
      ensures OnlyReconcile(events + [Fault(stage)])
    {
      ReplayAppend(events, Fault(stage));
      FailedBars(events + [Fault(stage)]);
    }
  }

  lemma FailedBars(events: seq<Event>)
    requires Accepted(events) && events != []
    requires Replay(events).value.session.Some? && Replay(events).value.session.value.outcome == Failed
    ensures OnlyReconcile(events)
  {
    forall id, mode | mode != Reconcile
      ensures !Accepted(events + [Opened(id, mode)])
    {
      ReplayAppend(events, Opened(id, mode));
    }
  }

  lemma FaultAccepted(m: Memory, stage: Stage)
    requires Own(m)
    ensures Accepted(EventsOf(m.frames) + [Fault(stage)])
  {
    hide EventsOf;
    ReplayAppend(EventsOf(m.frames), Fault(stage));
    assert |EventsOf(m.frames)| > 0;
  }

  ghost predicate MayOpen(m: Memory) {
    MayAppend(m, Opened(m.session, m.mode))
  }

  lemma CreatedMayOpen(m: Memory, n: Memory)
    requires m.frames == [] && n.frames == [NextFrame([], Created(m.binding))] && n.session == m.session
    requires n.mode == m.mode
    requires !n.finishing
    ensures MayOpen(n)
  {
    NextFrameEvents([], Created(m.binding));
    ReplayAppend([], Created(m.binding));
    assert [] + n.frames == n.frames;
  }

  lemma OpenedIsOwn(m: Memory, n: Memory)
    requires Acceptable(m) && n.session == m.session
    requires n.frames == m.frames + [NextFrame(m.frames, Opened(m.session, m.mode))] && Accepted(EventsOf(n.frames))
    ensures Own(n) && StateOf(n).session == Some(Session(m.session, m.mode, Open, {}, None))
  {
    NextFrameEvents(m.frames, Opened(m.session, m.mode));
    ReplayAppend(EventsOf(m.frames), Opened(m.session, m.mode));
  }

  lemma JournalHeld(l: Ledger, e: Event, fits: bool)
    requires AppendChecks(l, e, fits)
    ensures l.mem.frames != [] ==> l.disk.files.journal == Journal(l.mem.frames, false)
    ensures Accepted(EventsOf(l.mem.frames) + [e])
  {
  }

  lemma AppendOutcome(l: Ledger, e: Event, stop: Option<Stop>, fits: bool)
    ensures AppendSucceeds(l, e, stop, fits) ==>
      DoAppend(l, e, stop, fits).mem == l.mem.(frames := l.mem.frames + [NextFrame(l.mem.frames, e)]) && !l.mem.poisoned
    ensures !AppendSucceeds(l, e, stop, fits) ==> DoAppend(l, e, stop, fits).mem == l.mem.(poisoned := true)
    ensures DoAppend(l, e, stop, fits).disk == l.disk.(files := DoAppend(l, e, stop, fits).disk.files)
  {
    hide AppendChecks, StoppedBy, NextFrame;
  }

  lemma NextFrameEvents(frames: seq<Frame>, e: Event)
    ensures EventsOf(frames + [NextFrame(frames, e)]) == EventsOf(frames) + [e]
  {
    assert (frames + [NextFrame(frames, e)])[..|frames|] == frames;
  }

  lemma StepKeepsOwn(m: Memory, e: Event, n: Memory)
    requires Own(m) && MayAppend(m, e) && n.session == m.session
    requires n.frames == m.frames + [NextFrame(m.frames, e)] && Accepted(EventsOf(n.frames))
    ensures Own(n)
  {
    NextFrameEvents(m.frames, e);
    ReplayAppend(EventsOf(m.frames), e);
    AdvanceSteps(StateOf(m), |m.frames|, e, StateOf(n));
  }
}
