/** Runs of the controller that leave a history its validator refuses: tools/python/devex_clone_runtime.py, lines 100-139. */
module ProducerWitness {
  import opened Options
  import opened ProducerHistory
  import opened ProducerRuntime

  const NEW_DIRECTORY := Site([], map[], {}, {}, {}, 0, 1, {}, {}, {}, {}, {})

  function Intended(): Site {
    Appended(NEW_DIRECTORY.(tokens := 1), Api, StartIntent(0, Log(Api, 0)))
  }

  /** The log could not be created, so the handler records a failure for an intent without a log. */
  function LogMissing(): Site {
    Appended(Intended(), Api, StartFailed(0, Log(Api, 0)))
  }

  /** The process runs and its receipt is written, but its start is not recorded. */
  function Cut(i: Identity): Site {
    Recorded(Spawned(Logged(Intended(), Log(Api, 0)), i), Api, i)
  }

  /** The start could not be recorded: the handler ended the process and recorded a failure. */
  function NotRecorded(i: Identity): Site {
    Appended(Gone(Cut(i)), Api, StartFailed(0, Log(Api, 0)))
  }

  /** The controller died at the cut, and a later stop ended the process. */
  function StoppedLater(i: Identity): Site {
    Appended(Gone(Cut(i)), Api, Stopped(i))
  }

  function Gone(v: Site): Site {
    v.(live := {})
  }

  lemma NewIsSound(c: Contract)
    ensures Sound(c, NEW_DIRECTORY)
  {
  }

  lemma IntendedIsSound(c: Contract)
    ensures Sound(c, Intended()) && Pending(c, Intended(), Api, 0, None) && HasLog(Intended().events, Log(Api, 0))
    ensures Intended().unanswered == {0} && Intended().unlogged == {Log(Api, 0)}
  {
    hide Sound, Pending, Frame, HasLog;
    NewIsSound(c);
    IntentSound(c, NEW_DIRECTORY, Api);
    IntendedLogged();
  }

  lemma IntendedLogged()
    ensures HasLog(Intended().events, Log(Api, 0))
    ensures Intended().unanswered == {0} && Intended().unlogged == {Log(Api, 0)}
  {
    assert NamesLog(Intended().events, 0, Log(Api, 0));
  }

  /** Every intent is answered and nothing was started, yet the history is refused. */
  lemma LogMissingRefused(c: Contract)
    ensures var v := LogMissing();
            && Sound(c, v) && v.unanswered == {} && v.lost == {} && v.receipts == map[]
            && !Accepts(c, v.events, v.receipts, v.logs)
  {
    hide Sound, Accepts, Pending;
    IntendedIsSound(c);
    FailedSound(c, Intended(), Api, 0, None);
    var v := LogMissing();
    AcceptedExactly(c, v);
    assert v.logs - v.large == v.logs;
  }

  lemma CutIsSound(c: Contract, i: Identity)
    requires IdentityOk(c, Api, i)
    ensures Sound(c, Gone(Cut(i))) && Pending(c, Gone(Cut(i)), Api, 0, None) && Cut(i).lost == {i}
    ensures Stoppable(c, Gone(Cut(i)), Api, i)
  {
    hide Sound, Pending, Frame, Unseen, HasLog, Stoppable;
    IntendedIsSound(c);
    var logged := Logged(Intended(), Log(Api, 0));
    LoggedSound(c, Intended(), Log(Api, 0));
    SameEvents(c, Intended(), logged);
    SpawnSound(c, logged, Api, 0, i);
    RecordSound(c, Spawned(logged, i), Api, 0, i);
    RunningIsStoppable(c, Cut(i), Api) by { assert Cut(i).receipts[Api] == i; }
    OnwardSound(c, Cut(i), Gone(Cut(i)));
    SameEvents(c, Cut(i), Gone(Cut(i)));
    StillStoppable(c, Cut(i), Gone(Cut(i)), i);
  }

  lemma SameEvents(c: Contract, v: Site, w: Site)
    requires Pending(c, v, Api, 0, None) && v.events == w.events
    ensures Pending(c, w, Api, 0, None)
  {
  }

  lemma StillStoppable(c: Contract, v: Site, w: Site, i: Identity)
    requires Frame(c, v, w, {}) && Stoppable(c, v, Api, i)
    ensures Stoppable(c, w, Api, i)
  {
  }

  /** Every intent is answered and has its log, but the receipt names a process whose start is not on record. */
  lemma NotRecordedRefused(c: Contract, i: Identity)
    requires IdentityOk(c, Api, i)
    ensures var v := NotRecorded(i);
            && Sound(c, v) && v.unanswered == {} && v.unlogged == {} && v.lost == {i}
            && !Accepts(c, v.events, v.receipts, v.logs)
  {
    hide Sound, Accepts, Pending, Stoppable;
    IntendedIsSound(c);
    CutIsSound(c, i);
    FailedSound(c, Gone(Cut(i)), Api, 0, None);
    var v := NotRecorded(i);
    AcceptedExactly(c, v);
    assert v.receipts[Api] in v.lost;
    assert v.logs - v.large == v.logs;
  }

  /** A stop that ends such a process makes the history close a process it never started. */
  lemma StoppedLaterRefused(c: Contract, i: Identity)
    requires IdentityOk(c, Api, i)
    ensures var v := StoppedLater(i);
            && Sound(c, v) && v.stray == {i} && !Known(v.events)
            && !Accepts(c, v.events, v.receipts, v.logs)
  {
    hide Accepts, Pending, Known, Processes, Receipts, Tokens, Logs, Scans, Stoppable, StartedBefore, KnownBut, HasEnd;
    CutIsSound(c, i);
    EndSound(c, Gone(Cut(i)), Api, Stopped(i));
    var v := StoppedLater(i);
    StrayIff(v);
    AcceptedExactly(c, v);
    assert v.logs - v.large == v.logs;
  }
}
