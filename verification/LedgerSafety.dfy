/** Exactly-once effect: no run of ledger processes, crashes included, changes a resource twice. */
module LedgerSafety {
  import opened Options
  import opened LedgerEvents
  import opened LedgerHistory
  import opened LedgerFiles
  import opened LedgerRuns

  // ---- The journal and the resources agree ----

  /** A resource was changed at most once, and its phase says what it looks like now. */
  ghost predicate StepFits(step: Step, w: World) {
    var r := step.before.resource;
    && r in w.images && r in w.writes
    && w.writes[r] <= 1
    && (w.writes[r] == 0 <==> w.images[r] == step.before)
    && (step.phase == Done ==> w.images[r] == step.after)
    && (step.phase == Before ==> w.images[r] == step.before)
  }

  ghost predicate HasStep(s: State, r: Token) {
    exists k :: k in s.steps && s.steps[k].before.resource == r
  }

  ghost predicate OnlySteps(s: State, w: World) {
    forall r {:trigger HasStep(s, r)} {:trigger w.writes[r]} :: r in w.writes && w.writes[r] != 0 ==> HasStep(s, r)
  }

  /** An unused authorisation belongs to the one unknown step of a session that may write. */
  ghost predicate AuthFits(s: State, auth: Option<Auth>, owner: Token, w: World) {
    auth.Some? ==>
      && auth.value.step in s.steps
      && s.steps[auth.value.step].phase == Unknown
      && s.steps[auth.value.step].before == auth.value.before
      && s.session.Some? && s.session.value.mode != Reconcile
      && owner in s.sessions
      && auth.value.before.resource in w.images
      && w.images[auth.value.before.resource] == auth.value.before
  }

  ghost predicate Consistent(s: State, auth: Option<Auth>, owner: Token, w: World) {
    && (forall k :: k in s.steps ==> StepFits(s.steps[k], w))
    && OnlySteps(s, w)
    && AuthFits(s, auth, owner, w)
  }

  ghost predicate WorldOk(w: World) {
    && w.images.Keys == w.writes.Keys
    && forall r :: r in w.images ==> w.images[r].resource == r && w.writes[r] <= 1
  }

  /** `Truthful`, seen from the replayed state. */
  ghost predicate Honest(s: State, w: World, e: Event) {
    match e
    case Intent(_, before, _, _) => before.resource in w.images && w.images[before.resource] == before
    case Confirmed(k, observed) => Sees(s, w, k, observed)
    case Reconciled(k, observed) => Sees(s, w, k, observed)
    case Resumed(k, observed) => Sees(s, w, k, observed)
    case _ => true
  }

  ghost predicate Sees(s: State, w: World, k: Token, observed: Image) {
    k in s.steps ==> s.steps[k].before.resource in w.images && w.images[s.steps[k].before.resource] == observed
  }

  lemma StillHasStep(s: State, t: State, w: World)
    requires OnlySteps(s, w)
    requires forall k :: k in s.steps ==> k in t.steps && t.steps[k].before == s.steps[k].before
    ensures OnlySteps(t, w)
  {
    forall r | r in w.writes && w.writes[r] != 0
      ensures HasStep(t, r)
    {
      assert HasStep(s, r);
      var k :| k in s.steps && s.steps[k].before.resource == r;
      assert k in t.steps;
    }
  }

  /** A resource that no step names has never been written. */
  lemma IntentFits(s: State, w: World, before: Image)
    requires OnlySteps(s, w) && WorldOk(w) && before.resource in w.images
    requires forall j :: j in s.steps ==> s.steps[j].before.resource != before.resource
    ensures w.writes[before.resource] == 0
  {
    assert w.writes[before.resource] != 0 ==> HasStep(s, before.resource);
  }

  lemma IntentConsistent(s: State, c: Session, e: Event, t: State, auth: Option<Auth>, owner: Token, w: World)
    requires e.Intent? && s.session == Some(c) && StepEvent(s, c, e) == Some(t)
    requires WorldOk(w) && Consistent(s, auth, owner, w) && Honest(s, w, e)
    ensures Consistent(t, auth, owner, w) && auth.None?
  {
    StillHasStep(s, t, w);
    IntentFits(s, w, e.before);
    assert auth.None?;
    forall k | k in t.steps
      ensures StepFits(t.steps[k], w)
    {
      if k != e.step { assert StepFits(s.steps[k], w); }
    }
  }

  lemma ConfirmedConsistent(s: State, c: Session, e: Event, t: State, auth: Option<Auth>, owner: Token, w: World)
    requires e.Confirmed? && s.session == Some(c) && StepEvent(s, c, e) == Some(t)
    requires OneUnknown(s) && PairedImages(s)
    requires WorldOk(w) && Consistent(s, auth, owner, w) && Honest(s, w, e)
    ensures Consistent(t, auth, owner, w)
  {
    StillHasStep(s, t, w);
    assert auth.None?;
    forall k | k in t.steps
      ensures StepFits(t.steps[k], w)
    {
      assert StepFits(s.steps[k], w);
    }
  }

  lemma ReconciledConsistent(s: State, c: Session, e: Event, t: State, auth: Option<Auth>, owner: Token, w: World)
    requires e.Reconciled? && s.session == Some(c) && StepEvent(s, c, e) == Some(t)
    requires WorldOk(w) && Consistent(s, auth, owner, w) && Honest(s, w, e)
    ensures Consistent(t, auth, owner, w)
  {
    StillHasStep(s, t, w);
    assert auth.None?;
    forall k | k in t.steps
      ensures StepFits(t.steps[k], w)
    {
      assert StepFits(s.steps[k], w);
    }
  }

  lemma ResumedConsistent(s: State, c: Session, e: Event, t: State, auth: Option<Auth>, owner: Token, w: World)
    requires e.Resumed? && s.session == Some(c) && StepEvent(s, c, e) == Some(t)
    requires WorldOk(w) && Consistent(s, auth, owner, w) && Honest(s, w, e)
    ensures Consistent(t, auth, owner, w) && auth.None?
  {
    StillHasStep(s, t, w);
    assert auth.None?;
    forall k | k in t.steps
      ensures StepFits(t.steps[k], w)
    {
      assert StepFits(s.steps[k], w);
    }
  }

  /** A truthful event keeps the agreement; if it authorises a write, no earlier authorisation was left unused. */
  lemma AdvanceConsistent(s: State, index: nat, e: Event, t: State, auth: Option<Auth>, owner: Token, w: World)
    requires index > 0 && Advance(s, index, e) == Some(t)
    requires OneUnknown(s) && PairedImages(s) && WorldOk(w)
    requires Consistent(s, auth, owner, w) && Honest(s, w, e)
    requires e.Opened? ==> e.session == owner
    ensures Consistent(t, auth, owner, w)
    ensures e.Intent? || e.Resumed? ==> auth.None?
  {
    AdvanceSteps(s, index, e, t);
    if IsStepEvent(e) {
      var c := s.session.value;
      hide Consistent, OneUnknown, PairedImages, WorldOk, Honest, StepEvent;
      match e {
        case Intent(_, _, _, _) => IntentConsistent(s, c, e, t, auth, owner, w);
        case Confirmed(_, _) => ConfirmedConsistent(s, c, e, t, auth, owner, w);
        case Reconciled(_, _) => ReconciledConsistent(s, c, e, t, auth, owner, w);
        case Resumed(_, _) => ResumedConsistent(s, c, e, t, auth, owner, w);
      }
    } else {
      hide WorldOk, OneUnknown, PairedImages, Honest;
      OtherConsistent(s, index, e, t, auth, owner, w);
    }
  }

  lemma OtherConsistent(s: State, index: nat, e: Event, t: State, auth: Option<Auth>, owner: Token, w: World)
    requires index > 0 && Advance(s, index, e) == Some(t) && !IsStepEvent(e) && t.steps == s.steps
    requires Consistent(s, auth, owner, w) && (e.Opened? ==> e.session == owner)
    ensures Consistent(t, auth, owner, w)
  {
    hide StepFits, HasStep, OnlySteps, StepEvent;
    StillHasStep(s, t, w);
  }

  /** The authorisation an accepted intent or resumption hands out fits the new state. */
  lemma GrantFits(s: State, index: nat, e: Event, t: State, owner: Token, w: World)
    requires index > 0 && Advance(s, index, e) == Some(t)
    requires Honest(s, w, e) && (e.Intent? || e.Resumed?)
    requires s.session.Some? && s.session.value.id == owner && owner in s.sessions
    ensures AuthFits(t, Some(Auth(e.step, if e.Intent? then e.before else e.observed)), owner, w)
  {
    AdvanceSteps(s, index, e, t);
  }

  /** The one write an authorisation allows takes the resource from its before image, once. */
  lemma WriteConsistent(s: State, auth: Auth, owner: Token, w: World, image: Image)
    requires Consistent(s, Some(auth), owner, w) && WorldOk(w) && DistinctResources(s) && PairedImages(s)
    requires image.resource == auth.before.resource
    ensures WorldOk(Written(w, auth.before, image))
    ensures Consistent(s, None, owner, Written(w, auth.before, image))
  {
    var v := Written(w, auth.before, image);
    var r := auth.before.resource;
    assert StepFits(s.steps[auth.step], w);
    assert w.writes[r] == 0;
    forall k | k in s.steps
      ensures StepFits(s.steps[k], v)
    {
      assert StepFits(s.steps[k], w);
    }
    forall q | q in v.writes && v.writes[q] != 0
      ensures HasStep(s, q)
    {
      if q != r { assert w.writes[q] != 0; }
    }
  }

  // ---- The invariant of a run ----

  /** At a publishing close every step was confirmed, and each of their resources was changed exactly once. */
  ghost predicate PublishedAt(s: State, w: World) {
    && s.steps != map[]
    && AllDone(s)
    && s.session.Some?
    && (s.session.value.mode == Reconcile ==> s.session.value.touched == s.steps.Keys)
    && forall k :: k in s.steps ==> s.steps[k].before.resource in w.writes && w.writes[s.steps[k].before.resource] == 1
  }

  ghost predicate PublishedOk(events: seq<Event>, w: World)
    requires Accepted(events)
  {
    forall i :: 0 <= i < |events| && events[i].Closed? && events[i].outcome == Publishing ==>
      PublishedAt(At(events, i), w)
  }

  ghost predicate FilesOk(f: Files, auth: Option<Auth>, owner: Token, w: World) {
    && (Whole(f) ==> Consistent(Journaled(f), auth, owner, w) && PublishedOk(EventsOf(f.journal.lines), w))
    && (f.journal.lines == [] ==> f.head.None? && auth.None? && forall r :: r in w.writes ==> w.writes[r] == 0)
  }

  ghost predicate AuthLive(auth: Option<Auth>, w: World) {
    auth.Some? ==>
      var r := auth.value.before.resource;
      r in w.images && r in w.writes && w.images[r] == auth.value.before && w.writes[r] == 0
  }

  ghost predicate MemoryOk(f: Files, p: Process) {
    && (p.mem.frames == [] ==> p.auth.None? && !p.mem.finishing)
    && (p.mem.frames != [] ==> f.journal.lines != [] && Accepted(EventsOf(p.mem.frames)))
    && (!p.mem.poisoned && p.mem.frames != [] ==> Readable(f, p.mem.binding) && f.journal.lines == p.mem.frames)
    && (!p.mem.poisoned && p.mem.frames == [] && Whole(f) ==> p.mem.session !in Journaled(f).sessions)
    && (p.mem.finishing ==> Finishable(p.mem))
    && (Own(p.mem) ==> StateOf(p.mem).session.value.mode == p.mem.mode && p.mem.session in StateOf(p.mem).sessions)
  }

  ghost function Owner(m: Machine): Token {
    if m.process.Some? then m.process.value.mem.session else ""
  }

  ghost function AuthOf(m: Machine): Option<Auth> {
    if m.process.Some? then m.process.value.auth else None
  }

  ghost predicate Invariant(m: Machine) {
    && WorldOk(m.world)
    && FilesOk(m.disk.files, AuthOf(m), Owner(m), m.world)
    && AuthLive(AuthOf(m), m.world)
    && (m.process.Some? ==> MemoryOk(m.disk.files, m.process.value))
  }

  // ---- One append ----

  lemma PublishedGrows(events: seq<Event>, e: Event, w: World)
    requires Accepted(events) && Accepted(events + [e]) && PublishedOk(events, w)
    requires e.Closed? && e.outcome == Publishing ==> PublishedAt(Replay(events).value, w)
    ensures PublishedOk(events + [e], w)
  {
    var grown := events + [e];
    hide PublishedAt;
    forall i | 0 <= i < |grown| && grown[i].Closed? && grown[i].outcome == Publishing
      ensures PublishedAt(At(grown, i), w)
    {
      assert grown[..|events|] == events;
      AtPrefix(grown, |events|, i);
      if i == |events| { Final(events); }
    }
  }

  /** A publishing close is only appended once `finish` has passed, when every step is confirmed. */
  lemma FinishablePublishes(m: Memory, auth: Option<Auth>, owner: Token, w: World)
    requires Finishable(m) && Consistent(StateOf(m), auth, owner, w) && WorldOk(w) && PairedImages(StateOf(m))
    requires StateOf(m).session.value.mode == m.mode
    ensures PublishedAt(StateOf(m), w)
  {
    var s := StateOf(m);
    forall k | k in s.steps
      ensures s.steps[k].before.resource in w.writes && w.writes[s.steps[k].before.resource] == 1
    {
      assert StepFits(s.steps[k], w);
    }
  }

  lemma HonestFromTruth(m: Memory, w: World, e: Event)
    requires Acceptable(m) && Truthful(m, w, e)
    ensures Honest(StateOf(m), w, e)
  {
  }

  /** The events of the journal, grown by a permitted and truthful event. */
  lemma GrownJournal(m: Memory, e: Event, auth: Option<Auth>, w: World)
    requires Acceptable(m) && MayAppend(m, e) && Truthful(m, w, e) && WorldOk(w)
    requires Accepted(EventsOf(m.frames) + [e])
    requires Consistent(StateOf(m), auth, m.session, w) && PublishedOk(EventsOf(m.frames), w)
    requires m.finishing ==> Finishable(m)
    requires Own(m) ==> StateOf(m).session.value.mode == m.mode && m.session in StateOf(m).sessions
    ensures var t := Replay(EventsOf(m.frames) + [e]).value;
            && Consistent(t, auth, m.session, w)
            && Advance(StateOf(m), |m.frames|, e) == Some(t)
            && (e.Intent? || e.Resumed? ==> auth.None?)
            && (e.Intent? || e.Resumed? ==>
                 AuthFits(t, Some(Auth(e.step, if e.Intent? then e.before else e.observed)), m.session, w))
    ensures PublishedOk(EventsOf(m.frames) + [e], w)
  {
    var events := EventsOf(m.frames);
    var s, t := StateOf(m), Replay(events + [e]).value;
    ReplayAppend(events, e);
    StepsWellFormed(events);
    HonestFromTruth(m, w, e);
    assert e.Opened? ==> e.session == m.session;
    assert e.Closed? && e.outcome == Publishing ==> m.finishing;
    assert IsStepEvent(e) ==> Own(m);
    hide Consistent, PublishedOk, Honest, Truthful, AuthFits;
    hide Advance, WorldOk, OneUnknown, PairedImages, DistinctResources, MayAppend;
    AdvanceConsistent(s, |events|, e, t, auth, m.session, w);
    if e.Intent? || e.Resumed? {
      GrantFits(s, |events|, e, t, m.session, w);
    }
    if e.Closed? && e.outcome == Publishing {
      FinishablePublishes(m, auth, m.session, w);
    }
    PublishedGrows(events, e, w);
  }

  lemma HeadBinding(f: Files, binding: Binding)
    requires Readable(f, binding)
    ensures Whole(f)
  {
  }

  /** Wherever an append to a loaded journal stops, the files still agree with the resources. */
  lemma LaterAppendFiles(f: Files, p: Process, e: Event, at: Stop, w: World)
    requires p.mem.frames != [] && Readable(f, p.mem.binding) && f.journal.lines == p.mem.frames
    requires Accepted(EventsOf(p.mem.frames) + [e])
    requires MemoryOk(f, p) && FilesOk(f, p.auth, p.mem.session, w) && WorldOk(w)
    requires MayAppend(p.mem, e) && Truthful(p.mem, w, e)
    ensures FilesOk(AppendFiles(f, p.mem.binding, e, at), p.auth, p.mem.session, w)
  {
    var g := AppendFiles(f, p.mem.binding, e, at);
    AppendCrash(f, p.mem.binding, e, at);
    HeadBinding(f, p.mem.binding);
    GrownJournal(p.mem, e, p.auth, w);
    hide Consistent, PublishedOk, MayAppend, Truthful, WorldOk, Finishable;
    if at == HeadReplaced {
      assert Whole(g) && Journaled(g) == Replay(EventsOf(p.mem.frames) + [e]).value;
    } else if Whole(g) {
      assert g.head == f.head;
    }
  }

  lemma CreatedOnly(e: Event)
    requires Accepted([e])
    ensures e.Created? && Replay([e]) == Some(Initial)
  {
    ReplayAppend([], e);
    assert [] + [e] == [e];
  }

  lemma NoPublishing(e: Event, w: World)
    requires e.Created? && Accepted([e])
    ensures PublishedOk([e], w)
  {
  }

  lemma FirstAppendFiles(f: Files, p: Process, e: Event, at: Stop, w: World)
    requires p.mem.frames == [] && f == Files(Journal([], false), None)
    requires Accepted(EventsOf(p.mem.frames) + [e])
    requires MemoryOk(f, p) && FilesOk(f, p.auth, p.mem.session, w) && WorldOk(w)
    requires MayAppend(p.mem, e)
    ensures FilesOk(AppendFiles(f, p.mem.binding, e, at), p.auth, p.mem.session, w)
    ensures at == HeadReplaced ==> Readable(AppendFiles(f, p.mem.binding, e, at), p.mem.binding)
    ensures at == HeadReplaced ==> Journaled(AppendFiles(f, p.mem.binding, e, at)) == Initial
  {
    var g := AppendFiles(f, p.mem.binding, e, at);
    assert EventsOf(p.mem.frames) + [e] == [e];
    CreatedOnly(e);
    NoPublishing(e, w);
    FirstAppendCrash(p.mem.binding, at);
    if at == HeadReplaced {
      assert Whole(g) && EventsOf(g.journal.lines) == [e];
    }
    assert at != HeadReplaced ==> g.head.None?;
  }

  lemma AppendFilesOk(f: Files, p: Process, e: Event, at: Stop, w: World)
    requires Accepted(EventsOf(p.mem.frames) + [e])
    requires p.mem.frames != [] ==> Readable(f, p.mem.binding) && f.journal.lines == p.mem.frames
    requires p.mem.frames == [] && f.journal != Journal([], false) ==> at == BeforeLine
    requires MemoryOk(f, p) && FilesOk(f, p.auth, p.mem.session, w) && WorldOk(w)
    requires MayAppend(p.mem, e) && Truthful(p.mem, w, e)
    ensures FilesOk(AppendFiles(f, p.mem.binding, e, at), p.auth, p.mem.session, w)
  {
    if p.mem.frames != [] {
      LaterAppendFiles(f, p, e, at, w);
    } else if f.journal == Journal([], false) {
      FirstAppendFiles(f, p, e, at, w);
    }
  }

  /** A completed append keeps what the object in memory relies on. */
  lemma CompletedMemory(l: Ledger, auth: Option<Auth>, granted: Option<Auth>, e: Event, w: World)
    requires !l.mem.poisoned && Accepted(EventsOf(l.mem.frames) + [e])
    requires l.mem.frames != [] ==> Readable(l.disk.files, l.mem.binding) && l.disk.files.journal.lines == l.mem.frames
    requires l.mem.frames == [] ==> l.disk.files == Files(Journal([], false), None)
    requires MemoryOk(l.disk.files, Process(l.mem, auth)) && FilesOk(l.disk.files, auth, l.mem.session, w) && WorldOk(w)
    requires MayAppend(l.mem, e) && Truthful(l.mem, w, e)
    ensures var t := Completed(l, e); MemoryOk(t.disk.files, Process(t.mem, granted))
  {
    var t := Completed(l, e);
    if l.mem.frames != [] {
      AppendCrash(l.disk.files, l.mem.binding, e, HeadReplaced);
      NextIsLinked(l.mem.frames, e);
      HeadBinding(l.disk.files, l.mem.binding);
      GrownJournal(l.mem, e, auth, w);
      AdvanceOwn(l.mem, e, StateOf(t.mem));
    } else {
      FirstAppendFiles(l.disk.files, Process(l.mem, auth), e, HeadReplaced, w);
      assert EventsOf(l.mem.frames) + [e] == [e];
      CreatedOnly(e);
      NextIsLinked([], e);
      assert StateOf(t.mem) == Initial;
    }
  }

  /** Ownership of the session, its mode, and a passed `finish` survive one more event. */
  lemma AdvanceOwn(m: Memory, e: Event, t: State)
    requires Acceptable(m) && MayAppend(m, e)
    requires Advance(StateOf(m), |m.frames|, e) == Some(t)
    requires Own(m) ==> StateOf(m).session.value.mode == m.mode && m.session in StateOf(m).sessions
    requires m.finishing ==> Finishable(m)
    ensures t.session.Some? && t.session.value.id == m.session ==>
      t.session.value.mode == m.mode && m.session in t.sessions
    ensures m.finishing ==>
      && t.steps == StateOf(m).steps && t.session.Some? && t.session.value.id == m.session
      && t.session.value.touched == StateOf(m).session.value.touched
  {
    AdvanceSteps(StateOf(m), |m.frames|, e, t);
  }

  // ---- Every move keeps the invariant ----

  lemma RefusedAppendKeeps(m: Machine, a: Action, n: Machine)
    requires a.Append? && Invariant(m) && Next(m, Act(a), n)
    requires var l := Ledger(m.disk, m.process.value.mem); l.mem.poisoned || !AppendChecks(l, a.event, a.fits)
    ensures Invariant(n)
  {
    hide WorldOk, FilesOk, AuthLive, MayAppend, Truthful, Readable, AppendChecks, StoppedBy, Completed;
    var p, q := m.process.value, n.process.value;
    assert q.auth == p.auth && n.disk == m.disk && n.world == m.world;
    assert q.mem == p.mem.(poisoned := true) || q.mem == p.mem;
  }

  lemma AppendKeeps(m: Machine, a: Action, n: Machine)
    requires a.Append? && Invariant(m) && Next(m, Act(a), n)
    ensures Invariant(n)
  {
    hide Invariant, MayAppend, Truthful, AppendChecks, StoppedBy, Completed, DoAppend;
    var l := Ledger(m.disk, m.process.value.mem);
    if l.mem.poisoned || !AppendChecks(l, a.event, a.fits) {
      RefusedAppendKeeps(m, a, n);
    } else if StoppedBy(l, a.stop).Some? {
      StoppedAppendKeeps(m, a, n);
    } else {
      CompletedAppendKeeps(m, a, n);
    }
  }

  lemma StoppedAppendKeeps(m: Machine, a: Action, n: Machine)
    requires a.Append? && Invariant(m) && Next(m, Act(a), n)
    requires var l := Ledger(m.disk, m.process.value.mem);
             !l.mem.poisoned && AppendChecks(l, a.event, a.fits) && StoppedBy(l, a.stop).Some?
    ensures Invariant(n)
  {
    var p := m.process.value;
    var l := Ledger(m.disk, p.mem);
    var at := StoppedBy(l, a.stop).value;
    AppendFilesOk(m.disk.files, p, a.event, at, m.world);
    hide WorldOk, Consistent, PublishedOk, MayAppend, Truthful, Readable, FilesOk;
    assert n.process.value == Process(p.mem.(poisoned := true), p.auth);
    assert p.mem.frames != [] ==> AppendFiles(m.disk.files, p.mem.binding, a.event, at).journal.lines != [];
    assert MemoryOk(n.disk.files, n.process.value);
  }

  lemma CompletedAppendKeeps(m: Machine, a: Action, n: Machine)
    requires a.Append? && Invariant(m) && Next(m, Act(a), n)
    requires AppendSucceeds(Ledger(m.disk, m.process.value.mem), a.event, a.stop, a.fits)
    ensures Invariant(n)
  {
    var p := m.process.value;
    var l := Ledger(m.disk, p.mem);
    AppendFilesOk(m.disk.files, p, a.event, HeadReplaced, m.world);
    assert l.mem.frames == [] ==> l.disk.files == Files(Journal([], false), None);
    CompletedMemory(l, p.auth, Granted(l, a, p.auth), a.event, m.world);
    if a.event.Intent? || a.event.Resumed? {
      GrantedOk(m, a);
    }
    hide Consistent, PublishedOk, MayAppend, Readable, FilesOk, MemoryOk, AuthLive, AppendChecks;
  }

  /** A granted authorisation is live and fits the grown journal. */
  lemma GrantedOk(m: Machine, a: Action)
    requires a.Append? && (a.event.Intent? || a.event.Resumed?) && Invariant(m) && m.process.Some?
    requires var p := m.process.value; var l := Ledger(m.disk, p.mem);
             && MayAppend(p.mem, a.event) && Truthful(p.mem, m.world, a.event)
             && AppendSucceeds(l, a.event, a.stop, a.fits)
    ensures var p := m.process.value; var l := Ledger(m.disk, p.mem); var t := Completed(l, a.event);
            && AuthLive(Granted(l, a, p.auth), m.world)
            && FilesOk(t.disk.files, Granted(l, a, p.auth), p.mem.session, m.world)
  {
    var p := m.process.value;
    var l := Ledger(m.disk, p.mem);
    var t := Completed(l, a.event);
    var e := a.event;
    GrownFiles(l, e);
    GrownJournal(p.mem, e, p.auth, m.world);
    var s := Journaled(t.disk.files);
    FitsIsLive(s, Auth(e.step, if e.Intent? then e.before else e.observed), p.mem.session, m.world);
    hide Readable, Replay, Consistent, StepFits, Completed, AuthFits, AuthLive;
  }

  lemma GrownFiles(l: Ledger, e: Event)
    requires Readable(l.disk.files, l.mem.binding) && l.disk.files.journal.lines == l.mem.frames
    requires Accepted(EventsOf(l.mem.frames) + [e])
    ensures var f := Completed(l, e).disk.files;
            && Whole(f) && EventsOf(f.journal.lines) == EventsOf(l.mem.frames) + [e]
            && Journaled(f) == Replay(EventsOf(l.mem.frames) + [e]).value
  {
    hide Replay, Accepted;
    AppendCrash(l.disk.files, l.mem.binding, e, HeadReplaced);
    HeadBinding(Completed(l, e).disk.files, l.mem.binding);
  }

  /** The resource an authorisation is for has not been changed yet. */
  lemma FitsIsLive(s: State, auth: Auth, owner: Token, w: World)
    requires Consistent(s, None, owner, w) && AuthFits(s, Some(auth), owner, w)
    ensures AuthLive(Some(auth), w) && Consistent(s, Some(auth), owner, w)
  {
    hide OnlySteps;
    assert StepFits(s.steps[auth.step], w);
  }

  lemma LoadKeeps(m: Machine, n: Machine)
    requires Invariant(m) && Next(m, Act(Load), n)
    ensures Invariant(n)
  {
    hide WorldOk, Consistent, PublishedOk, Readable;
    var p := m.process.value;
    var q := n.process.value;
    HeadBinding(m.disk.files, p.mem.binding);
    LoadedNonEmpty(m.disk.files, p.mem.binding);
    OwnIsKnown(EventsOf(m.disk.files.journal.lines));
    assert StateOf(q.mem) == Journaled(m.disk.files);
  }

  lemma OtherActionKeeps(m: Machine, a: Action, n: Machine)
    requires !a.Append? && Invariant(m) && Next(m, Act(a), n)
    ensures Invariant(n)
  {
    hide WorldOk, Consistent, PublishedOk, Readable, Accepted, Replay;
    match a {
      case Load => LoadKeeps(m, n);
      case MakeRoot =>
      case TakeLock(_) =>
      case DropLock =>
      case SetFinishing => assert Finishable(n.process.value.mem);
      case WriteReceipt =>
      case KeepReceipt =>
      case GiveUp =>
    }
  }

  lemma LoadedNonEmpty(f: Files, binding: Binding)
    requires Readable(f, binding)
    ensures f.journal.lines != [] && Accepted(EventsOf(f.journal.lines))
  {
  }

  /** The session of a state is one of its sessions. */
  lemma {:induction false} OwnIsKnown(events: seq<Event>)
    requires Accepted(events)
    ensures var s := Replay(events).value; s.session.Some? ==> s.session.value.id in s.sessions
  {
    if events != [] {
      ReplayPrefix(events, |events| - 1);
      OwnIsKnown(events[..|events| - 1]);
    }
  }

  /** A write to a resource that was never changed disturbs no publishing close. */
  lemma PublishedStays(events: seq<Event>, before: Image, w: World, image: Image)
    requires Accepted(events) && PublishedOk(events, w)
    requires before.resource in w.writes && w.writes[before.resource] == 0
    ensures PublishedOk(events, Written(w, before, image))
  {
    hide At, AllDone, Accepted;
    forall i | 0 <= i < |events| && events[i].Closed? && events[i].outcome == Publishing
      ensures PublishedAt(At(events, i), Written(w, before, image))
    {
      assert PublishedAt(At(events, i), w);
    }
  }

  lemma WriteFiles(f: Files, auth: Auth, owner: Token, w: World, image: Image)
    requires FilesOk(f, Some(auth), owner, w) && AuthLive(Some(auth), w) && WorldOk(w)
    requires image.resource == auth.before.resource
    ensures WorldOk(Written(w, auth.before, image)) && FilesOk(f, None, owner, Written(w, auth.before, image))
  {
    hide Consistent, PublishedOk;
    if Whole(f) {
      var events := EventsOf(f.journal.lines);
      StepsWellFormed(events);
      WriteConsistent(Journaled(f), auth, owner, w, image);
      PublishedStays(events, auth.before, w, image);
    } else {
      WriteWorld(auth, w, image);
    }
  }

  lemma WriteWorld(auth: Auth, w: World, image: Image)
    requires AuthLive(Some(auth), w) && WorldOk(w) && image.resource == auth.before.resource
    ensures WorldOk(Written(w, auth.before, image))
  {
  }

  lemma WriteKeeps(m: Machine, image: Image, n: Machine)
    requires Invariant(m) && Next(m, Write(image), n)
    ensures Invariant(n)
  {
    hide FilesOk, WorldOk, Whole, Readable, Own, Finishable, Accepted, Journaled, StateOf;
    var auth := m.process.value.auth.value;
    WriteFiles(m.disk.files, auth, Owner(m), m.world, image);
  }

  /** Without the process its unused authorisation is gone: no write takes effect after its session. */
  lemma LeavingKeeps(m: Machine, move: Move, n: Machine)
    requires move.Start? || move.Gone? || move.Reclaim?
    requires Invariant(m) && Next(m, move, n)
    ensures Invariant(n)
  {
    hide WorldOk, PublishedOk;
  }

  lemma NextKeeps(m: Machine, move: Move, n: Machine)
    requires Invariant(m) && Next(m, move, n)
    ensures Invariant(n)
  {
    hide Invariant, Next;
    match move {
      case Act(a) => if a.Append? { AppendKeeps(m, a, n); } else { OtherActionKeeps(m, a, n); }
      case Write(image) => WriteKeeps(m, image, n);
      case _ => LeavingKeeps(m, move, n);
    }
  }

  // ---- Whole runs ----

  ghost predicate Run(machines: seq<Machine>, moves: seq<Move>) {
    && |machines| == |moves| + 1
    && Init(machines[0])
    && forall i :: 0 <= i < |moves| ==> Next(machines[i], moves[i], machines[i + 1])
  }

  lemma {:induction false} RunInvariant(machines: seq<Machine>, moves: seq<Move>, i: nat)
    requires Run(machines, moves) && i < |machines|
    ensures Invariant(machines[i])
  {
    if i > 0 {
      RunInvariant(machines, moves, i - 1);
      NextKeeps(machines[i - 1], moves[i - 1], machines[i]);
    }
  }

  /** In every reachable state, crashes anywhere, each resource was changed at most once. */
  lemma AtMostOneEffect(machines: seq<Machine>, moves: seq<Move>, i: nat, r: Token)
    requires Run(machines, moves) && i < |machines| && r in machines[i].world.writes
    ensures machines[i].world.writes[r] <= 1
  {
    RunInvariant(machines, moves, i);
  }

  /** A publishing close in a whole journal means each step's resource was changed exactly once and looks as planned. */
  lemma PublishedExactlyOnce(machines: seq<Machine>, moves: seq<Move>, i: nat, c: nat, k: Token)
    requires Run(machines, moves) && i < |machines| && Whole(machines[i].disk.files)
    requires var events := EventsOf(machines[i].disk.files.journal.lines);
             && c < |events| && events[c].Closed? && events[c].outcome == Publishing
             && k in At(events, c).steps
    ensures var s := At(EventsOf(machines[i].disk.files.journal.lines), c); var w := machines[i].world;
            && AllDone(s)
            && s.steps[k].before.resource in w.writes
            && w.writes[s.steps[k].before.resource] == 1
            && (s.session.Some? && s.session.value.mode == Reconcile ==> s.session.value.touched == s.steps.Keys)
  {
    RunInvariant(machines, moves, i);
    var events := EventsOf(machines[i].disk.files.journal.lines);
    assert PublishedAt(At(events, c), machines[i].world);
  }

  /** A publishing close never covers an empty set of steps. */
  lemma PublishedNonEmpty(machines: seq<Machine>, moves: seq<Move>, i: nat, c: nat)
    requires Run(machines, moves) && i < |machines| && Whole(machines[i].disk.files)
    requires var events := EventsOf(machines[i].disk.files.journal.lines);
             c < |events| && events[c].Closed? && events[c].outcome == Publishing
    ensures At(EventsOf(machines[i].disk.files.journal.lines), c).steps != map[]
  {
    RunInvariant(machines, moves, i);
    var events := EventsOf(machines[i].disk.files.journal.lines);
    assert PublishedAt(At(events, c), machines[i].world);
  }

  /** Whatever the journal calls confirmed or untouched is what the resource looks like now. */
  lemma PhasesAreTrue(machines: seq<Machine>, moves: seq<Move>, i: nat, k: Token)
    requires Run(machines, moves) && i < |machines| && Whole(machines[i].disk.files)
    requires k in Journaled(machines[i].disk.files).steps
    ensures var step := Journaled(machines[i].disk.files).steps[k]; var w := machines[i].world; var r := step.before.resource;
            && r in w.images && r in w.writes
            && (step.phase == Done ==> w.images[r] == step.after && w.writes[r] == 1)
            && (step.phase == Before ==> w.images[r] == step.before && w.writes[r] == 0)
  {
    RunInvariant(machines, moves, i);
    StepsWellFormed(EventsOf(machines[i].disk.files.journal.lines));
    assert StepFits(Journaled(machines[i].disk.files).steps[k], machines[i].world);
  }
}
