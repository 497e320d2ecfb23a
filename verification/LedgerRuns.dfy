/** Every run of ledger processes over one directory and the resources it guards, with crashes anywhere. */
module LedgerRuns {
  import opened Options
  import opened LedgerEvents
  import opened LedgerHistory
  import opened LedgerFiles

  datatype Receipt = Receipt(binding: Binding, session: Token, journal: Digest, steps: nat, completedAt: Option<Instant>)

  /** The ledger directory. `lock` is the inode of `clone.lock`. */
  datatype Disk = Disk(made: bool, files: Files, lock: Option<nat>, receipts: map<Token, Receipt>)

  /** The fields of one `CloneLedger` object. */
  datatype Memory = Memory(
    binding: Binding, create: bool, mode: Mode, session: Token,
    frames: seq<Frame>, active: bool, lockId: nat, poisoned: bool, finishing: bool, receipt: Option<Receipt>)

  datatype Ledger = Ledger(disk: Disk, mem: Memory)

  /** Atomic effects. `stop` is where an append was interrupted, if it was; `fits` is the size check. */
  datatype Action =
    | MakeRoot
    | TakeLock(id: nat)
    | Load
    | Append(event: Event, stop: Option<Stop>, fits: bool)
    | DropLock
    | SetFinishing
    | WriteReceipt
    | KeepReceipt
    | GiveUp

  // ---- What each effect does ----

  ghost predicate AppendChecks(l: Ledger, e: Event, fits: bool) {
    && l.mem.active
    && l.disk.lock == Some(l.mem.lockId)
    && (l.mem.frames != [] ==> Readable(l.disk.files, l.mem.binding) && l.disk.files.journal.lines == l.mem.frames)
    && Accepted(EventsOf(l.mem.frames) + [e])
    && fits
  }

  /** The first append creates both files exclusively, so leftovers stop it. */
  function StoppedBy(l: Ledger, stop: Option<Stop>): Option<Stop> {
    if l.mem.frames != [] then stop
    else if l.disk.files.journal != Journal([], false) then Some(BeforeLine)
    else if l.disk.files.head.Some? && (stop.None? || stop.value == HeadReplaced) then Some(LineOnly)
    else stop
  }

  function Completed(l: Ledger, e: Event): Ledger {
    Ledger(l.disk.(files := AppendFiles(l.disk.files, l.mem.binding, e, HeadReplaced)),
           l.mem.(frames := l.mem.frames + [NextFrame(l.mem.frames, e)]))
  }

  function Poison(l: Ledger): Ledger {
    l.(mem := l.mem.(poisoned := true))
  }

  ghost function DoAppend(l: Ledger, e: Event, stop: Option<Stop>, fits: bool): Ledger {
    if l.mem.poisoned then l
    else if !AppendChecks(l, e, fits) then Poison(l)
    else match StoppedBy(l, stop)
      case None => Completed(l, e)
      case Some(at) => Poison(l.(disk := l.disk.(files := AppendFiles(l.disk.files, l.mem.binding, e, at))))
  }

  /** The append went through: the caller may act on it. */
  ghost predicate AppendSucceeds(l: Ledger, e: Event, stop: Option<Stop>, fits: bool) {
    !l.mem.poisoned && AppendChecks(l, e, fits) && StoppedBy(l, stop).None?
  }

  ghost predicate Acceptable(m: Memory) {
    m.frames != [] && Accepted(EventsOf(m.frames))
  }

  ghost function StateOf(m: Memory): State
    requires Acceptable(m)
  {
    Replay(EventsOf(m.frames)).value
  }

  ghost function Completion(m: Memory): Receipt
    requires Acceptable(m)
  {
    var s := StateOf(m);
    Receipt(m.binding, if s.session.Some? then s.session.value.id else "",
            m.frames[|m.frames| - 1].sha, |s.steps|,
            if s.session.Some? then s.session.value.completedAt else None)
  }

  ghost function Do(l: Ledger, a: Action): Ledger {
    match a
    case MakeRoot => l.(disk := l.disk.(made := true))
    case TakeLock(id) => Ledger(l.disk.(lock := Some(id)), l.mem.(active := true, lockId := id))
    case Load => l.(mem := l.mem.(frames := l.disk.files.journal.lines))
    case Append(e, stop, fits) => DoAppend(l, e, stop, fits)
    case DropLock => Ledger(l.disk.(lock := None), l.mem.(active := false))
    case SetFinishing => l.(mem := l.mem.(finishing := true))
    case WriteReceipt =>
      if Acceptable(l.mem) then
        l.(disk := l.disk.(receipts := l.disk.receipts[l.mem.session := Completion(l.mem)]))
      else l
    case KeepReceipt =>
      if Acceptable(l.mem) then l.(mem := l.mem.(receipt := Some(Completion(l.mem)))) else l
    case GiveUp => Poison(l)
  }

  // ---- What the class lets happen ----

  ghost predicate AllDone(s: State) {
    forall k :: k in s.steps ==> s.steps[k].phase == Done
  }

  /** The last session of the journal is this object's own. */
  ghost predicate Own(m: Memory) {
    Acceptable(m) && StateOf(m).session.Some? && StateOf(m).session.value.id == m.session
  }

  /** The test of `finish`. */
  ghost predicate Finishable(m: Memory) {
    && Own(m)
    && StateOf(m).steps != map[]
    && AllDone(StateOf(m))
    && (m.mode == Reconcile ==> StateOf(m).session.value.touched == StateOf(m).steps.Keys)
  }

  ghost predicate MayAppend(m: Memory, e: Event) {
    match e
    case Created(b) => m.create && m.frames == [] && b == m.binding
    case Opened(session, mode) =>
      && session == m.session && mode == m.mode && Acceptable(m) && !m.finishing
      && (mode != Reconcile ==> forall k :: k in StateOf(m).steps ==>
           !StateOf(m).steps[k].phase.Unknown? && !StateOf(m).steps[k].phase.Mismatch?)
    case Closed(outcome, _) => Own(m) && (outcome == Publishing ==> m.finishing)
    case Fault(_) => Acceptable(m)
    case Malformed => true
    case _ => Own(m) && !m.finishing
  }

  ghost predicate Permitted(l: Ledger, a: Action) {
    match a
    case MakeRoot => l.mem.create && !l.disk.made
    case TakeLock(_) => l.disk.made && l.disk.lock.None? && !l.mem.active
    case Load => !l.mem.create && !l.mem.poisoned && l.mem.frames == [] && Readable(l.disk.files, l.mem.binding)
    case Append(e, _, _) => MayAppend(l.mem, e)
    case DropLock => l.mem.active && l.disk.lock == Some(l.mem.lockId)
    case SetFinishing => l.mem.active && !l.mem.poisoned && !l.mem.finishing && Finishable(l.mem)
    case WriteReceipt =>
      && l.mem.finishing && !l.mem.poisoned && Own(l.mem)
      && l.disk.lock.None? && Readable(l.disk.files, l.mem.binding) && l.disk.files.journal.lines == l.mem.frames
      && l.mem.session !in l.disk.receipts
    case KeepReceipt =>
      && l.mem.finishing && !l.mem.poisoned && Own(l.mem)
      && l.disk.lock.None? && Readable(l.disk.files, l.mem.binding) && l.disk.files.journal.lines == l.mem.frames
    case GiveUp => true
  }

  // ---- Processes, resources, crashes ----

  /** Current image of every resource, and how many writes have changed it. */
  datatype World = World(images: map<Token, Image>, writes: map<Token, nat>)

  /** An authorisation not yet used: the step and the image it was granted on. */
  datatype Auth = Auth(step: Token, before: Image)

  datatype Process = Process(mem: Memory, auth: Option<Auth>)

  datatype Machine = Machine(disk: Disk, process: Option<Process>, world: World)

  /** Observations that the caller records are the resource's current image. */
  ghost predicate Truthful(m: Memory, w: World, e: Event) {
    match e
    case Intent(_, before, _, _) => before.resource in w.images && w.images[before.resource] == before
    case Confirmed(k, observed) => Observes(m, w, k, observed)
    case Reconciled(k, observed) => Observes(m, w, k, observed)
    case Resumed(k, observed) => Observes(m, w, k, observed)
    case _ => true
  }

  ghost predicate Observes(m: Memory, w: World, k: Token, observed: Image) {
    Acceptable(m) && k in StateOf(m).steps ==>
      var r := StateOf(m).steps[k].before.resource;
      r in w.images && w.images[r] == observed
  }

  ghost function Granted(l: Ledger, a: Action, auth: Option<Auth>): Option<Auth> {
    if a.Append? && AppendSucceeds(l, a.event, a.stop, a.fits) then
      match a.event
      case Intent(k, before, _, _) => Some(Auth(k, before))
      case Resumed(k, observed) => Some(Auth(k, observed))
      case _ => auth
    else auth
  }

  function Written(w: World, before: Image, image: Image): World
    requires before.resource in w.writes
  {
    var r := before.resource;
    World(w.images[r := image], w.writes[r := w.writes[r] + if image == before then 0 else 1])
  }

  ghost predicate Whole(f: Files) {
    f.head.Some? && Readable(f, f.head.value.binding)
  }

  ghost function Journaled(f: Files): State
    requires Whole(f)
  {
    Replay(EventsOf(f.journal.lines)).value
  }

  ghost predicate FreshObject(disk: Disk, m: Memory) {
    && m.frames == [] && !m.active && !m.poisoned && !m.finishing && m.receipt.None?
    && (m.create ==> m.mode == LedgerEvents.Apply)
    && (Whole(disk.files) ==> m.session !in Journaled(disk.files).sessions)
  }

  datatype Move =
    | Start(mem: Memory)
    | Act(action: Action)
    | Write(image: Image)
    | Gone
    | Reclaim

  ghost predicate Next(m: Machine, move: Move, n: Machine) {
    match move
    case Start(mem) =>
      m.process.None? && FreshObject(m.disk, mem) && n == m.(process := Some(Process(mem, None)))
    case Act(a) =>
      && m.process.Some?
      && var p := m.process.value; var l := Ledger(m.disk, p.mem); var t := Do(l, a);
         && Permitted(l, a)
         && (a.Append? ==> Truthful(p.mem, m.world, a.event))
         && n == Machine(t.disk, Some(Process(t.mem, Granted(l, a, p.auth))), m.world)
    case Write(image) =>
      && m.process.Some? && m.process.value.auth.Some?
      && var before := m.process.value.auth.value.before;
         && image.resource == before.resource && before.resource in m.world.writes
         && n == Machine(m.disk, Some(m.process.value.(auth := None)), Written(m.world, before, image))
    case Gone => m.process.Some? && n == m.(process := None)
    case Reclaim => m.process.None? && n == m.(disk := m.disk.(lock := None))
  }

  ghost predicate Init(m: Machine) {
    && m.disk == Disk(false, Files(Journal([], false), None), None, map[])
    && m.process.None?
    && m.world.images.Keys == m.world.writes.Keys
    && forall r :: r in m.world.images ==> m.world.images[r].resource == r && m.world.writes[r] == 0
  }
}
