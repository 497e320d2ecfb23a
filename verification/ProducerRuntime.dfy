/** The controller that writes the history: tools/python/devex_clone_runtime.py, lines 86-175. */
module ProducerRuntime {
  import opened Options
  import opened ProducerHistory

  /**
   * The runtime directory and the processes of the machine. `logs` are the log files that were created, `large` those that
   * outgrew what the validator reads; `tokens` and `clock` make tokens fresh and time non-decreasing.
   *
   * The other fields say what happened to the starts and stops: `spawned` are all processes ever created, `unanswered` the
   * tokens whose intent has neither a start nor a failure on record, `unlogged` the logs that an intent names and nobody
   * created, `lost` the processes whose role receipt was written but whose start was not recorded, and `stray` those of
   * them whose end was recorded.
   */
  datatype Site = Site(
    events: seq<Event>, receipts: map<Role, Identity>, logs: set<Log>, large: set<Log>, live: set<Identity>,
    tokens: nat, clock: int,
    spawned: set<Identity>, unanswered: set<Token>, unlogged: set<Log>, lost: set<Identity>, stray: set<Identity>)

  // ---- What every reachable site satisfies ----

  ghost predicate StartedBefore(events: seq<Event>, n: nat, i: Identity) {
    exists m: nat :: m < n && m < |events| && events[m].kind.Started? && events[m].kind.identity == i
  }

  /** Every process that a log closes was started by it. */
  ghost predicate Known(events: seq<Event>) {
    forall n: nat :: n < |events| && Closing(events[n]) ==> StartedBefore(events, n, events[n].kind.identity)
  }

  /** Every process that a log closes was started by it or is one of these. */
  ghost predicate KnownBut(events: seq<Event>, stray: set<Identity>) {
    forall n: nat :: n < |events| && Closing(events[n]) ==>
      StartedBefore(events, n, events[n].kind.identity) || events[n].kind.identity in stray
  }

  predicate Mentions(e: Event, i: Identity) {
    (e.kind.Started? || Closing(e)) && e.kind.identity == i
  }

  ghost predicate Processes(v: Site) {
    && v.live <= v.spawned
    && (forall i :: i in v.spawned ==> i.started > 0 && i.pid > 1)
    && (forall i, j :: i in v.spawned && j in v.spawned && KeyOf(i) == KeyOf(j) ==> i == j)
    && (forall n, i :: 0 <= n < |v.events| && Mentions(v.events[n], i) ==> i in v.spawned)
  }

  predicate Receipts(c: Contract, v: Site) {
    && (forall role :: role in v.receipts ==>
         v.receipts[role] in v.spawned && v.receipts[role].executable == Executable(c, role))
    && (Api in v.receipts && Worker in v.receipts ==> v.receipts[Api] != v.receipts[Worker])
    && (forall role :: role in v.receipts ==>
         v.receipts[role] in v.lost || LastStarted(v.events, role) == Some(v.receipts[role]))
    && (forall role :: LastStarted(v.events, role).Some? ==> role in v.receipts)
  }

  predicate Fits(v: Site, s: Scanned) {
    && s.time <= v.clock
    && (forall t :: t in s.intents ==> t < v.tokens)
    && (forall t :: t in s.intents && s.intents[t].started.Some? ==> s.intents[t].started.value !in v.lost)
    && (forall t :: t in s.intents && s.intents[t].started.Some? && s.intents[t].closed ==>
         s.intents[t].started.value !in v.live)
    && (forall t, role :: t in s.intents && role in v.receipts && s.intents[t].started == Some(v.receipts[role]) ==>
         s.intents[t].role == role)
  }

  ghost predicate Scans(c: Contract, v: Site) {
    Known(v.events) ==> Scan(c, v.events).Some? && Fits(v, Scan(c, v.events).value)
  }

  // ---- The bookkeeping of starts and stops ----

  /** Event `m` starts or fails the token. */
  predicate Answers(events: seq<Event>, m: nat, t: Token) {
    m < |events| && (events[m].kind.Started? || events[m].kind.StartFailed?) && events[m].kind.token == t
  }

  ghost predicate HasAnswer(events: seq<Event>, t: Token) {
    exists m :: Answers(events, m, t)
  }

  predicate NamesLog(events: seq<Event>, n: nat, l: Log) {
    n < |events| && events[n].kind.StartIntent? && events[n].kind.log == l
  }

  ghost predicate HasLog(events: seq<Event>, l: Log) {
    exists n :: NamesLog(events, n, l)
  }

  predicate EndsAt(events: seq<Event>, n: nat, i: Identity) {
    n < |events| && Closing(events[n]) && events[n].kind.identity == i
  }

  ghost predicate HasEnd(events: seq<Event>, i: Identity) {
    exists n :: EndsAt(events, n, i)
  }

  /** An event's token was drawn before, and its log name follows from its role and token. */
  predicate Drawn(e: Event, tokens: nat) {
    && (e.kind.StartIntent? ==> e.kind.token < tokens && e.kind.log == Log(e.role, e.kind.token))
    && (e.kind.Started? || e.kind.StartFailed? ==> e.kind.token < tokens)
  }

  ghost predicate Tokens(v: Site) {
    && (forall n :: 0 <= n < |v.events| ==> Drawn(v.events[n], v.tokens))
    && (forall t :: t in v.unanswered <==> HasIntent(v.events, t) && !HasAnswer(v.events, t))
  }

  ghost predicate Logs(v: Site) {
    && (forall l :: l in v.unlogged <==> HasLog(v.events, l) && l !in v.logs)
    && (forall l :: l in v.logs ==> HasLog(v.events, l))
    && v.large <= v.logs
  }

  ghost predicate Losses(v: Site) {
    && v.lost <= v.spawned && v.stray <= v.lost
    && (forall i :: i in v.lost ==> !StartedBefore(v.events, |v.events|, i))
    && (forall i :: i in v.stray ==> HasEnd(v.events, i))
    && KnownBut(v.events, v.stray)
  }

  ghost predicate Books(v: Site) {
    Tokens(v) && Logs(v) && Losses(v)
  }

  ghost predicate Sound(c: Contract, v: Site) {
    v.clock > 0 && Processes(v) && Receipts(c, v) && Books(v) && Scans(c, v)
  }

  // ---- Where one start stands ----

  ghost predicate Pending(c: Contract, v: Site, role: Role, t: Token, started: Option<Identity>) {
    Known(v.events) && Scan(c, v.events).Some? ==>
      t in Scan(c, v.events).value.intents && Scan(c, v.events).value.intents[t] == Intent(role, started, false, false)
  }

  /** The process may be ended, and the event saying so will be accepted if its start was recorded. */
  ghost predicate Stoppable(c: Contract, v: Site, role: Role, i: Identity) {
    && i in v.spawned && IdentityOk(c, role, i)
    && (StartedBefore(v.events, |v.events|, i) || i in v.lost)
    && (Known(v.events) && Scan(c, v.events).Some? && KeyOf(i) in Scan(c, v.events).value.identities ==>
          Closable(c, Scan(c, v.events).value, role, i))
  }

  /** Everything stoppable in `v`, except `i`, still is in `w`. */
  ghost predicate Frame(c: Contract, v: Site, w: Site, except: set<Identity>) {
    forall role, i {:trigger Stoppable(c, w, role, i)} :: Stoppable(c, v, role, i) && i !in except ==>
      Stoppable(c, w, role, i)
  }

  function Appended(v: Site, role: Role, kind: Kind): Site {
    var w := v.(events := v.events + [Event(|v.events|, v.clock, role, kind)]);
    match kind
    case StartIntent(t, l) => w.(unanswered := v.unanswered + {t}, unlogged := v.unlogged + ({l} - v.logs))
    case Started(t, i) => w.(unanswered := v.unanswered - {t}, lost := v.lost - {i})
    case StartFailed(t, _) => w.(unanswered := v.unanswered - {t})
    case Rollback(i) => w.(stray := v.stray + (v.lost * {i}))
    case Stopped(i) => w.(stray := v.stray + (v.lost * {i}))
  }

  lemma StartedStill(events: seq<Event>, e: Event, n: nat, i: Identity)
    requires n <= |events|
    ensures StartedBefore(events + [e], n, i) <==> StartedBefore(events, n, i)
    ensures StartedBefore(events + [e], |events| + 1, i) <==>
      StartedBefore(events, |events|, i) || (e.kind.Started? && e.kind.identity == i)
  {
    var all := events + [e];
    assert all[|events|] == e;
    if StartedBefore(events, n, i) {
      var m: nat :| m < n && m < |events| && events[m].kind.Started? && events[m].kind.identity == i;
      assert all[m] == events[m];
    }
    if StartedBefore(events, |events|, i) {
      var m: nat :| m < |events| && events[m].kind.Started? && events[m].kind.identity == i;
      assert all[m] == events[m];
    }
    if StartedBefore(all, n, i) {
      var m: nat :| m < n && m < |all| && all[m].kind.Started? && all[m].kind.identity == i;
      assert all[m] == events[m];
    }
    if StartedBefore(all, |events| + 1, i) {
      var m: nat :| m < |all| && all[m].kind.Started? && all[m].kind.identity == i;
      assert m < |events| ==> all[m] == events[m];
    }
  }

  lemma KnownOne(events: seq<Event>, e: Event)
    ensures Known(events + [e]) <==> Known(events) && (Closing(e) ==> StartedBefore(events, |events|, e.kind.identity))
  {
    var all := events + [e];
    forall n: nat | n < |all| && Closing(all[n])
      ensures StartedBefore(all, n, all[n].kind.identity) <==> StartedBefore(events, n, all[n].kind.identity)
    {
      StartedStill(events, e, n, all[n].kind.identity);
    }
    assert forall n: nat :: n < |events| ==> all[n] == events[n];
    assert all[|events|] == e;
    hide StartedBefore;
  }

  lemma KnownButOne(events: seq<Event>, e: Event, stray: set<Identity>)
    requires KnownBut(events, stray)
    requires Closing(e) ==> StartedBefore(events, |events|, e.kind.identity) || e.kind.identity in stray
    ensures KnownBut(events + [e], stray)
  {
    var all := events + [e];
    forall n: nat | n < |all| && Closing(all[n])
      ensures StartedBefore(all, n, all[n].kind.identity) || all[n].kind.identity in stray
    {
      StartedStill(events, e, n, all[n].kind.identity);
      assert n < |events| ==> all[n] == events[n];
    }
  }

  /** An event is accepted unless it closes a process whose start was never recorded. */
  lemma ScansOne(c: Contract, v: Site, role: Role, kind: Kind)
    requires Scans(c, v)
    requires var e := Event(|v.events|, v.clock, role, kind);
             Known(v.events) && (Closing(e) ==> StartedBefore(v.events, |v.events|, kind.identity)) ==>
               && Allowed(c, Scan(c, v.events).value, |v.events|, e)
               && Fits(Appended(v, role, kind), Taken(Scan(c, v.events).value, e))
    ensures Scans(c, Appended(v, role, kind))
    ensures var e := Event(|v.events|, v.clock, role, kind); var w := Appended(v, role, kind);
            Known(w.events) ==> Known(v.events) && Scan(c, w.events) == Some(Taken(Scan(c, v.events).value, e))
  {
    hide Fits, Allowed, Taken, StartedBefore;
    var e := Event(|v.events|, v.clock, role, kind);
    KnownOne(v.events, e);
    ScanOne(c, v.events, e);
  }

  // ---- Each step keeps the site sound ----

  lemma AppendKeepsRest(c: Contract, v: Site, role: Role, kind: Kind)
    requires Processes(v) && Receipts(c, v)
    requires kind.Started? || kind.Rollback? || kind.Stopped? ==> kind.identity in v.spawned
    requires kind.Started? ==> role in v.receipts && v.receipts[role] == kind.identity
    ensures Processes(Appended(v, role, kind)) && Receipts(c, Appended(v, role, kind))
  {
    var e := Event(|v.events|, v.clock, role, kind);
    var w := Appended(v, role, kind);
    HasOne(v.events, e, 0, Identity(0, 0, ""));
    assert forall n :: 0 <= n < |v.events| ==> w.events[n] == v.events[n];
  }

  lemma HasOneBook(events: seq<Event>, e: Event, t: Token, l: Log, i: Identity)
    ensures HasAnswer(events + [e], t) <==>
      HasAnswer(events, t) || ((e.kind.Started? || e.kind.StartFailed?) && e.kind.token == t)
    ensures HasLog(events + [e], l) <==> HasLog(events, l) || (e.kind.StartIntent? && e.kind.log == l)
    ensures HasEnd(events + [e], i) <==> HasEnd(events, i) || (Closing(e) && e.kind.identity == i)
  {
    var all, n := events + [e], |events|;
    assert all[n] == e && forall m :: 0 <= m < n ==> all[m] == events[m];
    assert forall m: nat :: m < n ==> (Answers(events, m, t) <==> Answers(all, m, t));
    assert forall m: nat :: m < n ==> (NamesLog(events, m, l) <==> NamesLog(all, m, l));
    assert forall m: nat :: m < n ==> (EndsAt(events, m, i) <==> EndsAt(all, m, i));
    assert Answers(all, n, t) <==> (e.kind.Started? || e.kind.StartFailed?) && e.kind.token == t;
    assert NamesLog(all, n, l) <==> e.kind.StartIntent? && e.kind.log == l;
    assert EndsAt(all, n, i) <==> Closing(e) && e.kind.identity == i;
  }

  lemma AppendTokens(v: Site, role: Role, kind: Kind)
    requires Tokens(v) && Drawn(Event(|v.events|, v.clock, role, kind), v.tokens)
    requires kind.StartIntent? ==> !HasAnswer(v.events, kind.token)
    ensures Tokens(Appended(v, role, kind))
  {
    hide HasIntent, HasAnswer, Drawn;
    var e := Event(|v.events|, v.clock, role, kind);
    var w := Appended(v, role, kind);
    assert forall n :: 0 <= n < |v.events| ==> w.events[n] == v.events[n];
    forall t: Token
      ensures t in w.unanswered <==> HasIntent(w.events, t) && !HasAnswer(w.events, t)
    {
      HasOne(v.events, e, t, Identity(0, 0, ""));
      HasOneBook(v.events, e, t, Log(role, 0), Identity(0, 0, ""));
    }
  }

  lemma AppendLogs(v: Site, role: Role, kind: Kind)
    requires Logs(v)
    ensures Logs(Appended(v, role, kind))
  {
    hide HasLog;
    var e := Event(|v.events|, v.clock, role, kind);
    var w := Appended(v, role, kind);
    forall l: Log
      ensures l in w.unlogged <==> HasLog(w.events, l) && l !in w.logs
      ensures l in w.logs ==> HasLog(w.events, l)
    {
      HasOneBook(v.events, e, 0, l, Identity(0, 0, ""));
    }
  }

  lemma AppendLosses(v: Site, role: Role, kind: Kind)
    requires Losses(v)
    requires kind.Started? ==> kind.identity !in v.stray
    requires kind.Rollback? || kind.Stopped? ==> StartedBefore(v.events, |v.events|, kind.identity) || kind.identity in v.lost
    ensures Losses(Appended(v, role, kind))
  {
    hide StartedBefore, HasEnd, KnownBut;
    var e := Event(|v.events|, v.clock, role, kind);
    var w := Appended(v, role, kind);
    assert KnownBut(v.events, w.stray) by { StrayMore(v.events, v.stray, w.stray); }
    KnownButOne(v.events, e, w.stray);
    forall i: Identity
      ensures i in w.lost ==> !StartedBefore(w.events, |w.events|, i)
      ensures i in w.stray ==> HasEnd(w.events, i)
    {
      StartedStill(v.events, e, 0, i);
      HasOneBook(v.events, e, 0, Log(role, 0), i);
    }
  }

  lemma StrayMore(events: seq<Event>, stray: set<Identity>, more: set<Identity>)
    requires KnownBut(events, stray) && stray <= more
    ensures KnownBut(events, more)
  {
  }

  /** The automaton takes the event, if it takes the log at all. */
  ghost predicate Steps(c: Contract, v: Site, role: Role, kind: Kind) {
    var e := Event(|v.events|, v.clock, role, kind);
    var w := Appended(v, role, kind);
    Known(w.events) ==>
      && Known(v.events) && Scan(c, v.events).Some? && Allowed(c, Scan(c, v.events).value, |v.events|, e)
      && Indexed(Scan(c, v.events).value)
      && Scan(c, w.events) == Some(Taken(Scan(c, v.events).value, e))
  }

  /** The event is about none but these processes. */
  ghost predicate About(c: Contract, v: Site, kind: Kind, only: set<Identity>) {
    match kind
    case StartIntent(_, _) => true
    case StartFailed(t, _) =>
      Known(v.events) && Scan(c, v.events).Some? && t in Scan(c, v.events).value.intents ==>
        var started := Scan(c, v.events).value.intents[t].started; started.None? || started.value in only
    case _ => kind.identity in only && kind.identity in v.spawned
  }

  lemma StaysClosable(c: Contract, s: Scanned, sequence: nat, e: Event, role: Role, i: Identity)
    requires Allowed(c, s, sequence, e) && Indexed(s) && Closable(c, s, role, i)
    requires e.kind.StartFailed? && e.kind.token in s.intents ==> s.intents[e.kind.token].started != Some(i)
    requires Closing(e) ==> e.kind.identity != i
    ensures Closable(c, Taken(s, e), role, i)
  {
    hide IdentityOk;
  }

  lemma StoppableStays(c: Contract, v: Site, actor: Role, kind: Kind, only: set<Identity>, role: Role, i: Identity)
    requires Processes(v) && Steps(c, v, actor, kind) && About(c, v, kind, only)
    requires Stoppable(c, v, role, i) && i !in only
    ensures Stoppable(c, Appended(v, actor, kind), role, i)
  {
    var e := Event(|v.events|, v.clock, actor, kind);
    var w := Appended(v, actor, kind);
    StartedStill(v.events, e, 0, i);
    hide StartedBefore, Allowed, Closable, Indexed;
    if Known(w.events) {
      var s := Scan(c, v.events).value;
      if KeyOf(i) in s.identities {
        assert Closable(c, s, role, i);
        StaysClosable(c, s, |v.events|, e, role, i);
      } else {
        NoNewKey(s, e, i);
      }
    }
  }

  lemma NoNewKey(s: Scanned, e: Event, i: Identity)
    requires KeyOf(i) !in s.identities && (e.kind.Started? ==> KeyOf(e.kind.identity) != KeyOf(i))
    ensures KeyOf(i) !in Taken(s, e).identities
  {
  }

  lemma AppendFrame(c: Contract, v: Site, role: Role, kind: Kind, only: set<Identity>)
    requires Processes(v) && Steps(c, v, role, kind) && About(c, v, kind, only)
    ensures Frame(c, v, Appended(v, role, kind), only)
  {
    hide Stoppable, Steps, About, Processes;
    forall r, i | Stoppable(c, v, r, i) && i !in only
      ensures Stoppable(c, Appended(v, role, kind), r, i)
    {
      StoppableStays(c, v, role, kind, only, r, i);
    }
  }

  lemma AppendBooks(v: Site, role: Role, kind: Kind)
    requires Books(v) && Drawn(Event(|v.events|, v.clock, role, kind), v.tokens)
    requires kind.StartIntent? ==> !HasAnswer(v.events, kind.token)
    requires kind.Started? ==> kind.identity !in v.stray
    requires kind.Rollback? || kind.Stopped? ==> StartedBefore(v.events, |v.events|, kind.identity) || kind.identity in v.lost
    ensures Books(Appended(v, role, kind))
  {
    hide Tokens, Logs, Losses, StartedBefore, HasAnswer;
    AppendTokens(v, role, kind);
    AppendLogs(v, role, kind);
    AppendLosses(v, role, kind);
  }

  /** The next token is new to the log. */
  lemma FreshToken(v: Site)
    requires Books(v)
    ensures !HasIntent(v.events, v.tokens) && !HasAnswer(v.events, v.tokens) && Books(v.(tokens := v.tokens + 1))
    ensures v.tokens !in v.unanswered && forall role :: Log(role, v.tokens) !in v.logs && Log(role, v.tokens) !in v.unlogged
  {
    var u := v.(tokens := v.tokens + 1);
    assert Tokens(u);
    assert forall m: nat :: m < |v.events| ==> Drawn(v.events[m], v.tokens);
    assert forall m: nat :: !Answers(v.events, m, v.tokens);
    assert forall m: nat, role :: !NamesLog(v.events, m, Log(role, v.tokens));
  }

  lemma TokenSound(c: Contract, v: Site)
    requires Sound(c, v)
    ensures Sound(c, v.(tokens := v.tokens + 1)) && Frame(c, v, v.(tokens := v.tokens + 1), {})
  {
    hide Known, Scan, StartedBefore, Books, LastStarted, Mentions, Closable, IdentityOk;
    FreshToken(v);
    forall r, i | Stoppable(c, v, r, i)
      ensures Stoppable(c, v.(tokens := v.tokens + 1), r, i)
    {
    }
  }

  lemma IntentSound(c: Contract, v: Site, role: Role)
    requires Sound(c, v)
    ensures var w := Appended(v.(tokens := v.tokens + 1), role, StartIntent(v.tokens, Log(role, v.tokens)));
            Sound(c, w) && Pending(c, w, role, v.tokens, None) && Frame(c, v, w, {})
    ensures Sound(c, v.(tokens := v.tokens + 1)) && Frame(c, v, v.(tokens := v.tokens + 1), {})
  {
    hide Processes, Receipts, Books, Known, StartedBefore, Scan, Frame;
    var u := v.(tokens := v.tokens + 1);
    TokenSound(c, v);
    var kind := StartIntent(v.tokens, Log(role, v.tokens));
    AppendKeepsRest(c, u, role, kind);
    FreshToken(v);
    AppendBooks(u, role, kind);
    ScansOne(c, u, role, kind);
    if Known(v.events) {
      ScanMeans(c, v.events);
    }
    AppendFrame(c, u, role, kind, {});
    FrameJoins(c, v, u, Appended(u, role, kind), {});
  }

  /** Nothing in the log is about the process. */
  ghost predicate Unseen(v: Site, i: Identity) {
    forall n :: 0 <= n < |v.events| ==> !Mentions(v.events[n], i)
  }

  function Spawned(v: Site, i: Identity): Site {
    v.(live := v.live + {i}, spawned := v.spawned + {i})
  }

  /** No process ever created had both this pid and this start time. */
  predicate Newborn(v: Site, i: Identity) {
    i.started > 0 && i.pid > 1 && forall j :: j in v.spawned ==> KeyOf(j) != KeyOf(i)
  }

  lemma UnseenNone(v: Site, t: Token, i: Identity)
    requires Unseen(v, i)
    ensures !HasStarted(v.events, t, i)
  {
    assert forall n: nat :: n < |v.events| ==> !Mentions(v.events[n], i);
  }

  lemma UnseenNotStarted(c: Contract, v: Site, i: Identity)
    requires Unseen(v, i) && Scan(c, v.events).Some?
    ensures Means(v.events, Scan(c, v.events).value) && Indexed(Scan(c, v.events).value)
    ensures forall t :: t in Scan(c, v.events).value.intents ==> Scan(c, v.events).value.intents[t].started != Some(i)
  {
    ScanMeans(c, v.events);
    forall t | t in Scan(c, v.events).value.intents
      ensures Scan(c, v.events).value.intents[t].started != Some(i)
    {
      UnseenNone(v, t, i);
    }
  }

  lemma StartedAreSpawned(c: Contract, v: Site)
    requires Processes(v) && Scan(c, v.events).Some?
    ensures var s := Scan(c, v.events).value;
            forall u :: u in s.intents && s.intents[u].started.Some? ==> s.intents[u].started.value in v.spawned
  {
    ScanMeans(c, v.events);
    var s := Scan(c, v.events).value;
    forall u | u in s.intents && s.intents[u].started.Some?
      ensures s.intents[u].started.value in v.spawned
    {
      assert HasStarted(v.events, u, s.intents[u].started.value);
      var n: nat :| StartsAt(v.events, n, u, s.intents[u].started.value);
      assert Mentions(v.events[n], s.intents[u].started.value);
    }
  }

  lemma SpawnSound(c: Contract, v: Site, role: Role, t: Token, i: Identity)
    requires Sound(c, v) && Pending(c, v, role, t, None) && Newborn(v, i)
    ensures var w := Spawned(v, i);
            Sound(c, w) && Pending(c, w, role, t, None) && Frame(c, v, w, {}) && Unseen(w, i) && i !in v.spawned
  {
    hide Known, Scan, StartedBefore, Tokens, Logs, KnownBut, HasEnd, LastStarted, Mentions, Closable, IdentityOk;
    var w := Spawned(v, i);
    BooksAside(v, w);
    assert i !in v.spawned;
    if Known(v.events) {
      StartedAreSpawned(c, v);
    }
    forall r, j | Stoppable(c, v, r, j)
      ensures Stoppable(c, w, r, j)
    {
    }
  }

  function Recorded(v: Site, role: Role, i: Identity): Site {
    v.(receipts := v.receipts[role := i], lost := v.lost + {i})
  }

  lemma RecordSound(c: Contract, v: Site, role: Role, t: Token, i: Identity)
    requires Sound(c, v) && Pending(c, v, role, t, None) && Unseen(v, i) && i in v.spawned
    requires i.executable == Executable(c, role) && forall r :: r in v.receipts ==> v.receipts[r] != i
    ensures var w := Recorded(v, role, i); Sound(c, w) && Pending(c, w, role, t, None) && Frame(c, v, w, {}) && Unseen(w, i)
  {
    hide Known, Scan, StartedBefore, Books, LastStarted, Mentions;
    hide Processes, Means, Indexed, IdentityOk, Closable, Frame;
    var w := Recorded(v, role, i);
    if Known(v.events) {
      UnseenNotStarted(c, v, i);
    }
    LostMore(v, role, i);
    ReceiptsAside(v, w);
    RecordFrame(c, v, role, i);
  }

  lemma RecordFrame(c: Contract, v: Site, role: Role, i: Identity)
    ensures Frame(c, v, Recorded(v, role, i), {})
  {
    hide Known, Scan, StartedBefore, IdentityOk, Closable;
    forall r, j | Stoppable(c, v, r, j)
      ensures Stoppable(c, Recorded(v, role, i), r, j)
    {
    }
  }

  lemma ReceiptsAside(v: Site, w: Site)
    requires Processes(v) && w == v.(receipts := w.receipts, lost := w.lost)
    ensures Processes(w)
  {
  }

  lemma LostMore(v: Site, role: Role, i: Identity)
    requires Books(v) && Unseen(v, i) && i in v.spawned
    ensures Books(Recorded(v, role, i))
  {
    var w := Recorded(v, role, i);
    BooksAside(v, v.(receipts := w.receipts));
    UnseenNeverStarted(v, i);
    hide Tokens, Logs, StartedBefore, KnownBut, HasEnd, Unseen;
    assert Tokens(w) && Logs(w) by { OnlyLost(v, w); }
  }

  lemma OnlyLost(v: Site, w: Site)
    requires Tokens(v) && Logs(v) && w == v.(receipts := w.receipts, lost := w.lost)
    ensures Tokens(w) && Logs(w)
  {
  }

  lemma UnseenNeverStarted(v: Site, i: Identity)
    requires Unseen(v, i)
    ensures !StartedBefore(v.events, |v.events|, i) && !HasEnd(v.events, i)
  {
    assert forall m: nat :: m < |v.events| ==> !Mentions(v.events[m], i);
    assert forall m: nat :: !EndsAt(v.events, m, i);
  }

  lemma BooksAside(v: Site, w: Site)
    requires Books(v) && v.spawned <= w.spawned
    requires w == v.(receipts := w.receipts, live := w.live, clock := w.clock, spawned := w.spawned)
    ensures Books(w)
  {
    hide HasIntent, HasAnswer, HasLog, HasEnd, KnownBut, StartedBefore, Drawn;
  }

  lemma StartedSound(c: Contract, v: Site, role: Role, t: Token, i: Identity)
    requires Sound(c, v) && Pending(c, v, role, t, None) && Unseen(v, i)
    requires i in v.spawned && role in v.receipts && v.receipts[role] == i && t < v.tokens
    ensures var w := Appended(v, role, Started(t, i));
            Sound(c, w) && Pending(c, w, role, t, Some(i)) && Frame(c, v, w, {i}) && Stoppable(c, w, role, i)
  {
    hide Tokens, Logs, HasEnd, KnownBut, StartedBefore;
    var kind := Started(t, i);
    var e := Event(|v.events|, v.clock, role, kind);
    AppendKeepsRest(c, v, role, kind);
    UnseenNeverStarted(v, i);
    AppendBooks(v, role, kind);
    StartedStill(v.events, e, 0, i);
    if Known(v.events) {
      UnseenNotStarted(c, v, i);
      StartedFits(c, v, role, t, i);
    }
    ScansOne(c, v, role, kind);
    AppendFrame(c, v, role, kind, {i});
    hide Known, Scan, StartedBefore, KnownBut, LastStarted, Mentions, Processes, Means;
  }

  lemma StartedFits(c: Contract, v: Site, role: Role, t: Token, i: Identity)
    requires Sound(c, v) && Pending(c, v, role, t, None) && Unseen(v, i) && Known(v.events)
    requires i in v.spawned && role in v.receipts && v.receipts[role] == i
    ensures var e := Event(|v.events|, v.clock, role, Started(t, i)); var s := Scan(c, v.events).value;
            Allowed(c, s, |v.events|, e) && Fits(Appended(v, role, Started(t, i)), Taken(s, e))
  {
    hide Scan, StartedBefore, Books, LastStarted, Mentions, Means, Known;
    UnseenNotStarted(c, v, i);
    StartedAreSpawned(c, v);
    var s := Scan(c, v.events).value;
    assert forall u :: u in s.intents && s.intents[u].started.Some? ==> KeyOf(s.intents[u].started.value) != KeyOf(i);
  }

  lemma FailedSound(c: Contract, v: Site, role: Role, t: Token, started: Option<Identity>)
    requires Sound(c, v) && Pending(c, v, role, t, started) && (started.Some? ==> started.value !in v.live)
    requires t < v.tokens
    ensures var w := Appended(v, role, StartFailed(t, Log(role, t)));
            Sound(c, w) && Frame(c, v, w, if started.Some? then {started.value} else {})
  {
    hide StartedBefore, Books, LastStarted, Mentions, Means, Processes, Receipts, Known;
    var kind := StartFailed(t, Log(role, t));
    AppendKeepsRest(c, v, role, kind);
    AppendBooks(v, role, kind);
    if Known(v.events) {
      ScanMeans(c, v.events);
    }
    ScansOne(c, v, role, kind);
    AppendFrame(c, v, role, kind, if started.Some? then {started.value} else {});
  }

  lemma EndSound(c: Contract, v: Site, role: Role, kind: Kind)
    requires kind.Rollback? || kind.Stopped?
    requires Sound(c, v) && Stoppable(c, v, role, kind.identity) && kind.identity !in v.live
    ensures var w := Appended(v, role, kind); Sound(c, w) && Frame(c, v, w, {kind.identity})
  {
    hide Books, LastStarted, Mentions, Means, Processes, Receipts, Known;
    AppendKeepsRest(c, v, role, kind);
    AppendBooks(v, role, kind);
    if Known(v.events) {
      ScanMeans(c, v.events);
      if StartedBefore(v.events, |v.events|, kind.identity) {
        StartedIsIndexed(c, v, kind.identity);
      }
    }
    hide StartedBefore;
    ScansOne(c, v, role, kind);
    AppendFrame(c, v, role, kind, {kind.identity});
  }

  lemma StartedIsIndexed(c: Contract, v: Site, i: Identity)
    requires Scan(c, v.events).Some? && StartedBefore(v.events, |v.events|, i)
    ensures KeyOf(i) in Scan(c, v.events).value.identities
  {
    ScanMeans(c, v.events);
    var m: nat :| m < |v.events| && v.events[m].kind.Started? && v.events[m].kind.identity == i;
    var t := v.events[m].kind.token;
    assert StartsAt(v.events, m, t, i);
    assert HasStarted(v.events, t, i);
  }

  /** Processes may exit by themselves, logs may outgrow what is read, and time passes. */
  lemma OnwardSound(c: Contract, v: Site, w: Site)
    requires Sound(c, v) && w == v.(live := w.live, clock := w.clock, large := w.large)
    requires w.live <= v.live && w.clock >= v.clock && w.large <= v.logs
    ensures Sound(c, w) && Frame(c, v, w, {})
  {
    hide StartedBefore, LastStarted, Mentions, Known, KnownBut, Scan, Closable, IdentityOk;
    hide HasIntent, HasAnswer, HasLog, HasEnd, Drawn;
    forall r, i | Stoppable(c, v, r, i)
      ensures Stoppable(c, w, r, i)
    {
    }
  }

  function Logged(v: Site, l: Log): Site {
    v.(logs := v.logs + {l}, unlogged := v.unlogged - {l})
  }

  /** Creating the log that an intent names keeps the site sound. */
  lemma LoggedSound(c: Contract, v: Site, l: Log)
    requires Sound(c, v) && HasLog(v.events, l)
    ensures Sound(c, Logged(v, l)) && Frame(c, v, Logged(v, l), {})
  {
    hide StartedBefore, LastStarted, Mentions, Known, KnownBut, Scan, Closable, IdentityOk;
    hide HasIntent, HasAnswer, HasLog, HasEnd, Drawn;
    forall r, i | Stoppable(c, v, r, i)
      ensures Stoppable(c, Logged(v, l), r, i)
    {
    }
  }

  lemma {:induction false} LastStartedBefore(events: seq<Event>, role: Role)
    requires LastStarted(events, role).Some?
    ensures StartedBefore(events, |events|, LastStarted(events, role).value)
  {
    var n := |events| - 1;
    var e := events[n];
    if !(e.kind.Started? && e.role == role) {
      LastStartedBefore(events[..n], role);
      assert events == events[..n] + [e];
      StartedStill(events[..n], e, 0, LastStarted(events, role).value);
    }
  }

  /** A running process named by a role's receipt may be stopped. */
  lemma RunningIsStoppable(c: Contract, v: Site, role: Role)
    requires Sound(c, v) && role in v.receipts && v.receipts[role] in v.live
    ensures Stoppable(c, v, role, v.receipts[role])
  {
    var i := v.receipts[role];
    if i !in v.lost {
      LastStartedBefore(v.events, role);
    }
    if Known(v.events) {
      ScanMeans(c, v.events);
      StartedAreSpawned(c, v);
      hide Scan, StartedBefore, KnownBut, LastStarted, Mentions, Means, Known;
      var s := Scan(c, v.events).value;
      if KeyOf(i) in s.identities {
        assert s.intents[s.identities[KeyOf(i)]].started == Some(i);
      }
    }
  }

  lemma FrameJoins(c: Contract, u: Site, v: Site, w: Site, except: set<Identity>)
    requires Frame(c, u, v, {}) && Frame(c, v, w, except)
    ensures Frame(c, u, w, except)
  {
    hide Stoppable;
    forall r, i | Stoppable(c, u, r, i) && i !in except
      ensures Stoppable(c, w, r, i)
    {
      assert Stoppable(c, v, r, i);
    }
  }

  lemma FrameForgets(c: Contract, u: Site, w: Site, i: Identity)
    requires Frame(c, u, w, {i}) && i !in u.spawned
    ensures Frame(c, u, w, {})
  {
  }

  // ---- The history and its validator ----

  lemma AnsweredIff(c: Contract, v: Site)
    requires Scan(c, v.events).Some? && Tokens(v)
    ensures Answered(Scan(c, v.events).value) <==> v.unanswered == {}
  {
    hide Drawn;
    ScanMeans(c, v.events);
    var s := Scan(c, v.events).value;
    forall t: Token
      ensures HasAnswer(v.events, t) <==> HasFailed(v.events, t) || exists i :: HasStarted(v.events, t, i)
    {
      AnswerKinds(v.events, t);
    }
    hide HasIntent, HasAnswer, HasFailed, HasStarted;
    assert forall t :: t in s.intents && s.intents[t].started.Some? ==> HasStarted(v.events, t, s.intents[t].started.value);
    forall t | t in s.intents
      ensures t !in v.unanswered <==> s.intents[t].started.Some? || s.intents[t].failed
    {
    }
    assert forall t :: t in v.unanswered ==> t in s.intents;
  }

  lemma AnswerKinds(events: seq<Event>, t: Token)
    ensures HasAnswer(events, t) <==> HasFailed(events, t) || exists i :: HasStarted(events, t, i)
  {
    if HasAnswer(events, t) {
      var m: nat :| Answers(events, m, t);
      if events[m].kind.Started? {
        assert StartsAt(events, m, t, events[m].kind.identity);
        assert HasStarted(events, t, events[m].kind.identity);
      }
    }
    if HasFailed(events, t) {
      var m :| 0 <= m < |events| && events[m].kind.StartFailed? && events[m].kind.token == t;
      assert Answers(events, m, t);
    }
    if i :| HasStarted(events, t, i) {
      var m: nat :| StartsAt(events, m, t, i);
      assert Answers(events, m, t);
    }
  }

  /** No role's receipt names a process whose start was not recorded. */
  predicate ReceiptsRecorded(v: Site) {
    forall role :: role in v.receipts ==> v.receipts[role] !in v.lost
  }

  lemma ReceiptsIff(c: Contract, v: Site)
    requires Scan(c, v.events).Some? && Receipts(c, v) && Losses(v)
    ensures v.receipts == Scan(c, v.events).value.latest <==> ReceiptsRecorded(v)
  {
    ScanMeans(c, v.events);
    hide HasEnd, KnownBut, Means, Scan;
    forall role | role in v.receipts
      ensures v.receipts[role] in v.lost <==> LastStarted(v.events, role) != Some(v.receipts[role])
    {
      if LastStarted(v.events, role).Some? {
        LastStartedBefore(v.events, role);
      }
    }
    LatestMeans(v.events, Scan(c, v.events).value, v.receipts);
  }

  lemma LatestMeans(events: seq<Event>, s: Scanned, receipts: map<Role, Identity>)
    requires Means(events, s)
    ensures receipts == s.latest <==>
      forall role :: (role in receipts <==> LastStarted(events, role).Some?)
                     && (role in receipts ==> LastStarted(events, role) == Some(receipts[role]))
  {
    hide HasIntent, HasStarted, HasFailed, LastStarted;
  }

  lemma StrayIff(v: Site)
    requires Losses(v)
    ensures Known(v.events) <==> v.stray == {}
  {
    forall i | i in v.stray
      ensures !Known(v.events)
    {
      var n: nat :| EndsAt(v.events, n, i);
      assert !StartedBefore(v.events, n, i);
    }
  }

  lemma LogsIff(v: Site)
    requires Logs(v)
    ensures LogsThere(v.events, v.logs - v.large) <==> v.unlogged == {} && v.large == {}
  {
    if LogsThere(v.events, v.logs - v.large) {
      forall l | HasLog(v.events, l)
        ensures l in v.logs - v.large
      {
        var n: nat :| NamesLog(v.events, n, l);
        assert LogThere(v.events[n], v.logs - v.large);
      }
    }
    if v.unlogged == {} && v.large == {} {
      forall n | 0 <= n < |v.events|
        ensures LogThere(v.events[n], v.logs - v.large)
      {
        assert v.events[n].kind.StartIntent? ==> NamesLog(v.events, n, v.events[n].kind.log);
        assert v.events[n].kind.StartIntent? ==> HasLog(v.events, v.events[n].kind.log);
      }
    }
  }

  /** Nothing happened to a start or stop that the validator could hold against the history. */
  predicate Undisturbed(v: Site) {
    v.unanswered == {} && v.unlogged == {} && v.large == {} && v.stray == {} && ReceiptsRecorded(v)
  }

  /**
   * The validator accepts the history of any sound site exactly when there is one, no start was left without an answer or
   * a log, no log outgrew the limit, and no process whose start was not recorded was ended or is named by a receipt.
   */
  lemma AcceptedExactly(c: Contract, v: Site)
    requires Sound(c, v)
    ensures Accepts(c, v.events, v.receipts, v.logs - v.large) <==> v.events != [] && Undisturbed(v)
  {
    hide Answered, LastStarted, StartedBefore, KnownBut, HasEnd, Mentions, Fits, Tokens, Logs, ReceiptsRecorded, LogsThere;
    StrayIff(v);
    LogsIff(v);
    if Scan(c, v.events).Some? {
      ScannedIsKnown(c, v.events);
      AnsweredIff(c, v);
      ReceiptsIff(c, v);
    }
  }

  /** A log the automaton takes closes only processes it started. */
  lemma ScannedIsKnown(c: Contract, events: seq<Event>)
    requires Scan(c, events).Some?
    ensures Known(events)
  {
    forall n: nat | n < |events| && Closing(events[n])
      ensures StartedBefore(events, n, events[n].kind.identity)
    {
      ScanAt(c, events, n);
      var s := Scan(c, events[..n]).value;
      var i := events[n].kind.identity;
      var t := s.identities[KeyOf(i)];
      assert HasStarted(events[..n], t, i);
      var m: nat :| StartsAt(events[..n], m, t, i);
      assert events[m] == events[..n][m];
    }
  }

  /** When every receipt got its start and every intent its log, only an unanswered intent can make the validator refuse. */
  lemma NothingLostIsAccepted(c: Contract, v: Site)
    requires Sound(c, v) && v.lost == {} && v.unlogged == {} && v.large == {}
    ensures Accepts(c, v.events, v.receipts, v.logs) <==> v.events != [] && v.unanswered == {}
  {
    AcceptedExactly(c, v);
    assert v.logs - v.large == v.logs;
  }
}
