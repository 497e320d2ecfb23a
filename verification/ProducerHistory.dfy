/**
 * The history of API and Worker processes as its independent validator reads it:
 * tools/python/devex_clone_producer_lineage.py, lines 105-230.
 */
module ProducerHistory {
  import opened Options

  datatype Role = Api | Worker

  type Token = nat

  datatype Identity = Identity(pid: nat, started: nat, executable: string)

  datatype Key = Key(pid: nat, started: nat)

  /** `log` stands for the log name, which role and token determine. */
  datatype Log = Log(role: Role, token: Token)

  datatype Kind =
    | StartIntent(token: Token, log: Log)
    | Started(token: Token, identity: Identity)
    | StartFailed(token: Token, log: Log)
    | Rollback(identity: Identity)
    | Stopped(identity: Identity)

  datatype Event = Event(sequence: nat, time: int, role: Role, kind: Kind)

  /** The executables registered for the two roles. */
  datatype Contract = Contract(api: string, worker: string)

  function Executable(c: Contract, role: Role): string {
    if role == Api then c.api else c.worker
  }

  function KeyOf(i: Identity): Key {
    Key(i.pid, i.started)
  }

  predicate Closing(e: Event) {
    e.kind.Rollback? || e.kind.Stopped?
  }

  // ---- The automaton ----

  datatype Intent = Intent(role: Role, started: Option<Identity>, failed: bool, closed: bool)

  datatype Scanned = Scanned(intents: map<Token, Intent>, identities: map<Key, Token>, latest: map<Role, Identity>, time: int)

  const NOTHING := Scanned(map[], map[], map[], -1)

  predicate IdentityOk(c: Contract, role: Role, i: Identity) {
    i.pid > 1 && i.started > 0 && i.executable == Executable(c, role)
  }

  predicate Allowed(c: Contract, s: Scanned, sequence: nat, e: Event) {
    && e.sequence == sequence && e.time > 0 && e.time >= s.time
    && match e.kind
       case StartIntent(t, log) => t !in s.intents && log == Log(e.role, t)
       case Started(t, i) =>
         && t in s.intents && s.intents[t].role == e.role && s.intents[t].started.None? && !s.intents[t].failed
         && IdentityOk(c, e.role, i) && KeyOf(i) !in s.identities
       case StartFailed(t, log) =>
         && t in s.intents && s.intents[t].role == e.role && !s.intents[t].failed && !s.intents[t].closed
         && log == Log(s.intents[t].role, t)
       case Rollback(i) => Closable(c, s, e.role, i)
       case Stopped(i) => Closable(c, s, e.role, i)
  }

  predicate Closable(c: Contract, s: Scanned, role: Role, i: Identity) {
    && IdentityOk(c, role, i) && KeyOf(i) in s.identities
    && var t := s.identities[KeyOf(i)];
       t in s.intents && s.intents[t] == Intent(role, Some(i), false, false)
  }

  function Taken(s: Scanned, e: Event): Scanned {
    match e.kind
    case StartIntent(t, _) => s.(intents := s.intents[t := Intent(e.role, None, false, false)], time := e.time)
    case Started(t, i) =>
      if t in s.intents then
        Scanned(s.intents[t := s.intents[t].(started := Some(i))], s.identities[KeyOf(i) := t], s.latest[e.role := i], e.time)
      else s
    case StartFailed(t, _) =>
      if t in s.intents then
        s.(intents := s.intents[t := s.intents[t].(failed := true, closed := s.intents[t].started.Some?)], time := e.time)
      else s
    case Rollback(i) => Ended(s, i).(time := e.time)
    case Stopped(i) => Ended(s, i).(time := e.time)
  }

  function Ended(s: Scanned, i: Identity): Scanned {
    if KeyOf(i) in s.identities && s.identities[KeyOf(i)] in s.intents then
      var t := s.identities[KeyOf(i)];
      s.(intents := s.intents[t := s.intents[t].(closed := true)])
    else s
  }

  function Scan(c: Contract, events: seq<Event>): Option<Scanned> {
    if events == [] then Some(NOTHING)
    else
      Next(c, Scan(c, events[..|events| - 1]), |events| - 1, events[|events| - 1])
  }

  function Next(c: Contract, s: Option<Scanned>, sequence: nat, e: Event): Option<Scanned> {
    if s.Some? && Allowed(c, s.value, sequence, e) then Some(Taken(s.value, e)) else None
  }

  predicate Answered(s: Scanned) {
    forall t :: t in s.intents ==> s.intents[t].started.Some? || s.intents[t].failed
  }

  /** A start intent names a log file that is there and not too large to be read. */
  predicate LogThere(e: Event, logs: set<Log>) {
    e.kind.StartIntent? ==> e.kind.log in logs
  }

  predicate LogsThere(events: seq<Event>, logs: set<Log>) {
    forall n :: 0 <= n < |events| ==> LogThere(events[n], logs)
  }

  /** `_history` accepts: the automaton, the log files, every intent answered, and each role's receipt its latest start. */
  predicate Accepts(c: Contract, events: seq<Event>, receipts: map<Role, Identity>, logs: set<Log>) {
    && events != [] && Scan(c, events).Some? && LogsThere(events, logs)
    && Answered(Scan(c, events).value)
    && receipts == Scan(c, events).value.latest
  }

  /** `_history` as the loop it is; `logs` are the log files of at most 16 MiB. */
  method CheckHistory(c: Contract, events: seq<Event>, receipts: map<Role, Identity>, logs: set<Log>) returns (ok: bool)
    ensures ok <==> Accepts(c, events, receipts, logs)
  {
    var s := NOTHING;
    for n := 0 to |events|
      invariant Scan(c, events[..n]) == Some(s)
      invariant LogsThere(events[..n], logs)
    {
      assert events[..n + 1][..n] == events[..n];
      if !Allowed(c, s, n, events[n]) || !LogThere(events[n], logs) {
        assert !Allowed(c, s, n, events[n]) ==> Scan(c, events[..n + 1]) == None;
        if Scan(c, events).Some? {
          ScanPrefix(c, events, n + 1);
        }
        return false;
      }
      s := Taken(s, events[n]);
    }
    assert events[..|events|] == events;
    ok := events != [] && Answered(s) && receipts == s.latest;
  }

  lemma {:induction false} ScanPrefix(c: Contract, events: seq<Event>, n: nat)
    requires n <= |events| && Scan(c, events).Some?
    ensures Scan(c, events[..n]).Some?
    decreases |events|
  {
    if n == |events| {
      assert events[..n] == events;
    } else {
      ScanPrefix(c, events[..|events| - 1], n);
      assert events[..|events| - 1][..n] == events[..n];
    }
  }

  lemma ScanOne(c: Contract, events: seq<Event>, e: Event)
    ensures Scan(c, events + [e]) == Next(c, Scan(c, events), |events|, e)
  {
    assert (events + [e])[..|events|] == events;
  }

  // ---- What the automaton's state says about the log ----

  predicate HasIntent(events: seq<Event>, t: Token) {
    exists i :: 0 <= i < |events| && events[i].kind.StartIntent? && events[i].kind.token == t
  }

  predicate HasFailed(events: seq<Event>, t: Token) {
    exists i :: 0 <= i < |events| && events[i].kind.StartFailed? && events[i].kind.token == t
  }

  predicate StartsAt(events: seq<Event>, n: nat, t: Token, i: Identity) {
    n < |events| && events[n].kind == Started(t, i)
  }

  ghost predicate HasStarted(events: seq<Event>, t: Token, i: Identity) {
    exists n :: StartsAt(events, n, t, i)
  }

  function LastStarted(events: seq<Event>, role: Role): Option<Identity> {
    if events == [] then None
    else
      var e := events[|events| - 1];
      if e.kind.Started? && e.role == role then Some(e.kind.identity) else LastStarted(events[..|events| - 1], role)
  }

  ghost predicate Means(events: seq<Event>, s: Scanned) {
    && (forall t :: t in s.intents <==> HasIntent(events, t))
    && (forall t, i :: t in s.intents && s.intents[t].started == Some(i) <==> HasStarted(events, t, i))
    && (forall t :: t in s.intents && s.intents[t].failed <==> HasFailed(events, t))
    && (forall role :: role in s.latest <==> LastStarted(events, role).Some?)
    && (forall role :: role in s.latest ==> LastStarted(events, role) == Some(s.latest[role]))
  }

  /** The two indexes of the automaton agree. */
  predicate Indexed(s: Scanned) {
    && (forall t :: t in s.intents && s.intents[t].started.Some? ==>
          KeyOf(s.intents[t].started.value) in s.identities && s.identities[KeyOf(s.intents[t].started.value)] == t)
    && (forall k :: k in s.identities ==>
          && s.identities[k] in s.intents && s.intents[s.identities[k]].started.Some?
          && KeyOf(s.intents[s.identities[k]].started.value) == k)
    && (forall t :: t in s.intents && s.intents[t].failed && s.intents[t].started.Some? ==> s.intents[t].closed)
  }

  lemma HasOne(events: seq<Event>, e: Event, t: Token, i: Identity)
    ensures HasIntent(events + [e], t) <==> HasIntent(events, t) || (e.kind.StartIntent? && e.kind.token == t)
    ensures HasFailed(events + [e], t) <==> HasFailed(events, t) || (e.kind.StartFailed? && e.kind.token == t)
    ensures HasStarted(events + [e], t, i) <==> HasStarted(events, t, i) || e.kind == Started(t, i)
    ensures forall role ::
      LastStarted(events + [e], role) == (if e.kind.Started? && e.role == role then Some(e.kind.identity) else LastStarted(events, role))
  {
    var all := events + [e];
    assert all[|events|] == e && all[..|events|] == events;
    if HasIntent(events, t) {
      var n :| 0 <= n < |events| && events[n].kind.StartIntent? && events[n].kind.token == t;
      assert all[n] == events[n];
    }
    if HasFailed(events, t) {
      var n :| 0 <= n < |events| && events[n].kind.StartFailed? && events[n].kind.token == t;
      assert all[n] == events[n];
    }
    if HasStarted(events, t, i) {
      var n: nat :| StartsAt(events, n, t, i);
      assert StartsAt(all, n, t, i);
    }
    if HasStarted(all, t, i) {
      var n: nat :| StartsAt(all, n, t, i);
      assert n < |events| ==> StartsAt(events, n, t, i);
    }
    assert e.kind == Started(t, i) ==> StartsAt(all, |events|, t, i);
  }

  lemma TakenToken(c: Contract, events: seq<Event>, s: Scanned, e: Event, t: Token, i: Identity)
    requires Means(events, s) && Indexed(s) && Allowed(c, s, |events|, e)
    ensures t in Taken(s, e).intents <==> HasIntent(events + [e], t)
    ensures t in Taken(s, e).intents && Taken(s, e).intents[t].started == Some(i) <==> HasStarted(events + [e], t, i)
    ensures t in Taken(s, e).intents && Taken(s, e).intents[t].failed <==> HasFailed(events + [e], t)
  {
    HasOne(events, e, t, i);
    assert t in s.intents <==> HasIntent(events, t);
    assert t in s.intents && s.intents[t].started == Some(i) <==> HasStarted(events, t, i);
    assert t in s.intents && s.intents[t].failed <==> HasFailed(events, t);
    hide HasIntent, HasFailed, HasStarted, LastStarted, IdentityOk, Indexed, Means;
  }

  lemma TakenMeans(c: Contract, events: seq<Event>, s: Scanned, e: Event)
    requires Means(events, s) && Indexed(s) && Allowed(c, s, |events|, e)
    ensures Means(events + [e], Taken(s, e))
  {
    hide HasIntent, HasFailed, HasStarted, LastStarted, IdentityOk;
    var now := Taken(s, e);
    assert forall t, i {:trigger HasStarted(events + [e], t, i)} ::
        t in now.intents && now.intents[t].started == Some(i) <==> HasStarted(events + [e], t, i) by {
      forall t: Token, i: Identity
        ensures t in now.intents && now.intents[t].started == Some(i) <==> HasStarted(events + [e], t, i)
      {
        TakenToken(c, events, s, e, t, i);
      }
    }
    forall t: Token
      ensures t in now.intents <==> HasIntent(events + [e], t)
      ensures t in now.intents && now.intents[t].failed <==> HasFailed(events + [e], t)
    {
      TakenToken(c, events, s, e, t, Identity(0, 0, ""));
    }
    HasOne(events, e, 0, Identity(0, 0, ""));
  }

  lemma TakenIndexed(c: Contract, s: Scanned, sequence: nat, e: Event)
    requires Indexed(s) && Allowed(c, s, sequence, e)
    ensures Indexed(Taken(s, e))
  {
  }

  lemma {:induction false} ScanMeans(c: Contract, events: seq<Event>)
    requires Scan(c, events).Some?
    ensures Means(events, Scan(c, events).value) && Indexed(Scan(c, events).value)
  {
    if events != [] {
      var n := |events| - 1;
      ScanMeans(c, events[..n]);
      assert events == events[..n] + [events[n]];
      hide Means, Indexed, Allowed, Taken;
      TakenMeans(c, events[..n], Scan(c, events[..n]).value, events[n]);
      TakenIndexed(c, Scan(c, events[..n]).value, n, events[n]);
    }
  }

  // ---- What an accepted log says ----

  /** The event ends the process `i` that token `t` started. */
  predicate Ends(e: Event, t: Token, i: Identity) {
    (Closing(e) && e.kind.identity == i) || (e.kind.StartFailed? && e.kind.token == t)
  }

  lemma ScanAt(c: Contract, events: seq<Event>, n: nat)
    requires Scan(c, events).Some? && n < |events|
    ensures Scan(c, events[..n]).Some? && Allowed(c, Scan(c, events[..n]).value, n, events[n])
    ensures Scan(c, events[..n + 1]) == Some(Taken(Scan(c, events[..n]).value, events[n]))
    ensures Means(events[..n], Scan(c, events[..n]).value) && Indexed(Scan(c, events[..n]).value)
  {
    hide Allowed, Taken, Means, Indexed;
    ScanPrefix(c, events, n + 1);
    assert events[..n + 1][..n] == events[..n];
    ScanMeans(c, events[..n]);
  }

  predicate Over(s: Scanned, t: Token) {
    t in s.intents && (s.intents[t].closed || (s.intents[t].failed && s.intents[t].started.None?))
  }

  lemma OverStep(c: Contract, s: Scanned, sequence: nat, e: Event, t: Token)
    requires Allowed(c, s, sequence, e) && Indexed(s) && Over(s, t)
    ensures Over(Taken(s, e), t)
  {
    hide IdentityOk;
  }

  lemma {:induction false} OverStays(c: Contract, events: seq<Event>, m: nat, n: nat, t: Token)
    requires Scan(c, events).Some? && m <= n <= |events|
    requires Scan(c, events[..m]).Some? && Over(Scan(c, events[..m]).value, t)
    ensures Scan(c, events[..n]).Some? && Over(Scan(c, events[..n]).value, t)
  {
    hide Means, Allowed, Over, Indexed, Scan;
    if m < n {
      OverStays(c, events, m, n - 1, t);
      ScanAt(c, events, n - 1);
      OverStep(c, Scan(c, events[..n - 1]).value, n - 1, events[n - 1], t);
    }
  }

  lemma EndsMakesOver(c: Contract, events: seq<Event>, n: nat, t: Token, i: Identity)
    requires Scan(c, events).Some? && n < |events| && Ends(events[n], t, i)
    requires HasStarted(events, t, i)
    ensures Scan(c, events[..n + 1]).Some? && Over(Scan(c, events[..n + 1]).value, t)
    ensures Scan(c, events[..n]).Some? && !Over(Scan(c, events[..n]).value, t)
  {
    ScanAt(c, events, n);
    var s := Scan(c, events[..n]).value;
    if Closing(events[n]) {
      var u := s.identities[KeyOf(i)];
      assert HasStarted(events[..n], u, i);
      var k: nat :| StartsAt(events[..n], k, u, i);
      assert StartsAt(events, k, u, i);
      ScanMeans(c, events);
      OneToken(c, events, t, u, i, i);
    }
  }

  /** A process belongs to one token: no creation identity is started under two. */
  lemma OneToken(c: Contract, events: seq<Event>, t: Token, u: Token, i: Identity, j: Identity)
    requires Scan(c, events).Some? && HasStarted(events, t, i) && HasStarted(events, u, j)
    ensures KeyOf(i) == KeyOf(j) <==> t == u
    ensures t == u ==> i == j
  {
    ScanMeans(c, events);
    var s := Scan(c, events).value;
    assert s.intents[t].started == Some(i) && s.intents[u].started == Some(j);
  }

  /**
   * Events are numbered from 0 and time does not run backwards; intents name the log of their role and token, and every
   * process runs the executable of its role.
   */
  lemma {:induction false} EventsInOrder(c: Contract, events: seq<Event>, n: nat)
    requires Scan(c, events).Some? && n < |events|
    ensures events[n].sequence == n && events[n].time > 0 && (n > 0 ==> events[n - 1].time <= events[n].time)
    ensures events[n].kind.StartIntent? ==> events[n].kind.log == Log(events[n].role, events[n].kind.token)
    ensures events[n].kind.Started? || Closing(events[n]) ==>
      && events[n].kind.identity.executable == Executable(c, events[n].role)
      && events[n].kind.identity.pid > 1 && events[n].kind.identity.started > 0
  {
    ScanPrefix(c, events, n + 1);
    var now := events[..n + 1];
    assert now[..n] == events[..n] && now[n] == events[n];
    ScanPrefix(c, events, n);
    if n > 0 {
      TimeOfLast(c, events[..n]);
    }
  }

  lemma TimeOfLast(c: Contract, events: seq<Event>)
    requires events != [] && Scan(c, events).Some?
    ensures Scan(c, events).value.time == events[|events| - 1].time
  {
    hide LastStarted, IdentityOk;
    var n := |events| - 1;
    var s := Scan(c, events[..n]).value;
    assert Allowed(c, s, n, events[n]) && Scan(c, events).value == Taken(s, events[n]);
  }

  /** In a log the automaton accepts, a process ends at most once, be it by failure, rollback or stop. */
  lemma EndedOnce(c: Contract, events: seq<Event>, t: Token, i: Identity, m: nat, n: nat)
    requires Scan(c, events).Some? && HasStarted(events, t, i)
    requires m < |events| && Ends(events[m], t, i) && n < |events| && Ends(events[n], t, i)
    ensures m == n
  {
    hide Ends, Over, HasStarted, Scan;
    EndsMakesOver(c, events, m, t, i);
    EndsMakesOver(c, events, n, t, i);
    if m < n {
      OverStays(c, events, m + 1, n, t);
    } else if n < m {
      OverStays(c, events, n + 1, m, t);
    }
  }
}
