/**
 * Release of a dead Node's identity lock by tombstone: tools/python/devex_clone_post_process.py, lines 208-400.
 * The lock may be replaced at any moment, and the process may die between or inside any two file effects.
 */
module IdentityLock {
  import opened Options

  type Id = string

  datatype LockValue = LockValue(pid: nat, plan: string, owner: string)

  /** The bytes of a lock file: the canonical encoding of a value, or anything else, which may still decode. */
  datatype Content = Encoded(value: LockValue) | Odd(decoded: Option<LockValue>, raw: string)

  function Decode(c: Content): Option<LockValue> {
    if c.Encoded? then Some(c.value) else c.decoded
  }

  datatype LockFile = LockFile(inode: nat, content: Content)

  /**
   * Marker bytes fix the release and the digest of the tombstone; `Other` stands for any other bytes, torn ones
   * included.
   */
  datatype Marker = MarkerOf(id: Id, content: Content) | Other(raw: string)

  /** `lock-releases`; an absent directory is an empty one. */
  datatype Dir = Dir(tombs: map<Id, LockFile>, markers: map<Id, Marker>, pendings: map<Id, Marker>)

  function Ids(d: Dir): set<Id> {
    d.tombs.Keys + d.markers.Keys + d.pendings.Keys
  }

  // ---- Records ----

  /** `_identity_release_record` accepts the record. */
  predicate RecordOk(d: Dir, id: Id) {
    && id in d.tombs && Decode(d.tombs[id].content).Some?
    && (id in d.markers ==> d.markers[id] == MarkerOf(id, d.tombs[id].content))
    && (id in d.pendings ==> d.pendings[id] == MarkerOf(id, d.tombs[id].content))
  }

  predicate Complete(d: Dir, id: Id) {
    id in d.markers && id !in d.pendings
  }

  function ValueOf(d: Dir, id: Id): LockValue
    requires RecordOk(d, id)
  {
    Decode(d.tombs[id].content).value
  }

  predicate Matches(d: Dir, value: LockValue, id: Id) {
    id in Ids(d) && RecordOk(d, id) && ValueOf(d, id) == value
  }

  /** The records `recover_identity_lock` works with: all good, one per owner, and only its own may be unfinished. */
  predicate Surveyable(d: Dir, value: LockValue) {
    && (forall id :: id in Ids(d) ==> RecordOk(d, id))
    && (forall i, j :: i in Ids(d) && j in Ids(d) && ValueOf(d, i).owner == ValueOf(d, j).owner ==> i == j)
    && (forall id :: id in Ids(d) && !Complete(d, id) ==> ValueOf(d, id) == value)
  }

  // ---- Stages of one release ----

  function Claimed(d: Dir, id: Id, f: LockFile): Dir {
    d.(tombs := d.tombs[id := f])
  }

  function Staged(d: Dir, id: Id, bytes: Marker): Dir {
    d.(pendings := d.pendings[id := bytes])
  }

  /** The pending file is linked under the marker's name. */
  function Published(d: Dir, id: Id): Dir
    requires id in d.tombs
  {
    var bytes := MarkerOf(id, d.tombs[id].content);
    Dir(d.tombs, d.markers[id := bytes], d.pendings[id := bytes])
  }

  function Repaired(d: Dir, id: Id): Dir
    requires id in d.tombs
  {
    Dir(d.tombs, d.markers[id := MarkerOf(id, d.tombs[id].content)], d.pendings - {id})
  }

  /** How far the release of `id` can have come, starting from `base`. */
  predicate Progress(base: Dir, d: Dir, id: Id) {
    id in base.tombs &&
    (|| d == base
     || (id in d.pendings && d == Staged(base, id, d.pendings[id]))
     || d == Published(base, id)
     || d == Repaired(base, id))
  }

  predicate Torn(d: Dir, id: Id) {
    id in d.tombs && id in d.pendings && d.pendings[id] != MarkerOf(id, d.tombs[id].content)
  }

  /** No record, whatever its process and plan, belongs to this owner. */
  predicate OwnerUnused(d: Dir, owner: string) {
    forall id :: id in Ids(d) && RecordOk(d, id) ==> ValueOf(d, id).owner != owner
  }

  /** The two directories hold the same tombstones, and differ in no record but `id`. */
  predicate SameBut(c: Dir, d: Dir, id: Id) {
    && c.tombs == d.tombs && Ids(c) == Ids(d)
    && forall i :: i in Ids(c) && i != id ==>
         (RecordOk(c, i) <==> RecordOk(d, i)) && (Complete(c, i) <==> Complete(d, i))
  }

  lemma ProgressIds(base: Dir, d: Dir, id: Id)
    requires Progress(base, d, id)
    ensures SameBut(base, d, id)
  {
    forall i | i in Ids(base) && i != id
      ensures (RecordOk(base, i) <==> RecordOk(d, i)) && (Complete(base, i) <==> Complete(d, i))
    {
    }
  }

  lemma SameButSurveyable(c: Dir, d: Dir, id: Id, value: LockValue)
    requires Surveyable(c, value) && Matches(c, value, id) && SameBut(c, d, id)
    ensures Surveyable(d, value) <==> RecordOk(d, id)
    ensures RecordOk(d, id) ==> Matches(d, value, id)
  {
    hide RecordOk, Complete, Ids;
    if RecordOk(d, id) {
      assert forall i :: i in Ids(d) ==> RecordOk(d, i) && ValueOf(d, i) == ValueOf(c, i);
      assert forall i :: i in Ids(d) && !Complete(d, i) ==> ValueOf(d, i) == value;
    }
  }

  /** Wherever a release stopped, unless the pending file is torn, the records are as workable as where it started. */
  lemma ProgressSurveyable(base: Dir, d: Dir, id: Id, value: LockValue)
    requires Surveyable(base, value) && Matches(base, value, id) && Progress(base, d, id)
    ensures Surveyable(d, value) <==> !Torn(d, id)
    ensures !Torn(d, id) ==> Matches(d, value, id)
  {
    hide Surveyable, Ids;
    ProgressIds(base, d, id);
    SameButSurveyable(base, d, id, value);
    assert RecordOk(base, id) by {
      assert Matches(base, value, id);
    }
    assert RecordOk(d, id) <==> !Torn(d, id);
  }

  /** A claimed lock can be finished exactly when no older record carries its owner. */
  lemma ClaimedSurveyable(d: Dir, id: Id, f: LockFile, value: LockValue)
    requires Surveyable(d, value) && id !in Ids(d) && Decode(f.content) == Some(value)
    ensures Surveyable(Claimed(d, id, f), value) <==> OwnerUnused(d, value.owner)
    ensures Matches(Claimed(d, id, f), value, id)
  {
    ClaimedRecords(d, id, f, value);
    hide RecordOk, Complete, Ids, Decode, Claimed;
  }

  /** The claim adds one good record and changes no other. */
  lemma ClaimedRecords(d: Dir, id: Id, f: LockFile, value: LockValue)
    requires id !in Ids(d) && Decode(f.content) == Some(value) && forall i :: i in Ids(d) ==> RecordOk(d, i)
    ensures var c := Claimed(d, id, f);
      && Ids(c) == Ids(d) + {id} && RecordOk(c, id) && ValueOf(c, id) == value && Matches(c, value, id)
      && forall i :: i in Ids(d) ==>
           RecordOk(c, i) && ValueOf(c, i) == ValueOf(d, i) && (Complete(c, i) <==> Complete(d, i))
  {
    hide Decode;
    var c := Claimed(d, id, f);
    assert Ids(c) == Ids(d) + {id};
    assert RecordOk(c, id) && ValueOf(c, id) == value;
    forall i | i in Ids(d)
      ensures RecordOk(c, i) && ValueOf(c, i) == ValueOf(d, i) && (Complete(c, i) <==> Complete(d, i))
    {
      assert RecordOk(d, i);
    }
  }

  lemma RepairedIsFixed(base: Dir, d: Dir, id: Id)
    requires Progress(base, d, id)
    ensures id in d.tombs && Repaired(d, id) == Repaired(base, id) && Complete(Repaired(d, id), id)
  {
    assert d.tombs == base.tombs;
    var bytes := MarkerOf(id, base.tombs[id].content);
    assert d.markers[id := bytes] == base.markers[id := bytes];
    assert d.pendings - {id} == base.pendings - {id};
  }

  // ---- One whole call ----

  /** The release has no marker yet. */
  predicate Unmarked(d: Dir, id: Id) {
    id !in d.markers
  }

  datatype Outcome = Raised | Returned(released: bool)

  datatype State = State(lock: Option<LockFile>, dir: Dir)

  predicate HasMatch(d: Dir, value: LockValue) {
    exists id :: id in Ids(d) && Matches(d, value, id)
  }

  /** What an undisturbed call does; `drawn` is its new release id. */
  ghost function Recovered(s: State, value: LockValue, drawn: Id): (State, Outcome) {
    var d := s.dir;
    if !Surveyable(d, value) then (s, Raised)
    else if HasMatch(d, value) then
      var id :| id in Ids(d) && Matches(d, value, id);
      (s.(dir := if Complete(d, id) then d else Repaired(d, id)), Returned(Unmarked(d, id)))
    else if s.lock.None? then (s, Returned(false))
    else if s.lock.value.content != Encoded(value) || drawn in Ids(d) then (s, Raised)
    else (State(None, Repaired(Claimed(d, drawn, s.lock.value), drawn)), Returned(true))
  }

  /** The directory holds one more release, published and whole, and is otherwise as before. */
  predicate Holds(d: Dir, id: Id, f: LockFile, e: Dir) {
    && e.tombs == d.tombs[id := f] && e.markers == d.markers[id := MarkerOf(id, f.content)] && e.pendings == d.pendings
  }

  /** The release on record is published and has no pending file, and nothing else has changed. */
  predicate Completes(d: Dir, id: Id, e: Dir)
    requires id in d.tombs
  {
    && e.tombs == d.tombs && e.markers == d.markers[id := MarkerOf(id, d.tombs[id].content)]
    && e.pendings == d.pendings - {id}
  }

  /** Only the release on record is completed; the call says whether its marker was missing. */
  predicate Finishes(s: State, id: Id, t: State, outcome: Outcome)
    requires id in s.dir.tombs
  {
    outcome == Returned(Unmarked(s.dir, id)) && t.lock == s.lock && Completes(s.dir, id, t.dir)
  }

  /**
   * What an undisturbed call leaves and returns: bad records stop it; a release on record is completed; without one the
   * lock of the dead process, and no other, goes to a new tombstone with its marker.
   */
  ghost predicate Leaves(s: State, value: LockValue, drawn: Id, t: State, outcome: Outcome) {
    && (!Surveyable(s.dir, value) ==> outcome == Raised && t == s)
    && (Surveyable(s.dir, value) ==> forall id :: Matches(s.dir, value, id) ==> Finishes(s, id, t, outcome))
    && (Surveyable(s.dir, value) && !HasMatch(s.dir, value) ==>
         && (s.lock.None? ==> outcome == Returned(false) && t == s)
         && (s.lock.Some? && s.lock.value.content == Encoded(value) && drawn !in Ids(s.dir) ==>
              outcome == Returned(true) && t.lock == None && Holds(s.dir, drawn, s.lock.value, t.dir))
         && (s.lock.Some? && (s.lock.value.content != Encoded(value) || drawn in Ids(s.dir)) ==>
              outcome == Raised && t == s))
  }

  lemma RecoveredLeaves(s: State, value: LockValue, drawn: Id)
    ensures Leaves(s, value, drawn, Recovered(s, value, drawn).0, Recovered(s, value, drawn).1)
  {
    var (t, outcome) := Recovered(s, value, drawn);
    forall id | Surveyable(s.dir, value) && Matches(s.dir, value, id)
      ensures Finishes(s, id, t, outcome)
    {
      RecoveredMatch(s, value, drawn, id);
      FinishedRecord(s.dir, id);
    }
    if drawn !in Ids(s.dir) && s.lock.Some? {
      NewRecord(s.dir, drawn, s.lock.value);
    }
  }

  lemma FinishedRecord(d: Dir, id: Id)
    requires RecordOk(d, id)
    ensures Completes(d, id, if Complete(d, id) then d else Repaired(d, id))
  {
    if Complete(d, id) {
      assert d.markers == d.markers[id := MarkerOf(id, d.tombs[id].content)];
      assert d.pendings == d.pendings - {id};
    }
  }

  lemma NewRecord(d: Dir, id: Id, f: LockFile)
    requires id !in Ids(d)
    ensures Holds(d, id, f, Repaired(Claimed(d, id, f), id))
  {
    assert d.pendings - {id} == d.pendings;
  }

  lemma OneMatch(d: Dir, value: LockValue, i: Id, j: Id)
    requires Surveyable(d, value) && Matches(d, value, i) && Matches(d, value, j)
    ensures i == j
  {
    assert ValueOf(d, i).owner == ValueOf(d, j).owner;
  }

  lemma RecoveredMatch(s: State, value: LockValue, drawn: Id, id: Id)
    requires Surveyable(s.dir, value) && Matches(s.dir, value, id)
    ensures Recovered(s, value, drawn) ==
      (s.(dir := if Complete(s.dir, id) then s.dir else Repaired(s.dir, id)), Returned(Unmarked(s.dir, id)))
  {
    var d := s.dir;
    forall i | i in Ids(d) && Matches(d, value, i)
      ensures i == id
    {
      OneMatch(d, value, i, id);
    }
    assert HasMatch(d, value);
  }

  /** Releases of one value that are published and whole, and those that are not. */
  predicate FinishedOnce(d: Dir, value: LockValue, id: Id) {
    && Surveyable(d, value) && Matches(d, value, id) && Complete(d, id)
    && forall i :: i in Ids(d) && Matches(d, value, i) ==> i == id
  }

  lemma RepairedFinished(d: Dir, value: LockValue, id: Id)
    requires Surveyable(d, value) && Matches(d, value, id)
    ensures FinishedOnce(Repaired(d, id), value, id)
  {
    var r := Repaired(d, id);
    assert Progress(d, r, id);
    ProgressSurveyable(d, r, id, value);
    forall i | i in Ids(r) && Matches(r, value, i)
      ensures i == id
    {
      OneMatch(r, value, i, id);
    }
  }

  /**
   * However far a release got before the process died, one more call leaves exactly one released marker for that
   * tombstone and no pending file, unless the pending file is torn; every later call changes nothing.
   */
  lemma CrashThenRecover(base: Dir, d: Dir, id: Id, value: LockValue, lock: Option<LockFile>, drawn: Id, again: Id)
    requires Surveyable(base, value) && Matches(base, value, id) && !Complete(base, id) && Progress(base, d, id)
    ensures Torn(d, id) ==> Recovered(State(lock, d), value, drawn) == (State(lock, d), Raised)
    ensures !Torn(d, id) ==>
      var (s, outcome) := Recovered(State(lock, d), value, drawn);
      && outcome == Returned(Unmarked(d, id))
      && s == State(lock, Repaired(base, id)) && FinishedOnce(s.dir, value, id)
      && Recovered(s, value, again) == (s, Returned(false))
  {
    ProgressSurveyable(base, d, id, value);
    if !Torn(d, id) {
      RecoveredMatch(State(lock, d), value, drawn, id);
      RepairedIsFixed(base, d, id);
      RepairedFinished(base, value, id);
      if Complete(d, id) {
        CompleteIsRepaired(base, d, id);
      }
      RecoveredMatch(State(lock, Repaired(base, id)), value, again, id);
    }
  }

  lemma CompleteIsRepaired(base: Dir, d: Dir, id: Id)
    requires Progress(base, d, id) && !Complete(base, id) && Complete(d, id)
    ensures d == Repaired(base, id)
  {
  }

  /**
   * After a claim the next call finishes it exactly when no older record carries the owner and no pending file is
   * torn.
   */
  lemma ClaimThenRecover(d: Dir, f: LockFile, id: Id, now: Dir, value: LockValue, lock: Option<LockFile>, drawn: Id)
    requires Surveyable(d, value) && id !in Ids(d) && f.content == Encoded(value)
    requires Progress(Claimed(d, id, f), now, id)
    ensures var (s, outcome) := Recovered(State(lock, now), value, drawn);
      outcome != Raised && FinishedOnce(s.dir, value, id) <==> OwnerUnused(d, value.owner) && !Torn(now, id)
  {
    var base := Claimed(d, id, f);
    ClaimedSurveyable(d, id, f, value);
    if OwnerUnused(d, value.owner) {
      CrashThenRecover(base, now, id, value, lock, drawn, drawn);
    } else {
      NotSurveyable(d, f, id, now, value);
    }
  }

  lemma NotSurveyable(d: Dir, f: LockFile, id: Id, now: Dir, value: LockValue)
    requires Surveyable(d, value) && id !in Ids(d) && f.content == Encoded(value)
    requires Progress(Claimed(d, id, f), now, id)
    requires !OwnerUnused(d, value.owner)
    ensures !Surveyable(now, value)
  {
    var c := Claimed(d, id, f);
    ProgressIds(c, now, id);
    var i :| i in Ids(d) && RecordOk(d, i) && ValueOf(d, i).owner == value.owner;
    assert i in Ids(now) && id in Ids(now) && i != id;
    assert RecordOk(c, i);
    assert RecordOk(now, id) ==> ValueOf(now, i).owner == ValueOf(now, id).owner;
  }

  /** A replacement that was claimed in the lock's place is never touched again, and blocks every later call. */
  lemma ForeignClaimStays(d: Dir, f: LockFile, id: Id, value: LockValue, lock: Option<LockFile>, drawn: Id)
    requires id !in Ids(d) && Decode(f.content) != Some(value)
    ensures var s := State(lock, Claimed(d, id, f)); Recovered(s, value, drawn) == (s, Raised)
  {
    var c := Claimed(d, id, f);
    assert id in Ids(c) && !Complete(c, id);
    assert RecordOk(c, id) ==> ValueOf(c, id) != value;
  }

  // ---- The call, effect by effect ----

  ghost predicate Lists(names: seq<Id>, d: Dir) {
    && (forall id :: id in names <==> id in Ids(d))
    && (forall i, j :: 0 <= i < j < |names| ==> names[i] != names[j])
  }

  /** The records met so far are fit: good, one per owner. */
  ghost predicate Fit(d: Dir, names: seq<Id>) {
    && (forall i :: 0 <= i < |names| ==> RecordOk(d, names[i]))
    && (forall i, j :: 0 <= i < j < |names| ==> ValueOf(d, names[i]).owner != ValueOf(d, names[j]).owner)
  }

  lemma FitIsSurveyable(d: Dir, names: seq<Id>, value: LockValue)
    requires Lists(names, d)
    ensures Surveyable(d, value) <==>
      Fit(d, names) && forall i :: 0 <= i < |names| && !Complete(d, names[i]) ==> ValueOf(d, names[i]) == value
  {
    hide RecordOk, Complete, Ids;
    if Surveyable(d, value) {
      assert forall i :: 0 <= i < |names| ==> names[i] in Ids(d);
    }
    if Fit(d, names) {
      forall i, j | i in Ids(d) && j in Ids(d) && ValueOf(d, i).owner == ValueOf(d, j).owner
        ensures i == j
      {
        var p :| 0 <= p < |names| && names[p] == i;
        var q :| 0 <= q < |names| && names[q] == j;
        assert p < q || q < p || p == q;
      }
    }
  }

  class IdentityRoot {
    var lock: Option<LockFile>
    var dir: Dir
    /** The process dies when `left` effects are done; a pending file it is then writing holds `partial`. */
    var left: nat
    var partial: Option<string>
    /** Nobody else touches the lock during this call. */
    var quiet: bool
    /** Every lock file that has stood at `lock`, and those that others took away. */
    ghost var placed: set<LockFile>
    ghost var removed: set<LockFile>

    constructor (lock: Option<LockFile>, dir: Dir, left: nat, partial: Option<string>, quiet: bool)
      ensures this.lock == lock && this.dir == dir && this.left == left && this.partial == partial
      ensures this.quiet == quiet
      ensures Kept() && removed == {}
    {
      this.lock, this.dir, this.left, this.partial, this.quiet := lock, dir, left, partial, quiet;
      placed := if lock.Some? then {lock.value} else {};
      removed := {};
    }

    /** Every lock content is at `lock` or in a tombstone, unless somebody else removed it. */
    ghost predicate Kept()
      reads this
    {
      && (forall f :: f in placed && f !in removed ==> lock == Some(f) || f in dir.tombs.Values)
      && (lock.Some? ==> lock.value in placed)
    }

    function Value(): State
      reads this
    {
      State(lock, dir)
    }

    /** Others may remove the lock, or put another file in its place. */
    method Meddle()
      requires Kept()
      modifies `lock, `placed, `removed
      ensures Kept() && placed >= old(placed) && removed >= old(removed)
      ensures quiet ==> lock == old(lock) && removed == old(removed)
      ensures forall f :: f in removed - old(removed) ==> old(lock) == Some(f)
    {
      if !quiet {
        var now: Option<LockFile> := *;
        removed := removed + if lock.Some? then {lock.value} else {};
        placed := placed + if now.Some? then {now.value} else {};
        lock := now;
      }
    }

    method Spend() returns (alive: bool)
      modifies `left
      ensures alive <==> old(left) > 0
      ensures left == if alive then old(left) - 1 else old(left)
    {
      alive := left > 0;
      if alive {
        left := left - 1;
      }
    }

    /** The loop over the records. */
    method Survey(value: LockValue, names: seq<Id>) returns (ok: bool, found: Option<Id>)
      requires Lists(names, dir)
      ensures ok <==> Surveyable(dir, value)
      ensures ok && found.Some? ==> Matches(dir, value, found.value)
      ensures ok && found.None? ==> !HasMatch(dir, value)
    {
      hide RecordOk, Complete, Surveyable, Ids, ValueOf;
      FitIsSurveyable(dir, names, value);
      var owners: set<string> := {};
      var incomplete: seq<Id> := [];
      found := None;
      for i := 0 to |names|
        invariant Fit(dir, names[..i])
        invariant forall o :: o in owners <==> exists j :: 0 <= j < i && ValueOf(dir, names[..i][j]).owner == o
        invariant forall j :: 0 <= j < i ==> (names[j] in incomplete <==> !Complete(dir, names[j]))
        invariant forall id :: id in incomplete ==> id in names[..i]
        invariant found.Some? ==>
          found.value in names[..i] && RecordOk(dir, found.value) && ValueOf(dir, found.value) == value
        invariant found.None? ==> forall j :: 0 <= j < i ==> ValueOf(dir, names[..i][j]) != value
      {
        var id := names[i];
        assert names[..i + 1] == names[..i] + [id];
        if !RecordOk(dir, id) || ValueOf(dir, id).owner in owners {
          return false, None;
        }
        owners := owners + {ValueOf(dir, id).owner};
        if !Complete(dir, id) {
          incomplete := incomplete + [id];
        }
        if ValueOf(dir, id) == value {
          found := Some(id);
        }
      }
      assert names[..|names|] == names;
      ok := forall id :: id in incomplete ==> found == Some(id);
    }

    /** `_write_identity_release_marker`: write the pending file, link it as the marker, unlink it. */
    method Publish(id: Id) returns (alive: bool)
      requires Kept() && id in dir.tombs && RecordOk(dir, id)
      modifies `dir, `left
      ensures Progress(old(dir), dir, id) && Kept()
      ensures alive ==> dir == Repaired(old(dir), id)
      ensures old(left) >= 3 ==> alive
    {
      var bytes := MarkerOf(id, dir.tombs[id].content);
      var current, staged := id in dir.markers, id in dir.pendings;
      if !current && !staged {
        alive := Spend();
        if !alive {
          if partial.Some? {
            dir := Staged(dir, id, Other(partial.value));
          }
          return;
        }
        dir := Staged(dir, id, bytes);
        staged := true;
      }
      if !current {
        alive := Spend();
        if !alive {
          return;
        }
        dir := dir.(markers := dir.markers[id := dir.pendings[id]]);
      }
      if staged {
        alive := Spend();
        if !alive {
          return;
        }
        dir := dir.(pendings := dir.pendings - {id});
      }
      alive := true;
    }

    /** Finish the one release of this value that is on record. */
    method Finish(value: LockValue, id: Id) returns (outcome: Option<Outcome>)
      requires Kept() && Surveyable(dir, value) && Matches(dir, value, id)
      modifies `dir, `left
      ensures Kept() && Progress(old(dir), dir, id)
      ensures outcome.None? || (outcome == Some(Returned(Unmarked(old(dir), id)))
                                && dir == if Complete(old(dir), id) then old(dir) else Repaired(old(dir), id))
      ensures old(left) >= 3 ==> outcome.Some?
    {
      var released := id in dir.markers;
      if !Complete(dir, id) {
        var alive := Publish(id);
        if !alive {
          return None;
        }
      }
      outcome := Some(Returned(!released));
    }

    /** Rename whatever stands at `lock`, and release it if it is the file seen before. */
    method Claim(first: LockFile, drawn: Id, value: LockValue)
      returns (outcome: Option<Outcome>, ghost claimed: Option<LockFile>)
      requires Kept() && first.content == Encoded(value)
      modifies `lock, `dir, `left
      ensures Kept()
      ensures claimed.None? ==> dir == old(dir) && lock == old(lock) && outcome != Some(Returned(true))
      ensures claimed.None? && old(left) > 0 && old(lock).Some? ==> drawn in Ids(dir) && outcome == Some(Raised)
      ensures claimed.Some? ==>
        && drawn !in Ids(old(dir)) && claimed == old(lock) && lock == None
        && Progress(Claimed(old(dir), drawn, claimed.value), dir, drawn)
      ensures claimed.Some? && dir != Claimed(old(dir), drawn, claimed.value) ==> claimed == Some(first)
      ensures claimed == Some(first) && old(left) >= 4 ==> outcome == Some(Returned(true))
      ensures outcome == Some(Returned(true)) ==>
        claimed.Some? && dir == Repaired(Claimed(old(dir), drawn, claimed.value), drawn)
      ensures outcome != Some(Returned(false))
    {
      claimed := None;
      if drawn in Ids(dir) {
        return Some(Raised), claimed;
      }
      var alive := Spend();
      if !alive {
        return None, claimed;
      }
      if lock.None? {
        return Some(Raised), claimed;
      }
      claimed := lock;
      var file := lock.value;
      lock, dir := None, Claimed(dir, drawn, file);
      TombsGrow(old(dir), drawn, file);
      assert Kept();
      if file != first {
        return Some(Raised), claimed;
      }
      alive := Publish(drawn);
      outcome := if alive then Some(Returned(true)) else None;
    }

    /**
     * `recover_identity_lock`: None when the process died. `base` and `id` say which release it worked on; a new one
     * is `drawn` and holds the file `claimed`.
     */
    method Recover(value: LockValue, drawn: Id, names: seq<Id>)
      returns (outcome: Option<Outcome>, ghost base: Dir, ghost id: Id, ghost claimed: Option<LockFile>)
      requires Kept() && Lists(names, dir)
      modifies this
      ensures Kept() && removed >= old(removed) && placed >= old(placed)
      ensures quiet == old(quiet) && (quiet ==> removed == old(removed))
      ensures quiet && old(left) >= 4 ==>
        && outcome.Some? && (Value(), outcome.value) == Recovered(old(Value()), value, drawn)
        && Leaves(old(Value()), value, drawn, Value(), outcome.value)
      ensures dir == old(dir) || (Progress(base, dir, id) && Surveyable(old(dir), value))
      ensures claimed.None? ==> base == old(dir)
      ensures claimed.None? && dir != old(dir) ==> Matches(old(dir), value, id)
      ensures claimed.Some? ==>
        id == drawn && drawn !in Ids(old(dir)) && base == Claimed(old(dir), drawn, claimed.value)
      ensures claimed.Some? && dir != base ==> claimed.value.content == Encoded(value)
      ensures outcome == Some(Returned(true)) ==> id in base.tombs && dir == Repaired(base, id)
    {
      hide RecordOk, Progress, Surveyable, Ids, Matches, HasMatch, Repaired, Leaves;
      RecoveredLeaves(Value(), value, drawn);
      base, id, claimed := dir, drawn, None;
      var ok, found := Survey(value, names);
      if !ok {
        return Some(Raised), base, id, claimed;
      }
      if found.Some? {
        id := found.value;
        RecoveredMatch(Value(), value, drawn, id);
        outcome := Finish(value, found.value);
        return;
      }
      Meddle();
      var first := lock;
      if first.None? {
        return Some(Returned(false)), base, id, claimed;
      }
      if first.value.content != Encoded(value) {
        return Some(Raised), base, id, claimed;
      }
      Meddle();
      if lock != first {
        return Some(Raised), base, id, claimed;
      }
      Meddle();
      outcome, claimed := Claim(first.value, drawn, value);
      if claimed.Some? {
        base := Claimed(base, drawn, claimed.value);
      }
    }
  }

  lemma TombsGrow(d: Dir, id: Id, f: LockFile)
    requires id !in Ids(d)
    ensures f in Claimed(d, id, f).tombs.Values && forall g :: g in d.tombs.Values ==>
      g in Claimed(d, id, f).tombs.Values
  {
    var c := Claimed(d, id, f);
    assert id in c.tombs;
    forall g | g in d.tombs.Values
      ensures g in c.tombs.Values
    {
      var i :| i in d.tombs && d.tombs[i] == g;
      assert i in c.tombs && c.tombs[i] == g;
    }
  }
}
