/**
 * Images, classification and the chain validator of the per-tenant department action:
 * tools/python/devex_clone_department_model.py.
 */
module DepartmentEvidence {
  import opened Options
  import opened Ordering

  /** A directory record; `facts` are its other fields. */
  datatype Dept = Dept(id: nat, name: string, facts: string)

  /** `valid` covers the envelope, the principals and the workbook, whose details are not modelled. */
  datatype Obs = Obs(valid: bool, items: seq<Dept>, paths: seq<string>)

  /** The planned department and the complete image that must precede it. */
  datatype Action = Action(name: string, facts: string, before: seq<Dept>, beforePaths: seq<string>)

  datatype Class = Before | After | Mismatch

  datatype Image = Image(directory: seq<Dept>, department: Option<Dept>, paths: seq<string>)

  // ---- Directories as sorted lists ----

  predicate ById(s: seq<Dept>) {
    forall i, j :: 0 <= i < j < |s| ==> s[i].id < s[j].id
  }

  predicate UniqueIds(s: seq<Dept>) {
    forall i, j :: 0 <= i < j < |s| ==> s[i].id != s[j].id
  }

  ghost function Records(s: seq<Dept>): set<Dept> {
    set d | d in s
  }

  function InsertById(d: Dept, s: seq<Dept>): (r: seq<Dept>)
    requires ById(s) && forall x :: x in s ==> x.id != d.id
    ensures ById(r) && forall x :: x in r <==> x == d || x in s
  {
    if s == [] then [d]
    else if d.id < s[0].id then FirstById(d, s); [d] + s
    else
      var rest := InsertById(d, s[1..]);
      TailById(d, s, rest);
      [s[0]] + rest
  }

  lemma FirstById(d: Dept, s: seq<Dept>)
    requires ById(s) && (s == [] || d.id < s[0].id)
    ensures ById([d] + s) && forall x :: x in [d] + s <==> x == d || x in s
  {
    var r := [d] + s;
    forall i, j | 0 <= i < j < |r|
      ensures r[i].id < r[j].id
    {
      assert r[j] == s[j - 1] && (i > 0 ==> r[i] == s[i - 1]);
    }
  }

  lemma TailById(d: Dept, s: seq<Dept>, rest: seq<Dept>)
    requires s != [] && ById(s) && s[0].id < d.id && ById(rest)
    requires forall x :: x in rest <==> x == d || x in s[1..]
    ensures ById([s[0]] + rest) && forall x :: x in [s[0]] + rest <==> x == d || x in s
  {
    assert s == [s[0]] + s[1..];
    forall x | x in rest
      ensures s[0].id < x.id
    {
      if x != d {
        var k :| 0 <= k < |s[1..]| && s[1..][k] == x;
      }
    }
    FirstById(s[0], rest);
  }

  /** `directory_image`: the records by ascending id. */
  function SortById(s: seq<Dept>): (r: seq<Dept>)
    requires UniqueIds(s)
    ensures ById(r) && Records(r) == Records(s)
  {
    if s == [] then []
    else
      var rest := SortById(s[1..]);
      assert s == [s[0]] + s[1..];
      assert forall x :: x in rest ==> x in Records(rest) && x in s[1..];
      assert forall x :: x in s[1..] ==> x in Records(s[1..]) && x in Records(rest);
      InsertById(s[0], rest)
  }

  lemma RecordsTail(s: seq<Dept>)
    requires ById(s) && s != []
    ensures Records(s[1..]) == Records(s) - {s[0]}
  {
    assert s == [s[0]] + s[1..];
    assert forall x :: x in s[1..] ==> x != s[0];
  }

  /** A directory sorted by distinct ids is determined by its records. */
  lemma {:induction false} ByIdUnique(a: seq<Dept>, b: seq<Dept>)
    requires ById(a) && ById(b) && Records(a) == Records(b)
    ensures a == b
  {
    assert a != [] ==> a[0] in Records(a);
    assert b != [] ==> b[0] in Records(b);
    if a != [] {
      RecordsTail(a);
      RecordsTail(b);
      ByIdUnique(a[1..], b[1..]);
      assert a == [a[0]] + a[1..] && b == [b[0]] + b[1..];
    }
  }

  predicate Named(a: Action, d: Dept) {
    d.name == a.name
  }

  function NamedIn(a: Action, s: seq<Dept>): (r: seq<Dept>)
    ensures forall d :: d in r <==> d in s && Named(a, d)
  {
    if s == [] then []
    else (if Named(a, s[0]) then [s[0]] else []) + NamedIn(a, s[1..])
  }

  /** `image`; None where the source raises. */
  function ImageOf(a: Action, o: Obs): Option<Image> {
    if !o.valid || !UniqueIds(o.items) then None
    else
      var directory := SortById(o.items);
      var matches := NamedIn(a, directory);
      if |matches| > 1 then None
      else if |matches| == 0 then Some(Image(directory, None, o.paths))
      else if matches[0].facts != a.facts then None
      else Some(Image(directory, Some(matches[0]), o.paths))
  }

  predicate ActionOk(a: Action) {
    && ById(a.before)
    && (forall d :: d in a.before ==> !Named(a, d))
    && a.name !in a.beforePaths
  }

  /** `after_directory`: the records before plus the new one, by ascending id. */
  function AfterDirectory(a: Action, d: Dept): seq<Dept>
    requires UniqueIds(a.before + [d])
  {
    SortById(a.before + [d])
  }

  function Classify(a: Action, i: Image): Class {
    if i.department.None? && i.directory == a.before && i.paths == a.beforePaths && a.name !in i.paths then Before
    else if && i.department.Some? && UniqueIds(a.before + [i.department.value])
            && i.directory == AfterDirectory(a, i.department.value) && i.paths == Sorted(a.beforePaths + [a.name])
    then After
    else Mismatch
  }

  /** The classification of an observation; None where `image` raises. */
  function ClassOf(a: Action, o: Obs): Option<Class> {
    var i := ImageOf(a, o);
    if i.None? then None else Some(Classify(a, i.value))
  }

  lemma NoneNamed(a: Action, s: seq<Dept>)
    requires forall d :: d in s ==> !Named(a, d)
    ensures NamedIn(a, s) == []
  {
    assert NamedIn(a, s) != [] ==> NamedIn(a, s)[0] in NamedIn(a, s);
  }

  /** The observed directory is the planned one, in whatever order it was listed. */
  lemma BeforeIsExactly(a: Action, o: Obs)
    requires ActionOk(a)
    ensures ClassOf(a, o) == Some(Before) <==>
      o.valid && UniqueIds(o.items) && Records(o.items) == Records(a.before) && o.paths == a.beforePaths
  {
    if o.valid && UniqueIds(o.items) && Records(o.items) == Records(a.before) {
      ByIdUnique(SortById(o.items), a.before);
      NoneNamed(a, a.before);
    }
  }

  lemma {:induction false} OnlyNamed(a: Action, s: seq<Dept>, d: Dept)
    requires ById(s) && Named(a, d) && forall x :: x in s && Named(a, x) ==> x == d
    ensures d in s ==> NamedIn(a, s) == [d]
  {
    if s != [] {
      assert s == [s[0]] + s[1..];
      if s[0] == d {
        NoneNamed(a, s[1..]);
      } else {
        OnlyNamed(a, s[1..], d);
      }
    }
  }

  lemma UniqueGrows(before: seq<Dept>, d: Dept)
    requires ById(before)
    ensures UniqueIds(before + [d]) <==> forall x :: x in before ==> x.id != d.id
    ensures Records(before + [d]) == Records(before) + {d}
  {
    if UniqueIds(before + [d]) {
      forall x | x in before
        ensures x.id != d.id
      {
        var i :| 0 <= i < |before| && before[i] == x;
        assert (before + [d])[i] == x && (before + [d])[|before|] == d;
      }
    }
  }

  /** The records are those of the plan and one more, the planned department. */
  ghost predicate OneMore(a: Action, items: seq<Dept>, d: Dept) {
    && Named(a, d) && d.facts == a.facts
    && (forall x :: x in a.before ==> x.id != d.id)
    && Records(items) == Records(a.before) + {d}
  }

  lemma OneMoreImage(a: Action, o: Obs, d: Dept)
    requires ActionOk(a) && o.valid && UniqueIds(o.items) && OneMore(a, o.items, d)
    ensures UniqueIds(a.before + [d]) && ImageOf(a, o) == Some(Image(AfterDirectory(a, d), Some(d), o.paths))
  {
    UniqueGrows(a.before, d);
    var directory := SortById(o.items);
    ByIdUnique(directory, AfterDirectory(a, d));
    assert forall x :: x in directory ==> x in Records(directory);
    assert d in Records(directory);
    OnlyNamed(a, directory, d);
  }

  /** The observed directory is the planned one plus exactly one record, the planned department. */
  lemma AfterIsExactly(a: Action, o: Obs)
    requires ActionOk(a)
    ensures ClassOf(a, o) == Some(After) <==>
      && o.valid && UniqueIds(o.items) && o.paths == Sorted(a.beforePaths + [a.name])
      && exists d :: OneMore(a, o.items, d)
  {
    if ClassOf(a, o) == Some(After) {
      var d := ImageOf(a, o).value.department.value;
      UniqueGrows(a.before, d);
      assert d in NamedIn(a, SortById(o.items));
      assert OneMore(a, o.items, d);
    }
    if o.valid && UniqueIds(o.items) && o.paths == Sorted(a.beforePaths + [a.name]) && exists d :: OneMore(a, o.items, d) {
      var d :| OneMore(a, o.items, d);
      OneMoreImage(a, o, d);
    }
  }

  // ---- Evidence files of one attempt ----

  /** A write-once evidence file; a crash inside its write leaves it torn, which no reader accepts. */
  datatype File<+T> = Absent | Torn | Whole(value: T)

  /** The write intent binds its idempotency key and the before image it was granted on. */
  datatype Intent = Intent(key: string, before: Obs)

  /** `valid`: a success envelope from the planned principal that carries the planned department. */
  datatype Response = Response(valid: bool, created: Dept)

  datatype Proof = Proof(intent: Intent, number: nat, observed: Obs, state: Class)

  datatype Confirmation = Confirmation(number: nat, observed: Obs, proven: bool, reconcile: nat)

  /** The files of one attempt directory; `observed-N` and `reconcile-N` by their run number. */
  datatype Attempt = Attempt(
    before: File<Obs>, intent: File<Intent>, response: File<Response>,
    observed: map<nat, File<Obs>>, reconciles: map<nat, File<Proof>>, confirmed: File<Confirmation>)

  const EmptyAttempt := Attempt(Absent, Absent, Absent, map[], map[], Absent)

  predicate IntentOk(t: Attempt) {
    t.intent.Whole? && t.before == Whole(t.intent.value.before)
  }

  predicate ProvesBefore(a: Action, t: Attempt) {
    t.before.Whole? && ClassOf(a, t.before.value) == Some(Before)
  }

  /** `reconciliation` accepts `reconcile-n` with its recorded state. */
  predicate ReconcileOk(a: Action, t: Attempt, n: nat)
    requires n in t.reconciles
  {
    && t.reconciles[n].Whole? && IntentOk(t)
    && var p := t.reconciles[n].value;
       && p.intent == t.intent.value && p.number == n
       && n in t.observed && t.observed[n] == Whole(p.observed)
       && ClassOf(a, p.observed) == Some(p.state) && p.state != Mismatch
  }

  predicate ReconciledAs(a: Action, t: Attempt, n: nat, state: Class)
    requires n in t.reconciles
  {
    ReconcileOk(a, t, n) && t.reconciles[n].value.state == state
  }

  predicate ResponseOk(t: Attempt) {
    t.response.Whole? && t.response.value.valid
  }

  predicate ConfirmationOk(a: Action, t: Attempt) {
    && t.confirmed.Whole? && IntentOk(t) && ProvesBefore(a, t)
    && var c := t.confirmed.value;
       && ClassOf(a, c.observed) == Some(After)
       && c.number in t.observed && t.observed[c.number] == Whole(c.observed)
       && if c.proven then ResponseOk(t) && ImageOf(a, c.observed).value.department == Some(t.response.value.created)
          else c.reconcile in t.reconciles
               && t.reconciles[c.reconcile] == Whole(Proof(t.intent.value, c.number, c.observed, After))
  }

  /** What `action_history` asks of one attempt. */
  predicate AttemptOk(a: Action, t: Attempt, last: bool) {
    && (t.before != Absent ==> ProvesBefore(a, t))
    && if t.intent == Absent then
         !last && t.response == Absent && t.observed == map[] && t.reconciles == map[] && t.confirmed == Absent
       else
         && IntentOk(t)
         && (t.response != Absent ==> ResponseOk(t))
         && (forall n :: n in t.reconciles ==> ReconcileOk(a, t, n))
         && if t.confirmed != Absent then
              last && ConfirmationOk(a, t) && (t.response != Absent <==> t.confirmed.value.proven)
            else
              && t.response == Absent && !last && t.reconciles != map[]
              && forall n :: n in t.reconciles ==> ReconciledAs(a, t, n, Before)
  }

  predicate OneKey(attempts: seq<Attempt>) {
    forall i, j :: 0 <= i < |attempts| && 0 <= j < |attempts| && attempts[i].intent.Whole? && attempts[j].intent.Whole?
      ==> attempts[i].intent.value.key == attempts[j].intent.value.key
  }

  /** `action_history` accepts the chain. */
  predicate HistoryOk(a: Action, attempts: seq<Attempt>) {
    && (forall i :: 0 <= i < |attempts| ==> AttemptOk(a, attempts[i], i == |attempts| - 1))
    && OneKey(attempts)
    && attempts != [] && attempts[|attempts| - 1].confirmed != Absent
  }

  /** The body of the loop of `action_history`, without the key. */
  method CheckAttempt(a: Action, t: Attempt, last: bool) returns (accepted: bool)
    ensures accepted <==> AttemptOk(a, t, last)
  {
    hide ClassOf, ImageOf, ReconcileOk, ConfirmationOk;
    if t.before != Absent && !ProvesBefore(a, t) {
      return false;
    }
    if t.intent == Absent {
      return !last && t.response == Absent && t.observed == map[] && t.reconciles == map[] && t.confirmed == Absent;
    }
    if !IntentOk(t) || (t.response != Absent && !ResponseOk(t)) {
      return false;
    }
    if exists n :: n in t.reconciles && !ReconcileOk(a, t, n) {
      return false;
    }
    if t.confirmed != Absent {
      if !last || !ConfirmationOk(a, t) {
        return false;
      }
      assert t.confirmed.Whole? by { ConfirmedWhole(a, t); }
      return (t.response != Absent) == t.confirmed.value.proven;
    }
    accepted := t.response == Absent && !last && t.reconciles != map[]
                && forall n :: n in t.reconciles ==> ReconciledAs(a, t, n, Before);
  }

  lemma ConfirmedWhole(a: Action, t: Attempt)
    requires ConfirmationOk(a, t)
    ensures t.confirmed.Whole?
  {
  }

  /** `action_history` as a loop carrying the first key. */
  method ActionHistory(a: Action, attempts: seq<Attempt>) returns (accepted: bool)
    ensures accepted <==> HistoryOk(a, attempts)
  {
    hide AttemptOk;
    var key: Option<string> := None;
    for i := 0 to |attempts|
      invariant forall j :: 0 <= j < i ==> AttemptOk(a, attempts[j], j == |attempts| - 1)
      invariant forall j :: 0 <= j < i && attempts[j].intent.Whole? ==> key == Some(attempts[j].intent.value.key)
      invariant key.Some? ==>
        exists j :: 0 <= j < i && attempts[j].intent.Whole? && attempts[j].intent.value.key == key.value
    {
      var ok := CheckAttempt(a, attempts[i], i == |attempts| - 1);
      if !ok {
        return false;
      }
      if attempts[i].intent.Whole? {
        key := if key.None? then Some(attempts[i].intent.value.key) else key;
        if attempts[i].intent.value.key != key.value {
          return false;
        }
      }
    }
    accepted := attempts != [] && attempts[|attempts| - 1].confirmed != Absent;
  }

  /** An accepted chain: one key, only the last attempt confirmed, every earlier intent reconciled as before. */
  lemma AcceptedChain(a: Action, attempts: seq<Attempt>, i: nat)
    requires HistoryOk(a, attempts) && i < |attempts|
    ensures attempts[i].confirmed != Absent <==> i == |attempts| - 1
    ensures i < |attempts| - 1 && attempts[i].intent != Absent ==>
      && attempts[i].response == Absent && attempts[i].reconciles != map[]
      && forall n :: n in attempts[i].reconciles ==> ReconciledAs(a, attempts[i], n, Before)
    ensures attempts[|attempts| - 1].intent.Whole?
    ensures attempts[i].intent != Absent ==>
      attempts[i].intent.Whole? && attempts[i].intent.value.key == attempts[|attempts| - 1].intent.value.key
  {
    assert AttemptOk(a, attempts[i], i == |attempts| - 1);
    assert AttemptOk(a, attempts[|attempts| - 1], true);
  }

  // ---- The same on the records themselves ----

  ghost predicate ShowsBefore(a: Action, o: Obs) {
    o.valid && UniqueIds(o.items) && Records(o.items) == Records(a.before) && o.paths == a.beforePaths
  }

  /** Exactly the planned department was created, as `d`. */
  ghost predicate ShowsAfter(a: Action, o: Obs, d: Dept) {
    o.valid && UniqueIds(o.items) && o.paths == Sorted(a.beforePaths + [a.name]) && OneMore(a, o.items, d)
  }

  lemma AfterShows(a: Action, o: Obs, d: Dept)
    requires ActionOk(a)
    ensures ClassOf(a, o) == Some(After) && ImageOf(a, o).value.department == Some(d) <==> ShowsAfter(a, o, d)
  {
    if ShowsAfter(a, o, d) {
      OneMoreImage(a, o, d);
      AfterIsExactly(a, o);
    }
    if ClassOf(a, o) == Some(After) && ImageOf(a, o).value.department == Some(d) {
      AfterIsExactly(a, o);
      UniqueGrows(a.before, d);
      assert d in NamedIn(a, SortById(o.items));
    }
  }

  lemma AfterShowsSome(a: Action, o: Obs)
    requires ActionOk(a)
    ensures ClassOf(a, o) == Some(After) <==> exists d :: ShowsAfter(a, o, d)
  {
    hide ClassOf, ImageOf;
    AfterIsExactly(a, o);
    assert forall d :: o.valid && UniqueIds(o.items) && o.paths == Sorted(a.beforePaths + [a.name]) ==>
      (OneMore(a, o.items, d) <==> ShowsAfter(a, o, d));
  }

  /** The proof is of this write, and what was observed then is what it says. */
  ghost predicate Proves(a: Action, t: Attempt, n: nat)
    requires n in t.reconciles && t.intent.Whole?
  {
    && t.reconciles[n].Whole?
    && var p := t.reconciles[n].value;
       && p.intent == t.intent.value && p.number == n && n in t.observed && t.observed[n] == Whole(p.observed)
       && ((p.state == Before && ShowsBefore(a, p.observed))
           || (p.state == After && exists d :: ShowsAfter(a, p.observed, d)))
  }

  /** The confirmation names an observation of exactly the created department, and how that was proven. */
  ghost predicate Confirmed(a: Action, t: Attempt)
    requires t.intent.Whole?
  {
    && t.confirmed.Whole?
    && var c := t.confirmed.value;
       && c.number in t.observed && t.observed[c.number] == Whole(c.observed)
       && if t.response != Absent then
            c.proven && t.response.Whole? && t.response.value.valid && ShowsAfter(a, c.observed, t.response.value.created)
          else
            && !c.proven && c.reconcile in t.reconciles
            && t.reconciles[c.reconcile] == Whole(Proof(t.intent.value, c.number, c.observed, After))
            && exists d :: ShowsAfter(a, c.observed, d)
  }

  /** All that an attempt holds is whole, belongs together, and shows the planned directory before and after. */
  ghost predicate Evidenced(a: Action, t: Attempt, last: bool) {
    && (t.before != Absent ==> t.before.Whole? && ShowsBefore(a, t.before.value))
    && if t.intent == Absent then !last && t == EmptyAttempt.(before := t.before)
       else
         && t.intent.Whole? && t.before == Whole(t.intent.value.before)
         && (forall n :: n in t.reconciles ==> Proves(a, t, n))
         && if t.confirmed != Absent then last && Confirmed(a, t)
            else
              && !last && t.response == Absent && t.reconciles != map[]
              && forall n :: n in t.reconciles ==> t.reconciles[n].Whole? && t.reconciles[n].value.state == Before
  }

  lemma ProvesIff(a: Action, t: Attempt, n: nat)
    requires ActionOk(a) && n in t.reconciles && IntentOk(t)
    ensures ReconcileOk(a, t, n) <==> Proves(a, t, n)
  {
    hide ClassOf, ImageOf, ShowsBefore, ShowsAfter;
    if t.reconciles[n].Whole? {
      BeforeShows(a, t.reconciles[n].value.observed);
      AfterShowsSome(a, t.reconciles[n].value.observed);
    }
  }

  lemma BeforeShows(a: Action, o: Obs)
    requires ActionOk(a)
    ensures ClassOf(a, o) == Some(Before) <==> ShowsBefore(a, o)
  {
    BeforeIsExactly(a, o);
  }

  lemma ConfirmedIff(a: Action, t: Attempt)
    requires ActionOk(a) && IntentOk(t) && ProvesBefore(a, t)
    ensures Confirmed(a, t) <==>
      && t.confirmed.Whole? && ConfirmationOk(a, t) && (t.response != Absent ==> ResponseOk(t))
      && (t.response != Absent <==> t.confirmed.value.proven)
  {
    hide ClassOf, ImageOf, ShowsBefore, ShowsAfter;
    if t.confirmed.Whole? {
      var o := t.confirmed.value.observed;
      AfterShowsSome(a, o);
      if t.response.Whole? {
        AfterShows(a, o, t.response.value.created);
      }
    }
  }

  /** The validator accepts an attempt exactly when its files are the evidence of one write. */
  lemma AttemptExactly(a: Action, t: Attempt, last: bool)
    requires ActionOk(a)
    ensures AttemptOk(a, t, last) <==> Evidenced(a, t, last)
  {
    hide ClassOf, ImageOf, ShowsBefore, ConfirmationOk, Confirmed, Proves, ReconcileOk;
    if t.before.Whole? {
      BeforeShows(a, t.before.value);
    }
    if IntentOk(t) && ProvesBefore(a, t) {
      forall n | n in t.reconciles
        ensures ReconcileOk(a, t, n) <==> Proves(a, t, n)
        ensures ReconcileOk(a, t, n) ==> t.reconciles[n].Whole?
      {
        ProvesIff(a, t, n);
        ProofWhole(a, t, n);
      }
      ConfirmedIff(a, t);
      ConfirmationWhole(a, t);
    }
  }

  lemma ProofWhole(a: Action, t: Attempt, n: nat)
    requires n in t.reconciles
    ensures ReconcileOk(a, t, n) ==> t.reconciles[n].Whole?
  {
  }

  lemma ConfirmationWhole(a: Action, t: Attempt)
    ensures ConfirmationOk(a, t) ==> t.confirmed.Whole?
    ensures t.intent.Whole? && Confirmed(a, t) ==> t.confirmed.Whole?
  {
  }

  /** A chain is accepted exactly when every attempt is evidence of one write under one key, and the last is confirmed. */
  lemma HistoryExactly(a: Action, attempts: seq<Attempt>)
    requires ActionOk(a)
    ensures HistoryOk(a, attempts) <==>
      && attempts != [] && attempts[|attempts| - 1].confirmed != Absent && OneKey(attempts)
      && forall i :: 0 <= i < |attempts| ==> Evidenced(a, attempts[i], i == |attempts| - 1)
  {
    hide AttemptOk, Evidenced, OneKey;
    forall i | 0 <= i < |attempts|
      ensures AttemptOk(a, attempts[i], i == |attempts| - 1) <==> Evidenced(a, attempts[i], i == |attempts| - 1)
    {
      AttemptExactly(a, attempts[i], i == |attempts| - 1);
    }
  }
}
