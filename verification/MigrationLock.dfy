/** The append-only lock of frozen migrations: tools/python/check_migration_history.py. */
module MigrationLock {
  import opened Options
  import opened Ordering

  // ---- Paths ----

  function Under(crate: string, directory: string): string {
    "crates" + "/" + crate + "/" + "src" + "/" + directory + "/"
  }

  const CONTROL := Under("ryframe-db", "migration")
  const TENANT := Under("ryframe-tenant-db", "migration")
  const CONTROL_GENERATED := Under("ryframe-db", "generated")
  const TENANT_GENERATED := Under("ryframe-tenant-db", "generated")
  const CONTROL_BASELINE := "m20260820_000000_control_baseline"
  const TENANT_BASELINE := "m20260820_000000_tenant_baseline"

  /** The parts of a POSIX path: empty ones and `.` drop out. */
  function Parts(s: string): seq<string> {
    PartsFrom(s, "")
  }

  function PartsFrom(s: string, part: string): seq<string>
    decreases |s|
  {
    if s == "" then Kept(part)
    else if s[0] == '/' then Kept(part) + PartsFrom(s[1..], "")
    else PartsFrom(s[1..], part + [s[0]])
  }

  function Kept(part: string): seq<string> {
    if part == "" || part == "." then [] else [part]
  }

  function Posix(parts: seq<string>): string {
    if parts == [] then ""
    else if |parts| == 1 then parts[0]
    else parts[0] + "/" + Posix(parts[1..])
  }

  predicate AllIn(s: string, from: char, to: char) {
    forall c :: c in s ==> from <= c <= to
  }

  predicate LabelChar(c: char) {
    'a' <= c <= 'z' || '0' <= c <= '9' || c == '_'
  }

  /** `m`, eight digits, `_`, six digits, `_`, and a label. */
  predicate MigrationName(s: string) {
    && |s| >= 18 && s[0] == 'm' && AllIn(s[1..9], '0', '9') && s[9] == '_' && AllIn(s[10..16], '0', '9') && s[16] == '_'
    && 'a' <= s[17] <= 'z' && forall c :: c in s[18..] ==> LabelChar(c)
  }

  predicate RustFile(name: string) {
    |name| > 3 && name[|name| - 3..] == ".rs"
  }

  /** The last dot before `n`, or -1. */
  function LastDot(name: string, n: nat): int
    requires n <= |name|
  {
    if n == 0 then -1 else if name[n - 1] == '.' then n - 1 else LastDot(name, n - 1)
  }

  /** The name without its suffix; a dot that leads or ends the name starts none. */
  function Stem(name: string): string {
    var i := LastDot(name, |name|);
    if 0 < i < |name| - 1 then name[..i] else name
  }

  datatype Identity = Identity(storage: string, target: string)

  /** A migration is a file named after it, or the files of a directory named after it. */
  function Handwritten(storage: string, rest: seq<string>): Option<Identity> {
    if rest == [] then None
    else
      var target := if |rest| > 1 then rest[0] else Stem(rest[0]);
      if MigrationName(target) then Some(Identity(storage, target)) else None
  }

  function Generated(storage: string, rest: seq<string>): Option<Identity> {
    if |rest| == 2 && rest[1] == "migration.rs" then Some(Identity(storage, "resource:" + rest[0] + ":initial")) else None
  }

  /** `lock_identity`: storage and target follow from the path; None where it raises. */
  function LockIdentity(path: string): Option<Identity> {
    var parts := Parts(path);
    if |parts| <= 4 || parts[0] != "crates" || parts[2] != "src" then None
    else if parts[1] == "ryframe-db" && parts[3] == "migration" then Handwritten("control", parts[4..])
    else if parts[1] == "ryframe-tenant-db" && parts[3] == "migration" then Handwritten("tenant-data", parts[4..])
    else if parts[1] == "ryframe-db" && parts[3] == "generated" then Generated("control", parts[4..])
    else if parts[1] == "ryframe-tenant-db" && parts[3] == "generated" then Generated("tenant-data", parts[4..])
    else None
  }

  /** `safe_locked_path`, as the path relative to the root; None where it raises. */
  function SafePath(value: string): Option<string> {
    var parts := Parts(value);
    if (value != "" && value[0] == '/') || ".." in parts then None
    else if !(CONTROL <= value || TENANT <= value || CONTROL_GENERATED <= value || TENANT_GENERATED <= value) then None
    else if parts == [] || !RustFile(parts[|parts| - 1]) || LockIdentity(value).None? then None
    else Some(Posix(parts))
  }

  // ---- Locks and trees ----

  /** SHA-256 as an injective constructor; `Other` is a well-formed digest of no content at hand. */
  datatype Digest = Sha(content: string) | Other(text: string)

  /** Fields are None where they are missing or of the wrong shape. */
  datatype RawEntry =
    | RawEntry(path: Option<string>, sha256: Option<Digest>, storage: Option<string>, target: Option<string>)
    | NotATable

  /** A TOML value: text, or anything else, with one token for all values that compare equal. */
  datatype Toml = Text(text: string) | Value(token: string)

  datatype Document = Document(version: int, frozenAt: Option<Toml>, files: Option<seq<RawEntry>>)

  datatype LockFile = Missing | Unparsable | Parsed(document: Document)

  /** A commit or a working tree: the migration sources and the lock. */
  datatype Tree = Tree(files: map<string, string>, lock: LockFile)

  datatype Entry = Entry(relative: string, sha256: Digest, storage: string, target: string)

  /** One entry, by the checks of `parse_lock` that look at it alone. */
  function EntryOf(raw: RawEntry): Option<Entry> {
    if raw.NotATable? || raw.path.None? || raw.sha256.None? then None
    else
      var relative := SafePath(raw.path.value);
      if relative.None? then None
      else
        var identity := LockIdentity(relative.value);
        if identity.None? || raw.storage != Some(identity.value.storage) || raw.target != Some(identity.value.target) then None
        else Some(Entry(relative.value, raw.sha256.value, identity.value.storage, identity.value.target))
  }

  predicate DistinctPaths(entries: seq<Entry>) {
    forall i, j :: 0 <= i < j < |entries| ==> entries[i].relative != entries[j].relative
  }

  /** The raw entries are sound one by one, and these are what they say. */
  predicate Reads(files: seq<RawEntry>, entries: seq<Entry>) {
    |entries| == |files| && forall i :: 0 <= i < |files| ==> EntryOf(files[i]) == Some(entries[i])
  }

  /** `parse_lock` finds no fault, and these are the entries. */
  predicate Locks(lock: LockFile, entries: seq<Entry>) {
    && lock.Parsed? && lock.document.version == 1 && lock.document.files.Some? && lock.document.files.value != []
    && Reads(lock.document.files.value, entries) && DistinctPaths(entries)
  }

  lemma LocksOnce(lock: LockFile, d: seq<Entry>, e: seq<Entry>)
    requires Locks(lock, d) && Locks(lock, e)
    ensures d == e
  {
    var files := lock.document.files.value;
    assert forall i :: 0 <= i < |files| ==> EntryOf(files[i]) == Some(d[i]) && EntryOf(files[i]) == Some(e[i]);
  }

  /** An entry of a clean lock names the storage and the target that its path implies. */
  lemma LockedIdentity(lock: LockFile, entries: seq<Entry>, i: nat)
    requires Locks(lock, entries) && i < |entries|
    ensures LockIdentity(entries[i].relative) == Some(Identity(entries[i].storage, entries[i].target))
  {
    assert EntryOf(lock.document.files.value[i]) == Some(entries[i]);
  }

  /** An unsound or repeated entry leaves no clean reading. */
  lemma Spoiled(lock: LockFile, entries: seq<Entry>, i: nat, e: seq<Entry>)
    requires lock.Parsed? && lock.document.files.Some? && i < |lock.document.files.value|
    requires Reads(lock.document.files.value[..i], entries)
    requires var entry := EntryOf(lock.document.files.value[i]);
             entry.None? || exists j :: 0 <= j < i && entries[j].relative == entry.value.relative
    ensures !Locks(lock, e)
  {
    hide EntryOf, Locks;
    var files := lock.document.files.value;
    if Locks(lock, e) {
      LocksAll(lock, e);
      if EntryOf(files[i]).Some? {
        var j :| 0 <= j < i && entries[j].relative == EntryOf(files[i]).value.relative;
        RepeatedPath(files, entries, i, j, e);
      }
    }
  }

  lemma LocksAll(lock: LockFile, e: seq<Entry>)
    requires Locks(lock, e)
    ensures lock.Parsed? && lock.document.files.Some? && Reads(lock.document.files.value, e) && DistinctPaths(e)
  {
  }

  lemma RepeatedPath(files: seq<RawEntry>, entries: seq<Entry>, i: nat, j: nat, e: seq<Entry>)
    requires j < i < |files| && Reads(files[..i], entries) && Reads(files, e)
    requires EntryOf(files[i]).Some? && entries[j].relative == EntryOf(files[i]).value.relative
    ensures !DistinctPaths(e)
  {
    hide EntryOf;
    assert EntryOf(files[..i][j]) == Some(entries[j]);
    assert e[i].relative == e[j].relative;
  }

  /** `parse_lock` and `load_lock`: the loop over the entries; `clean` when it found no error. */
  method ParseLock(lock: LockFile) returns (clean: bool, entries: seq<Entry>)
    ensures clean <==> exists e :: Locks(lock, e)
    ensures clean ==> Locks(lock, entries)
  {
    entries := [];
    if !lock.Parsed? || lock.document.version != 1 || lock.document.files.None? || lock.document.files.value == [] {
      return false, [];
    }
    hide EntryOf, Reads, DistinctPaths, Locks, Remembers;
    var files := lock.document.files.value;
    var seen: set<string> := {};
    NothingRead(files);
    for i := 0 to |files|
      invariant |entries| == i && Reads(files[..i], entries) && DistinctPaths(entries)
      invariant Remembers(seen, entries)
    {
      var entry := EntryOf(files[i]);
      if entry.Some? {
        Remembered(seen, entries, entry.value);
      }
      if entry.None? || entry.value.relative in seen {
        forall e: seq<Entry>
          ensures !Locks(lock, e)
        {
          Spoiled(lock, entries, i, e);
        }
        return false, [];
      }
      OneMoreRead(files, entries, entry.value);
      seen := seen + {entry.value.relative};
      entries := entries + [entry.value];
    }
    assert files[..|files|] == files;
    AllRead(lock, entries);
    clean := true;
  }

  ghost predicate Remembers(seen: set<string>, entries: seq<Entry>) {
    forall p :: p in seen <==> exists j :: 0 <= j < |entries| && entries[j].relative == p
  }

  lemma Remembered(seen: set<string>, entries: seq<Entry>, entry: Entry)
    requires Remembers(seen, entries)
    ensures entry.relative in seen <==> exists j :: 0 <= j < |entries| && entries[j].relative == entry.relative
    ensures Remembers(seen + {entry.relative}, entries + [entry])
  {
    var more := entries + [entry];
    forall p
      ensures p in seen + {entry.relative} <==> exists j :: 0 <= j < |more| && more[j].relative == p
    {
      if p in seen {
        var j :| 0 <= j < |entries| && entries[j].relative == p;
        assert more[j].relative == p;
      }
      assert more[|entries|].relative == entry.relative;
    }
  }

  lemma NothingRead(files: seq<RawEntry>)
    ensures Reads(files[..0], []) && DistinctPaths([]) && Remembers({}, [])
  {
  }

  lemma OneMoreRead(files: seq<RawEntry>, entries: seq<Entry>, entry: Entry)
    requires |entries| < |files| && Reads(files[..|entries|], entries) && DistinctPaths(entries)
    requires EntryOf(files[|entries|]) == Some(entry)
    requires forall j :: 0 <= j < |entries| ==> entries[j].relative != entry.relative
    ensures Reads(files[..|entries| + 1], entries + [entry]) && DistinctPaths(entries + [entry])
  {
    hide EntryOf;
    assert forall i :: 0 <= i < |entries| ==> files[..|entries| + 1][i] == files[..|entries|][i];
  }

  lemma AllRead(lock: LockFile, entries: seq<Entry>)
    requires lock.Parsed? && lock.document.version == 1 && lock.document.files.Some? && lock.document.files.value != []
    requires Reads(lock.document.files.value, entries) && DistinctPaths(entries)
    ensures Locks(lock, entries)
  {
  }

  /** Every frozen file is there with its digest. */
  predicate Verified(entries: seq<Entry>, files: map<string, string>) {
    forall i :: 0 <= i < |entries| ==>
      entries[i].relative in files && Sha(files[entries[i].relative]) == entries[i].sha256
  }

  /** `verify_lock` after a clean load. */
  method VerifyLock(entries: seq<Entry>, files: map<string, string>) returns (ok: bool)
    ensures ok <==> Verified(entries, files)
  {
    ok := true;
    for i := 0 to |entries|
      invariant ok <==> Verified(entries[..i], files)
    {
      var e := entries[i];
      assert entries[..i + 1] == entries[..i] + [e];
      if e.relative !in files || Sha(files[e.relative]) != e.sha256 {
        assert !Verified(entries[..i + 1], files) by { assert entries[..i + 1][i] == e; }
        ok := false;
      }
    }
    assert entries[..|entries|] == entries;
  }

  // ---- Against the trusted commit ----

  predicate Baseline(target: string) {
    target == CONTROL_BASELINE || target == TENANT_BASELINE
  }

  predicate Freezes(entries: seq<Entry>, relative: string, content: string) {
    exists i :: 0 <= i < |entries| && entries[i].relative == relative && entries[i].sha256 == Sha(content)
  }

  /**
   * `verify_bootstrap_lock`: without an older lock, the commit holds only baselines, and all of them are frozen as
   * they are.
   */
  predicate Bootstraps(entries: seq<Entry>, files: map<string, string>) {
    forall path :: path in files && LockIdentity(path).Some? ==>
      Baseline(LockIdentity(path).value.target) && Freezes(entries, path, files[path])
  }

  predicate Targets(entries: seq<Entry>, storage: string, target: string) {
    exists i :: 0 <= i < |entries| && entries[i].storage == storage && entries[i].target == target
  }

  /** An entry that may be added: its file is not committed yet, and its target was never frozen. */
  predicate MayAdd(trusted: seq<Entry>, files: map<string, string>, e: Entry) {
    e.relative !in files && !Targets(trusted, e.storage, e.target)
  }

  /** The entries start with the trusted ones, whose files are as frozen, and only new migrations follow. */
  predicate Appends(entries: seq<Entry>, trusted: seq<Entry>, files: map<string, string>) {
    && trusted <= entries && Verified(trusted, files)
    && forall i :: |trusted| <= i < |entries| ==> MayAdd(trusted, files, entries[i])
  }

  /** `verify_trusted_head_lock` reports nothing. */
  ghost predicate Trusted(document: Document, entries: seq<Entry>, head: Tree) {
    if head.lock.Missing? then Bootstraps(entries, head.files)
    else exists trusted :: Locks(head.lock, trusted) && document.frozenAt == head.lock.document.frozenAt && Appends(entries, trusted, head.files)
  }

  /** `verify_bootstrap_lock`; `paths` lists the commit. */
  method VerifyBootstrap(entries: seq<Entry>, files: map<string, string>, paths: seq<string>) returns (ok: bool)
    requires forall p :: p in paths <==> p in files
    requires DistinctPaths(entries)
    ensures ok <==> Bootstraps(entries, files)
  {
    hide LockIdentity, Baseline;
    ok := true;
    for k := 0 to |paths|
      invariant ok <==> forall j :: 0 <= j < k && LockIdentity(paths[j]).Some? ==>
        Baseline(LockIdentity(paths[j]).value.target) && Freezes(entries, paths[j], files[paths[j]])
    {
      var identity := LockIdentity(paths[k]);
      if identity.Some? && !(Baseline(identity.value.target) && Freezes(entries, paths[k], files[paths[k]])) {
        ok := false;
      }
    }
    assert forall p :: p in files ==> exists j :: 0 <= j < |paths| && paths[j] == p;
  }

  /** `verify_trusted_head_lock`. */
  method VerifyTrusted(document: Document, entries: seq<Entry>, head: Tree, paths: seq<string>) returns (ok: bool)
    requires DistinctPaths(entries) && forall p :: p in paths <==> p in head.files
    ensures ok <==> Trusted(document, entries, head)
  {
    hide LockIdentity, EntryOf, Locks, MayAdd, Bootstraps;
    if head.lock.Missing? {
      ok := VerifyBootstrap(entries, head.files, paths);
      return;
    }
    var clean, trusted := ParseLock(head.lock);
    if !clean {
      return false;
    }
    forall t | Locks(head.lock, t)
      ensures t == trusted
    {
      LocksOnce(head.lock, t, trusted);
    }
    if |entries| < |trusted| {
      return false;
    }
    LockIsParsed(head.lock, trusted);
    ok := document.frozenAt == head.lock.document.frozenAt;
    ghost var same := ok;
    for i := 0 to |trusted|
      invariant ok <==> same && trusted[..i] <= entries && Verified(trusted[..i], head.files)
    {
      PrefixStep(trusted, entries, i, head.files);
      var e := trusted[i];
      if entries[i] != e || e.relative !in head.files || Sha(head.files[e.relative]) != e.sha256 {
        ok := false;
      }
    }
    assert trusted[..|trusted|] == trusted;
    ghost var sofar := ok;
    for i := |trusted| to |entries|
      invariant ok <==> sofar && forall j :: |trusted| <= j < i ==> MayAdd(trusted, head.files, entries[j])
    {
      if !MayAdd(trusted, head.files, entries[i]) {
        ok := false;
      }
    }
  }

  lemma LockIsParsed(lock: LockFile, entries: seq<Entry>)
    requires Locks(lock, entries)
    ensures lock.Parsed? && DistinctPaths(entries)
  {
  }

  lemma PrefixStep(trusted: seq<Entry>, entries: seq<Entry>, i: nat, files: map<string, string>)
    requires i < |trusted| <= |entries|
    ensures trusted[..i + 1] <= entries <==> trusted[..i] <= entries && entries[i] == trusted[i]
    ensures Verified(trusted[..i + 1], files) <==>
      Verified(trusted[..i], files) && trusted[i].relative in files && Sha(files[trusted[i].relative]) == trusted[i].sha256
  {
    assert trusted[..i + 1] == trusted[..i] + [trusted[i]];
    if trusted[..i + 1] <= entries {
      assert entries[i] == trusted[..i + 1][i];
    }
    if Verified(trusted[..i + 1], files) {
      assert trusted[..i + 1][i] == trusted[i];
      assert forall j :: 0 <= j < i ==> trusted[..i][j] == trusted[..i + 1][j];
    }
  }

  ghost predicate AcceptedAs(tree: Tree, head: Tree, entries: seq<Entry>) {
    Locks(tree.lock, entries) && Verified(entries, tree.files) && Trusted(tree.lock.document, entries, head)
  }

  /** `check` in the stable stage reports nothing about the lock. */
  ghost predicate Accepted(tree: Tree, head: Tree) {
    exists entries :: AcceptedAs(tree, head, entries)
  }

  /** The lock of the tree is clean and its files are as frozen; in the stable stage it also follows the commit. */
  ghost predicate Passes(tree: Tree, head: Tree, stable: bool, entries: seq<Entry>) {
    Locks(tree.lock, entries) && Verified(entries, tree.files) && (stable ==> AcceptedAs(tree, head, entries))
  }

  /** `check`; `others`: the checks of sources and registries pass. */
  method Check(tree: Tree, head: Tree, paths: seq<string>, stable: bool, others: bool) returns (ok: bool)
    requires forall p :: p in paths <==> p in head.files
    ensures ok <==> others && exists entries :: Passes(tree, head, stable, entries)
    ensures stable ==> (ok <==> others && Accepted(tree, head))
  {
    hide LockIdentity, EntryOf, Trusted, Verified;
    var clean, entries := ParseLock(tree.lock);
    if !clean {
      return false;
    }
    forall e | Locks(tree.lock, e)
      ensures e == entries
    {
      LocksOnce(tree.lock, e, entries);
    }
    LockIsParsed(tree.lock, entries);
    ok := VerifyLock(entries, tree.files);
    if stable {
      var trusted := VerifyTrusted(tree.lock.document, entries, head, paths);
      ok := ok && trusted;
    }
    ok := ok && others;
    assert AcceptedAs(tree, head, entries) <==>
      Verified(entries, tree.files) && Trusted(tree.lock.document, entries, head);
    assert Passes(tree, head, stable, entries) <==>
      Verified(entries, tree.files) && (stable ==> AcceptedAs(tree, head, entries));
  }

  // ---- Chains of commits ----

  /** Each commit was accepted against the one before it. */
  ghost predicate Chain(commits: seq<Tree>) {
    forall i :: 0 < i < |commits| ==> Accepted(commits[i], commits[i - 1])
  }

  ghost predicate KeepsAs(early: Tree, late: Tree, d: seq<Entry>, e: seq<Entry>) {
    && Locks(early.lock, d) && Locks(late.lock, e) && d <= e
    && early.lock.document.frozenAt == late.lock.document.frozenAt
    && Verified(d, early.files) && Verified(e, late.files)
  }

  /** From `early` to `late`, what was frozen stays: the same entries first, each with its file. */
  ghost predicate KeepsFrozen(early: Tree, late: Tree) {
    exists d, e :: KeepsAs(early, late, d, e)
  }

  lemma AcceptedKeeps(early: Tree, late: Tree, e: seq<Entry>)
    requires AcceptedAs(late, early, e) && !early.lock.Missing?
    ensures exists d :: KeepsAs(early, late, d, e)
  {
    hide Reads, DistinctPaths, Verified, MayAdd;
    var d :| Locks(early.lock, d) && late.lock.document.frozenAt == early.lock.document.frozenAt && Appends(e, d, early.files);
    assert KeepsAs(early, late, d, e);
  }

  lemma KeepsJoins(a: Tree, b: Tree, c: Tree, d: seq<Entry>, e: seq<Entry>, f: seq<Entry>, g: seq<Entry>)
    requires KeepsAs(a, b, d, e) && KeepsAs(b, c, f, g)
    ensures KeepsAs(a, c, d, g)
  {
    LocksOnce(b.lock, e, f);
    hide Reads, DistinctPaths, Verified;
  }

  /** In a chain of accepted commits every lock starts with every earlier one, and frozen files keep their digests. */
  lemma {:induction false} FrozenForever(commits: seq<Tree>, i: nat, j: nat)
    requires Chain(commits) && i < j < |commits| && !commits[i].lock.Missing?
    ensures KeepsFrozen(commits[i], commits[j])
    decreases j
  {
    hide KeepsAs, AcceptedAs;
    var late, before := commits[j], commits[j - 1];
    assert Accepted(late, before);
    var e :| AcceptedAs(late, before, e);
    if i < j - 1 {
      FrozenForever(commits, i, j - 1);
      var d, m :| KeepsAs(commits[i], before, d, m);
      KeepsParsed(commits[i], before, d, m);
      AcceptedKeeps(before, late, e);
      var t :| KeepsAs(before, late, t, e);
      KeepsJoins(commits[i], before, late, d, m, t, e);
    } else {
      AcceptedKeeps(before, late, e);
    }
  }

  lemma KeepsParsed(early: Tree, late: Tree, d: seq<Entry>, e: seq<Entry>)
    requires KeepsAs(early, late, d, e)
    ensures early.lock.Parsed? && late.lock.Parsed?
  {
  }

  /** A file once frozen keeps its path, storage, target, digest and bytes in every later commit. */
  lemma FrozenFileStays(commits: seq<Tree>, i: nat, j: nat, entries: seq<Entry>, k: nat)
    requires Chain(commits) && i < j < |commits| && Locks(commits[i].lock, entries) && k < |entries|
    ensures exists later :: Locks(commits[j].lock, later) && k < |later| && later[k] == entries[k]
    ensures entries[k].relative in commits[i].files && entries[k].relative in commits[j].files
    ensures commits[j].files[entries[k].relative] == commits[i].files[entries[k].relative]
  {
    FrozenForever(commits, i, j);
    var d, e :| KeepsAs(commits[i], commits[j], d, e);
    LocksOnce(commits[i].lock, d, entries);
    hide Reads, DistinctPaths;
    assert e[k] == d[k] == entries[k];
  }
}
