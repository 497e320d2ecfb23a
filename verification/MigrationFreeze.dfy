/** Freezing new migrations: tools/python/check_migration_history.py, lines 664-786. */
module MigrationFreeze {
  import opened Options
  import opened Ordering
  import opened MigrationLock

  // ---- A rendered lock reads back ----

  /** A part of a path as `Parts` yields it. */
  predicate Part(p: string) {
    p != "" && p != "." && '/' !in p
  }

  lemma {:induction false} WalkPart(p: string, acc: string, rest: string)
    requires '/' !in p
    ensures PartsFrom(p + rest, acc) == PartsFrom(rest, acc + p)
    decreases |p|
  {
    if p == "" {
      assert p + rest == rest && acc + p == acc;
    } else {
      assert (p + rest)[1..] == p[1..] + rest && acc + [p[0]] + p[1..] == acc + p;
      WalkPart(p[1..], acc + [p[0]], rest);
    }
  }

  lemma PartThenSlash(p: string, rest: string)
    requires Part(p)
    ensures Parts(p + "/" + rest) == [p] + Parts(rest)
  {
    hide PartsFrom;
    var tail := "/" + rest;
    WalkPart(p, "", tail);
    assert p + "/" + rest == p + tail && "" + p == p;
    SlashEndsPart(p, rest);
  }

  lemma SlashEndsPart(p: string, rest: string)
    requires Part(p)
    ensures PartsFrom("/" + rest, p) == [p] + PartsFrom(rest, "")
  {
    assert ("/" + rest)[1..] == rest;
  }

  lemma {:induction false} PosixParts(parts: seq<string>)
    requires forall i :: 0 <= i < |parts| ==> Part(parts[i])
    ensures Parts(Posix(parts)) == parts
  {
    hide Part;
    if |parts| == 1 {
      LonePart(parts[0]);
    } else if |parts| > 1 {
      PosixParts(parts[1..]);
      hide Parts;
      PartThenSlash(parts[0], Posix(parts[1..]));
    }
  }

  lemma LonePart(p: string)
    requires Part(p)
    ensures Parts(p) == [p]
  {
    WalkPart(p, "", "");
    assert p + "" == p && "" + p == p;
  }

  lemma {:induction false} PartsAreParts(s: string, part: string)
    requires '/' !in part
    ensures forall p :: p in PartsFrom(s, part) ==> Part(p)
    decreases |s|
  {
    if s != "" {
      if s[0] == '/' {
        PartsAreParts(s[1..], "");
      } else {
        PartsAreParts(s[1..], part + [s[0]]);
      }
    }
  }

  lemma JoinFirst(parts: seq<string>, k: nat)
    requires k + 1 < |parts|
    ensures Posix(parts[k..]) == parts[k] + "/" + Posix(parts[k + 1..])
  {
    assert parts[k..][1..] == parts[k + 1..];
  }

  lemma FourParts(parts: seq<string>)
    requires |parts| > 4
    ensures Posix(parts) == parts[0] + "/" + parts[1] + "/" + parts[2] + "/" + parts[3] + "/" + Posix(parts[4..])
  {
    hide Posix;
    JoinFirst(parts, 3);
    JoinFirst(parts, 2);
    JoinFirst(parts, 1);
    JoinFirst(parts, 0);
    assert parts[0..] == parts;
    Reassociate(parts[0], parts[1], parts[2], parts[3], Posix(parts[4..]));
  }

  lemma Reassociate(a: string, b: string, c: string, d: string, e: string)
    ensures a + "/" + (b + "/" + (c + "/" + (d + "/" + e))) == a + "/" + b + "/" + c + "/" + d + "/" + e
  {
  }

  predicate Prefixed(value: string) {
    CONTROL <= value || TENANT <= value || CONTROL_GENERATED <= value || TENANT_GENERATED <= value
  }

  predicate InMigrations(parts: seq<string>) {
    && |parts| > 4 && parts[0] == "crates" && parts[2] == "src"
    && (parts[1] == "ryframe-db" || parts[1] == "ryframe-tenant-db") && (parts[3] == "migration" || parts[3] == "generated")
  }

  lemma JoinedPrefix(parts: seq<string>)
    requires InMigrations(parts)
    ensures Prefixed(Posix(parts)) && Posix(parts)[0] != '/'
  {
    hide Posix;
    FourParts(parts);
    var rest := Posix(parts[4..]);
    var head := parts[0] + "/" + parts[1] + "/" + parts[2] + "/" + parts[3] + "/";
    assert Posix(parts) == head + rest;
    StartsWith(head, rest);
    assert head == CONTROL || head == TENANT || head == CONTROL_GENERATED || head == TENANT_GENERATED;
    assert head == Under(parts[1], parts[3]) && head[0] == parts[0][0] == 'c';
  }

  lemma StartsWith(a: string, b: string)
    ensures a <= a + b && (a != "" ==> (a + b)[0] == a[0])
  {
  }

  lemma IdentityInside(path: string)
    requires LockIdentity(path).Some?
    ensures InMigrations(Parts(path))
  {
  }

  lemma SameIdentity(a: string, b: string)
    requires Parts(a) == Parts(b)
    ensures LockIdentity(a) == LockIdentity(b)
  {
  }

  lemma SafeMeans(value: string)
    ensures SafePath(value).Some? <==>
      && (value == "" || value[0] != '/') && ".." !in Parts(value) && Prefixed(value)
      && Parts(value) != [] && RustFile(Parts(value)[|Parts(value)| - 1]) && LockIdentity(value).Some?
    ensures SafePath(value).Some? ==> SafePath(value) == Some(Posix(Parts(value)))
  {
  }

  /** The path of a locked entry is its own normal form. */
  lemma SafeAgain(value: string)
    requires SafePath(value).Some?
    ensures SafePath(SafePath(value).value) == SafePath(value)
    ensures LockIdentity(SafePath(value).value) == LockIdentity(value)
  {
    hide *;
    var again := Posix(Parts(value));
    SafeMeans(value);
    IdentityInside(value);
    JoinedPrefix(Parts(value));
    PartsAre(value);
    PosixParts(Parts(value));
    SameIdentity(value, again);
    SafeMeans(again);
  }

  lemma PartsAre(s: string)
    ensures forall i :: 0 <= i < |Parts(s)| ==> Part(Parts(s)[i])
  {
    PartsAreParts(s, "");
  }

  // ---- The text between the quotes ----

  /** Every value is written between quotes as it is: this is the raw text of one `[[files]]` table. */
  datatype TableText = TableText(path: string, sha256: Digest, storage: string, target: string)

  /** What `render_lock` writes, value by value. */
  datatype LockText = LockText(frozenAt: string, tables: seq<TableText>)

  function Table(e: Entry): TableText {
    TableText(e.relative, e.sha256, e.storage, e.target)
  }

  /** `render_lock`. */
  function Written(frozenAt: string, entries: seq<Entry>): LockText {
    LockText(frozenAt, seq(|entries|, i requires 0 <= i < |entries| => Table(entries[i])))
  }

  predicate Control(c: char) {
    (c < ' ' && c != '\t') || c == 127 as char
  }

  /** A character that a TOML basic string holds as itself. */
  predicate Plain(c: char) {
    c != '"' && c != '\\' && !Control(c)
  }

  predicate Quotable(raw: string) {
    forall c :: c in raw ==> Plain(c)
  }

  function HexDigit(c: char): Option<nat> {
    if '0' <= c <= '9' then Some((c - '0') as nat)
    else if 'a' <= c <= 'f' then Some((c - 'a') as nat + 10)
    else if 'A' <= c <= 'F' then Some((c - 'A') as nat + 10)
    else None
  }

  function Hex(s: string): Option<nat> {
    if s == "" then Some(0)
    else
      var high, low := Hex(s[..|s| - 1]), HexDigit(s[|s| - 1]);
      if high.None? || low.None? then None else Some(16 * high.value + low.value)
  }

  /** The character that `n` hexadecimal digits name. */
  function Scalar(s: string, n: nat): Option<char> {
    if |s| < n then None
    else
      var code := Hex(s[..n]);
      if code.None? || 0xD800 <= code.value < 0xE000 || code.value >= 0x11_0000 then None else Some(code.value as char)
  }

  /** An escape after its backslash: the character, and how much text names it. */
  function Escape(s: string): (r: Option<(char, nat)>)
    ensures r.Some? ==> 1 <= r.value.1 <= |s|
  {
    if s == "" then None
    else match s[0]
      case 'b' => Some((8 as char, 1))
      case 't' => Some(('\t', 1))
      case 'n' => Some(('\n', 1))
      case 'f' => Some((12 as char, 1))
      case 'r' => Some(('\r', 1))
      case '"' => Some(('"', 1))
      case '\\' => Some(('\\', 1))
      case 'u' => var c := Scalar(s[1..], 4); if c.None? then None else Some((c.value, 5))
      case 'U' => var c := Scalar(s[1..], 8); if c.None? then None else Some((c.value, 9))
      case _ => None
  }

  /** TOML 1.0, basic strings: the value of the text up to its closing quote, and the text after that quote. */
  function Basic(s: string): Option<(string, string)>
    decreases |s|
  {
    if s == "" || Control(s[0]) then None
    else if s[0] == '"' then Some(("", s[1..]))
    else if s[0] == '\\' then
      var e := Escape(s[1..]);
      if e.None? then None else Before(e.value.0, Basic(s[1 + e.value.1..]))
    else Before(s[0], Basic(s[1..]))
  }

  function Before(c: char, r: Option<(string, string)>): Option<(string, string)> {
    if r.None? then None else Some(([c] + r.value.0, r.value.1))
  }

  /** The value of raw text between quotes; None where the quote that follows it does not end the string. */
  function Reading(raw: string): Option<string> {
    var r := Basic(raw + "\"");
    if r.Some? && r.value.1 == "" then Some(r.value.0) else None
  }

  function ReadTable(t: TableText): RawEntry {
    RawEntry(Reading(t.path), Some(t.sha256), Reading(t.storage), Reading(t.target))
  }

  predicate TableReadable(t: TableText) {
    Reading(t.path).Some? && Reading(t.storage).Some? && Reading(t.target).Some?
  }

  /** The written text as `tomllib` loads it. */
  function ReadLock(text: LockText): LockFile {
    if Reading(text.frozenAt).None? || exists t :: t in text.tables && !TableReadable(t) then Unparsable
    else
      Parsed(Document(1, Some(Text(Reading(text.frozenAt).value)),
                      Some(seq(|text.tables|, i requires 0 <= i < |text.tables| => ReadTable(text.tables[i])))))
  }

  lemma {:induction false} BasicShrinks(s: string)
    requires Basic(s).Some?
    ensures |Basic(s).value.0| + 1 + |Basic(s).value.1| <= |s|
    ensures |Basic(s).value.0| + 1 + |Basic(s).value.1| == |s| ==>
      Quotable(Basic(s).value.0) && s == Basic(s).value.0 + "\"" + Basic(s).value.1
    decreases |s|
  {
    hide Escape, Control;
    if s[0] == '\\' {
      BasicShrinks(s[1 + Escape(s[1..]).value.1..]);
    } else if s[0] == '"' {
      assert s == "" + "\"" + s[1..];
    } else {
      var r := Basic(s[1..]).value;
      BasicShrinks(s[1..]);
      assert Plain(s[0]);
      PlainBefore(s, r.0, r.1);
    }
  }

  lemma PlainBefore(s: string, value: string, rest: string)
    requires s != "" && Plain(s[0])
    ensures Quotable(value) ==> Quotable([s[0]] + value)
    ensures s[1..] == value + "\"" + rest ==> s == [s[0]] + value + "\"" + rest
  {
    hide Plain;
    assert s == [s[0]] + s[1..];
    assert [s[0]] + (value + "\"" + rest) == [s[0]] + value + "\"" + rest;
  }

  lemma {:induction false} PlainRead(raw: string, rest: string)
    requires Quotable(raw)
    ensures Basic(raw + "\"" + rest) == Some((raw, rest))
    decreases |raw|
  {
    var s := raw + "\"" + rest;
    if raw == "" {
      assert s == "\"" + rest;
      assert s[1..] == rest;
    } else {
      PlainRead(raw[1..], rest);
      assert Plain(raw[0]) && s[0] == raw[0] && s[1..] == raw[1..] + "\"" + rest;
      assert Basic(s) == Before(raw[0], Some((raw[1..], rest)));
      assert [raw[0]] + raw[1..] == raw;
    }
  }

  /** Reading never lengthens the text, and gives it back exactly where nothing in it needs an escape. */
  lemma ReadsBack(raw: string)
    ensures Reading(raw).Some? ==> |Reading(raw).value| <= |raw|
    ensures Reading(raw).Some? && |Reading(raw).value| == |raw| ==> Reading(raw).value == raw
    ensures Reading(raw) == Some(raw) <==> Quotable(raw)
  {
    var s := raw + "\"";
    if Basic(s).Some? {
      BasicShrinks(s);
    }
    if Reading(raw).Some? && |Reading(raw).value| == |raw| {
      var v := Reading(raw).value;
      assert v + "\"" + "" == v + "\"";
      assert (v + "\"")[..|raw|] == v && s[..|raw|] == raw;
    }
    if Quotable(raw) {
      PlainRead(raw, "");
      assert raw + "\"" + "" == s;
    }
  }

  /** An entry as a clean lock or `freeze` makes it. */
  predicate Normal(e: Entry) {
    SafePath(e.relative) == Some(e.relative) && LockIdentity(e.relative) == Some(Identity(e.storage, e.target))
  }

  lemma LockedNormal(lock: LockFile, entries: seq<Entry>, i: nat)
    requires Locks(lock, entries) && i < |entries|
    ensures Normal(entries[i])
  {
    hide SafePath, LockIdentity;
    var raw := lock.document.files.value[i];
    assert EntryOf(raw) == Some(entries[i]);
    SafeAgain(raw.path.value);
  }

  lemma {:induction false} PosixShrinks(s: string, part: string)
    ensures |Posix(PartsFrom(s, part))| <= |part| + |s|
    decreases |s|
  {
    if s != "" && s[0] == '/' {
      PosixShrinks(s[1..], "");
      PosixBefore(Kept(part), PartsFrom(s[1..], ""));
    } else if s != "" {
      PosixShrinks(s[1..], part + [s[0]]);
    }
  }

  lemma PosixBefore(kept: seq<string>, rest: seq<string>)
    requires |kept| <= 1
    ensures |Posix(kept + rest)| <= |Posix(kept)| + 1 + |Posix(rest)|
  {
    if kept == [] {
      assert kept + rest == rest;
    } else {
      assert (kept + rest)[1..] == rest;
    }
  }

  lemma {:induction false} PartChars(s: string, part: string)
    ensures forall p, c :: p in PartsFrom(s, part) && c in p ==> c in part || c in s
    decreases |s|
  {
    if s != "" {
      if s[0] == '/' {
        PartChars(s[1..], "");
      } else {
        PartChars(s[1..], part + [s[0]]);
      }
    }
  }

  lemma NameQuotable(name: string)
    requires MigrationName(name)
    ensures Quotable(name)
  {
    forall k | 0 <= k < |name|
      ensures Plain(name[k])
    {
      if 1 <= k < 9 {
        assert name[1..9][k - 1] in name[1..9];
      } else if 10 <= k < 16 {
        assert name[10..16][k - 10] in name[10..16];
      } else if k >= 18 {
        assert name[18..][k - 18] in name[18..];
      }
    }
  }

  lemma ResourceQuotable(resource: string)
    requires Quotable(resource)
    ensures Quotable("resource:" + resource + ":initial")
  {
    assert Quotable("resource:") && Quotable(":initial");
  }

  lemma TargetCases(path: string)
    requires LockIdentity(path).Some?
    ensures LockIdentity(path).value.storage in ["control", "tenant-data"]
    ensures var target := LockIdentity(path).value.target;
      MigrationName(target) || exists part :: part in Parts(path) && target == "resource:" + part + ":initial"
  {
    hide MigrationName, Parts, Stem;
    var parts := Parts(path);
    if parts[3] == "generated" {
      assert parts[4..][0] == parts[4];
    }
  }

  /** Storage and target can be quoted wherever the path can. */
  lemma IdentityQuotable(e: Entry)
    requires Normal(e) && Quotable(e.relative)
    ensures Quotable(e.storage) && Quotable(e.target)
  {
    hide LockIdentity, SafePath, MigrationName, Plain;
    TargetCases(e.relative);
    StoragesQuotable();
    if MigrationName(e.target) {
      NameQuotable(e.target);
    } else {
      var part :| part in Parts(e.relative) && e.target == "resource:" + part + ":initial";
      PartChars(e.relative, "");
      ResourceQuotable(part);
    }
  }

  lemma StoragesQuotable()
    ensures Quotable("control") && Quotable("tenant-data")
  {
  }

  predicate AllQuotable(entries: seq<Entry>) {
    forall i :: 0 <= i < |entries| ==> Quotable(entries[i].relative)
  }

  lemma TableReadsBack(e: Entry)
    requires Normal(e) && Quotable(e.relative)
    ensures TableReadable(Table(e)) && EntryOf(ReadTable(Table(e))) == Some(e)
  {
    hide SafePath, LockIdentity, Reading, Quotable;
    IdentityQuotable(e);
    ReadsBack(e.relative);
    ReadsBack(e.storage);
    ReadsBack(e.target);
  }

  lemma TableMustReadBack(e: Entry)
    requires EntryOf(ReadTable(Table(e))) == Some(e)
    ensures Quotable(e.relative)
  {
    hide Parts, Posix, LockIdentity, Reading, Quotable, RustFile;
    var v := Reading(e.relative).value;
    ReadsBack(e.relative);
    assert SafePath(v) == Some(e.relative) == Some(Posix(Parts(v)));
    PathShrinks(v);
  }

  lemma PathShrinks(v: string)
    ensures |Posix(Parts(v))| <= |v|
  {
    PosixShrinks(v, "");
  }

  /** The written lock means its entries exactly when their paths can be quoted and `frozen_at` can be read. */
  lemma RenderedLocks(frozenAt: string, entries: seq<Entry>)
    requires entries != [] && DistinctPaths(entries) && forall i :: 0 <= i < |entries| ==> Normal(entries[i])
    ensures var lock := ReadLock(Written(frozenAt, entries));
      && (Locks(lock, entries) <==> Reading(frozenAt).Some? && AllQuotable(entries))
      && (lock.Parsed? ==> lock.document.frozenAt == Some(Text(Reading(frozenAt).value)))
  {
    hide Normal, EntryOf, Reading, Quotable, ReadTable, Table, TableReadable, DistinctPaths;
    var text := Written(frozenAt, entries);
    if Locks(ReadLock(text), entries) {
      forall i | 0 <= i < |entries|
        ensures Quotable(entries[i].relative)
      {
        assert EntryOf(ReadTable(text.tables[i])) == Some(entries[i]);
        TableMustReadBack(entries[i]);
      }
    }
    if Reading(frozenAt).Some? && AllQuotable(entries) {
      forall i | 0 <= i < |entries|
        ensures TableReadable(text.tables[i]) && EntryOf(ReadTable(text.tables[i])) == Some(entries[i])
      {
        TableReadsBack(entries[i]);
      }
    }
  }

  // ---- What `freeze` finds ----

  /** A migration that `discover` found: its name, its source files, and whether it is more than a skeleton. */
  datatype Found = Found(name: string, files: seq<string>, finished: bool)

  /** A generated resource migration, and whether it is complete. */
  datatype Resource = Resource(path: string, complete: bool)

  function Without(paths: seq<string>, locked: set<string>): (r: seq<string>)
    ensures forall p :: p in r <==> p in paths && p !in locked
  {
    if paths == [] then []
    else
      var last := paths[|paths| - 1];
      assert paths == paths[..|paths| - 1] + [last];
      Without(paths[..|paths| - 1], locked) + (if last in locked then [] else [last])
  }

  function New(m: Found, locked: set<string>): seq<string> {
    if Baseline(m.name) then [] else Without(m.files, locked)
  }

  function NewOfAll(found: seq<Found>, locked: set<string>): seq<string> {
    if found == [] then [] else NewOfAll(found[..|found| - 1], locked) + New(found[|found| - 1], locked)
  }

  function NewResources(resources: seq<Resource>, locked: set<string>): seq<string> {
    if resources == [] then []
    else NewResources(resources[..|resources| - 1], locked)
         + (if resources[|resources| - 1].path in locked then [] else [resources[|resources| - 1].path])
  }

  /** The files not locked yet, in the order they are found. */
  function Additions(found: seq<Found>, resources: seq<Resource>, locked: set<string>): seq<string> {
    NewOfAll(found, locked) + NewResources(resources, locked)
  }

  /** Nothing new is a skeleton. */
  predicate Finished(found: seq<Found>, resources: seq<Resource>, locked: set<string>) {
    && (forall k :: 0 <= k < |found| && New(found[k], locked) != [] ==> found[k].finished)
    && (forall k :: 0 <= k < |resources| && resources[k].path !in locked ==> resources[k].complete)
  }

  /** Directory listings name sources of the tree, each once. */
  predicate Listing(found: seq<Found>, resources: seq<Resource>, files: map<string, string>) {
    && Distinct(Additions(found, resources, {}))
    && (forall k, p :: 0 <= k < |found| && p in found[k].files ==> Source(p, files))
    && (forall k :: 0 <= k < |resources| ==> Source(resources[k].path, files))
  }

  predicate Source(p: string, files: map<string, string>) {
    p in files && SafePath(p) == Some(p)
  }

  function Frozen(p: string, files: map<string, string>): Entry
    requires Source(p, files)
  {
    var identity := LockIdentity(p).value;
    Entry(p, Sha(files[p]), identity.storage, identity.target)
  }

  lemma {:induction false} FewerWithout(paths: seq<string>, locked: set<string>)
    ensures multiset(Without(paths, locked)) <= multiset(Without(paths, {}))
  {
    if paths != [] {
      FewerWithout(paths[..|paths| - 1], locked);
    }
  }

  lemma {:induction false} FewerFound(found: seq<Found>, locked: set<string>)
    ensures multiset(NewOfAll(found, locked)) <= multiset(NewOfAll(found, {}))
  {
    if found != [] {
      FewerFound(found[..|found| - 1], locked);
      FewerWithout(found[|found| - 1].files, locked);
    }
  }

  lemma {:induction false} FewerResources(resources: seq<Resource>, locked: set<string>)
    ensures multiset(NewResources(resources, locked)) <= multiset(NewResources(resources, {}))
  {
    if resources != [] {
      FewerResources(resources[..|resources| - 1], locked);
    }
  }

  /** What is added is distinct, and none of it is locked. */
  lemma AdditionsDistinct(found: seq<Found>, resources: seq<Resource>, files: map<string, string>, locked: set<string>)
    requires Listing(found, resources, files)
    ensures Distinct(Additions(found, resources, locked))
    ensures forall p :: p in Additions(found, resources, locked) ==> p !in locked && Source(p, files)
  {
    FewerFound(found, locked);
    FewerResources(resources, locked);
    var all, some := Additions(found, resources, {}), Additions(found, resources, locked);
    DistinctCounts(all);
    DistinctCounts(some);
    forall p | p in some
      ensures multiset(some)[p] == 1
    {
      assert p in multiset(some) && multiset(some)[p] <= multiset(all)[p];
      assert p in all;
    }
    NewAreSources(found, resources, files, locked);
  }

  lemma {:induction false} NewAreSources(found: seq<Found>, resources: seq<Resource>, files: map<string, string>,
                                         locked: set<string>)
    requires forall k, p :: 0 <= k < |found| && p in found[k].files ==> Source(p, files)
    requires forall k :: 0 <= k < |resources| ==> Source(resources[k].path, files)
    ensures forall p :: p in NewOfAll(found, locked) ==> p !in locked && Source(p, files)
    ensures forall p :: p in NewResources(resources, locked) ==> p !in locked && Source(p, files)
    decreases |found| + |resources|
  {
    hide Source;
    if found != [] {
      NewAreSources(found[..|found| - 1], resources, files, locked);
      var last := found[|found| - 1];
      assert forall p :: p in New(last, locked) ==> p in last.files;
    } else if resources != [] {
      NewAreSources(found, resources[..|resources| - 1], files, locked);
    }
  }

  // ---- The command ----

  predicate Clear(paths: seq<string>, committed: set<string>) {
    forall p :: p in paths ==> p !in committed
  }

  lemma WithoutStep(paths: seq<string>, k: nat, locked: set<string>)
    requires k < |paths|
    ensures Without(paths[..k + 1], locked) == Without(paths[..k], locked) + (if paths[k] in locked then [] else [paths[k]])
  {
    var now := paths[..k + 1];
    assert now[..k] == paths[..k] && now[k] == paths[k];
  }

  method FreezeFiles(files: seq<string>, locked: set<string>, committed: set<string>)
    returns (bad: bool, added: seq<string>)
    ensures bad <==> !Clear(Without(files, locked), committed)
    ensures !bad ==> added == Without(files, locked)
  {
    bad, added := false, [];
    for k := 0 to |files|
      invariant bad <==> !Clear(Without(files[..k], locked), committed)
      invariant !bad ==> added == Without(files[..k], locked)
    {
      WithoutStep(files, k, locked);
      if files[k] !in locked {
        if files[k] in committed {
          bad := true;
        } else {
          added := added + [files[k]];
        }
      }
    }
    assert files[..|files|] == files;
  }

  /** One migration: its new files, unless it is a skeleton or a file of it is already committed. */
  method FreezeOne(m: Found, locked: set<string>, committed: set<string>) returns (bad: bool, added: seq<string>)
    ensures bad <==> (New(m, locked) != [] && !m.finished) || !Clear(New(m, locked), committed)
    ensures !bad ==> added == New(m, locked)
  {
    if Baseline(m.name) {
      return false, [];
    }
    NoneNew(m.files, locked);
    if forall p :: p in m.files ==> p in locked {
      return false, [];
    }
    if !m.finished {
      return true, [];
    }
    bad, added := FreezeFiles(m.files, locked, committed);
  }

  lemma NoneNew(paths: seq<string>, locked: set<string>)
    ensures Without(paths, locked) == [] <==> forall p :: p in paths ==> p in locked
  {
    var r := Without(paths, locked);
    if r != [] {
      assert r[0] in r;
    }
  }

  /** Both loops of `freeze`. */
  method Collect(found: seq<Found>, resources: seq<Resource>, locked: set<string>, committed: set<string>)
    returns (ok: bool, additions: seq<string>)
    ensures ok <==> Finished(found, resources, locked) && Clear(Additions(found, resources, locked), committed)
    ensures ok ==> additions == Additions(found, resources, locked)
  {
    hide New, Baseline;
    ok, additions := true, [];
    for k := 0 to |found|
      invariant ok <==> Finished(found[..k], [], locked) && Clear(NewOfAll(found[..k], locked), committed)
      invariant ok ==> additions == NewOfAll(found[..k], locked)
    {
      var bad, added := FreezeOne(found[k], locked, committed);
      FoundStep(found, k, locked, committed);
      ok, additions := ok && !bad, additions + added;
    }
    assert found[..|found|] == found;
    ghost var first := ok;
    for k := 0 to |resources|
      invariant ok <==>
        first && Finished([], resources[..k], locked) && Clear(NewResources(resources[..k], locked), committed)
      invariant ok ==> additions == NewOfAll(found, locked) + NewResources(resources[..k], locked)
    {
      ResourceStep(resources, k, locked, committed);
      var r := resources[k];
      if r.path !in locked {
        if !r.complete || r.path in committed {
          ok := false;
        } else {
          additions := additions + [r.path];
        }
      }
    }
    assert resources[..|resources|] == resources;
  }

  lemma FoundStep(found: seq<Found>, k: nat, locked: set<string>, committed: set<string>)
    requires k < |found|
    ensures NewOfAll(found[..k + 1], locked) == NewOfAll(found[..k], locked) + New(found[k], locked)
    ensures Finished(found[..k + 1], [], locked) <==>
      Finished(found[..k], [], locked) && (New(found[k], locked) != [] ==> found[k].finished)
    ensures Clear(NewOfAll(found[..k + 1], locked), committed) <==>
      Clear(NewOfAll(found[..k], locked), committed) && Clear(New(found[k], locked), committed)
  {
    hide New;
    var now := found[..k + 1];
    assert now[..k] == found[..k] && now[k] == found[k];
    if Finished(now, [], locked) {
      assert forall j :: 0 <= j < k ==> found[..k][j] == now[j];
    }
  }

  lemma ResourceStep(resources: seq<Resource>, k: nat, locked: set<string>, committed: set<string>)
    requires k < |resources|
    ensures NewResources(resources[..k + 1], locked) ==
      NewResources(resources[..k], locked) + (if resources[k].path in locked then [] else [resources[k].path])
    ensures Finished([], resources[..k + 1], locked) <==>
      Finished([], resources[..k], locked) && (resources[k].path !in locked ==> resources[k].complete)
    ensures Clear(NewResources(resources[..k + 1], locked), committed) <==>
      Clear(NewResources(resources[..k], locked), committed) && (resources[k].path !in locked ==> resources[k].path !in committed)
  {
    var now := resources[..k + 1];
    assert now[..k] == resources[..k] && now[k] == resources[k];
    if Finished([], now, locked) {
      assert forall j :: 0 <= j < k ==> resources[..k][j] == now[j];
    }
  }

  function Frozens(paths: seq<string>, files: map<string, string>): (r: seq<Entry>)
    requires forall p :: p in paths ==> Source(p, files)
    ensures |r| == |paths| && forall i :: 0 <= i < |r| ==> r[i] == Frozen(paths[i], files)
  {
    if paths == [] then [] else [Frozen(paths[0], files)] + Frozens(paths[1..], files)
  }

  function Relatives(entries: seq<Entry>): set<string> {
    set e | e in entries :: e.relative
  }

  /** `render_lock` takes text that is not empty. */
  predicate Usable(frozenAt: Option<Toml>) {
    frozenAt.Some? && frozenAt.value.Text? && frozenAt.value.text != ""
  }

  /** What a successful `freeze` leaves for these old entries. */
  function Extended(tree: Tree, entries: seq<Entry>, found: seq<Found>, resources: seq<Resource>): (r: seq<Entry>)
    requires Listing(found, resources, tree.files)
  {
    AdditionsDistinct(found, resources, tree.files, Relatives(entries));
    var additions := Additions(found, resources, Relatives(entries));
    SameElements(additions, Sorted(additions));
    entries + Frozens(Sorted(additions), tree.files)
  }

  /** The old lock passes, and everything new may be frozen. */
  ghost predicate CanFreeze(tree: Tree, head: Tree, found: seq<Found>, resources: seq<Resource>, entries: seq<Entry>) {
    && AcceptedAs(tree, head, entries) && Finished(found, resources, Relatives(entries))
    && Clear(Additions(found, resources, Relatives(entries)), head.files.Keys)
    && (Additions(found, resources, Relatives(entries)) != [] ==> Usable(tree.lock.document.frozenAt))
  }

  function FrozenLock(tree: Tree, found: seq<Found>, resources: seq<Resource>, entries: seq<Entry>): LockFile
    requires Listing(found, resources, tree.files)
  {
    if tree.lock.Parsed? && Usable(tree.lock.document.frozenAt) && Additions(found, resources, Relatives(entries)) != [] then
      ReadLock(Written(tree.lock.document.frozenAt.value.text, Extended(tree, entries, found, resources)))
    else tree.lock
  }

  /** `freeze`; `others`: the checks of sources and registries pass. */
  method Freeze(tree: Tree, head: Tree, paths: seq<string>, found: seq<Found>, resources: seq<Resource>, others: bool)
    returns (ok: bool, lock: LockFile)
    requires forall p :: p in paths <==> p in head.files
    requires Listing(found, resources, tree.files)
    ensures ok <==> others && exists entries :: CanFreeze(tree, head, found, resources, entries)
    ensures forall entries :: CanFreeze(tree, head, found, resources, entries) && ok ==>
      lock == FrozenLock(tree, found, resources, entries)
    ensures !ok ==> lock == tree.lock
  {
    hide Locks, Verified, Trusted, Additions, Finished, Listing, ReadLock, Written;
    lock := tree.lock;
    var clean, entries := ParseLock(tree.lock);
    if !clean {
      return false, lock;
    }
    LockIsParsed(tree.lock, entries);
    forall e | AcceptedAs(tree, head, e)
      ensures e == entries
    {
      LocksOnce(tree.lock, e, entries);
    }
    var verified := VerifyLock(entries, tree.files);
    var trusted := VerifyTrusted(tree.lock.document, entries, head, paths);
    if !verified || !trusted || !others {
      return false, lock;
    }
    assert AcceptedAs(tree, head, entries);
    var additions: seq<string>;
    ok, additions := Collect(found, resources, Relatives(entries), head.files.Keys);
    assert additions == [] && ok ==> CanFreeze(tree, head, found, resources, entries);
    if !ok || additions == [] {
      return;
    }
    var frozenAt := tree.lock.document.frozenAt;
    if !Usable(frozenAt) {
      return false, lock;
    }
    assert CanFreeze(tree, head, found, resources, entries);
    lock := ReadLock(Written(frozenAt.value.text, Extended(tree, entries, found, resources)));
  }

  /**
   * A successful freeze only appends: distinct files, neither locked before nor committed, with the digests they
   * have.
   */
  lemma FreezeAppends(tree: Tree, head: Tree, found: seq<Found>, resources: seq<Resource>, entries: seq<Entry>, i: nat)
    requires Listing(found, resources, tree.files) && CanFreeze(tree, head, found, resources, entries)
    requires var r := Extended(tree, entries, found, resources); |entries| <= i < |r|
    ensures var r := Extended(tree, entries, found, resources);
      && entries <= r && DistinctPaths(r) && Normal(r[i])
      && r[i].relative in tree.files && r[i].sha256 == Sha(tree.files[r[i].relative])
      && r[i].relative !in head.files && forall k :: 0 <= k < |entries| ==> entries[k].relative != r[i].relative
  {
    ExtendedSound(tree, head, found, resources, entries);
  }

  /** The entries that are added, one by one. */
  lemma FrozensSound(tree: Tree, found: seq<Found>, resources: seq<Resource>, entries: seq<Entry>, i: nat)
    requires Listing(found, resources, tree.files)
    requires |entries| <= i < |Extended(tree, entries, found, resources)|
    ensures var e := Extended(tree, entries, found, resources)[i];
      && Source(e.relative, tree.files) && e == Frozen(e.relative, tree.files)
      && e.relative in Additions(found, resources, Relatives(entries)) && e.relative !in Relatives(entries)
    ensures forall j :: |entries| <= j < i ==>
      Extended(tree, entries, found, resources)[j].relative != Extended(tree, entries, found, resources)[i].relative
  {
    hide Source, Additions, Listing, Extended, Frozen, Relatives, Sorted;
    SortedAdditions(tree, found, resources, entries);
    var sorted := Sorted(Additions(found, resources, Relatives(entries)));
    var r := Extended(tree, entries, found, resources);
    var k := i - |entries|;
    FrozenIs(sorted[k], tree.files);
    assert r[i] == Frozen(sorted[k], tree.files) && sorted[k] in sorted;
    forall j | |entries| <= j < i
      ensures r[j].relative != r[i].relative
    {
      FrozenIs(sorted[j - |entries|], tree.files);
      assert r[j] == Frozen(sorted[j - |entries|], tree.files);
    }
  }

  lemma SortedAdditions(tree: Tree, found: seq<Found>, resources: seq<Resource>, entries: seq<Entry>)
    requires Listing(found, resources, tree.files)
    ensures var additions := Additions(found, resources, Relatives(entries)); var sorted := Sorted(additions);
      && Distinct(sorted)
      && (forall p :: p in sorted ==> p in additions && p !in Relatives(entries) && Source(p, tree.files))
      && Extended(tree, entries, found, resources) == entries + Frozens(sorted, tree.files)
  {
    hide Source, Additions, Listing, Relatives, Sorted;
    var additions := Additions(found, resources, Relatives(entries));
    AdditionsDistinct(found, resources, tree.files, Relatives(entries));
    SameElements(additions, Sorted(additions));
    DistinctRearranged(additions, Sorted(additions));
  }

  lemma FrozenIs(p: string, files: map<string, string>)
    requires Source(p, files)
    ensures var e := Frozen(p, files); e.relative == p && e.sha256 == Sha(files[p]) && Normal(e)
  {
    hide LockIdentity;
    SafeMeans(p);
  }

  /** A lock that every property of an extension holds of. */
  predicate Sound(tree: Tree, head: Tree, entries: seq<Entry>, r: seq<Entry>) {
    && entries <= r && DistinctPaths(r) && Verified(r, tree.files)
    && (forall i :: 0 <= i < |r| ==> Normal(r[i]))
    && forall i :: |entries| <= i < |r| ==> r[i].relative !in head.files && r[i].relative !in Relatives(entries)
  }

  lemma ExtendedSound(tree: Tree, head: Tree, found: seq<Found>, resources: seq<Resource>, entries: seq<Entry>)
    requires Listing(found, resources, tree.files) && CanFreeze(tree, head, found, resources, entries)
    ensures Sound(tree, head, entries, Extended(tree, entries, found, resources))
  {
    hide Trusted, Finished, Listing, Source, Normal, Additions, Usable, Frozen;
    var r := Extended(tree, entries, found, resources);
    LockIsParsed(tree.lock, entries);
    forall i | 0 <= i < |entries|
      ensures Normal(r[i]) && r[i].relative in Relatives(entries)
    {
      LockedNormal(tree.lock, entries, i);
      assert entries[i] in entries;
    }
    hide Locks, Relatives;
    forall i | |entries| <= i < |r|
      ensures Normal(r[i]) && r[i].relative in tree.files && Sha(tree.files[r[i].relative]) == r[i].sha256
      ensures r[i].relative !in head.files && r[i].relative !in Relatives(entries)
      ensures forall j :: |entries| <= j < i ==> r[j].relative != r[i].relative
    {
      FrozensSound(tree, found, resources, entries, i);
      SourceThere(r[i].relative, tree.files);
      FrozenIs(r[i].relative, tree.files);
    }
    hide Extended;
    assert forall i :: 0 <= i < |entries| ==> r[i] == entries[i];
  }

  lemma SourceThere(p: string, files: map<string, string>)
    requires Source(p, files)
    ensures p in files
  {
  }

  lemma TrustedExtended(document: Document, later: Document, entries: seq<Entry>, r: seq<Entry>, head: Tree,
                        trusted: seq<Entry>)
    requires Locks(head.lock, trusted) && Trusted(document, entries, head) && later.frozenAt == document.frozenAt
    requires entries <= r && forall i :: |entries| <= i < |r| ==> r[i].relative !in head.files
    ensures Trusted(later, r, head) <==> forall i :: |entries| <= i < |r| ==>
      !Targets(trusted, r[i].storage, r[i].target)
  {
    LockIsParsed(head.lock, trusted);
    forall t | Locks(head.lock, t)
      ensures t == trusted
    {
      LocksOnce(head.lock, t, trusted);
    }
    hide Locks, Targets, Verified;
    assert document.frozenAt == head.lock.document.frozenAt && Appends(entries, trusted, head.files);
    assert trusted <= r && forall i :: 0 <= i < |entries| ==> r[i] == entries[i];
    assert Trusted(later, r, head) <==> Appends(r, trusted, head.files);
  }

  predicate NewTargets(trusted: seq<Entry>, entries: seq<Entry>, r: seq<Entry>) {
    forall i :: |entries| <= i < |r| ==> !Targets(trusted, r[i].storage, r[i].target)
  }

  /**
   * The lock a freeze writes passes the stable check, as these entries, exactly when `frozen_at` and every path can
   * stand between quotes as they are, and no new file reuses a target frozen in the commit.
   */
  lemma FreezeThenCheck(tree: Tree, head: Tree, found: seq<Found>, resources: seq<Resource>, entries: seq<Entry>,
                        trusted: seq<Entry>)
    requires Listing(found, resources, tree.files) && CanFreeze(tree, head, found, resources, entries)
    requires Additions(found, resources, Relatives(entries)) != []
    requires Locks(head.lock, trusted)
    ensures var r := Extended(tree, entries, found, resources);
      AcceptedAs(tree.(lock := FrozenLock(tree, found, resources, entries)), head, r) <==>
      Quotable(tree.lock.document.frozenAt.value.text) && AllQuotable(r) && NewTargets(trusted, entries, r)
  {
    hide Trusted, Finished, Listing, Extended, Additions, Verified, Normal, Targets, Relatives, DistinctPaths, Quotable;
    hide Reading, ReadLock, Written, AllQuotable;
    var r := Extended(tree, entries, found, resources);
    ExtendedSound(tree, head, found, resources, entries);
    LockIsParsed(tree.lock, entries);
    NotEmpty(tree.lock, entries);
    var frozenAt := tree.lock.document.frozenAt.value.text;
    var lock := ReadLock(Written(frozenAt, r));
    hide Locks;
    RenderedLocks(frozenAt, r);
    ReadsBack(frozenAt);
    if lock.Parsed? {
      SameFrozenAt(tree.lock.document, lock.document, entries, r, head, trusted);
    }
    assert AcceptedAs(tree.(lock := lock), head, r) <==> Locks(lock, r) && Trusted(lock.document, r, head);
    LockedParsed(lock, r);
  }

  lemma NotEmpty(lock: LockFile, entries: seq<Entry>)
    requires Locks(lock, entries)
    ensures entries != []
  {
  }

  lemma LockedParsed(lock: LockFile, entries: seq<Entry>)
    ensures Locks(lock, entries) ==> lock.Parsed?
  {
  }

  lemma SameFrozenAt(document: Document, later: Document, entries: seq<Entry>, r: seq<Entry>, head: Tree,
                     trusted: seq<Entry>)
    requires Locks(head.lock, trusted) && Trusted(document, entries, head)
    requires entries <= r && forall i :: |entries| <= i < |r| ==> r[i].relative !in head.files
    ensures Trusted(later, r, head) <==> later.frozenAt == document.frozenAt && NewTargets(trusted, entries, r)
  {
    hide Locks, Targets, Verified, Appends, DistinctPaths;
    LockIsParsed(head.lock, trusted);
    if later.frozenAt == document.frozenAt {
      hide Trusted;
      TrustedExtended(document, later, entries, r, head, trusted);
    } else {
      assert head.lock.Parsed?;
    }
  }

  /** Without a lock in the commit the written lock is accepted exactly when it reads back as its entries. */
  lemma FreezeThenBootstrap(tree: Tree, head: Tree, found: seq<Found>, resources: seq<Resource>, entries: seq<Entry>)
    requires Listing(found, resources, tree.files) && CanFreeze(tree, head, found, resources, entries)
    requires Additions(found, resources, Relatives(entries)) != []
    requires head.lock.Missing? && '"' !in tree.lock.document.frozenAt.value.text
    ensures var r := Extended(tree, entries, found, resources);
      AcceptedAs(tree.(lock := FrozenLock(tree, found, resources, entries)), head, r) <==>
      Reading(tree.lock.document.frozenAt.value.text).Some? && AllQuotable(r)
  {
    hide Bootstraps, Finished, Listing, Extended, Additions, Verified, Normal, Relatives, DistinctPaths, Quotable;
    hide Reading, ReadLock, Written, AllQuotable;
    var r := Extended(tree, entries, found, resources);
    ExtendedSound(tree, head, found, resources, entries);
    LockIsParsed(tree.lock, entries);
    NotEmpty(tree.lock, entries);
    var frozenAt := tree.lock.document.frozenAt.value.text;
    hide Locks;
    RenderedLocks(frozenAt, r);
    BootstrapsMore(entries, r, head.files);
    LockedParsed(ReadLock(Written(frozenAt, r)), r);
  }

  lemma BootstrapsMore(entries: seq<Entry>, r: seq<Entry>, files: map<string, string>)
    requires Bootstraps(entries, files) && entries <= r
    ensures Bootstraps(r, files)
  {
    hide LockIdentity, Baseline;
    forall path | path in files && LockIdentity(path).Some?
      ensures Freezes(r, path, files[path])
    {
      var i :| 0 <= i < |entries| && entries[i].relative == path && entries[i].sha256 == Sha(files[path]);
      assert r[i] == entries[i];
    }
  }

  function Redated(tree: Tree, frozenAt: string): Tree
    requires tree.lock.Parsed?
  {
    tree.(lock := Parsed(tree.lock.document.(frozenAt := Some(Text(frozenAt)))))
  }

  lemma RedatedLocks(tree: Tree, frozenAt: string, entries: seq<Entry>)
    requires Locks(tree.lock, entries)
    ensures Locks(Redated(tree, frozenAt).lock, entries)
  {
  }

  /**
   * `frozen_at` may hold a backslash: with `a\\tb` in the tree and in the commit everything can still be frozen, and
   * the lock that is written says otherwise and is refused.
   */
  lemma EscapeRefused(tree: Tree, head: Tree, found: seq<Found>, resources: seq<Resource>, entries: seq<Entry>,
                      trusted: seq<Entry>)
    requires Listing(found, resources, tree.files) && CanFreeze(tree, head, found, resources, entries)
    requires Additions(found, resources, Relatives(entries)) != []
    requires Locks(head.lock, trusted)
    ensures tree.lock.Parsed? && head.lock.Parsed?
    ensures var tree', head' := Redated(tree, "a\\tb"), Redated(head, "a\\tb");
      && CanFreeze(tree', head', found, resources, entries)
      && Reading("a\\tb") == Some("a\tb")
      && !Accepted(tree'.(lock := FrozenLock(tree', found, resources, entries)), head')
  {
    hide Finished, Listing, Extended, Additions, Verified, Relatives, Reading, ReadLock, Appends;
    EscapeReads();
    LockIsParsed(tree.lock, entries);
    LockIsParsed(head.lock, trusted);
    var tree', head' := Redated(tree, "a\\tb"), Redated(head, "a\\tb");
    RedatedLocks(tree, "a\\tb", entries);
    RedatedLocks(head, "a\\tb", trusted);
    RedatedTrusted(tree, head, entries, trusted);
    hide Locks, Trusted;
    var lock := FrozenLock(tree', found, resources, entries);
    DateRead("a\\tb", Extended(tree', entries, found, resources));
    DateRefused(tree'.(lock := lock), head', trusted);
  }

  lemma EscapeReads()
    ensures Reading("a\\tb") == Some("a\tb")
  {
    var s := "a\\tb\"";
    assert "a\\tb" + "\"" == s;
    assert s[1..] == "\\tb\"" && s[1..][1..] == "tb\"" && s[1..][2..] == "b\"" && "b\""[1..] == "\"" && "\""[1..] == "";
    assert Basic("\"") == Some(("", ""));
    assert Basic("b\"") == Before('b', Some(("", ""))) && ['b'] + "" == "b";
    assert Escape("tb\"") == Some(('\t', 1));
    assert Basic("\\tb\"") == Before('\t', Some(("b", ""))) && ['\t'] + "b" == "\tb";
    assert Basic(s) == Before('a', Some(("\tb", ""))) && ['a'] + "\tb" == "a\tb";
  }

  lemma RedatedTrusted(tree: Tree, head: Tree, entries: seq<Entry>, trusted: seq<Entry>)
    requires tree.lock.Parsed? && head.lock.Parsed? && Locks(head.lock, trusted)
    requires Trusted(tree.lock.document, entries, head)
    ensures Trusted(Redated(tree, "a\\tb").lock.document, entries, Redated(head, "a\\tb"))
  {
    hide Appends, Reads, DistinctPaths;
    RedatedLocks(head, "a\\tb", trusted);
    var t :| Locks(head.lock, t) && Appends(entries, t, head.files);
    LocksOnce(head.lock, t, trusted);
  }

  lemma DateRead(frozenAt: string, r: seq<Entry>)
    ensures var lock := ReadLock(Written(frozenAt, r));
      lock.Parsed? ==> lock.document.frozenAt == Some(Text(Reading(frozenAt).value))
  {
    hide Reading;
  }

  lemma DateRefused(tree: Tree, head: Tree, trusted: seq<Entry>)
    requires Locks(head.lock, trusted)
    requires tree.lock.Parsed? ==> tree.lock.document.frozenAt != head.lock.document.frozenAt
    ensures !Accepted(tree, head)
  {
    hide Reads, DistinctPaths, Appends, Verified;
  }
}
