/** What a frozen path says about its migration: tools/python/check_migration_history.py, lines 63-115. */
module MigrationPaths {
  import opened Options
  import opened MigrationLock
  import opened MigrationFreeze

  // ---- The four directories ----

  lemma DirectoryNames()
    ensures CONTROL == "crates/ryframe-db/src/migration/"
    ensures TENANT == "crates/ryframe-tenant-db/src/migration/"
    ensures CONTROL_GENERATED == "crates/ryframe-db/src/generated/"
    ensures TENANT_GENERATED == "crates/ryframe-tenant-db/src/generated/"
  {
    hide Under;
    UnderWhole("ryframe-db", "migration", "crates/ryframe-db", "/src/migration/");
    UnderWhole("ryframe-tenant-db", "migration", "crates/ryframe-tenant-db", "/src/migration/");
    UnderWhole("ryframe-db", "generated", "crates/ryframe-db", "/src/generated/");
    UnderWhole("ryframe-tenant-db", "generated", "crates/ryframe-tenant-db", "/src/generated/");
    JoinedNames();
  }

  lemma JoinedNames()
    ensures "crates/ryframe-db" + "/src/migration/" == "crates/ryframe-db/src/migration/"
    ensures "crates/ryframe-db" + "/src/generated/" == "crates/ryframe-db/src/generated/"
    ensures "crates/ryframe-tenant-db" + "/src/migration/" == "crates/ryframe-tenant-db/src/migration/"
    ensures "crates/ryframe-tenant-db" + "/src/generated/" == "crates/ryframe-tenant-db/src/generated/"
  {
  }

  lemma UnderWhole(crate: string, directory: string, head: string, tail: string)
    requires head == "crates/" + crate && tail == "/src/" + directory + "/"
    ensures Under(crate, directory) == head + tail
  {
    hide Under;
    UnderIs(crate, directory);
  }

  lemma UnderIs(crate: string, directory: string)
    ensures Under(crate, directory) == ("crates/" + crate) + ("/src/" + directory + "/")
  {
    assert "crates" + "/" == "crates/" && "/" + "src" + "/" == "/src/";
    assert "crates/" + crate + "/" + "src" + "/" + directory + "/" == ("crates/" + crate) + ("/" + "src" + "/" + directory + "/");
  }

  /** The path is a relative path to a Rust file, without empty parts, `.` or `..`. */
  predicate Tidy(path: string) {
    && Posix(Parts(path)) == path && ".." !in Parts(path)
    && Parts(path) != [] && RustFile(Parts(path)[|Parts(path)| - 1])
  }

  /** A file named after the migration, or something in a directory named after it. */
  predicate FileOf(rest: string, target: string) {
    MigrationName(target) && (rest == target + ".rs" || target + "/" <= rest)
  }

  /** The generated migration of a resource. */
  predicate ResourceOf(rest: string, name: string, target: string) {
    '/' !in name && rest == name + "/migration.rs" && target == "resource:" + name + ":initial"
  }

  predicate Within(path: string, directory: string) {
    directory <= path
  }

  function Beyond(path: string, directory: string): string
    requires Within(path, directory)
  {
    path[|directory|..]
  }

  ghost predicate Names(path: string, written: string, generated: string, target: string) {
    || (Within(path, written) && FileOf(Beyond(path, written), target))
    || (Within(path, generated) && exists name :: ResourceOf(Beyond(path, generated), name, target))
  }

  /** Storage and target as the directories and names of the path say, and nothing else. */
  ghost predicate BelongsTo(path: string, storage: string, target: string) {
    || (storage == "control" && Names(path, "crates/ryframe-db/src/migration/", "crates/ryframe-db/src/generated/", target))
    || (storage == "tenant-data" &&
        Names(path, "crates/ryframe-tenant-db/src/migration/", "crates/ryframe-tenant-db/src/generated/", target))
  }

  // ---- Paths and their parts ----

  lemma UnderParts(crate: string, directory: string, rest: string)
    requires Part(crate) && Part(directory)
    ensures Parts(Under(crate, directory) + rest) == ["crates", crate, "src", directory] + Parts(rest)
  {
    hide Parts;
    assert Part("crates") && Part("src");
    PartThenSlash(directory, rest);
    PartThenSlash("src", directory + "/" + rest);
    PartThenSlash(crate, "src" + "/" + (directory + "/" + rest));
    PartThenSlash("crates", crate + "/" + ("src" + "/" + (directory + "/" + rest)));
    assert Under(crate, directory) + rest ==
      "crates" + "/" + (crate + "/" + ("src" + "/" + (directory + "/" + rest)));
  }

  lemma UnderPosix(crate: string, directory: string, parts: seq<string>)
    requires parts != []
    ensures Posix(["crates", crate, "src", directory] + parts) == Under(crate, directory) + Posix(parts)
  {
    var all := ["crates", crate, "src", directory] + parts;
    FourParts(all);
    assert all[4..] == parts;
  }

  /** A tidy path inside a directory continues with a tidy rest. */
  lemma TidyRest(crate: string, directory: string, path: string)
    requires Part(crate) && Part(directory) && Tidy(path) && Within(path, Under(crate, directory))
    ensures var rest := Beyond(path, Under(crate, directory));
      Parts(path) == ["crates", crate, "src", directory] + Parts(rest) && (Parts(rest) != [] ==> Posix(Parts(rest)) == rest)
  {
    hide Parts, Posix, RustFile;
    var prefix := Under(crate, directory);
    var rest := Beyond(path, prefix);
    assert path == prefix + rest;
    UnderParts(crate, directory, rest);
    if Parts(rest) != [] {
      UnderPosix(crate, directory, Parts(rest));
      assert prefix + Posix(Parts(rest)) == prefix + rest;
      SameRest(prefix, Posix(Parts(rest)), rest);
    }
  }

  lemma SameRest(prefix: string, a: string, b: string)
    requires prefix + a == prefix + b
    ensures a == b
  {
    assert (prefix + a)[|prefix|..] == a && (prefix + b)[|prefix|..] == b;
  }

  /** A tidy path whose first four parts name a directory lies in it. */
  lemma TidyWithin(crate: string, directory: string, path: string)
    requires Tidy(path) && |Parts(path)| > 4 && Parts(path)[..4] == ["crates", crate, "src", directory]
    ensures Within(path, Under(crate, directory))
  {
    hide Parts, Posix, RustFile;
    var parts := Parts(path);
    assert parts == ["crates", crate, "src", directory] + parts[4..];
    UnderPosix(crate, directory, parts[4..]);
    StartsWith(Under(crate, directory), Posix(parts[4..]));
  }

  lemma NameIsPart(name: string)
    requires MigrationName(name)
    ensures Part(name) && name != ".." && '.' !in name
  {
    forall k | 0 <= k < |name|
      ensures name[k] != '/' && name[k] != '.'
    {
      if 1 <= k < 9 {
        assert name[1..9][k - 1] in name[1..9];
      } else if 10 <= k < 16 {
        assert name[10..16][k - 10] in name[10..16];
      } else if k >= 18 {
        assert name[18..][k - 18] in name[18..];
      }
    }
  }

  lemma StemOfFile(name: string)
    requires |name| > 3
    ensures RustFile(name) <==> name == name[..|name| - 3] + ".rs"
    ensures RustFile(name) ==> Stem(name) == name[..|name| - 3]
  {
    var n := |name|;
    if RustFile(name) {
      assert name[n - 1] == name[n - 3..][2] && name[n - 2] == name[n - 3..][1] && name[n - 3] == name[n - 3..][0];
      assert LastDot(name, n) == LastDot(name, n - 1) == LastDot(name, n - 2) == n - 3;
    }
  }

  // ---- Handwritten migrations ----

  lemma WrittenIdentity(rest: string, storage: string, target: string)
    requires Parts(rest) != [] && Posix(Parts(rest)) == rest && RustFile(Parts(rest)[|Parts(rest)| - 1])
    ensures Handwritten(storage, Parts(rest)) == Some(Identity(storage, target)) <==> FileOf(rest, target)
  {
    hide Parts, MigrationName, Stem, PartsFrom, RustFile, FileOf;
    var parts := Parts(rest);
    PartsAre(rest);
    if |parts| == 1 {
      LonePosix(parts[0]);
      FileAlone(rest, parts[0], target);
    } else {
      JoinFirst(parts, 0);
      assert parts[0..] == parts;
      InDirectory(rest, parts[0], Posix(parts[1..]), target);
    }
  }

  lemma SlashInside(a: string, b: string)
    ensures b + "/" <= a ==> '/' in a
    ensures '/' in b + ".rs" ==> '/' in b
  {
    if b + "/" <= a {
      assert (b + "/")[|b|] == '/' && a[|b|] in a;
    }
  }

  lemma FileAlone(rest: string, name: string, target: string)
    requires rest == name && Part(name) && RustFile(name)
    ensures MigrationName(target) && target == Stem(name) <==> FileOf(rest, target)
  {
    hide MigrationName, Stem;
    StemOfFile(name);
    SlashInside(rest, target);
    if rest == target + ".rs" {
      assert name[..|name| - 3] == target;
    }
  }

  function FirstSlash(s: string): nat {
    if s == "" || s[0] == '/' then 0 else 1 + FirstSlash(s[1..])
  }

  lemma {:induction false} SlashAfter(a: string, rest: string)
    requires '/' !in a
    ensures FirstSlash(a + "/" + rest) == |a|
    decreases |a|
  {
    var s := a + "/" + rest;
    if a != "" {
      assert s[0] == a[0] && a[0] in a && s[1..] == a[1..] + "/" + rest;
      SlashAfter(a[1..], rest);
    }
  }

  /** What stands before the first slash is determined. */
  lemma SameFirst(a: string, b: string, rest: string)
    requires '/' !in a && '/' !in b && b + "/" <= a + "/" + rest
    ensures a == b
  {
    var s := a + "/" + rest;
    var more := s[|b| + 1..];
    assert s == b + "/" + more;
    SlashAfter(a, rest);
    SlashAfter(b, more);
    assert s[..|a|] == a && s[..|b|] == b;
  }

  lemma InDirectory(rest: string, first: string, more: string, target: string)
    requires rest == first + "/" + more && Part(first)
    ensures MigrationName(target) && target == first <==> FileOf(rest, target)
  {
    assert rest[|first|] == '/' && rest[|first|] in rest;
    SlashInside(rest, target);
    if MigrationName(target) {
      NameIsPart(target);
      hide MigrationName;
      if target + "/" <= rest {
        SameFirst(first, target, more);
      }
    }
  }

  // ---- Generated migrations ----

  lemma GeneratedIdentity(rest: string, storage: string, target: string)
    requires Parts(rest) != [] && Posix(Parts(rest)) == rest
    ensures Generated(storage, Parts(rest)) == Some(Identity(storage, target)) <==>
      exists name :: ResourceOf(rest, name, target)
  {
    hide Parts, Posix;
    var parts := Parts(rest);
    PartsAre(rest);
    if |parts| == 2 && parts[1] == "migration.rs" {
      TwoParts(parts);
      assert ResourceOf(rest, parts[0], "resource:" + parts[0] + ":initial");
    }
    if name :| ResourceOf(rest, name, target) {
      ResourceParts(rest, name);
    }
  }

  lemma TwoParts(parts: seq<string>)
    requires |parts| == 2
    ensures Posix(parts) == parts[0] + "/" + parts[1]
  {
    assert parts[1..] == [parts[1]];
  }

  lemma ResourceParts(rest: string, name: string)
    requires Posix(Parts(rest)) == rest && '/' !in name && rest == name + "/migration.rs"
    ensures Parts(rest) == [name, "migration.rs"]
  {
    hide Parts, Posix;
    LonePart("migration.rs");
    assert rest == name + "/" + "migration.rs";
    PartOrShorter(name);
    PartThenSlash(name, "migration.rs");
  }

  lemma PartOrShorter(name: string)
    requires '/' !in name
    ensures Part(name) || |Posix(Parts(name + "/" + "migration.rs"))| < |name + "/" + "migration.rs"|
  {
    hide Parts, Posix;
    if !Part(name) {
      NoPart(name);
      LonePart("migration.rs");
      LonePosix("migration.rs");
    }
  }

  lemma LonePosix(p: string)
    ensures Posix([p]) == p
  {
  }

  lemma NoPart(name: string)
    requires !Part(name) && '/' !in name
    ensures Parts(name + "/" + "migration.rs") == Parts("migration.rs")
  {
    var tail := "/" + "migration.rs";
    WalkPart(name, "", tail);
    assert name + "/" + "migration.rs" == name + tail && "" + name == name;
    assert tail[1..] == "migration.rs";
  }

  // ---- Any path ----

  lemma IdentityWithin(crate: string, directory: string, path: string)
    requires Part(crate) && Part(directory) && Tidy(path) && Within(path, Under(crate, directory))
    requires crate == "ryframe-db" || crate == "ryframe-tenant-db"
    requires directory == "migration" || directory == "generated"
    ensures var rest := Beyond(path, Under(crate, directory)); var storage := StorageOf(crate);
      LockIdentity(path) ==
        if Parts(rest) == [] then None
        else if directory == "migration" then Handwritten(storage, Parts(rest)) else Generated(storage, Parts(rest))
  {
    hide Parts, Handwritten, Generated, Tidy;
    TidyRest(crate, directory, path);
    var rest := Beyond(path, Under(crate, directory));
    assert Parts(path)[4..] == Parts(rest);
  }

  function StorageOf(crate: string): string {
    if crate == "ryframe-db" then "control" else "tenant-data"
  }

  lemma TidyRestMore(crate: string, directory: string, path: string)
    requires Part(crate) && Part(directory) && Tidy(path) && Within(path, Under(crate, directory))
    requires directory != "migration.rs" && (directory == "migration" || directory == "generated")
    ensures var rest := Beyond(path, Under(crate, directory));
      Parts(rest) != [] && Posix(Parts(rest)) == rest && RustFile(Parts(rest)[|Parts(rest)| - 1])
  {
    hide Parts, Posix;
    TidyRest(crate, directory, path);
    var rest := Beyond(path, Under(crate, directory));
    var head := ["crates", crate, "src", directory];
    assert !RustFile("migration") && !RustFile("generated");
    var last := Parts(path)[|Parts(path)| - 1];
    assert Parts(rest) == [] ==> last == directory;
    assert Parts(rest) != [] ==> last == Parts(rest)[|Parts(rest)| - 1];
  }

  /** A tidy path inside one of the four directories has the identity its names say. */
  lemma InsideExactly(crate: string, directory: string, path: string, storage: string, target: string)
    requires Part(crate) && Part(directory) && Tidy(path) && Within(path, Under(crate, directory))
    requires crate == "ryframe-db" || crate == "ryframe-tenant-db"
    requires directory == "migration" || directory == "generated"
    ensures var rest := Beyond(path, Under(crate, directory));
      LockIdentity(path) == Some(Identity(storage, target)) <==>
        && storage == StorageOf(crate)
        && if directory == "migration" then FileOf(rest, target) else exists name :: ResourceOf(rest, name, target)
  {
    hide LockIdentity, Parts, Posix, Tidy, RustFile, FileOf, ResourceOf;
    IdentityWithin(crate, directory, path);
    TidyRestMore(crate, directory, path);
    var rest := Beyond(path, Under(crate, directory));
    WrittenIdentity(rest, StorageOf(crate), target);
    GeneratedIdentity(rest, StorageOf(crate), target);
    SameStorage(crate, Parts(rest));
  }

  lemma SameStorage(crate: string, parts: seq<string>)
    ensures Handwritten(StorageOf(crate), parts).Some? ==>
      Handwritten(StorageOf(crate), parts).value.storage == StorageOf(crate)
    ensures Generated(StorageOf(crate), parts).Some? ==>
      Generated(StorageOf(crate), parts).value.storage == StorageOf(crate)
  {
    hide MigrationName, Stem;
  }

  lemma FourDirectories(path: string)
    requires Tidy(path) && InMigrations(Parts(path))
    ensures Within(path, Under(Parts(path)[1], Parts(path)[3]))
  {
    hide Tidy, Parts;
    var parts := Parts(path);
    assert parts[..4] == ["crates", parts[1], "src", parts[3]];
    TidyWithin(parts[1], parts[3], path);
  }

  /** The identity of a tidy path is exactly what its directories and names say. */
  lemma IdentityExactly(path: string, storage: string, target: string)
    requires Tidy(path)
    ensures LockIdentity(path) == Some(Identity(storage, target)) <==> BelongsTo(path, storage, target)
  {
    hide LockIdentity, Parts, Posix, Tidy, RustFile, FileOf, ResourceOf, Under, Within, Beyond;
    DirectoryNames();
    assert Part("ryframe-db") && Part("ryframe-tenant-db") && Part("migration") && Part("generated");
    if LockIdentity(path).Some? {
      IdentityInside(path);
      FourDirectories(path);
    }
    InsideIf("ryframe-db", "migration", path, storage, target);
    InsideIf("ryframe-db", "generated", path, storage, target);
    InsideIf("ryframe-tenant-db", "migration", path, storage, target);
    InsideIf("ryframe-tenant-db", "generated", path, storage, target);
  }

  lemma InsideIf(crate: string, directory: string, path: string, storage: string, target: string)
    requires Part(crate) && Part(directory) && Tidy(path)
    requires crate == "ryframe-db" || crate == "ryframe-tenant-db"
    requires directory == "migration" || directory == "generated"
    ensures Within(path, Under(crate, directory)) ==>
      (LockIdentity(path) == Some(Identity(storage, target)) <==>
        && storage == StorageOf(crate)
        && var rest := Beyond(path, Under(crate, directory));
           if directory == "migration" then FileOf(rest, target) else exists name :: ResourceOf(rest, name, target))
  {
    hide LockIdentity, Parts, Tidy, FileOf, ResourceOf, Under;
    if Within(path, Under(crate, directory)) {
      InsideExactly(crate, directory, path, storage, target);
    }
  }

  // ---- Locked entries ----

  /** The relative path of an entry is tidy. */
  lemma SafeIsTidy(path: string)
    requires SafePath(path) == Some(path)
    ensures Tidy(path)
  {
    hide LockIdentity, Prefixed;
    SafeMeans(path);
  }

  /** A tidy path that belongs to a migration is safe, and stands for itself. */
  lemma TidyIsSafe(path: string, storage: string, target: string)
    requires Tidy(path) && BelongsTo(path, storage, target)
    ensures SafePath(path) == Some(path)
  {
    hide LockIdentity, Parts, RustFile, BelongsTo;
    IdentityExactly(path, storage, target);
    IdentityInside(path);
    JoinedPrefix(Parts(path));
    SafeMeans(path);
  }

  /** Every entry of a clean lock belongs, by its path alone, to the storage and the target it names. */
  lemma EntryBelongs(lock: LockFile, entries: seq<Entry>, i: nat)
    requires Locks(lock, entries) && i < |entries|
    ensures Tidy(entries[i].relative) && BelongsTo(entries[i].relative, entries[i].storage, entries[i].target)
  {
    hide SafePath, LockIdentity, BelongsTo, Tidy;
    LockedNormal(lock, entries, i);
    SafeIsTidy(entries[i].relative);
    IdentityExactly(entries[i].relative, entries[i].storage, entries[i].target);
  }

  /** A tidy path is accepted with a storage and a target exactly when it belongs to them. */
  lemma AcceptedExactly(path: string, sha256: Digest, storage: string, target: string)
    requires Tidy(path)
    ensures EntryOf(RawEntry(Some(path), Some(sha256), Some(storage), Some(target))) ==
              Some(Entry(path, sha256, storage, target))
      <==> BelongsTo(path, storage, target)
  {
    hide SafePath, LockIdentity, BelongsTo, Tidy;
    IdentityExactly(path, storage, target);
    if BelongsTo(path, storage, target) {
      TidyIsSafe(path, storage, target);
    }
  }
}
