/**
 * Placements, fences and slots over all dumped databases: tools/python/devex_clone_model.py, lines 242-296 and
 * 317-355.
 */
module Placement {
  import opened Options

  type Key = string

  /** Where a tenant lives, at which generation, under which switch token. */
  datatype Seat = Seat(target: Key, generation: int, token: string)

  /** What a slot row says; all None when the slot is empty. */
  datatype Slot = Slot(tenant: Option<string>, generation: Option<int>, token: Option<string>)

  const EMPTY := Slot(None, None, None)

  datatype Row =
    | Tenant(tenant: string)
    | Placed(tenant: string, seat: Seat, active: bool)
    | Fenced(tenant: string, seat: Seat, active: bool)
    | SlotRow(id: int, slot: Slot)
    | OtherRow

  /** A row and the key of the database it was dumped from. */
  datatype Line = Line(key: Key, row: Row)

  datatype Mode = Shared | Dedicated

  datatype State = State(tenants: set<string>, placements: map<string, Seat>, fences: map<string, Seat>, slots: map<Key, Slot>)

  const NOTHING := State({}, map[], map[], map[])

  // ---- One row ----

  /** The row alone is fit; an empty token is as good as none. */
  predicate RowOk(l: Line) {
    match l.row
    case Placed(_, seat, active) => active && seat.generation > 0 && seat.token != ""
    case Fenced(_, seat, active) => active && seat.generation > 0 && seat.token != "" && seat.target == l.key
    case SlotRow(id, _) => id == 1
    case _ => true
  }

  predicate New(s: State, l: Line) {
    match l.row
    case Placed(t, _, _) => t !in s.placements
    case Fenced(t, _, _) => t !in s.fences
    case SlotRow(_, _) => l.key !in s.slots
    case _ => true
  }

  function Taken(s: State, l: Line): State {
    match l.row
    case Tenant(t) => s.(tenants := s.tenants + {t})
    case Placed(t, seat, _) => s.(placements := s.placements[t := seat])
    case Fenced(t, seat, _) => s.(fences := s.fences[t := seat])
    case SlotRow(_, slot) => s.(slots := s.slots[l.key := slot])
    case OtherRow => s
  }

  function Gather(lines: seq<Line>): Option<State> {
    if lines == [] then Some(NOTHING)
    else Step(Gather(lines[..|lines| - 1]), lines[|lines| - 1])
  }

  function Step(s: Option<State>, l: Line): Option<State> {
    if s.Some? && RowOk(l) && New(s.value, l) then Some(Taken(s.value, l)) else None
  }

  // ---- All rows ----

  predicate PlacedAt(lines: seq<Line>, i: nat, t: string, seat: Seat) {
    i < |lines| && lines[i].row.Placed? && lines[i].row.tenant == t && lines[i].row.seat == seat
  }

  predicate FencedAt(lines: seq<Line>, i: nat, t: string, seat: Seat) {
    i < |lines| && lines[i].row.Fenced? && lines[i].row.tenant == t && lines[i].row.seat == seat
  }

  predicate SlotAt(lines: seq<Line>, i: nat, key: Key, slot: Slot) {
    i < |lines| && lines[i].row.SlotRow? && lines[i].key == key && lines[i].row.slot == slot
  }

  predicate TenantAt(lines: seq<Line>, i: nat, t: string) {
    i < |lines| && lines[i].row == Tenant(t)
  }

  ghost predicate HasPlaced(lines: seq<Line>, t: string, seat: Seat) {
    exists i :: PlacedAt(lines, i, t, seat)
  }

  ghost predicate HasFenced(lines: seq<Line>, t: string, seat: Seat) {
    exists i :: FencedAt(lines, i, t, seat)
  }

  ghost predicate HasSlot(lines: seq<Line>, key: Key, slot: Slot) {
    exists i :: SlotAt(lines, i, key, slot)
  }

  ghost predicate HasTenant(lines: seq<Line>, t: string) {
    exists i :: TenantAt(lines, i, t)
  }

  /** Two rows that may not stand in the same dump set. */
  predicate Clash(a: Line, b: Line) {
    || (a.row.Placed? && b.row.Placed? && a.row.tenant == b.row.tenant)
    || (a.row.Fenced? && b.row.Fenced? && a.row.tenant == b.row.tenant)
    || (a.row.SlotRow? && b.row.SlotRow? && a.key == b.key)
  }

  predicate Clean(lines: seq<Line>) {
    && (forall i :: 0 <= i < |lines| ==> RowOk(lines[i]))
    && (forall i, j :: 0 <= i < j < |lines| ==> !Clash(lines[i], lines[j]))
  }

  ghost predicate Means(lines: seq<Line>, s: State) {
    && (forall t :: t in s.tenants <==> HasTenant(lines, t))
    && (forall t, seat :: t in s.placements && s.placements[t] == seat <==> HasPlaced(lines, t, seat))
    && (forall t, seat :: t in s.fences && s.fences[t] == seat <==> HasFenced(lines, t, seat))
    && (forall key, slot :: key in s.slots && s.slots[key] == slot <==> HasSlot(lines, key, slot))
  }

  lemma HasOne(lines: seq<Line>, l: Line, t: string, seat: Seat, key: Key, slot: Slot)
    ensures HasTenant(lines + [l], t) <==> HasTenant(lines, t) || l.row == Tenant(t)
    ensures HasPlaced(lines + [l], t, seat) <==>
      HasPlaced(lines, t, seat) || (l.row.Placed? && l.row.tenant == t && l.row.seat == seat)
    ensures HasFenced(lines + [l], t, seat) <==>
      HasFenced(lines, t, seat) || (l.row.Fenced? && l.row.tenant == t && l.row.seat == seat)
    ensures HasSlot(lines + [l], key, slot) <==>
      HasSlot(lines, key, slot) || (l.row.SlotRow? && l.key == key && l.row.slot == slot)
  {
    var all := lines + [l];
    var n := |lines|;
    assert all[n] == l && forall i :: 0 <= i < n ==> all[i] == lines[i];
    assert forall i: nat :: i < n ==> (TenantAt(lines, i, t) <==> TenantAt(all, i, t));
    assert forall i: nat :: i < n ==> (PlacedAt(lines, i, t, seat) <==> PlacedAt(all, i, t, seat));
    assert forall i: nat :: i < n ==> (FencedAt(lines, i, t, seat) <==> FencedAt(all, i, t, seat));
    assert forall i: nat :: i < n ==> (SlotAt(lines, i, key, slot) <==> SlotAt(all, i, key, slot));
    assert TenantAt(all, n, t) <==> l.row == Tenant(t);
    assert PlacedAt(all, n, t, seat) <==> l.row.Placed? && l.row.tenant == t && l.row.seat == seat;
    assert FencedAt(all, n, t, seat) <==> l.row.Fenced? && l.row.tenant == t && l.row.seat == seat;
    assert SlotAt(all, n, key, slot) <==> l.row.SlotRow? && l.key == key && l.row.slot == slot;
  }

  lemma TakenMeans(lines: seq<Line>, s: State, l: Line)
    requires Means(lines, s) && New(s, l)
    ensures Means(lines + [l], Taken(s, l))
  {
    hide HasTenant, HasPlaced, HasFenced, HasSlot;
    var all, now := lines + [l], Taken(s, l);
    var anySeat := Seat("", 0, "");
    forall t: string
      ensures t in now.tenants <==> HasTenant(all, t)
    {
      HasOne(lines, l, t, anySeat, "", EMPTY);
    }
    forall t: string, seat: Seat
      ensures t in now.placements && now.placements[t] == seat <==> HasPlaced(all, t, seat)
      ensures t in now.fences && now.fences[t] == seat <==> HasFenced(all, t, seat)
    {
      HasOne(lines, l, t, seat, "", EMPTY);
      assert t in s.placements && s.placements[t] == seat <==> HasPlaced(lines, t, seat);
      assert t in s.fences && s.fences[t] == seat <==> HasFenced(lines, t, seat);
    }
    forall key: Key, slot: Slot
      ensures key in now.slots && now.slots[key] == slot <==> HasSlot(all, key, slot)
    {
      HasOne(lines, l, "", anySeat, key, slot);
      assert key in s.slots && s.slots[key] == slot <==> HasSlot(lines, key, slot);
    }
  }

  lemma NewIff(lines: seq<Line>, s: State, l: Line)
    requires Means(lines, s)
    ensures New(s, l) <==> forall i :: 0 <= i < |lines| ==> !Clash(lines[i], l)
  {
    forall i | 0 <= i < |lines| && Clash(lines[i], l)
      ensures !New(s, l)
    {
      match l.row
      case Placed(t, _, _) =>
        assert PlacedAt(lines, i, t, lines[i].row.seat);
        assert HasPlaced(lines, t, lines[i].row.seat);
      case Fenced(t, _, _) =>
        assert FencedAt(lines, i, t, lines[i].row.seat);
        assert HasFenced(lines, t, lines[i].row.seat);
      case SlotRow(_, _) =>
        assert SlotAt(lines, i, l.key, lines[i].row.slot);
        assert HasSlot(lines, l.key, lines[i].row.slot);
    }
    if !New(s, l) {
      match l.row
      case Placed(t, _, _) =>
        assert HasPlaced(lines, t, s.placements[t]);
        var i: nat :| PlacedAt(lines, i, t, s.placements[t]);
        assert Clash(lines[i], l);
      case Fenced(t, _, _) =>
        assert HasFenced(lines, t, s.fences[t]);
        var i: nat :| FencedAt(lines, i, t, s.fences[t]);
        assert Clash(lines[i], l);
      case SlotRow(_, _) =>
        assert HasSlot(lines, l.key, s.slots[l.key]);
        var i: nat :| SlotAt(lines, i, l.key, s.slots[l.key]);
        assert Clash(lines[i], l);
    }
  }

  lemma CleanOne(lines: seq<Line>, l: Line)
    ensures Clean(lines + [l]) <==> Clean(lines) && RowOk(l) && forall i :: 0 <= i < |lines| ==> !Clash(lines[i], l)
  {
    var all := lines + [l];
    assert all[|lines|] == l && forall i :: 0 <= i < |lines| ==> all[i] == lines[i];
  }

  /** The scan succeeds exactly on clean rows, and its dictionaries hold exactly what they say. */
  lemma {:induction false} GatherMeans(lines: seq<Line>)
    ensures Gather(lines).Some? <==> Clean(lines)
    ensures Gather(lines).Some? ==> Means(lines, Gather(lines).value)
  {
    if lines != [] {
      var rest, l := lines[..|lines| - 1], lines[|lines| - 1];
      assert lines == rest + [l];
      GatherMeans(rest);
      CleanOne(rest, l);
      hide Means, Clean, RowOk, New, Clash, Taken;
      if Gather(rest).Some? {
        NewIff(rest, Gather(rest).value, l);
        if New(Gather(rest).value, l) {
          TakenMeans(rest, Gather(rest).value, l);
        }
      }
    }
  }

  // ---- The relations ----

  function Residents(placements: map<string, Seat>, key: Key): set<string> {
    set t | t in placements && placements[t].target == key
  }

  function SlotOf(t: string, seat: Seat): Slot {
    Slot(Some(t), Some(seat.generation), Some(seat.token))
  }

  /** The slot of a database agrees with its mode and its resident. */
  predicate SlotFits(s: State, key: Key, mode: Mode) {
    var residents := Residents(s.placements, key);
    if mode == Dedicated && residents != {} then
      |residents| == 1 && key in s.slots && forall t :: t in residents ==> s.slots[key] == SlotOf(t, s.placements[t])
    else key in s.slots && s.slots[key] == EMPTY
  }

  /** `validate_relations`, without jobs and files. */
  predicate Related(s: State, databases: map<Key, Mode>) {
    && s.tenants == s.placements.Keys && s.placements == s.fences
    && (forall t :: t in s.placements ==> s.placements[t].target in databases)
    && forall key :: key in databases ==> SlotFits(s, key, databases[key])
  }

  method ValidateRelations(s: State, databases: map<Key, Mode>, keys: seq<Key>) returns (ok: bool)
    requires forall key :: key in keys <==> key in databases
    ensures ok <==> Related(s, databases)
  {
    if s.tenants != s.placements.Keys || s.placements != s.fences {
      return false;
    }
    var left := s.placements.Keys;
    while left != {}
      invariant left <= s.placements.Keys
      invariant forall t :: t in s.placements && t !in left ==> s.placements[t].target in databases
      decreases left
    {
      var t :| t in left;
      if s.placements[t].target !in databases {
        return false;
      }
      left := left - {t};
    }
    for i := 0 to |keys|
      invariant forall j :: 0 <= j < i ==> SlotFits(s, keys[j], databases[keys[j]])
    {
      var key := keys[i];
      var residents := Residents(s.placements, key);
      if databases[key] == Dedicated && residents != {} {
        if |residents| > 1 {
          return false;
        }
        var t :| t in residents;
        Only(residents, t);
        if key !in s.slots || s.slots[key] != SlotOf(t, s.placements[t]) {
          return false;
        }
      } else if key !in s.slots || s.slots[key] != EMPTY {
        return false;
      }
    }
    assert forall key :: key in databases ==> exists j :: 0 <= j < |keys| && keys[j] == key;
    ok := true;
  }

  lemma Only(s: set<string>, t: string)
    requires t in s && |s| <= 1
    ensures |s| == 1 && s == {t}
  {
    assert |s - {t}| == 0;
    assert s - {t} == {};
  }

  /** What the two checks mean for the rows themselves. */
  ghost predicate Seated(lines: seq<Line>, databases: map<Key, Mode>) {
    && (forall t :: HasTenant(lines, t) <==> exists seat :: HasPlaced(lines, t, seat))
    && (forall t, seat :: HasPlaced(lines, t, seat) <==> HasFenced(lines, t, seat))
    && (forall t, seat :: HasPlaced(lines, t, seat) ==> seat.target in databases)
    && (forall key :: key in databases ==> KeySeated(lines, key, databases[key]))
  }

  ghost predicate KeySeated(lines: seq<Line>, key: Key, mode: Mode) {
    if mode == Dedicated && exists t, seat :: HasPlaced(lines, t, seat) && seat.target == key then
      && (forall t, u, seat, other :: HasPlaced(lines, t, seat) && HasPlaced(lines, u, other) && seat.target == key == other.target ==> t == u)
      && (forall t, seat :: HasPlaced(lines, t, seat) && seat.target == key ==> HasSlot(lines, key, SlotOf(t, seat)))
    else HasSlot(lines, key, EMPTY)
  }

  lemma KeyFitsIff(lines: seq<Line>, s: State, key: Key, mode: Mode)
    requires Means(lines, s)
    ensures SlotFits(s, key, mode) <==> KeySeated(lines, key, mode)
  {
    hide HasTenant, HasPlaced, HasFenced, HasSlot;
    var residents := Residents(s.placements, key);
    assert forall t, seat :: HasPlaced(lines, t, seat) ==> t in s.placements && s.placements[t] == seat;
    assert forall t :: t in s.placements ==> HasPlaced(lines, t, s.placements[t]);
    assert forall t, seat :: HasPlaced(lines, t, seat) && seat.target == key ==> t in residents;
    assert forall t :: t in residents ==> HasPlaced(lines, t, s.placements[t]) && s.placements[t].target == key;
    assert forall slot :: HasSlot(lines, key, slot) <==> key in s.slots && s.slots[key] == slot;
    if residents != {} {
      var t :| t in residents;
      if |residents| == 1 {
        Only(residents, t);
      }
      if forall u :: u in residents ==> u == t {
        assert residents == {t};
      }
    }
  }

  lemma RelatedIsSeated(lines: seq<Line>, s: State, databases: map<Key, Mode>)
    requires Means(lines, s)
    ensures Related(s, databases) <==> Seated(lines, databases)
  {
    hide HasTenant, HasPlaced, HasFenced, HasSlot, SlotFits, KeySeated;
    forall key: Key, mode: Mode
      ensures SlotFits(s, key, mode) <==> KeySeated(lines, key, mode)
    {
      KeyFitsIff(lines, s, key, mode);
    }
    assert s.tenants == s.placements.Keys <==> forall t :: HasTenant(lines, t) <==>
      exists seat :: HasPlaced(lines, t, seat) by {
      forall t
        ensures t in s.placements <==> exists seat :: HasPlaced(lines, t, seat)
      {
        assert t in s.placements ==> HasPlaced(lines, t, s.placements[t]);
      }
      assert forall t :: t in s.tenants <==> HasTenant(lines, t);
    }
    assert s.placements == s.fences <==> forall t, seat :: HasPlaced(lines, t, seat) <==> HasFenced(lines, t, seat) by {
      SameMaps(lines, s);
    }
    assert (forall t :: t in s.placements ==> s.placements[t].target in databases) <==>
           (forall t, seat :: HasPlaced(lines, t, seat) ==> seat.target in databases) by {
      assert forall t :: t in s.placements ==> HasPlaced(lines, t, s.placements[t]);
    }
  }

  lemma SameMaps(lines: seq<Line>, s: State)
    requires Means(lines, s)
    ensures s.placements == s.fences <==> forall t, seat :: HasPlaced(lines, t, seat) <==> HasFenced(lines, t, seat)
  {
    hide HasTenant, HasPlaced, HasFenced, HasSlot;
    if forall t, seat :: HasPlaced(lines, t, seat) <==> HasFenced(lines, t, seat) {
      forall t | t in s.placements
        ensures t in s.fences && s.fences[t] == s.placements[t]
      {
        assert HasPlaced(lines, t, s.placements[t]);
      }
      forall t | t in s.fences
        ensures t in s.placements
      {
        assert HasFenced(lines, t, s.fences[t]);
      }
    }
  }

  // ---- The whole plan ----

  datatype Dump = Dump(key: Key, rows: seq<Row>)

  function Lines(d: Dump): seq<Line> {
    seq(|d.rows|, i requires 0 <= i < |d.rows| => Line(d.key, d.rows[i]))
  }

  function AllLines(dumps: seq<Dump>): seq<Line> {
    if dumps == [] then [] else AllLines(dumps[..|dumps| - 1]) + Lines(dumps[|dumps| - 1])
  }

  /** One dump per database. */
  predicate OneDumpEach(dumps: seq<Dump>, databases: map<Key, Mode>) {
    && |dumps| == |databases|
    && (forall i :: 0 <= i < |dumps| ==> dumps[i].key in databases)
    && forall i, j :: 0 <= i < j < |dumps| ==> dumps[i].key != dumps[j].key
  }

  class Collected {
    var tenants: set<string>
    var placements: map<string, Seat>
    var fences: map<string, Seat>
    var slots: map<Key, Slot>

    constructor ()
      ensures Value() == NOTHING
    {
      tenants, placements, fences, slots := {}, map[], map[], map[];
    }

    function Value(): State
      reads this
    {
      State(tenants, placements, fences, slots)
    }

    /** `collect`. */
    method Collect(l: Line) returns (ok: bool)
      modifies this
      ensures ok <==> RowOk(l) && New(old(Value()), l)
      ensures Value() == if ok then Taken(old(Value()), l) else old(Value())
    {
      ok := RowOk(l);
      match l.row {
        case Tenant(t) => tenants := tenants + {t};
        case Placed(t, seat, active) =>
          ok := ok && t !in placements;
          if ok {
            placements := placements[t := seat];
          }
        case Fenced(t, seat, active) =>
          ok := ok && t !in fences;
          if ok {
            fences := fences[t := seat];
          }
        case SlotRow(id, slot) =>
          ok := ok && l.key !in slots;
          if ok {
            slots := slots[l.key := slot];
          }
        case OtherRow =>
      }
    }

    /** The rows of one dump. */
    method CollectDump(d: Dump, ghost before: seq<Line>) returns (ok: bool)
      requires Gather(before) == Some(Value())
      modifies this
      ensures ok <==> Gather(before + Lines(d)).Some?
      ensures ok ==> Gather(before + Lines(d)) == Some(Value())
    {
      hide RowOk, New, Taken, Gather;
      var lines := Lines(d);
      assert before + lines[..0] == before;
      for i := 0 to |lines|
        invariant Gather(before + lines[..i]) == Some(Value())
      {
        GatherOne(before + lines[..i], lines[i]);
        assert before + lines[..i + 1] == before + lines[..i] + [lines[i]];
        ok := Collect(lines[i]);
        if !ok {
          assert before + lines == before + lines[..i + 1] + lines[i + 1..];
          GatherFails(before + lines[..i + 1], lines[i + 1..]);
          return;
        }
      }
      assert lines[..|lines|] == lines;
      ok := true;
    }
  }

  lemma GatherOne(lines: seq<Line>, l: Line)
    ensures Gather(lines + [l]) == Step(Gather(lines), l)
  {
    assert (lines + [l])[..|lines|] == lines;
  }

  lemma {:induction false} GatherFails(lines: seq<Line>, more: seq<Line>)
    requires Gather(lines).None?
    ensures Gather(lines + more).None?
    decreases |more|
  {
    if more == [] {
      assert lines + more == lines;
    } else {
      var rest := more[..|more| - 1];
      GatherFails(lines, rest);
      assert lines + more == (lines + rest) + [more[|more| - 1]];
      GatherOne(lines + rest, more[|more| - 1]);
    }
  }

  /** `database_plan`, as far as placements go: one dump per database, then the relations. */
  ghost predicate Planned(dumps: seq<Dump>, databases: map<Key, Mode>) {
    OneDumpEach(dumps, databases) && Clean(AllLines(dumps)) && Seated(AllLines(dumps), databases)
  }

  method DatabasePlan(dumps: seq<Dump>, databases: map<Key, Mode>, order: seq<Key>) returns (ok: bool)
    requires forall key :: key in order <==> key in databases
    ensures ok <==> Planned(dumps, databases)
  {
    hide Gather, Clean, Seated, Related, Means;
    if |dumps| != |databases| {
      return false;
    }
    var seen: set<Key> := {};
    var collected := new Collected();
    GatherNone();
    for i := 0 to |dumps|
      invariant fresh(collected)
      invariant forall key :: key in seen <==> exists j :: 0 <= j < i && dumps[j].key == key
      invariant forall j :: 0 <= j < i ==> dumps[j].key in databases
      invariant forall j, k :: 0 <= j < k < i ==> dumps[j].key != dumps[k].key
      invariant Gather(AllLines(dumps[..i])) == Some(collected.Value())
    {
      if dumps[i].key !in databases || dumps[i].key in seen {
        return false;
      }
      seen := seen + {dumps[i].key};
      AllLinesStep(dumps, i);
      var fit := collected.CollectDump(dumps[i], AllLines(dumps[..i]));
      if !fit {
        AllLinesPrefix(dumps, i + 1);
        GatherMeans(AllLines(dumps));
        return false;
      }
    }
    assert dumps[..|dumps|] == dumps;
    GatherMeans(AllLines(dumps));
    RelatedIsSeated(AllLines(dumps), collected.Value(), databases);
    ok := ValidateRelations(collected.Value(), databases, order);
  }

  lemma GatherNone()
    ensures Gather([]) == Some(NOTHING)
  {
  }

  lemma AllLinesStep(dumps: seq<Dump>, i: nat)
    requires i < |dumps|
    ensures AllLines(dumps[..i + 1]) == AllLines(dumps[..i]) + Lines(dumps[i])
  {
    assert dumps[..i + 1][..i] == dumps[..i];
  }

  lemma {:induction false} AllLinesPrefix(dumps: seq<Dump>, i: nat)
    requires i <= |dumps| && Gather(AllLines(dumps[..i])).None?
    ensures Gather(AllLines(dumps)).None?
    decreases |dumps| - i
  {
    if i == |dumps| {
      assert dumps[..i] == dumps;
    } else {
      AllLinesStep(dumps, i);
      GatherFails(AllLines(dumps[..i]), Lines(dumps[i]));
      AllLinesPrefix(dumps, i + 1);
    }
  }

  /** Every row of an accepted plan is fit by itself. */
  lemma RowsFit(dumps: seq<Dump>, databases: map<Key, Mode>, i: nat)
    requires Planned(dumps, databases) && i < |AllLines(dumps)|
    ensures var l := AllLines(dumps)[i];
      && (l.row.Placed? || l.row.Fenced? ==> l.row.active && l.row.seat.generation > 0 && l.row.seat.token != "")
      && (l.row.Fenced? ==> l.row.seat.target == l.key)
      && (l.row.SlotRow? ==> l.row.id == 1)
  {
    hide Seated, OneDumpEach, AllLines;
    assert RowOk(AllLines(dumps)[i]);
  }

  /** A row is refused exactly when it is inactive, has no generation or token, or stands in the wrong place. */
  lemma RowRefused(l: Line)
    ensures Gather([l]).None? <==> match l.row
      case Placed(_, seat, active) => !active || seat.generation <= 0 || seat.token == ""
      case Fenced(_, seat, active) => !active || seat.generation <= 0 || seat.token == "" || seat.target != l.key
      case SlotRow(id, _) => id != 1
      case _ => false
  {
    assert [l][..0] == [];
  }

  /** The rows `i` and `j` are the only placement and the only fence of the tenant, and they agree. */
  ghost predicate SeatedBy(lines: seq<Line>, databases: map<Key, Mode>, t: string, i: nat, j: nat) {
    && i < |lines| && j < |lines| && lines[i].row.Placed? && PlacedAt(lines, i, t, lines[i].row.seat) && FencedAt(lines, j, t, lines[i].row.seat)
    && lines[j].key == lines[i].row.seat.target && lines[j].key in databases
    && (forall k :: 0 <= k < |lines| && lines[k].row.Placed? && lines[k].row.tenant == t ==> k == i)
    && (forall k :: 0 <= k < |lines| && lines[k].row.Fenced? && lines[k].row.tenant == t ==> k == j)
  }

  /**
   * Every tenant has exactly one placement and one fence, equal, and the fence stands in the database the placement
   * names.
   */
  lemma TenantSeatedOnce(dumps: seq<Dump>, databases: map<Key, Mode>, t: string)
    requires Planned(dumps, databases) && HasTenant(AllLines(dumps), t)
    ensures exists i, j :: SeatedBy(AllLines(dumps), databases, t, i, j)
  {
    var lines := AllLines(dumps);
    hide HasTenant, KeySeated, OneDumpEach;
    var seat :| HasPlaced(lines, t, seat);
    assert HasFenced(lines, t, seat);
    var i: nat :| PlacedAt(lines, i, t, seat);
    var j: nat :| FencedAt(lines, j, t, seat);
    assert RowOk(lines[j]);
    forall k | 0 <= k < |lines| && lines[k].row.Placed? && lines[k].row.tenant == t
      ensures k == i
    {
      assert k < i ==> !Clash(lines[k], lines[i]);
      assert i < k ==> !Clash(lines[i], lines[k]);
    }
    forall k | 0 <= k < |lines| && lines[k].row.Fenced? && lines[k].row.tenant == t
      ensures k == j
    {
      assert k < j ==> !Clash(lines[k], lines[j]);
      assert j < k ==> !Clash(lines[j], lines[k]);
    }
    assert SeatedBy(lines, databases, t, i, j);
  }

  /** A dedicated database houses at most one tenant and its slot row names that one; a shared one has an empty slot. */
  lemma ResidentAlone(dumps: seq<Dump>, databases: map<Key, Mode>, key: Key, t: string, u: string, seat: Seat,
                      other: Seat)
    requires Planned(dumps, databases) && key in databases
    requires HasPlaced(AllLines(dumps), t, seat) && seat.target == key
    ensures databases[key] == Dedicated ==> HasSlot(AllLines(dumps), key, SlotOf(t, seat))
    ensures databases[key] == Dedicated && HasPlaced(AllLines(dumps), u, other) && other.target == key ==> u == t
    ensures databases[key] == Shared ==> HasSlot(AllLines(dumps), key, EMPTY)
  {
    hide HasPlaced, HasSlot, HasTenant, HasFenced;
    assert KeySeated(AllLines(dumps), key, databases[key]);
  }

  ghost predicate Housed(lines: seq<Line>, key: Key, t: string, seat: Seat) {
    HasPlaced(lines, t, seat) && seat.target == key
  }

  /** Row `i` is the only slot row of the database. */
  ghost predicate OnlySlot(lines: seq<Line>, key: Key, i: nat, slot: Slot) {
    && SlotAt(lines, i, key, slot)
    && forall k :: 0 <= k < |lines| && lines[k].row.SlotRow? && lines[k].key == key ==> k == i
  }

  /** What the slot of a database has to say: its resident if it is dedicated and has one, and nothing otherwise. */
  ghost predicate SlotFor(lines: seq<Line>, key: Key, mode: Mode, slot: Slot) {
    if mode == Dedicated && exists t, seat :: Housed(lines, key, t, seat) then
      exists t, seat :: Housed(lines, key, t, seat) && slot == SlotOf(t, seat)
    else slot == EMPTY
  }

  /** Every database, housed or not, has exactly one slot row, and it says what it has to say. */
  lemma SlotOnce(dumps: seq<Dump>, databases: map<Key, Mode>, key: Key)
    requires Planned(dumps, databases) && key in databases
    ensures exists i, slot :: OnlySlot(AllLines(dumps), key, i, slot) && SlotFor(AllLines(dumps), key, databases[key], slot)
  {
    hide SlotFor, KeySeated, HasPlaced, HasTenant, HasFenced, Clean, AllLines, OneDumpEach;
    var lines := AllLines(dumps);
    assert KeySeated(lines, key, databases[key]);
    var slot := SeatedSlot(lines, key, databases[key]);
    var i: nat :| SlotAt(lines, i, key, slot);
    OneSlotRow(lines, key, i, slot);
  }

  lemma SeatedSlot(lines: seq<Line>, key: Key, mode: Mode) returns (slot: Slot)
    requires KeySeated(lines, key, mode)
    ensures HasSlot(lines, key, slot) && SlotFor(lines, key, mode, slot)
  {
    hide HasPlaced, HasSlot;
    slot := EMPTY;
    assert forall t, seat :: HasPlaced(lines, t, seat) && seat.target == key ==> Housed(lines, key, t, seat);
    if mode == Dedicated && exists t, seat :: Housed(lines, key, t, seat) {
      var t, seat :| Housed(lines, key, t, seat);
      slot := SlotOf(t, seat);
      assert HasPlaced(lines, t, seat);
    }
  }

  lemma OneSlotRow(lines: seq<Line>, key: Key, i: nat, slot: Slot)
    requires Clean(lines) && SlotAt(lines, i, key, slot)
    ensures OnlySlot(lines, key, i, slot)
  {
    hide RowOk;
    forall k | 0 <= k < |lines| && lines[k].row.SlotRow? && lines[k].key == key
      ensures k == i
    {
      assert k < i ==> !Clash(lines[k], lines[i]);
      assert i < k ==> !Clash(lines[i], lines[k]);
    }
  }
}
