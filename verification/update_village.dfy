/** The task that brings a village's stored state up to date with the page
    the browser shows: it checks that the right village is active, then
    upserts the resource row, the building rows of the page shown, and the
    time of each update. */
module UpdateVillages {

  import opened Wrappers
  import opened Engine
  import opened Entities
  import opened Text

  /** An entry of the village list: its id and whether it is the active one. */
  datatype VillageNode = VillageNode(id: VillageId, active: bool)

  /** The seven values of the stock bar, as parsed and as stored. */
  datatype Resources = Resources(wood: int, clay: int, iron: int, crop: int, warehouse: int, granary: int, freeCrop: int)

  /** A resource field or building slot as the page parser reads it. */
  datatype FieldNode = FieldNode(id: int, level: int, buildingType: BuildingType, isUnderConstruction: bool)

  /** When each part of a village was last read, in milliseconds since
      `DateTime.MinValue` (so a column left at its default is 0). */
  datatype UpdateTime = UpdateTime(resource: nat, dorf1: nat, dorf2: nat)

  datatype Part = ResourcePart | Dorf1Part | Dorf2Part

  function TimeOf(t: UpdateTime, part: Part): nat {
    match part
    case ResourcePart => t.resource
    case Dorf1Part => t.dorf1
    case Dorf2Part => t.dorf2
  }

  /** The three tables the task writes. */
  datatype Db = Db(resources: map<VillageId, Resources>,
                   buildings: map<(VillageId, int), BuildingRow>,
                   updateTimes: map<VillageId, UpdateTime>)

  /** What each update reads from the page. */
  datatype Snapshot = Snapshot(stock: Resources, fields: seq<FieldNode>, infrastructure: seq<FieldNode>)

  /** The row holds the level, type and construction flag the node shows. */
  predicate HoldsNode(row: BuildingRow, node: FieldNode) {
    row.level == node.level && row.buildingType == node.buildingType && row.isUnderConstruction == node.isUnderConstruction
  }

  /** One parsed node written into the building table: a new row when its
      key is absent, otherwise the existing row with its level, type and
      construction flag overwritten. */
  function UpsertRow(m: map<(VillageId, int), BuildingRow>, villageId: VillageId, node: FieldNode): (r: map<(VillageId, int), BuildingRow>)
    ensures r.Keys == m.Keys + {(villageId, node.id)}
    ensures HoldsNode(r[(villageId, node.id)], node)
    ensures (villageId, node.id) !in m ==>
              r[(villageId, node.id)] == BuildingRow(villageId, node.id, node.buildingType, node.level, node.isUnderConstruction)
    ensures (villageId, node.id) in m ==> r[(villageId, node.id)].villageId == m[(villageId, node.id)].villageId &&
                                          r[(villageId, node.id)].id == m[(villageId, node.id)].id
    ensures forall k :: k in m && k != (villageId, node.id) ==> r[k] == m[k]
  {
    var key := (villageId, node.id);
    if key in m then
      m[key := m[key].(level := node.level, buildingType := node.buildingType, isUnderConstruction := node.isUnderConstruction)]
    else
      m[key := BuildingRow(villageId, node.id, node.buildingType, node.level, node.isUnderConstruction)]
  }

  /** The building table after each node, in order, has been written with
      `UpsertRow` under the key (villageId, node id). */
  function Upsert(m: map<(VillageId, int), BuildingRow>, villageId: VillageId, nodes: seq<FieldNode>): (r: map<(VillageId, int), BuildingRow>)
    ensures m.Keys <= r.Keys
    ensures forall k :: k in r && k !in m ==> k.0 == villageId
    ensures forall k :: k in m && k.0 != villageId ==> r[k] == m[k]
  {
    if nodes == [] then m
    else UpsertRow(Upsert(m, villageId, nodes[..|nodes| - 1]), villageId, nodes[|nodes| - 1])
  }

  /** After the upsert there is a row for every parsed node, and no other new row. */
  lemma {:induction false} UpsertKeys(m: map<(VillageId, int), BuildingRow>, villageId: VillageId, nodes: seq<FieldNode>)
    ensures Upsert(m, villageId, nodes).Keys == m.Keys + set n | n in nodes :: (villageId, n.id)
  {
    if nodes != [] {
      var init := nodes[..|nodes| - 1];
      UpsertKeys(m, villageId, init);
      assert nodes == init + [nodes[|nodes| - 1]];
    }
  }

  /** Rows under keys that no parsed node names keep their value. */
  lemma {:induction false} UpsertUntouched(m: map<(VillageId, int), BuildingRow>, villageId: VillageId, nodes: seq<FieldNode>, key: (VillageId, int))
    requires key in m
    requires key.0 != villageId || forall i :: 0 <= i < |nodes| ==> nodes[i].id != key.1
    ensures key in Upsert(m, villageId, nodes) && Upsert(m, villageId, nodes)[key] == m[key]
  {
    if nodes != [] {
      UpsertUntouched(m, villageId, nodes[..|nodes| - 1], key);
    }
  }

  /** The row of a parsed slot holds the level, type and construction flag
      of the last node for that slot. */
  lemma {:induction false} UpsertLastWins(m: map<(VillageId, int), BuildingRow>, villageId: VillageId, nodes: seq<FieldNode>, i: nat)
    requires i < |nodes|
    requires forall j :: i < j < |nodes| ==> nodes[j].id != nodes[i].id
    ensures (villageId, nodes[i].id) in Upsert(m, villageId, nodes)
    ensures HoldsNode(Upsert(m, villageId, nodes)[(villageId, nodes[i].id)], nodes[i])
  {
    if i < |nodes| - 1 {
      UpsertLastWins(m, villageId, nodes[..|nodes| - 1], i);
    }
  }

  /** The update-time table after one part of the village was read at
      `now`: only that column of the village's row changes, and a missing
      row is created with its other columns at their default. */
  function Stamped(times: map<VillageId, UpdateTime>, villageId: VillageId, part: Part, now: nat): (r: map<VillageId, UpdateTime>)
    ensures r.Keys == times.Keys + {villageId}
    ensures TimeOf(r[villageId], part) == now
    ensures forall p :: p != part ==> TimeOf(r[villageId], p) == if villageId in times then TimeOf(times[villageId], p) else 0
    ensures forall v :: v in times && v != villageId ==> r[v] == times[v]
  {
    var t := if villageId in times then times[villageId] else UpdateTime(0, 0, 0);
    var t' := match part
      case ResourcePart => t.(resource := now)
      case Dorf1Part => t.(dorf1 := now)
      case Dorf2Part => t.(dorf2 := now);
    times[villageId := t']
  }

  /** The four updates `Update` can select. */
  datatype UpdateKind = Dorf1 | Dorf2 | CurrentlyBuilding | Resource

  /** The tables after one update. `CurrentlyBuilding` is a stub that
      changes nothing. */
  function Apply(db: Db, kind: UpdateKind, villageId: VillageId, snapshot: Snapshot, now: nat): (r: Db)
    ensures kind == CurrentlyBuilding ==> r == db
    ensures kind == Resource ==> r.buildings == db.buildings && r.resources == db.resources[villageId := snapshot.stock]
    ensures kind != Resource ==> r.resources == db.resources
    ensures Untouched(db, r, villageId)
  {
    match kind
    case Resource =>
      db.(resources := db.resources[villageId := snapshot.stock],
          updateTimes := Stamped(db.updateTimes, villageId, ResourcePart, now))
    case Dorf1 =>
      db.(buildings := Upsert(db.buildings, villageId, snapshot.fields),
          updateTimes := Stamped(db.updateTimes, villageId, Dorf1Part, now))
    case Dorf2 =>
      db.(buildings := Upsert(db.buildings, villageId, snapshot.infrastructure),
          updateTimes := Stamped(db.updateTimes, villageId, Dorf2Part, now))
    case CurrentlyBuilding => db
  }

  /** The rows of every village other than `villageId` are still in `after`
      with the values they had in `before`. */
  predicate Untouched(before: Db, after: Db, villageId: VillageId) {
    && (forall v :: v in before.resources && v != villageId ==> v in after.resources && after.resources[v] == before.resources[v])
    && (forall k :: k in before.buildings && k.0 != villageId ==> k in after.buildings && after.buildings[k] == before.buildings[k])
    && (forall v :: v in before.updateTimes && v != villageId ==> v in after.updateTimes && after.updateTimes[v] == before.updateTimes[v])
  }

  /** The tables after the updates, in order. Whatever they are, the rows of
      other villages are untouched, and the resource table only changes when
      the resource update is among them. */
  function ApplyAll(db: Db, kinds: seq<UpdateKind>, villageId: VillageId, snapshot: Snapshot, now: nat): (r: Db)
    ensures Untouched(db, r, villageId)
    ensures Resource !in kinds ==> r.resources == db.resources
    ensures CurrentlyBuilding in kinds && |kinds| == 1 ==> r == db
  {
    if kinds == [] then db
    else Apply(ApplyAll(db, kinds[..|kinds| - 1], villageId, snapshot, now), kinds[|kinds| - 1], villageId, snapshot, now)
  }

  /** The updates `Update` runs for a page URL. */
  function SelectedUpdates(url: string): (k: seq<UpdateKind>)
    ensures |k| >= 1 && k[|k| - 1] == Resource
    ensures Dorf1 in k <==> Contains(url, "dorf1")
    ensures Dorf2 in k <==> !Contains(url, "dorf1") && Contains(url, "dorf2")
    ensures CurrentlyBuilding in k <==> Contains(url, "dorf1") || Contains(url, "dorf2")
  {
    if Contains(url, "dorf1") then [Dorf1, CurrentlyBuilding, Resource]
    else if Contains(url, "dorf2") then [Dorf2, CurrentlyBuilding, Resource]
    else [Resource]
  }

  /** What `Update` leaves in the tables: the stock bar in the village's
      resource row, the page's buildings upserted when the page is a
      village page, the matching update times set to `now`, and every
      other village's rows untouched. */
  lemma UpdateOutcome(db: Db, url: string, villageId: VillageId, snapshot: Snapshot, now: nat)
    ensures var after := ApplyAll(db, SelectedUpdates(url), villageId, snapshot, now);
      && after.resources == db.resources[villageId := snapshot.stock]
      && after.buildings == (if Contains(url, "dorf1") then Upsert(db.buildings, villageId, snapshot.fields)
                             else if Contains(url, "dorf2") then Upsert(db.buildings, villageId, snapshot.infrastructure)
                             else db.buildings)
      && villageId in after.updateTimes
      && TimeOf(after.updateTimes[villageId], ResourcePart) == now
      && (Contains(url, "dorf1") ==> TimeOf(after.updateTimes[villageId], Dorf1Part) == now)
      && (!Contains(url, "dorf1") && Contains(url, "dorf2") ==> TimeOf(after.updateTimes[villageId], Dorf2Part) == now)
      && forall v :: v in db.updateTimes && v != villageId ==> v in after.updateTimes && after.updateTimes[v] == db.updateTimes[v]
  {
    var kinds := SelectedUpdates(url);
    if Contains(url, "dorf1") || Contains(url, "dorf2") {
      var first := Apply(db, kinds[0], villageId, snapshot, now);
      assert ApplyAll(db, kinds[..1], villageId, snapshot, now) == first by {
        assert kinds[..1][..0] == [];
      }
      assert ApplyAll(db, kinds[..2], villageId, snapshot, now) == first by {
        assert kinds[..2][..1] == kinds[..1];
      }
      assert kinds[..|kinds| - 1] == kinds[..2];
    } else {
      assert kinds[..0] == [];
    }
  }

  /** The listed village with the task's id is the active one: the first
      entry with that id carries the active flag. */
  predicate IsActiveVillage(nodes: seq<VillageNode>, villageId: VillageId) {
    exists i :: 0 <= i < |nodes| && nodes[i].id == villageId && nodes[i].active &&
                forall j :: 0 <= j < i ==> nodes[j].id != villageId
  }

  /** `IsCorrectVillage`: the active flag of the first listed village with
      the task's id, and false when the village is not listed. */
  method IsCorrectVillage(nodes: seq<VillageNode>, villageId: VillageId) returns (b: bool)
    ensures b == IsActiveVillage(nodes, villageId)
  {
    var i := 0;
    while i < |nodes|
      invariant i <= |nodes|
      invariant forall j :: 0 <= j < i ==> nodes[j].id != villageId
    {
      var node := nodes[i];
      if node.id != villageId {
        i := i + 1;
        continue;
      }
      return node.active;
    }
    return false;
  }

  /** `Name`: "Update village {VillageId}"; the id reads back from the
      text after the prefix. */
  function Name(villageId: VillageId): (s: string)
    ensures |s| > 15 && s[..15] == "Update village "
    ensures s[15] == '-' ==> IsDigits(s[16..])
    ensures s[15] != '-' ==> IsDigits(s[15..])
    ensures ParseInt(s[15..]) == villageId
  {
    IntRoundTrip(villageId);
    var digits := IntToString(villageId);
    assert ("Update village " + digits)[15..] == digits;
    "Update village " + digits
  }

  /** Distinct villages give distinct task names. */
  lemma NameIdentifiesVillage(a: VillageId, b: VillageId)
    requires Name(a) == Name(b)
    ensures a == b
  {
    AppendCancel("Update village ", IntToString(a), IntToString(b));
    IntToStringInjective(a, b);
  }

  /** The stored tables of a village: the resource rows, the building rows
      keyed by (village, slot) and the update-time rows. */
  class VillageStore {
    var resources: map<VillageId, Resources>
    var buildings: map<(VillageId, int), BuildingRow>
    var updateTimes: map<VillageId, UpdateTime>

    constructor (db: Db)
      ensures State() == db
    {
      resources, buildings, updateTimes := db.resources, db.buildings, db.updateTimes;
    }

    function State(): Db
      reads this
    {
      Db(resources, buildings, updateTimes)
    }

    /** `UpdateResource`: the village's resource row holds the stock bar,
        inserted if absent and overwritten otherwise, and its resource time
        is now. */
    method UpdateResource(villageId: VillageId, stock: Resources, now: nat)
      modifies this
      ensures State() == Apply(old(State()), Resource, villageId, Snapshot(stock, [], []), now)
    {
      if villageId !in resources {
        resources := resources[villageId := stock];
      } else {
        var row := resources[villageId];
        row := row.(wood := stock.wood, clay := stock.clay, iron := stock.iron, crop := stock.crop,
                    warehouse := stock.warehouse, granary := stock.granary, freeCrop := stock.freeCrop);
        resources := resources[villageId := row];
      }
      StampTime(villageId, ResourcePart, now);
    }

    /** The update-time half shared by the three updates. */
    method StampTime(villageId: VillageId, part: Part, now: nat)
      modifies this`updateTimes
      ensures updateTimes == Stamped(old(updateTimes), villageId, part, now)
    {
      if villageId !in updateTimes {
        var blank := UpdateTime(0, 0, 0);
        var row := match part
          case ResourcePart => blank.(resource := now)
          case Dorf1Part => blank.(dorf1 := now)
          case Dorf2Part => blank.(dorf2 := now);
        updateTimes := updateTimes[villageId := row];
      } else {
        var row := updateTimes[villageId];
        row := match part
          case ResourcePart => row.(resource := now)
          case Dorf1Part => row.(dorf1 := now)
          case Dorf2Part => row.(dorf2 := now);
        updateTimes := updateTimes[villageId := row];
      }
    }

    /** The `foreach` loop of `UpdateDorf1` and `UpdateDorf2`: each parsed
        node's row is inserted or overwritten. */
    method UpsertBuildings(villageId: VillageId, nodes: seq<FieldNode>)
      modifies this`buildings
      ensures buildings == Upsert(old(buildings), villageId, nodes)
    {
      var i := 0;
      while i < |nodes|
        invariant i <= |nodes|
        invariant buildings == Upsert(old(buildings), villageId, nodes[..i])
      {
        var node := nodes[i];
        var key := (villageId, node.id);
        if key !in buildings {
          buildings := buildings[key := BuildingRow(villageId, node.id, node.buildingType, node.level, node.isUnderConstruction)];
        } else {
          var row := buildings[key];
          row := row.(level := node.level, buildingType := node.buildingType, isUnderConstruction := node.isUnderConstruction);
          buildings := buildings[key := row];
        }
        assert nodes[..i + 1][..i] == nodes[..i];
        i := i + 1;
      }
      assert nodes[..i] == nodes;
    }

    /** `UpdateDorf1`: the resource fields parsed from the page. */
    method UpdateDorf1(villageId: VillageId, fields: seq<FieldNode>, now: nat)
      modifies this
      ensures State() == Apply(old(State()), Dorf1, villageId, Snapshot(Resources(0, 0, 0, 0, 0, 0, 0), fields, []), now)
    {
      UpsertBuildings(villageId, fields);
      StampTime(villageId, Dorf1Part, now);
    }

    /** `UpdateDorf2`: the building slots parsed from the page. */
    method UpdateDorf2(villageId: VillageId, infrastructure: seq<FieldNode>, now: nat)
      modifies this
      ensures State() == Apply(old(State()), Dorf2, villageId, Snapshot(Resources(0, 0, 0, 0, 0, 0, 0), [], infrastructure), now)
    {
      UpsertBuildings(villageId, infrastructure);
      StampTime(villageId, Dorf2Part, now);
    }

    /** One of the updates, as `Update` starts it. */
    method Run(kind: UpdateKind, villageId: VillageId, snapshot: Snapshot, now: nat)
      modifies this
      ensures State() == Apply(old(State()), kind, villageId, snapshot, now)
    {
      match kind
      case Resource => UpdateResource(villageId, snapshot.stock, now);
      case Dorf1 => UpdateDorf1(villageId, snapshot.fields, now);
      case Dorf2 => UpdateDorf2(villageId, snapshot.infrastructure, now);
      case CurrentlyBuilding =>
    }

    /** `Update`: the list of updates is chosen by the URL and then run,
        one after the other. */
    method Update(url: string, villageId: VillageId, snapshot: Snapshot, now: nat) returns (ran: seq<UpdateKind>)
      modifies this
      ensures ran == SelectedUpdates(url)
      ensures State() == ApplyAll(old(State()), ran, villageId, snapshot, now)
    {
      var tasks: seq<UpdateKind> := [];
      if Contains(url, "dorf1") {
        tasks := tasks + [Dorf1];
        tasks := tasks + [CurrentlyBuilding];
      } else if Contains(url, "dorf2") {
        tasks := tasks + [Dorf2];
        tasks := tasks + [CurrentlyBuilding];
      }
      tasks := tasks + [Resource];
      RunEach(tasks, villageId, snapshot, now);
      return tasks;
    }

    /** The updates of `tasks`, one after the other. */
    method RunEach(tasks: seq<UpdateKind>, villageId: VillageId, snapshot: Snapshot, now: nat)
      modifies this
      ensures State() == ApplyAll(old(State()), tasks, villageId, snapshot, now)
    {
      for j := 0 to |tasks|
        invariant State() == ApplyAll(old(State()), tasks[..j], villageId, snapshot, now)
      {
        Run(tasks[j], villageId, snapshot, now);
        assert tasks[..j + 1][..j] == tasks[..j];
      }
      assert tasks[..|tasks|] == tasks;
    }
  }

  /** What `Execute` does besides writing the tables. */
  datatype Step = SwitchVillage | BaseUpdate | Ran(kind: UpdateKind)

  function RanSteps(kinds: seq<UpdateKind>): (s: seq<Step>)
    ensures |s| == |kinds| && forall i :: 0 <= i < |s| ==> s[i] == Ran(kinds[i])
  {
    if kinds == [] then [] else [Ran(kinds[0])] + RanSteps(kinds[1..])
  }

  /** `Execute`: switch village only when the listed village is not the
      active one, run the base update, then the page update. */
  method Execute(store: VillageStore, villageId: VillageId, villages: seq<VillageNode>, url: string, snapshot: Snapshot, now: nat)
    returns (steps: seq<Step>)
    modifies store
    ensures steps == (if IsActiveVillage(villages, villageId) then [] else [SwitchVillage]) + [BaseUpdate] + RanSteps(SelectedUpdates(url))
    ensures store.State() == ApplyAll(old(store.State()), SelectedUpdates(url), villageId, snapshot, now)
  {
    steps := [];
    var correct := IsCorrectVillage(villages, villageId);
    if !correct {
      steps := steps + [SwitchVillage];
    }
    steps := steps + [BaseUpdate];
    var ran := store.Update(url, villageId, snapshot, now);
    steps := steps + RanSteps(ran);
  }
}
