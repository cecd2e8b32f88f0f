/** The League of Legends repository of LoLRepo.swift: the route table it
    registers when started, the four request operations that resolve a URI
    against it and hand the matched segment's closure the merged selection
    or values, the stubbed champion sync, and the database name its open
    helper derives from a directory path. */
module LoL {
  import opened Wrappers
  import opened Strings
  import opened RepoUtils
  import opened FoundationExtension
  import opened RoutingUtils
  import opened DBUtils

  // ---------------------------------------------------------------------
  // Constants of `LoLDatabase` and `LoLDatabaseOpenHelper`

  const ColumnChampionId: string := "champion_id"
  const ColumnChampionSkinId: string := "skin_id"
  const ColumnName: string := "name"
  const DatabaseFileName: string := "datadragon.sqlite3"
  const DBVersion: int := 1
  const NotStartedMessage: string := "Are you sure you started the repo?"

  // ---------------------------------------------------------------------
  // Sync

  /** `sync(force:)`: a stub that reports nothing done and no error. */
  function Sync(force: bool): (r: SyncResult)
    ensures r.inserts == 0 && r.updates == 0 && r.deletes == 0
    ensures r.authenticationErrors == 0 && r.networkErrors == 0 && r.otherErrors == 0
  {
    DefaultSyncResult()
  }

  /** `values?["force"] as? Bool ?? false`. */
  function ForceFlag(values: Option<Values>): (force: bool)
    ensures force <==> values.Some? && "force" in values.value && values.value["force"] == Bool(true)
  {
    match values
    case None => false
    case Some(v) => if "force" in v && v["force"].Bool? then v["force"].b else false
  }

  /** The identifier the sync closure returns: -1 when any error counter is
      positive, 1 otherwise. */
  function SyncStatus(r: SyncResult): (id: ResourceIdentifier)
    ensures id == -1 || id == 1
    ensures id == -1 <==> r.authenticationErrors > 0 || r.networkErrors > 0 || r.otherErrors > 0
  {
    if r.authenticationErrors > 0 || r.networkErrors > 0 || r.otherErrors > 0 then -1 else 1
  }

  /** The create closure of `/lol/champions/sync`. With the stubbed sync it
      always reports success. */
  function SyncChampions(values: Option<Values>): (r: Result<ResourceIdentifier, Error>)
    ensures r == Success(1)
  {
    Success(SyncStatus(Sync(ForceFlag(values))))
  }

  /** Every read closure of the table: an empty `ResultSet`. */
  function ListNothing(projection: Option<seq<string>>, selection: Option<string>, selectionArgs: Option<SelectionArgs>,
                       grouping: Option<string>, having: Option<string>, sort: Option<string>): Result<Results, Error>
  {
    Success(ResultSet)
  }

  // ---------------------------------------------------------------------
  // The route table

  /** A segment whose only handler is a read closure. */
  function Readable(pathComponent: string, children: seq<SegmentRef>): RouteSegment {
    NewSegment(pathComponent).(readHandler := Some(ListNothing), segments := children)
  }

  /** `arena` with `child` appended to the children of `parent`. */
  function WithChild(arena: seq<RouteSegment>, parent: SegmentRef, child: SegmentRef): (r: seq<RouteSegment>)
    requires parent < |arena|
    ensures |r| == |arena|
  {
    arena[parent := arena[parent].(segments := arena[parent].segments + [child])]
  }

  /** The skins routes hung under a champion segment whose first new
      segment gets index `n`. */
  function SkinsSegments(n: nat): seq<RouteSegment> {
    [Readable("skins", [n + 1]), Readable(CreateNumericVariable(ColumnChampionSkinId), [])]
  }

  /** `champions` with the champion by name and by id, before their skins
      routes and `sync` are registered. */
  function ChampionLevel(n: nat): seq<RouteSegment> {
    [ Readable("champions", [n + 1, n + 2]),
      Readable(CreateTextVariable(ColumnName), []),
      Readable(CreateNumericVariable(ColumnChampionId), []) ]
  }

  /** The champion routes hung under a segment, the first new one at `n`:
      `champions`, the champion by name and by id, each with its skins
      routes, then `sync`. */
  function ChampionSegments(n: nat): seq<RouteSegment> {
    [Readable("champions", [n + 1, n + 2, n + 7])] + ChampionsBelow(n)
    + [NewSegment("sync").(createHandler := Some(SyncChampions))]
  }

  /** What lies below `champions` other than `sync`: the champion by name
      and by id, then the skins routes of each. */
  function ChampionsBelow(n: nat): seq<RouteSegment> {
    [ Readable(CreateTextVariable(ColumnName), [n + 3]),
      Readable(CreateNumericVariable(ColumnChampionId), [n + 5]) ]
    + SkinsSegments(n + 3) + SkinsSegments(n + 5)
  }

  /** The router `createRouter()` builds: `lol` (0) over `champions` (1),
      whose children are the champion by name (2) and by id (3), each with
      its `skins` (4, 6) and skin by id (5, 7), and `sync` (8). */
  function LoLRouter(): (r: Router)
    ensures r.Valid() && |r.arena| == 9 && r.routes == [0]
  {
    Router([ NewSegment("lol").(segments := [1]),
             Readable("champions", [2, 3, 8]),
             Readable("{name:*}", [4]),
             Readable("{champion_id:#}", [6]),
             Readable("skins", [5]),
             Readable("{skin_id:#}", []),
             Readable("skins", [7]),
             Readable("{skin_id:#}", []),
             NewSegment("sync").(createHandler := Some(SyncChampions)) ],
           [0])
  }

  /** The table as the builder lays it out. */
  lemma LoLRouterBuilt()
    ensures [NewSegment("lol").(segments := [1])] + ChampionSegments(1) == LoLRouter().arena
  {
    Markers();
    assert SkinsSegments(4) == [Readable("skins", [5]), Readable("{skin_id:#}", [])];
    assert SkinsSegments(6) == [Readable("skins", [7]), Readable("{skin_id:#}", [])];
  }

  /** `lol` with the champion routes below it is the table. */
  lemma BuiltIsLoLRouter(built: Router)
    requires built.arena == WithChild([NewSegment("lol")], 0, 1) + ChampionSegments(1)
    requires built.routes == [0]
    ensures built == LoLRouter()
  {
    var root := WithChild([NewSegment("lol")], 0, 1);
    assert root == [NewSegment("lol").(segments := [1])] by {
      assert [] + [1] == [1];
      assert root[0] == NewSegment("lol").(segments := [1]);
    }
    LoLRouterBuilt();
  }

  /** Registering one component under a parent appends one fresh segment
      and makes it the parent's last child. */
  lemma AttachUnder(arena: seq<RouteSegment>, roots: seq<SegmentRef>, parent: SegmentRef, c: string)
    requires parent < |arena|
    ensures AttachChain(arena, roots, Some(parent), [c]) == (WithChild(arena, parent, |arena|) + [NewSegment(c)], roots)
  {
    assert [c][1..] == [];
    var grown := arena + [NewSegment(c)];
    assert grown[parent] == arena[parent];
    assert grown[parent := grown[parent].(segments := grown[parent].segments + [|arena|])]
        == WithChild(arena, parent, |arena|) + [NewSegment(c)];
  }

  /** A component without `/` registers as itself, with or without a
      leading `/`. */
  lemma SingleComponent(c: string)
    requires c != "" && '/' !in c
    ensures RegistrationChain(Split(c, '/')) == Some([c])
    ensures RegistrationChain(Split("/" + c, '/')) == Some([c])
  {
    SplitNoSeparator(c, '/');
    SplitConcat("", '/', c);
    assert "" + ['/'] + c == "/" + c;
    CleanPathChain([c]);
  }

  // ---------------------------------------------------------------------
  // Resolving request paths against the table

  /** The variable names of the table are valid marker names, and its
      markers are the literals `createRouter()` registers. */
  lemma Markers()
    ensures VariableNames()
    ensures CreateTextVariable(ColumnName) == "{name:*}"
    ensures CreateNumericVariable(ColumnChampionId) == "{champion_id:#}"
    ensures CreateNumericVariable(ColumnChampionSkinId) == "{skin_id:#}"
  {
  }

  predicate VariableNames() {
    IsVariableName(ColumnName) && IsVariableName(ColumnChampionId) && IsVariableName(ColumnChampionSkinId)
  }

  lemma NamesAreVariableNames()
    ensures VariableNames()
  {
    assert IsVariableName("name") && IsVariableName("champion_id") && IsVariableName("skin_id");
  }

  /** The layout of the table, level by level, as the matcher sees it. */
  predicate Shaped(r: Router) {
    && r.Valid() && |r.arena| == 9 && r.routes == [0]
    && r.arena[0].pathComponent == "lol" && r.arena[0].segments == [1]
    && r.arena[1].pathComponent == "champions" && r.arena[1].segments == [2, 3, 8]
    && r.arena[2].pathComponent == CreateTextVariable(ColumnName) && r.arena[2].segments == [4]
    && r.arena[3].pathComponent == CreateNumericVariable(ColumnChampionId) && r.arena[3].segments == [6]
    && r.arena[4].pathComponent == "skins" && r.arena[4].segments == [5]
    && r.arena[5].pathComponent == CreateNumericVariable(ColumnChampionSkinId) && r.arena[5].segments == []
    && r.arena[6].pathComponent == "skins" && r.arena[6].segments == [7]
    && r.arena[7].pathComponent == CreateNumericVariable(ColumnChampionSkinId) && r.arena[7].segments == []
    && r.arena[8].pathComponent == "sync" && r.arena[8].segments == []
  }

  /** The closures of the table: `sync` creates, every segment under
      `champions` other than `sync` reads, nothing updates or deletes. */
  ghost predicate Handled(r: Router)
    requires |r.arena| == 9
  {
    && r.arena[8].createHandler == Some(SyncChampions) && r.arena[8].readHandler.None?
    && (forall i :: 1 <= i < 8 ==> r.arena[i].createHandler.None? && r.arena[i].readHandler == Some(ListNothing))
    && (forall i :: 0 <= i < 9 ==> r.arena[i].updateHandler.None? && r.arena[i].deleteHandler.None?)
  }

  /** The router `createRouter()` builds has the table's layout and
      closures. */
  lemma LoLRouterShaped()
    ensures Shaped(LoLRouter()) && Handled(LoLRouter())
  {
    Markers();
  }

  /** A path rebuilt from non-empty components without `/` resolves
      component by component. */
  lemma RequestPath(components: seq<string>)
    requires |components| > 0
    requires forall i :: 0 <= i < |components| ==> components[i] != "" && '/' !in components[i]
    ensures RequestComponents(Prefixed(components)) == components
  {
    PrefixedSplit(components);
  }

  /** `/lol/champions/<c>` splits into its three components. */
  lemma ChampionPath(c: string)
    requires c != "" && '/' !in c
    ensures RequestComponents(Prefixed(["lol", "champions", c])) == ["lol", "champions"] + [c]
  {
    RequestPath(["lol", "champions", c]);
  }

  /** `/lol/champions/<c>/skins/<skinId>` splits into its five components. */
  lemma ChampionSkinPath(c: string, skinId: string)
    requires c != "" && '/' !in c
    requires ParseInt64(skinId).Some?
    ensures RequestComponents(Prefixed(["lol", "champions", c, "skins", skinId])) == ["lol", "champions"] + ([c] + ["skins", skinId])
  {
    Int64HasNoSlash(skinId);
    RequestPath(["lol", "champions", c, "skins", skinId]);
  }

  /** The first two levels: `lol`, then `champions`. */
  lemma ChampionsLevel(r: Router, rest: seq<string>)
    requires Shaped(r)
    ensures ResolveFrom(r, r.routes, ["lol", "champions"] + rest, map[], None) == ResolveFrom(r, [2, 3, 8], rest, map[], Some(1))
  {
    GetSegmentExactWins(r.arena, [0], "lol", 0);
    assert ["lol", "champions"] + rest == ["lol"] + (["champions"] + rest);
    ResolveStep(r, [0], "lol", ["champions"] + rest, map[], None, 0);
    assert Extract("lol", "lol", map[]) == map[];
    GetSegmentExactWins(r.arena, [1], "champions", 0);
    ResolveStep(r, [1], "champions", rest, map[], Some(0), 1);
    assert Extract("champions", "champions", map[]) == map[];
  }

  /** A component that is not an `Int64`, not `sync` and not the champion id
      marker selects the champion by name, which captures it as text. */
  lemma NameLevel(r: Router, name: string, rest: seq<string>)
    requires Shaped(r)
    requires ParseInt64(name).None? && name != "sync" && name != CreateNumericVariable(ColumnChampionId)
    ensures ResolveFrom(r, [2, 3, 8], [name] + rest, map[], Some(1))
         == ResolveFrom(r, [4], rest, map[ColumnName := Text(name)], Some(2))
  {
    NamesAreVariableNames();
    TextVariableQualifies(ColumnName, name);
    assert GetSegment(r.arena, [2, 3, 8], name) == Some(2) by {
      if name == CreateTextVariable(ColumnName) {
        GetSegmentExactWins(r.arena, [2, 3, 8], name, 0);
      } else {
        GetSegmentFirstQualifying(r.arena, [2, 3, 8], name, 0);
      }
    }
    ResolveStep(r, [2, 3, 8], name, rest, map[], Some(1), 2);
  }

  /** An `Int64` component selects the champion by id, which captures its
      value. */
  lemma IdLevel(r: Router, id: string, rest: seq<string>)
    requires Shaped(r)
    requires ParseInt64(id).Some?
    ensures ResolveFrom(r, [2, 3, 8], [id] + rest, map[], Some(1))
         == ResolveFrom(r, [6], rest, map[ColumnChampionId := Int(ParseInt64(id).value)], Some(3))
  {
    IdChoice(r.arena, id);
    assert Extract(id, r.arena[3].pathComponent, map[]) == map[ColumnChampionId := Int(ParseInt64(id).value)] by {
      NamesAreVariableNames();
      NumericVariableQualifies(ColumnChampionId, id);
    }
    ResolveStep(r, [2, 3, 8], id, rest, map[], Some(1), 3);
  }

  /** An `Int64` component below `champions` selects the champion by id:
      the name variable and `sync` do not qualify. */
  lemma IdChoice(arena: seq<RouteSegment>, id: string)
    requires |arena| == 9
    requires arena[2].pathComponent == CreateTextVariable(ColumnName)
    requires arena[3].pathComponent == CreateNumericVariable(ColumnChampionId)
    requires arena[8].pathComponent == "sync"
    requires ParseInt64(id).Some?
    ensures GetSegment(arena, [2, 3, 8], id) == Some(3)
  {
    NamesAreVariableNames();
    TextVariableQualifies(ColumnName, id);
    NumericVariableQualifies(ColumnChampionId, id);
    NonDigitIsNotInt64("sync", 0);
    var name, champion, sync := arena[2].pathComponent, arena[3].pathComponent, arena[8].pathComponent;
    assert ParseInt64(name).None? && ParseInt64(champion).None? && ParseInt64(sync).None?;
    assert name != id && champion != id && sync != id;
    assert !Qualifies(name, id) && Qualifies(champion, id);
    GetSegmentSecondOfThree(arena, 2, 3, 8, id);
  }

  /** Below a champion: `skins`, then an `Int64` skin id, which is captured
      on top of the champion's variable. */
  lemma SkinLevel(r: Router, skins: SegmentRef, skinId: string, variables: map<string, Value>, last: SegmentRef)
    requires r.Valid() && skins + 1 < |r.arena| && last < |r.arena|
    requires r.arena[skins].pathComponent == "skins" && r.arena[skins].segments == [skins + 1]
    requires r.arena[skins + 1].pathComponent == CreateNumericVariable(ColumnChampionSkinId)
    requires ParseInt64(skinId).Some?
    ensures ResolveFrom(r, [skins], ["skins", skinId], variables, Some(last))
         == ResolveFrom(r, r.arena[skins + 1].segments, [], variables[ColumnChampionSkinId := Int(ParseInt64(skinId).value)], Some(skins + 1))
  {
    assert ["skins", skinId] == ["skins"] + [skinId];
    assert !ContainsTextVariable("skins") && !ContainsNumericVariable("skins");
    LiteralLevel(r, skins, "skins", [skinId], variables, Some(last));
    assert [skinId] == [skinId] + [];
    NamesAreVariableNames();
    NumericLevel(r, skins + 1, ColumnChampionSkinId, skinId, [], variables, Some(skins));
  }

  /** A segment that is a literal consumes exactly that component and
      captures nothing. */
  lemma LiteralLevel(r: Router, s: SegmentRef, component: string, rest: seq<string>,
                     variables: map<string, Value>, last: Option<SegmentRef>)
    requires r.Valid() && s < |r.arena| && (last.Some? ==> last.value < |r.arena|)
    requires r.arena[s].pathComponent == component
    requires !ContainsTextVariable(component) && !ContainsNumericVariable(component)
    ensures ResolveFrom(r, [s], [component] + rest, variables, last)
         == ResolveFrom(r, r.arena[s].segments, rest, variables, Some(s))
  {
    GetSegmentExactWins(r.arena, [s], component, 0);
    ResolveStep(r, [s], component, rest, variables, last, s);
    assert Extract(component, component, variables) == variables by {
      NamesAreVariableNames();
      CaptureKinds(ColumnName, component, component);
    }
  }

  /** A lone numeric variable segment consumes an `Int64` component and
      captures its value. */
  lemma NumericLevel(r: Router, s: SegmentRef, name: string, id: string, rest: seq<string>,
                     variables: map<string, Value>, last: Option<SegmentRef>)
    requires r.Valid() && s < |r.arena| && (last.Some? ==> last.value < |r.arena|)
    requires IsVariableName(name) && r.arena[s].pathComponent == CreateNumericVariable(name)
    requires ParseInt64(id).Some?
    ensures ResolveFrom(r, [s], [id] + rest, variables, last)
         == ResolveFrom(r, r.arena[s].segments, rest, variables[name := Int(ParseInt64(id).value)], Some(s))
  {
    NumericVariableQualifies(name, id);
    GetSegmentFirstQualifying(r.arena, [s], id, 0);
    ResolveStep(r, [s], id, rest, variables, last, s);
  }

  /** `/lol/champions/sync` reaches the sync segment, and no variable is
      captured: the literal wins over the name variable it also matches. */
  lemma SyncRoute(r: Router)
    requires Shaped(r)
    ensures Resolve(r, Prefixed(["lol", "champions", "sync"])) == RouteMatch(Some(8), Some(map[]))
  {
    ChampionPath("sync");
    ChampionsLevel(r, ["sync"]);
    SyncLevel(r);
  }

  /** `sync` is matched literally, ahead of the two variables beside it. */
  lemma SyncLevel(r: Router)
    requires Shaped(r)
    ensures ResolveFrom(r, [2, 3, 8], ["sync"], map[], Some(1)) == RouteMatch(Some(8), Some(map[]))
  {
    NamesAreVariableNames();
    GetSegmentExactWins(r.arena, [2, 3, 8], "sync", 2);
    assert ["sync"] == ["sync"] + [];
    ResolveStep(r, [2, 3, 8], "sync", [], map[], Some(1), 8);
    assert !ContainsTextVariable("sync") && !ContainsNumericVariable("sync");
    assert Extract("sync", "sync", map[]) == map[];
  }

  /** `/lol/champions/<id>` reaches the champion-by-id segment and captures
      the parsed id. */
  lemma ChampionByIdRoute(r: Router, id: string)
    requires Shaped(r)
    requires ParseInt64(id).Some?
    ensures Resolve(r, Prefixed(["lol", "champions", id]))
         == RouteMatch(Some(3), Some(map[ColumnChampionId := Int(ParseInt64(id).value)]))
  {
    Int64HasNoSlash(id);
    ChampionPath(id);
    ChampionsLevel(r, [id]);
    ChampionByIdLevel(r, id);
  }

  /** Below `champions`: an id alone. */
  lemma ChampionByIdLevel(r: Router, id: string)
    requires Shaped(r)
    requires ParseInt64(id).Some?
    ensures ResolveFrom(r, [2, 3, 8], [id], map[], Some(1))
         == RouteMatch(Some(3), Some(map[ColumnChampionId := Int(ParseInt64(id).value)]))
  {
    assert [id] == [id] + [];
    IdLevel(r, id, []);
  }

  /** `/lol/champions/<name>` reaches the champion-by-name segment and
      captures the name as text. */
  lemma ChampionByNameRoute(r: Router, name: string)
    requires Shaped(r)
    requires ParseInt64(name).None? && name != "sync" && name != "{champion_id:#}"
    requires name != "" && '/' !in name
    ensures Resolve(r, Prefixed(["lol", "champions", name]))
         == RouteMatch(Some(2), Some(map[ColumnName := Text(name)]))
  {
    ChampionPath(name);
    ChampionsLevel(r, [name]);
    assert name != CreateNumericVariable(ColumnChampionId) by {
      Markers();
    }
    ChampionByNameLevel(r, name);
  }

  /** Below `champions`: a name alone. */
  lemma ChampionByNameLevel(r: Router, name: string)
    requires Shaped(r)
    requires ParseInt64(name).None? && name != "sync" && name != CreateNumericVariable(ColumnChampionId)
    ensures ResolveFrom(r, [2, 3, 8], [name], map[], Some(1))
         == RouteMatch(Some(2), Some(map[ColumnName := Text(name)]))
  {
    assert [name] == [name] + [];
    NameLevel(r, name, []);
  }

  /** `/lol/champions/<name>/skins/<id>` reaches the skin-by-id segment
      below the champion by name and captures both variables. */
  lemma SkinOfNamedChampionRoute(r: Router, name: string, skinId: string)
    requires Shaped(r)
    requires ParseInt64(name).None? && name != "sync" && name != "{champion_id:#}"
    requires name != "" && '/' !in name
    requires ParseInt64(skinId).Some?
    ensures Resolve(r, Prefixed(["lol", "champions", name, "skins", skinId]))
         == RouteMatch(Some(5), Some(map[ColumnName := Text(name), ColumnChampionSkinId := Int(ParseInt64(skinId).value)]))
  {
    ChampionSkinPath(name, skinId);
    ChampionsLevel(r, [name] + ["skins", skinId]);
    assert name != CreateNumericVariable(ColumnChampionId) by {
      Markers();
    }
    SkinOfNameLevel(r, name, skinId);
  }

  /** Below `champions`: a name, `skins`, a skin id. */
  lemma SkinOfNameLevel(r: Router, name: string, skinId: string)
    requires Shaped(r)
    requires ParseInt64(name).None? && name != "sync" && name != CreateNumericVariable(ColumnChampionId)
    requires ParseInt64(skinId).Some?
    ensures ResolveFrom(r, [2, 3, 8], [name] + ["skins", skinId], map[], Some(1))
         == RouteMatch(Some(5), Some(map[ColumnName := Text(name), ColumnChampionSkinId := Int(ParseInt64(skinId).value)]))
  {
    NameLevel(r, name, ["skins", skinId]);
    SkinLevel(r, 4, skinId, map[ColumnName := Text(name)], 2);
  }

  /** `/lol/champions/<id>/skins/<id>` reaches the skin-by-id segment below
      the champion by id. */
  lemma SkinOfChampionByIdRoute(r: Router, id: string, skinId: string)
    requires Shaped(r)
    requires ParseInt64(id).Some? && ParseInt64(skinId).Some?
    ensures Resolve(r, Prefixed(["lol", "champions", id, "skins", skinId]))
         == RouteMatch(Some(7), Some(map[ColumnChampionId := Int(ParseInt64(id).value),
                                         ColumnChampionSkinId := Int(ParseInt64(skinId).value)]))
  {
    Int64HasNoSlash(id);
    ChampionSkinPath(id, skinId);
    ChampionsLevel(r, [id] + ["skins", skinId]);
    SkinOfIdLevel(r, id, skinId);
  }

  /** Below `champions`: an id, `skins`, a skin id. */
  lemma SkinOfIdLevel(r: Router, id: string, skinId: string)
    requires Shaped(r)
    requires ParseInt64(id).Some? && ParseInt64(skinId).Some?
    ensures ResolveFrom(r, [2, 3, 8], [id] + ["skins", skinId], map[], Some(1))
         == RouteMatch(Some(7), Some(map[ColumnChampionId := Int(ParseInt64(id).value),
                                         ColumnChampionSkinId := Int(ParseInt64(skinId).value)]))
  {
    IdLevel(r, id, ["skins", skinId]);
    SkinLevel(r, 6, skinId, map[ColumnChampionId := Int(ParseInt64(id).value)], 3);
  }

  /** `123` is an id. */
  lemma IdExample(r: Router)
    requires Shaped(r)
    ensures Resolve(r, "/lol/champions/123") == RouteMatch(Some(3), Some(map["champion_id" := Int(123)]))
  {
    IdExamplePath();
    ChampionByIdRoute(r, "123");
  }

  lemma IdExamplePath()
    ensures ParseInt64("123") == Some(123)
    ensures Prefixed(["lol", "champions", "123"]) == "/lol/champions/123"
  {
    assert ParseInt64("123") == Some(123) by {
      assert "123"[..2] == "12" && "12"[..1] == "1" && "1"[..0] == "";
      assert DigitsValue("123") == 123;
    }
    PathLiteral("lol", "champions", "123");
  }

  /** `Ahri` is a name. */
  lemma NameExample(r: Router)
    requires Shaped(r)
    ensures Resolve(r, "/lol/champions/Ahri") == RouteMatch(Some(2), Some(map["name" := Text("Ahri")]))
  {
    NameExamplePath();
    ChampionByNameRoute(r, "Ahri");
  }

  lemma NameExamplePath()
    ensures ParseInt64("Ahri").None? && '/' !in "Ahri"
    ensures Prefixed(["lol", "champions", "Ahri"]) == "/lol/champions/Ahri"
  {
    NonDigitIsNotInt64("Ahri", 0);
    PathLiteral("lol", "champions", "Ahri");
    ChampionsPrefix();
    assert "/lol/champions" + "/" == "/lol/champions/";
    assert "/lol/champions/" + "Ahri" == "/lol/champions/Ahri";
  }

  /** The first two components, written out. */
  lemma ChampionsPrefix()
    ensures "/" + "lol" + "/" + "champions" == "/lol/champions"
  {
    assert "/" + "lol" == "/lol";
    assert "/lol" + "/" == "/lol/";
    assert "/lol/" + "champions" == "/lol/champions";
  }

  /** `x/skins/7` is skin 7 of the champion named `x`. */
  lemma SkinExample(r: Router)
    requires Shaped(r)
    ensures Resolve(r, "/lol/champions/x/skins/7")
         == RouteMatch(Some(5), Some(map["name" := Text("x"), "skin_id" := Int(7)]))
  {
    SkinExamplePath();
    SkinExampleValues();
    SkinOfNamedChampionRoute(r, "x", "7");
  }

  lemma SkinExamplePath()
    ensures Prefixed(["lol", "champions", "x", "skins", "7"]) == "/lol/champions/x/skins/7"
  {
    PathLiteral("lol", "champions", "x");
    ChampionsPrefix();
    assert "/lol/champions" + "/" + "x" == "/lol/champions/x";
    assert Prefixed(["skins", "7"]) == "/skins/7" by {
      assert ["skins", "7"][1..] == ["7"] && ["7"][1..] == [];
      assert Prefixed(["7"]) == "/7";
      assert "/" + "skins" + "/7" == "/skins/7";
    }
    PrefixedAppend(["lol", "champions", "x"], ["skins", "7"]);
    assert ["lol", "champions", "x"] + ["skins", "7"] == ["lol", "champions", "x", "skins", "7"];
    assert "/lol/champions/x" + "/skins/7" == "/lol/champions/x/skins/7";
  }

  lemma SkinExampleValues()
    ensures ParseInt64("x").None? && '/' !in "x" && ParseInt64("7") == Some(7)
  {
    NonDigitIsNotInt64("x", 0);
    assert "7"[..0] == "";
  }

  /** A path of three components, written out. */
  lemma PathLiteral(a: string, b: string, c: string)
    ensures Prefixed([a, b, c]) == "/" + a + "/" + b + "/" + c
  {
    assert [a, b, c][1..] == [b, c] && [b, c][1..] == [c] && [c][1..] == [];
    assert Prefixed([c]) == "/" + c;
    assert Prefixed([b, c]) == "/" + b + ("/" + c);
    assert "/" + a + ("/" + b + ("/" + c)) == "/" + a + "/" + b + "/" + c;
  }

  /** Rebuilding two lists of components one after the other. */
  lemma {:induction false} PrefixedAppend(a: seq<string>, b: seq<string>)
    ensures Prefixed(a + b) == Prefixed(a) + Prefixed(b)
    decreases |a|
  {
    if |a| == 0 {
      assert a + b == b;
    } else {
      PrefixedAppend(a[1..], b);
      assert (a + b)[1..] == a[1..] + b;
      assert (a + b)[0] == a[0];
    }
  }

  /** An `Int64` rendering is not empty and holds no `/`. */
  lemma Int64HasNoSlash(s: string)
    requires ParseInt64(s).Some?
    ensures s != "" && '/' !in s
  {
    var signed := s[0] == '+' || s[0] == '-';
    var digits := if signed then s[1..] else s;
    forall i | 0 <= i < |s| ensures s[i] != '/' {
      if i > 0 || !signed {
        assert s[i] == digits[if signed then i - 1 else i];
      }
    }
  }

  // ---------------------------------------------------------------------
  // Route lookup

  /** `findRoute(uri:)`'s answer: the matched segment and the captured
      variables. */
  datatype RouteInfo = RouteInfo(route: SegmentRef, pathVariables: Option<Values>)

  /** `findRoute(uri:)` as a function of the router field. */
  function Lookup(router: Option<Router>, uri: string): (r: Result<RouteInfo, Error>)
    requires router.Some? ==> router.value.Valid()
    ensures router.None? ==> r == Failure(RepoNotStarted(NotStartedMessage))
    ensures router.Some? ==> (r.Success? <==> Resolve(router.value, uri).segment.Some?)
    ensures router.Some? && r.Failure? ==> r.error == NoRouteFound(uri)
    ensures r.Success? ==>
      && r.value.route < |router.value.arena|
      && r.value.pathVariables.Some?
      && Some(r.value.route) == Resolve(router.value, uri).segment
      && r.value.pathVariables == Resolve(router.value, uri).pathVariables
  {
    match router
    case None => Failure(RepoNotStarted(NotStartedMessage))
    case Some(rt) =>
      var m := Resolve(rt, uri);
      if RequestComponents(uri) == [] then
        ResolveEmptyPath(rt, uri);
        Failure(NoRouteFound(uri))
      else
        match m.segment
        case None => Failure(NoRouteFound(uri))
        case Some(s) => Success(RouteInfo(s, m.pathVariables))
  }

  /** The variables a request captures; none when it fails to resolve. */
  function CapturedBy(router: Option<Router>, uri: string): map<string, Value>
    requires router.Some? ==> router.value.Valid()
  {
    match Lookup(router, uri)
    case Success(info) => info.pathVariables.GetOr(map[])
    case Failure(_) => map[]
  }

  // ---------------------------------------------------------------------
  // mergeSelection

  /** `entries` visits the entries of `m` one after the other, each with
      its value, until the entries `remaining` are left unvisited. */
  predicate Visits(entries: seq<(string, Value)>, m: map<string, Value>, remaining: map<string, Value>)
    decreases |entries|
  {
    if |entries| == 0 then m == remaining
    else
      && entries[0].0 in m && m[entries[0].0] == entries[0].1
      && Visits(entries[1..], m - {entries[0].0}, remaining)
  }

  /** The entries of `m` in some iteration order of the dictionary. */
  predicate IsEntryOrder(entries: seq<(string, Value)>, m: map<string, Value>) {
    Visits(entries, m, map[])
  }

  /** An iteration order lists every entry of the dictionary exactly once,
      with its value. */
  lemma {:induction false} EntryOrderListsEntries(entries: seq<(string, Value)>, m: map<string, Value>)
    requires IsEntryOrder(entries, m)
    ensures |entries| == |m|
    ensures forall i :: 0 <= i < |entries| ==> entries[i].0 in m && m[entries[i].0] == entries[i].1
    ensures forall k :: k in m ==> exists i :: 0 <= i < |entries| && entries[i].0 == k
    ensures forall i, j :: 0 <= i < j < |entries| ==> entries[i].0 != entries[j].0
    decreases |entries|
  {
    if |entries| == 0 {
      assert m == map[];
    } else {
      var k := entries[0].0;
      var rest := entries[1..];
      EntryOrderListsEntries(rest, m - {k});
      assert |m - {k}| == |m| - 1 by {
        assert (m - {k}).Keys == m.Keys - {k};
      }
      forall i | 0 <= i < |entries| ensures entries[i].0 in m && m[entries[i].0] == entries[i].1 {
        if i > 0 {
          assert entries[i] == rest[i - 1];
        }
      }
      forall j | j in m ensures exists i :: 0 <= i < |entries| && entries[i].0 == j {
        if j == k {
          assert entries[0].0 == j;
        } else {
          assert j in m - {k};
          var i :| 0 <= i < |rest| && rest[i].0 == j;
          assert entries[i + 1].0 == j;
        }
      }
      forall i, j | 0 <= i < j < |entries| ensures entries[i].0 != entries[j].0 {
        assert entries[j] == rest[j - 1] && rest[j - 1].0 in m - {k};
        if i > 0 {
          assert entries[i] == rest[i - 1];
        }
      }
    }
  }

  /** The clause the seeded builder starts with. */
  function SeedClauses(selection: Option<string>, selectionArgs: Option<SelectionArgs>): seq<string> {
    if selection.Some? && selectionArgs.Some? then [selection.value] else []
  }

  /** The arguments the seeded builder starts with. */
  function SeedArgs(selection: Option<string>, selectionArgs: Option<SelectionArgs>): map<string, Value> {
    if selection.Some? && selectionArgs.Some? then selectionArgs.value else map[]
  }

  /** The marker clauses `(name=?)` appended for the path variables. */
  function PathClauses(entries: seq<(string, Value)>): (clauses: seq<string>)
    ensures |clauses| == |entries|
    ensures forall i :: 0 <= i < |entries| ==> clauses[i] == Clause(entries[i].0, Placeholder(Marker, i))
    decreases |entries|
  {
    if |entries| == 0 then []
    else PathClauses(entries[..|entries| - 1]) + [Clause(entries[|entries| - 1].0, "?")]
  }

  /** The path variables' values, in the same order. */
  function PathValues(entries: seq<(string, Value)>): (values: seq<Value>)
    ensures |values| == |entries|
    ensures forall i :: 0 <= i < |entries| ==> values[i] == entries[i].1
    decreases |entries|
  {
    if |entries| == 0 then []
    else PathValues(entries[..|entries| - 1]) + [entries[|entries| - 1].1]
  }

  /** The selection a handler receives: the merged builder's, or the
      caller's when the builder yields nil or there is no builder. */
  function MergedSelection(selection: Option<string>, selectionArgs: Option<SelectionArgs>,
                           pathVariables: Option<Values>, entries: seq<(string, Value)>): Option<string>
  {
    if pathVariables.None? then selection
    else Coalesce(SelectionOf(SeedClauses(selection, selectionArgs) + PathClauses(entries)), selection)
  }

  /** The arguments a handler receives, likewise. */
  function MergedArgs(selection: Option<string>, selectionArgs: Option<SelectionArgs>,
                      pathVariables: Option<Values>, entries: seq<(string, Value)>): Option<SelectionArgs>
  {
    if pathVariables.None? then selectionArgs
    else Coalesce(ArgsOf(Params(Marker, SeedArgs(selection, selectionArgs), PathValues(entries))), selectionArgs)
  }

  /** Once a path variable is merged, the store holds an `Int` key, so the
      merged arguments are nil and the handler receives the caller's own
      arguments, without the path variables' values. */
  lemma MergedArgsWithPathVariables(selection: Option<string>, selectionArgs: Option<SelectionArgs>,
                                    pathVariables: Values, entries: seq<(string, Value)>)
    requires |entries| > 0
    ensures MergedArgs(selection, selectionArgs, Some(pathVariables), entries) == selectionArgs
  {
    var seed := SeedArgs(selection, selectionArgs);
    var g := PathValues(entries);
    MarkerParams(seed, g);
    var base := NameKeyed(seed);
    assert |base| <= |base| + 0 < |base| + |g|;
    assert Ordinal(|base|) in Params(Marker, seed, g);
  }

  /** With no path variable, the caller's arguments come back when they
      were seeded (that is, when a selection came with them), and an empty
      dictionary replaces them otherwise. */
  lemma MergedArgsWithoutPathVariables(selection: Option<string>, selectionArgs: Option<SelectionArgs>,
                                       pathVariables: Values)
    ensures MergedArgs(selection, selectionArgs, Some(pathVariables), [])
         == if selection.Some? && selectionArgs.Some? then selectionArgs else Some(map[])
  {
    var seed := SeedArgs(selection, selectionArgs);
    MarkerParams(seed, []);
    var r := ArgsOf(NameKeyed(seed));
    assert r.Some?;
    NameKeyedInjective(r.value, seed);
  }

  /** `NameKeyed` loses nothing. */
  lemma NameKeyedInjective(a: map<string, Value>, b: map<string, Value>)
    requires NameKeyed(a) == NameKeyed(b)
    ensures a == b
  {
    forall k | k in a ensures k in b && a[k] == b[k] {
      assert Name(k) in NameKeyed(a);
    }
    forall k | k in b ensures k in a {
      assert Name(k) in NameKeyed(b);
    }
  }

  /** With no path variable the handler gets the caller's selection back:
      the seeded clause when it is not empty, the caller's own otherwise. */
  lemma MergedSelectionWithoutPathVariables(selection: Option<string>, selectionArgs: Option<SelectionArgs>,
                                            pathVariables: Values)
    ensures MergedSelection(selection, selectionArgs, Some(pathVariables), []) == selection
  {
    var seed := SeedClauses(selection, selectionArgs);
    assert seed + PathClauses([]) == seed;
  }

  /** With path variables, the handler always gets a selection of its own:
      the caller's clause (when seeded and not empty) and one `(name=?)`
      per variable, joined by `AND`. */
  lemma MergedSelectionNonEmpty(selection: Option<string>, selectionArgs: Option<SelectionArgs>,
                                pathVariables: Values, entries: seq<(string, Value)>)
    requires |entries| > 0
    ensures MergedSelection(selection, selectionArgs, Some(pathVariables), entries).Some?
    ensures NoEmptyClause(SeedClauses(selection, selectionArgs)) ==>
      MergedSelection(selection, selectionArgs, Some(pathVariables), entries)
        == Some(Join(SeedClauses(selection, selectionArgs) + PathClauses(entries), " AND "))
  {
    var seed := SeedClauses(selection, selectionArgs);
    var path := PathClauses(entries);
    assert NoEmptyClause(path);
    SelectionOfAppended(seed, path);
  }

  /** The builder is seeded only when both a selection and its arguments
      come in, so on a route that captures a variable a caller selection
      without arguments is dropped: the handler gets the path clauses alone. */
  lemma SelectionWithoutArgsDropped(selection: Option<string>, pathVariables: Values,
                                    entries: seq<(string, Value)>)
    requires |entries| > 0
    ensures MergedSelection(selection, None, Some(pathVariables), entries)
         == Some(Join(PathClauses(entries), " AND "))
  {
    assert SeedClauses(selection, None) + PathClauses(entries) == PathClauses(entries);
    MergedSelectionNonEmpty(selection, None, pathVariables, entries);
  }

  /** A concrete instance: the caller's `(x=1)` without arguments is lost
      once `a` is captured. */
  lemma SelectionWithoutArgsExample()
    ensures MergedSelection(Some("(x=1)"), None, Some(map["a" := Int(1)]), [("a", Int(1))]) == Some("(a=?)")
  {
    SelectionWithoutArgsDropped(Some("(x=1)"), map["a" := Int(1)], [("a", Int(1))]);
    assert PathClauses([("a", Int(1))]) == ["(a=?)"] by {
      assert Clause("a", Placeholder(Marker, 0)) == "(a=?)";
    }
  }

  // ---------------------------------------------------------------------
  // The request operations as functions of the router

  function HandlerAt(router: Option<Router>, info: RouteInfo): RouteSegment
    requires router.Some? && info.route < |router.value.arena|
  {
    router.value.arena[info.route]
  }

  /** `create(uri:values:)`: the segment's create closure receives the
      caller's values with the path variables added over them. */
  function CreateOutcome(router: Option<Router>, uri: string, values: Values): Result<ResourceIdentifier, Error>
    requires router.Some? ==> router.value.Valid()
  {
    match Lookup(router, uri)
    case Failure(e) => Failure(e)
    case Success(info) =>
      match HandlerAt(router, info).createHandler
      case None => Failure(NoHandlerFound(uri))
      case Some(handler) => handler(Plus(Some(values), info.pathVariables))
  }

  /** `read(uri:...)`: the read closure receives the merged selection. */
  function ReadOutcome(router: Option<Router>, uri: string, projection: Option<seq<string>>,
                       selection: Option<string>, selectionArgs: Option<SelectionArgs>,
                       grouping: Option<string>, having: Option<string>, sort: Option<string>,
                       entries: seq<(string, Value)>): Result<Results, Error>
    requires router.Some? ==> router.value.Valid()
  {
    match Lookup(router, uri)
    case Failure(e) => Failure(e)
    case Success(info) => ReadRouted(router.value, info, uri, projection, selection, selectionArgs, grouping, having, sort, entries)
  }

  /** `read` once the route is found. */
  function ReadRouted(router: Router, info: RouteInfo, uri: string, projection: Option<seq<string>>,
                      selection: Option<string>, selectionArgs: Option<SelectionArgs>,
                      grouping: Option<string>, having: Option<string>, sort: Option<string>,
                      entries: seq<(string, Value)>): Result<Results, Error>
    requires info.route < |router.arena|
  {
    match router.arena[info.route].readHandler
    case None => Failure(NoHandlerFound(uri))
    case Some(handler) =>
      handler(projection,
              MergedSelection(selection, selectionArgs, info.pathVariables, entries),
              MergedArgs(selection, selectionArgs, info.pathVariables, entries),
              grouping, having, sort)
  }

  /** `update(uri:selection:selectionArgs:values:)`: the caller's values
      unchanged, and the merged selection. */
  function UpdateOutcome(router: Option<Router>, uri: string, selection: Option<string>,
                         selectionArgs: Option<SelectionArgs>, values: Values,
                         entries: seq<(string, Value)>): Result<int, Error>
    requires router.Some? ==> router.value.Valid()
  {
    match Lookup(router, uri)
    case Failure(e) => Failure(e)
    case Success(info) => UpdateRouted(router.value, info, uri, selection, selectionArgs, values, entries)
  }

  /** `update` once the route is found. */
  function UpdateRouted(router: Router, info: RouteInfo, uri: string, selection: Option<string>,
                        selectionArgs: Option<SelectionArgs>, values: Values,
                        entries: seq<(string, Value)>): Result<int, Error>
    requires info.route < |router.arena|
  {
    match router.arena[info.route].updateHandler
    case None => Failure(NoHandlerFound(uri))
    case Some(handler) =>
      handler(values,
              MergedSelection(selection, selectionArgs, info.pathVariables, entries),
              MergedArgs(selection, selectionArgs, info.pathVariables, entries))
  }

  /** `delete(uri:selection:selectionArgs:)`: the merged selection. */
  function DeleteOutcome(router: Option<Router>, uri: string, selection: Option<string>,
                         selectionArgs: Option<SelectionArgs>, entries: seq<(string, Value)>): Result<int, Error>
    requires router.Some? ==> router.value.Valid()
  {
    match Lookup(router, uri)
    case Failure(e) => Failure(e)
    case Success(info) => DeleteRouted(router.value, info, uri, selection, selectionArgs, entries)
  }

  /** `delete` once the route is found. */
  function DeleteRouted(router: Router, info: RouteInfo, uri: string, selection: Option<string>,
                        selectionArgs: Option<SelectionArgs>, entries: seq<(string, Value)>): Result<int, Error>
    requires info.route < |router.arena|
  {
    match router.arena[info.route].deleteHandler
    case None => Failure(NoHandlerFound(uri))
    case Some(handler) =>
      handler(MergedSelection(selection, selectionArgs, info.pathVariables, entries),
              MergedArgs(selection, selectionArgs, info.pathVariables, entries))
  }

  // ---------------------------------------------------------------------
  // What the requests do on the table

  /** Before `start()` and after `stop()`, every request fails with
      `repoNotStarted`. */
  lemma NotStarted(uri: string, values: Values, selection: Option<string>, selectionArgs: Option<SelectionArgs>,
                   entries: seq<(string, Value)>)
    ensures CreateOutcome(None, uri, values) == Failure(RepoNotStarted(NotStartedMessage))
    ensures ReadOutcome(None, uri, None, selection, selectionArgs, None, None, None, entries)
         == Failure(RepoNotStarted(NotStartedMessage))
    ensures UpdateOutcome(None, uri, selection, selectionArgs, values, entries)
         == Failure(RepoNotStarted(NotStartedMessage))
    ensures DeleteOutcome(None, uri, selection, selectionArgs, entries) == Failure(RepoNotStarted(NotStartedMessage))
  {
  }

  /** An unresolved request fails with `noRouteFound`; a resolved one whose
      segment lacks the operation's closure fails with `noHandlerFound`. */
  lemma RequestFailures(r: Router, uri: string, values: Values, selection: Option<string>,
                        selectionArgs: Option<SelectionArgs>, entries: seq<(string, Value)>)
    requires r.Valid()
    ensures Resolve(r, uri).segment.None? ==>
      && CreateOutcome(Some(r), uri, values) == Failure(NoRouteFound(uri))
      && ReadOutcome(Some(r), uri, None, selection, selectionArgs, None, None, None, entries) == Failure(NoRouteFound(uri))
      && UpdateOutcome(Some(r), uri, selection, selectionArgs, values, entries) == Failure(NoRouteFound(uri))
      && DeleteOutcome(Some(r), uri, selection, selectionArgs, entries) == Failure(NoRouteFound(uri))
    ensures Resolve(r, uri).segment.Some? ==>
      var s := r.arena[Resolve(r, uri).segment.value];
      && (s.createHandler.None? ==> CreateOutcome(Some(r), uri, values) == Failure(NoHandlerFound(uri)))
      && (s.readHandler.None? ==>
            ReadOutcome(Some(r), uri, None, selection, selectionArgs, None, None, None, entries) == Failure(NoHandlerFound(uri)))
      && (s.updateHandler.None? ==>
            UpdateOutcome(Some(r), uri, selection, selectionArgs, values, entries) == Failure(NoHandlerFound(uri)))
      && (s.deleteHandler.None? ==> DeleteOutcome(Some(r), uri, selection, selectionArgs, entries) == Failure(NoHandlerFound(uri)))
  {
  }

  /** `create` hands its closure the caller's values with the captured
      variables laid over them: on a shared key the path variable wins. */
  lemma CreateMergesPathVariables(r: Router, uri: string, values: Values, handler: CreateHandler)
    requires r.Valid() && Resolve(r, uri).segment.Some?
    requires r.arena[Resolve(r, uri).segment.value].createHandler == Some(handler)
    ensures CreateOutcome(Some(r), uri, values) == handler(Some(values + CapturedBy(Some(r), uri)))
  {
    var info := Lookup(Some(r), uri).value;
    var captured := info.pathVariables.value;
    assert Updated(map[], Some(values)) == values;
    assert Plus(Some(values), info.pathVariables) == Some(values + captured);
  }

  /** Creating under `/lol/champions/sync` runs the sync and reports 1,
      whatever the values. */
  lemma CreateSync(r: Router, values: Values)
    requires Shaped(r) && Handled(r)
    ensures CreateOutcome(Some(r), Prefixed(["lol", "champions", "sync"]), values) == Success(1)
  {
    SyncRoute(r);
  }

  /** A champion segment has no create closure. */
  lemma CreateChampionHasNoHandler(r: Router, id: string, values: Values)
    requires Shaped(r) && Handled(r)
    requires ParseInt64(id).Some?
    ensures CreateOutcome(Some(r), Prefixed(["lol", "champions", id]), values)
         == Failure(NoHandlerFound(Prefixed(["lol", "champions", id])))
  {
    ChampionByIdRoute(r, id);
  }

  /** The sync segment has no read closure. */
  lemma ReadSyncHasNoHandler(r: Router, entries: seq<(string, Value)>)
    requires Shaped(r) && Handled(r)
    ensures ReadOutcome(Some(r), Prefixed(["lol", "champions", "sync"]), None, None, None, None, None, None, entries)
         == Failure(NoHandlerFound(Prefixed(["lol", "champions", "sync"])))
  {
    SyncRoute(r);
  }

  /** No segment of the table takes updates or deletes: every such request
      fails, with `noRouteFound` or `noHandlerFound`. */
  lemma NoUpdatesOrDeletes(r: Router, uri: string, selection: Option<string>, selectionArgs: Option<SelectionArgs>,
                           values: Values, entries: seq<(string, Value)>)
    requires Shaped(r) && Handled(r)
    ensures UpdateOutcome(Some(r), uri, selection, selectionArgs, values, entries)
         in {Failure(NoRouteFound(uri)), Failure(NoHandlerFound(uri))}
    ensures DeleteOutcome(Some(r), uri, selection, selectionArgs, entries)
         in {Failure(NoRouteFound(uri)), Failure(NoHandlerFound(uri))}
  {
    var l := Lookup(Some(r), uri);
    if l.Success? {
      var s := l.value.route;
      assert r.arena[s].updateHandler == None && r.arena[s].deleteHandler == None;
    }
  }

  /** Reading a champion by id hands the read closure the selection
      `(champion_id=?)` (after the caller's own clause when there is one)
      and the caller's arguments, not the captured id. */
  lemma ReadChampionByIdSelection(r: Router, id: string, selection: Option<string>, selectionArgs: Option<SelectionArgs>,
                                  entries: seq<(string, Value)>)
    requires Shaped(r)
    requires ParseInt64(id).Some?
    requires IsEntryOrder(entries, CapturedBy(Some(r), Prefixed(["lol", "champions", id])))
    requires NoEmptyClause(SeedClauses(selection, selectionArgs))
    ensures entries == [(ColumnChampionId, Int(ParseInt64(id).value))]
    ensures MergedSelection(selection, selectionArgs, Some(CapturedBy(Some(r), Prefixed(["lol", "champions", id]))), entries)
         == Some(Join(SeedClauses(selection, selectionArgs) + ["(champion_id=?)"], " AND "))
    ensures MergedArgs(selection, selectionArgs, Some(CapturedBy(Some(r), Prefixed(["lol", "champions", id]))), entries)
         == selectionArgs
  {
    var v := Int(ParseInt64(id).value);
    assert CapturedBy(Some(r), Prefixed(["lol", "champions", id])) == map[ColumnChampionId := v] by {
      ChampionByIdRoute(r, id);
    }
    MergeChampionId(selection, selectionArgs, v, entries);
  }

  /** Merging the one path variable `champion_id` adds its clause and leaves
      the arguments alone. */
  lemma MergeChampionId(selection: Option<string>, selectionArgs: Option<SelectionArgs>, v: Value,
                        entries: seq<(string, Value)>)
    requires IsEntryOrder(entries, map[ColumnChampionId := v])
    requires NoEmptyClause(SeedClauses(selection, selectionArgs))
    ensures entries == [(ColumnChampionId, v)]
    ensures MergedSelection(selection, selectionArgs, Some(map[ColumnChampionId := v]), entries)
         == Some(Join(SeedClauses(selection, selectionArgs) + ["(champion_id=?)"], " AND "))
    ensures MergedArgs(selection, selectionArgs, Some(map[ColumnChampionId := v]), entries) == selectionArgs
  {
    var vars := map[ColumnChampionId := v];
    SingleEntry(entries, ColumnChampionId, v);
    assert PathClauses(entries) == ["(champion_id=?)"] by {
      assert Clause(ColumnChampionId, Placeholder(Marker, 0)) == "(champion_id=?)";
    }
    MergedSelectionNonEmpty(selection, selectionArgs, vars, entries);
    MergedArgsWithPathVariables(selection, selectionArgs, vars, entries);
  }

  /** The variables a resolved request merges are the ones it captured. */
  lemma CapturedOrder(router: Option<Router>, uri: string, info: RouteInfo, entries: seq<(string, Value)>)
    requires router.Some? ==> router.value.Valid()
    requires Lookup(router, uri) == Success(info) && info.pathVariables.Some?
    requires IsEntryOrder(entries, info.pathVariables.value)
    ensures IsEntryOrder(entries, CapturedBy(router, uri))
  {
  }

  /** A one-entry dictionary has one iteration order. */
  lemma SingleEntry(entries: seq<(string, Value)>, k: string, v: Value)
    requires IsEntryOrder(entries, map[k := v])
    ensures entries == [(k, v)]
  {
    assert k in map[k := v];
    assert |entries| > 0 && entries[0].0 == k;
    assert map[k := v] - {k} == map[];
    EntryOrderListsEntries(entries[1..], map[]);
  }

  /** Visiting one more entry of those remaining. */
  lemma {:induction false} VisitStep(entries: seq<(string, Value)>, m: map<string, Value>, remaining: map<string, Value>,
                                     k: string)
    requires Visits(entries, m, remaining) && k in remaining
    ensures Visits(entries + [(k, remaining[k])], m, remaining - {k})
    decreases |entries|
  {
    var next := entries + [(k, remaining[k])];
    if |entries| == 0 {
      assert next == [(k, remaining[k])] && next[1..] == [];
    } else {
      VisitStep(entries[1..], m - {entries[0].0}, remaining, k);
      assert next[0] == entries[0] && next[1..] == entries[1..] + [(k, remaining[k])];
    }
  }

  /** Some iteration order of `m`. */
  ghost function AnyEntryOrder(m: map<string, Value>): (entries: seq<(string, Value)>)
    ensures IsEntryOrder(entries, m)
    decreases |m|
  {
    if m == map[] then []
    else
      var k :| k in m;
      var rest := AnyEntryOrder(m - {k});
      assert ([(k, m[k])] + rest)[1..] == rest;
      [(k, m[k])] + rest
  }

  /** The builder's clauses after one more `with` in marker mode. */
  lemma ClauseStep(seed: seq<string>, entries: seq<(string, Value)>, e: (string, Value),
                   before: seq<string>, after: seq<string>)
    requires before == seed + PathClauses(entries)
    requires after == before + [Clause(e.0, "?")]
    ensures after == seed + PathClauses(entries + [e])
  {
    PathStep(entries, e);
  }

  /** One more variable merged: one more `(name=?)` clause and one more
      generated value. */
  lemma PathStep(entries: seq<(string, Value)>, e: (string, Value))
    ensures PathClauses(entries + [e]) == PathClauses(entries) + [Clause(e.0, Placeholder(Marker, 0))]
    ensures PathValues(entries + [e]) == PathValues(entries) + [e.1]
  {
    assert (entries + [e])[..|entries|] == entries;
  }

  // ---------------------------------------------------------------------
  // The database name

  /** The directory path with a `/` added at the front and at the back
      where it is missing. */
  function Slashed(path: string): (r: string)
    requires path != ""
    ensures |r| >= |path| && r[0] == '/' && r[|r| - 1] == '/'
    ensures var front := if path[0] == '/' then 0 else 1;
      && |r| == front + |path| + (if path[|path| - 1] == '/' then 0 else 1)
      && r[front..front + |path|] == path
  {
    (if path[0] == '/' then "" else "/") + path + (if path[|path| - 1] == '/' then "" else "/")
  }

  /** A path already starting and ending with `/` is kept as it is, so
      slashing twice is slashing once. */
  lemma SlashedIdempotent(path: string)
    requires path != ""
    ensures Slashed(Slashed(path)) == Slashed(path)
  {
    var s := Slashed(path);
    assert s[0] == '/' && s[|s| - 1] == '/';
    assert Slashed(s) == "" + s + "";
  }

  /** The database name `LoLDatabaseOpenHelper` derives from a path. */
  function DatabaseName(databasePath: Option<string>): Option<string> {
    match databasePath
    case None => None
    case Some(path) => if path == "" then Some("") else Some(Slashed(path) + DatabaseFileName)
  }

  /** The convenience `init(databasePath:version:)`: nil stays nil, an empty
      path stays empty, otherwise the `/`-framed path with the file name
      appended. */
  method NormalizeDatabasePath(databasePath: Option<string>) returns (dbName: Option<string>)
    ensures dbName == DatabaseName(databasePath)
  {
    match databasePath {
      case None =>
        dbName := None;
      case Some(path) =>
        if |path| == 0 {
          dbName := databasePath;
        } else {
          var prefix := "";
          var suffix := "";
          if path[0] != '/' {
            prefix := "/";
          }
          if path[|path| - 1] != '/' {
            suffix := "/";
          }
          var fixedPath := prefix + path + suffix;
          dbName := Some(fixedPath + DatabaseFileName);
          assert fixedPath == Slashed(path);
        }
    }
  }

  /** A non-empty path gives an absolute name ending in `/` and the file
      name. */
  lemma DatabaseNameShape(path: string)
    requires path != ""
    ensures var name := DatabaseName(Some(path));
      && name.Some? && name.value[0] == '/'
      && |name.value| > |DatabaseFileName|
      && name.value[|name.value| - |DatabaseFileName| - 1..] == "/" + DatabaseFileName
  {
    var fixedPath := Slashed(path);
    var n := fixedPath + DatabaseFileName;
    assert n[|n| - |DatabaseFileName| - 1] == fixedPath[|fixedPath| - 1];
    assert n[|n| - |DatabaseFileName|..] == DatabaseFileName;
  }

  /** A relative directory gets a `/` at both ends. */
  lemma RelativePathExample()
    ensures DatabaseName(None) == None
    ensures DatabaseName(Some("")) == Some("")
    ensures DatabaseName(Some("db")) == Some("/db/" + DatabaseFileName)
  {
    var path := "db";
    assert path[0] == 'd' && path[|path| - 1] == 'b';
    assert Slashed(path) == "/" + path + "/";
    assert "/" + path + "/" == "/db/";
  }

  /** A directory already framed by `/` is kept as it is. */
  lemma FramedPathExample()
    ensures DatabaseName(Some("/data/")) == Some("/data/" + DatabaseFileName)
  {
    var path := "/data/";
    assert path[0] == '/' && path[|path| - 1] == '/';
    assert Slashed(path) == "" + path + "";
    assert "" + path + "" == path;
  }

  // ---------------------------------------------------------------------
  // The repository

  /** `LoLDatabase`: its open helper, over a store holding `storedVersion`. */
  class LoLDatabase {
    const openHelper: SQLiteOpenHelper

    constructor(databasePath: Option<string>, storedVersion: int)
      ensures fresh(openHelper)
      ensures openHelper.databaseName == DatabaseName(databasePath) && openHelper.version == DBVersion
      ensures openHelper.storedVersion == storedVersion && !openHelper.connected && openHelper.hooks == []
    {
      var dbName := NormalizeDatabasePath(databasePath);
      openHelper := new SQLiteOpenHelper(dbName, DBVersion, storedVersion);
    }
  }

  class LoLRepo {
    const apiKey: string
    const apiEndpoint: string
    const database: LoLDatabase
    var router: Option<Router>

    ghost predicate Valid()
      reads this
    {
      router.Some? ==> router.value.Valid()
    }

    /** `init(databasePath:apiEndpoint:apiKey:)`: not started. */
    constructor(databasePath: Option<string>, apiEndpoint: string, apiKey: string, storedVersion: int)
      ensures Valid() && router == None
      ensures this.apiEndpoint == apiEndpoint && this.apiKey == apiKey
      ensures fresh(database) && fresh(database.openHelper)
      ensures database.openHelper.databaseName == DatabaseName(databasePath)
    {
      this.apiEndpoint := apiEndpoint;
      this.apiKey := apiKey;
      database := new LoLDatabase(databasePath, storedVersion);
      router := None;
    }

    /** `start()`: build the route table. */
    method Start()
      modifies this
      ensures Valid() && router == Some(LoLRouter())
    {
      CreateRouter();
    }

    /** `stop()`: drop the route table. */
    method Stop()
      modifies this
      ensures Valid() && router == None
    {
      router := None;
    }

    /** `createRouter()`: `/lol`, with the champion routes below it. */
    method CreateRouter()
      modifies this
      ensures Valid() && router == Some(LoLRouter())
    {
      var builder := new RouteBuilder();
      var lolSegment := AddRoot(builder);
      var _ := BuildChampionRoutes(lolSegment, builder);
      var built := builder.Build();
      router := Some(built);
      BuiltIsLoLRouter(built);
    }

    /** `buildChampionRoutes(parentSegment:withBuilder:)`. */
    method BuildChampionRoutes(parentSegment: SegmentRef, builder: RouteBuilder) returns (champions: SegmentRef)
      requires builder.Valid() && parentSegment < |builder.arena|
      modifies builder
      ensures builder.Valid() && builder.segments == old(builder.segments)
      ensures champions == |old(builder.arena)|
      ensures builder.arena == WithChild(old(builder.arena), parentSegment, champions) + ChampionSegments(champions)
    {
      ghost var a0 := builder.arena;
      champions := AddReadable(builder, "champions", parentSegment);
      ghost var a1 := builder.arena;
      var named := AddReadable(builder, CreateTextVariable(ColumnName), champions);
      ghost var a2 := builder.arena;
      var byId := AddReadable(builder, CreateNumericVariable(ColumnChampionId), champions);
      ghost var a3 := builder.arena;
      ChampionLevelArena(a0, parentSegment, a1, a2, a3);
      var _ := BuildChampionSkinsRoutes(named, builder);
      ghost var a4 := builder.arena;
      var _ := BuildChampionSkinsRoutes(byId, builder);
      ghost var a5 := builder.arena;
      var _ := AddSync(builder, champions);
      ChampionArena(a0, parentSegment, a3, a4, a5, builder.arena);
    }

    /** `buildChampionSkinsRoutes(parentSegment:withBuilder:)`. */
    method BuildChampionSkinsRoutes(parentSegment: SegmentRef, builder: RouteBuilder) returns (skins: SegmentRef)
      requires builder.Valid() && parentSegment < |builder.arena|
      modifies builder
      ensures builder.Valid() && builder.segments == old(builder.segments)
      ensures skins == |old(builder.arena)|
      ensures builder.arena == WithChild(old(builder.arena), parentSegment, skins) + SkinsSegments(skins)
    {
      ghost var start := WithChild(builder.arena, parentSegment, |builder.arena|);
      skins := AddReadable(builder, "skins", parentSegment);
      assert builder.arena == start + [] + [Readable("skins", [])] + [];
      var _ := AddReadable(builder, CreateNumericVariable(ColumnChampionSkinId), skins);
      Grow(start, [], "skins", [], [], skins + 1, [skins + 1], [Readable(CreateNumericVariable(ColumnChampionSkinId), [])]);
      assert builder.arena == start + SkinsSegments(skins);
    }

    /** `findRoute(uri:)`: a fresh finder walks the router; its captured
        variables come back with the segment. */
    method FindRoute(uri: string) returns (r: Result<RouteInfo, Error>)
      requires Valid()
      ensures r == Lookup(router, uri)
    {
      if router.None? {
        return Failure(RepoNotStarted(NotStartedMessage));
      }
      var finder := new RouterFinder();
      var segment := finder.FindRoute(uri, router.value);
      if segment.None? {
        return Failure(NoRouteFound(uri));
      }
      r := Success(RouteInfo(segment.value, finder.pathVariables));
    }

    /** `mergeSelection(requestSelection:requestSelectionArgs:routePathVariables:)`:
        no builder without captured variables; otherwise a marker builder
        seeded with the caller's clause and arguments and given one `with`
        per variable, in the dictionary's iteration order `entries`. */
    static method MergeSelection(selection: Option<string>, selectionArgs: Option<SelectionArgs>,
                          pathVariables: Option<Values>)
      returns (builder: Option<SelectionBuilder>, ghost entries: seq<(string, Value)>)
      ensures pathVariables.None? ==> builder.None? && entries == []
      ensures pathVariables.Some? ==>
        && IsEntryOrder(entries, pathVariables.value)
        && builder.Some? && fresh(builder.value) && builder.value.Valid()
        && builder.value.BuildSelection() == SelectionOf(SeedClauses(selection, selectionArgs) + PathClauses(entries))
        && builder.value.BuildSelectionArgs()
           == ArgsOf(Params(Marker, SeedArgs(selection, selectionArgs), PathValues(entries)))
    {
      entries := [];
      if pathVariables.None? {
        return None, entries;
      }
      var b := new SelectionBuilder.Seeded(Marker, selection, selectionArgs);
      entries := WithEach(b, pathVariables.value);
      builder := Some(b);
    }

    /** `create(uri:values:)`. */
    method Create(uri: string, values: Values) returns (r: Result<ResourceIdentifier, Error>)
      requires Valid()
      ensures r == CreateOutcome(router, uri, values)
    {
      var found := FindRoute(uri);
      if found.Failure? {
        return Failure(found.error);
      }
      var info := found.value;
      var handler := router.value.arena[info.route].createHandler;
      if handler.None? {
        return Failure(NoHandlerFound(uri));
      }
      r := handler.value(Plus(Some(values), info.pathVariables));
    }

    /** `read(uri:projection:selection:selectionArgs:grouping:having:sort:)`;
        `entries` is the order in which the captured variables were merged. */
    method Read(uri: string, projection: Option<seq<string>>, selection: Option<string>,
                selectionArgs: Option<SelectionArgs>, grouping: Option<string>, having: Option<string>,
                sort: Option<string>)
      returns (r: Result<Results, Error>, ghost entries: seq<(string, Value)>)
      requires Valid()
      ensures IsEntryOrder(entries, CapturedBy(router, uri))
      ensures r == ReadOutcome(router, uri, projection, selection, selectionArgs, grouping, having, sort, entries)
    {
      var found := FindRoute(uri);
      if found.Failure? {
        return Failure(found.error), [];
      }
      r, entries := ReadRoute(router.value, uri, found.value, projection, selection, selectionArgs, grouping, having, sort);
      CapturedOrder(router, uri, found.value, entries);
    }

    /** `readSingle(...)`: `read` cast to a single `Result`, a cast that
        always succeeds since every `Results` is a `Result`. */
    method ReadSingle(uri: string, projection: Option<seq<string>>, selection: Option<string>,
                      selectionArgs: Option<SelectionArgs>, grouping: Option<string>, having: Option<string>,
                      sort: Option<string>)
      returns (r: Result<Option<Results>, Error>, ghost entries: seq<(string, Value)>)
      requires Valid()
      ensures IsEntryOrder(entries, CapturedBy(router, uri))
      ensures var outcome := ReadOutcome(router, uri, projection, selection, selectionArgs, grouping, having, sort, entries);
        && (r.Success? <==> outcome.Success?)
        && (r.Success? ==> r.value == Some(outcome.value))
        && (r.Failure? ==> r.error == outcome.error)
    {
      var results;
      results, entries := Read(uri, projection, selection, selectionArgs, grouping, having, sort);
      r := if results.Success? then Success(Some(results.value)) else Failure(results.error);
    }

    /** `update(uri:selection:selectionArgs:values:)`. */
    method Update(uri: string, selection: Option<string>, selectionArgs: Option<SelectionArgs>, values: Values)
      returns (r: Result<int, Error>, ghost entries: seq<(string, Value)>)
      requires Valid()
      ensures IsEntryOrder(entries, CapturedBy(router, uri))
      ensures r == UpdateOutcome(router, uri, selection, selectionArgs, values, entries)
    {
      var found := FindRoute(uri);
      if found.Failure? {
        return Failure(found.error), [];
      }
      r, entries := UpdateRoute(router.value, uri, found.value, selection, selectionArgs, values);
      CapturedOrder(router, uri, found.value, entries);
    }

    /** `delete(uri:selection:selectionArgs:)`. */
    method Delete(uri: string, selection: Option<string>, selectionArgs: Option<SelectionArgs>)
      returns (r: Result<int, Error>, ghost entries: seq<(string, Value)>)
      requires Valid()
      ensures IsEntryOrder(entries, CapturedBy(router, uri))
      ensures r == DeleteOutcome(router, uri, selection, selectionArgs, entries)
    {
      var found := FindRoute(uri);
      if found.Failure? {
        return Failure(found.error), [];
      }
      r, entries := DeleteRoute(router.value, uri, found.value, selection, selectionArgs);
      CapturedOrder(router, uri, found.value, entries);
    }

  }

  /** The `builder?.buildSelection() ?? selection` and
      `builder?.buildSelectionArgs() ?? selectionArgs` every reading or
      writing request hands its closure. */
  method MergedCriteria(selection: Option<string>, selectionArgs: Option<SelectionArgs>, pathVariables: Option<Values>)
    returns (mergedSelection: Option<string>, mergedArgs: Option<SelectionArgs>, ghost entries: seq<(string, Value)>)
    ensures pathVariables.Some? ==> IsEntryOrder(entries, pathVariables.value)
    ensures mergedSelection == MergedSelection(selection, selectionArgs, pathVariables, entries)
    ensures mergedArgs == MergedArgs(selection, selectionArgs, pathVariables, entries)
  {
    var builder;
    builder, entries := LoLRepo.MergeSelection(selection, selectionArgs, pathVariables);
    mergedSelection := if builder.Some? then Coalesce(builder.value.BuildSelection(), selection) else selection;
    mergedArgs := if builder.Some? then Coalesce(builder.value.BuildSelectionArgs(), selectionArgs) else selectionArgs;
  }

  /** The rest of `read` once `findRoute` has found a segment. */
  method ReadRoute(router: Router, uri: string, info: RouteInfo, projection: Option<seq<string>>, selection: Option<string>,
                   selectionArgs: Option<SelectionArgs>, grouping: Option<string>, having: Option<string>,
                   sort: Option<string>)
    returns (r: Result<Results, Error>, ghost entries: seq<(string, Value)>)
    requires info.route < |router.arena| && info.pathVariables.Some?
    ensures r == ReadRouted(router, info, uri, projection, selection, selectionArgs, grouping, having, sort, entries)
    ensures IsEntryOrder(entries, info.pathVariables.value)
  {
    var handler := router.arena[info.route].readHandler;
    if handler.None? {
      return Failure(NoHandlerFound(uri)), AnyEntryOrder(info.pathVariables.value);
    }
    r, entries := ReadWith(handler.value, info.pathVariables, projection, selection, selectionArgs, grouping, having, sort);
  }

  /** `read` handing its closure the merged criteria. */
  method ReadWith(handler: ReadHandler, pathVariables: Option<Values>, projection: Option<seq<string>>,
                  selection: Option<string>, selectionArgs: Option<SelectionArgs>, grouping: Option<string>,
                  having: Option<string>, sort: Option<string>)
    returns (r: Result<Results, Error>, ghost entries: seq<(string, Value)>)
    requires pathVariables.Some?
    ensures r == handler(projection, MergedSelection(selection, selectionArgs, pathVariables, entries),
                         MergedArgs(selection, selectionArgs, pathVariables, entries), grouping, having, sort)
    ensures IsEntryOrder(entries, pathVariables.value)
  {
    var mergedSelection, mergedArgs;
    mergedSelection, mergedArgs, entries := MergedCriteria(selection, selectionArgs, pathVariables);
    r := handler(projection, mergedSelection, mergedArgs, grouping, having, sort);
  }

  /** The rest of `update` once `findRoute` has found a segment. */
  method UpdateRoute(router: Router, uri: string, info: RouteInfo, selection: Option<string>, selectionArgs: Option<SelectionArgs>,
                     values: Values)
    returns (r: Result<int, Error>, ghost entries: seq<(string, Value)>)
    requires info.route < |router.arena| && info.pathVariables.Some?
    ensures r == UpdateRouted(router, info, uri, selection, selectionArgs, values, entries)
    ensures IsEntryOrder(entries, info.pathVariables.value)
  {
    var handler := router.arena[info.route].updateHandler;
    if handler.None? {
      return Failure(NoHandlerFound(uri)), AnyEntryOrder(info.pathVariables.value);
    }
    r, entries := UpdateWith(handler.value, info.pathVariables, selection, selectionArgs, values);
  }

  /** `update` handing its closure the caller's values and the merged criteria. */
  method UpdateWith(handler: UpdateHandler, pathVariables: Option<Values>, selection: Option<string>,
                    selectionArgs: Option<SelectionArgs>, values: Values)
    returns (r: Result<int, Error>, ghost entries: seq<(string, Value)>)
    requires pathVariables.Some?
    ensures r == handler(values, MergedSelection(selection, selectionArgs, pathVariables, entries),
                         MergedArgs(selection, selectionArgs, pathVariables, entries))
    ensures IsEntryOrder(entries, pathVariables.value)
  {
    var mergedSelection, mergedArgs;
    mergedSelection, mergedArgs, entries := MergedCriteria(selection, selectionArgs, pathVariables);
    r := handler(values, mergedSelection, mergedArgs);
  }

  /** The rest of `delete` once `findRoute` has found a segment. */
  method DeleteRoute(router: Router, uri: string, info: RouteInfo, selection: Option<string>, selectionArgs: Option<SelectionArgs>)
    returns (r: Result<int, Error>, ghost entries: seq<(string, Value)>)
    requires info.route < |router.arena| && info.pathVariables.Some?
    ensures r == DeleteRouted(router, info, uri, selection, selectionArgs, entries)
    ensures IsEntryOrder(entries, info.pathVariables.value)
  {
    var handler := router.arena[info.route].deleteHandler;
    if handler.None? {
      return Failure(NoHandlerFound(uri)), AnyEntryOrder(info.pathVariables.value);
    }
    r, entries := DeleteWith(handler.value, info.pathVariables, selection, selectionArgs);
  }

  /** `delete` handing its closure the merged criteria. */
  method DeleteWith(handler: DeleteHandler, pathVariables: Option<Values>, selection: Option<string>,
                    selectionArgs: Option<SelectionArgs>)
    returns (r: Result<int, Error>, ghost entries: seq<(string, Value)>)
    requires pathVariables.Some?
    ensures r == handler(MergedSelection(selection, selectionArgs, pathVariables, entries),
                         MergedArgs(selection, selectionArgs, pathVariables, entries))
    ensures IsEntryOrder(entries, pathVariables.value)
  {
    var mergedSelection, mergedArgs;
    mergedSelection, mergedArgs, entries := MergedCriteria(selection, selectionArgs, pathVariables);
    r := handler(mergedSelection, mergedArgs);
  }

  /** The builder after merging `entries` on top of clauses `base`. */
  ghost predicate MergedSoFar(builder: SelectionBuilder, base: seq<string>, seed: map<string, Value>,
                              entries: seq<(string, Value)>)
    reads builder
  {
    && builder.Valid() && builder.kind == Marker && builder.seed == seed
    && builder.clauses == base + PathClauses(entries)
    && builder.generated == PathValues(entries)
  }

  /** The `for (key, value) in routePathVariables` loop of
      `mergeSelection`: one `with(expression: key, equalsValue: value)` per
      variable, in an iteration order the dictionary chooses, returned as
      `entries`. */
  method WithEach(builder: SelectionBuilder, pathVariables: Values) returns (ghost entries: seq<(string, Value)>)
    requires builder.Valid() && builder.kind == Marker && builder.generated == []
    modifies builder
    ensures IsEntryOrder(entries, pathVariables)
    ensures MergedSoFar(builder, old(builder.clauses), old(builder.seed), entries)
  {
    entries := [];
    ghost var base, seed := builder.clauses, builder.seed;
    assert base + PathClauses([]) == base;
    var remaining := pathVariables;
    while remaining != map[]
      invariant MergedSoFar(builder, base, seed, entries)
      invariant Visits(entries, pathVariables, remaining)
      decreases |remaining|
    {
      var key :| key in remaining;
      var value := remaining[key];
      WithEntry(builder, base, seed, entries, key, value);
      VisitStep(entries, pathVariables, remaining, key);
      entries := entries + [(key, value)];
      remaining := remaining - {key};
    }
  }

  /** One pass of that loop: `with` for one more entry. */
  method WithEntry(builder: SelectionBuilder, ghost base: seq<string>, ghost seed: map<string, Value>,
                   ghost entries: seq<(string, Value)>, key: string, value: Value)
    requires MergedSoFar(builder, base, seed, entries)
    modifies builder
    ensures MergedSoFar(builder, base, seed, entries + [(key, value)])
  {
    ghost var before := builder.clauses;
    var _ := builder.With(key, Some(value));
    ClauseStep(base, entries, (key, value), before, builder.clauses);
    PathStep(entries, (key, value));
  }

  /** Registering `/lol` on an empty builder. */
  method AddRoot(builder: RouteBuilder) returns (segment: SegmentRef)
    requires builder.Valid() && builder.arena == [] && builder.segments == []
    modifies builder
    ensures builder.Valid() && builder.arena == [NewSegment("lol")] && builder.segments == [0] && segment == 0
  {
    SingleComponent("lol");
    segment := builder.AddSegment("/lol", None);
    AttachRoot();
  }

  /** Registering a segment with a read closure under `parent`. */
  method AddReadable(builder: RouteBuilder, component: string, parent: SegmentRef) returns (segment: SegmentRef)
    requires builder.Valid() && parent < |builder.arena|
    requires component != "" && '/' !in component
    modifies builder
    ensures builder.Valid() && builder.segments == old(builder.segments)
    ensures segment == |old(builder.arena)|
    ensures builder.arena == WithChild(old(builder.arena), parent, segment) + [Readable(component, [])]
  {
    SingleComponent(component);
    segment := builder.AddSegment(component, Some(parent));
    AttachUnder(old(builder.arena), builder.segments, parent, component);
    builder.AddReadHandler(segment, ListNothing);
  }

  /** Registering `sync`, with the sync closure, under `parent`. */
  method AddSync(builder: RouteBuilder, parent: SegmentRef) returns (segment: SegmentRef)
    requires builder.Valid() && parent < |builder.arena|
    modifies builder
    ensures builder.Valid() && builder.segments == old(builder.segments)
    ensures segment == |old(builder.arena)|
    ensures builder.arena == WithChild(old(builder.arena), parent, segment) + [NewSegment("sync").(createHandler := Some(SyncChampions))]
  {
    SingleComponent("sync");
    segment := builder.AddSegment("sync", Some(parent));
    AttachUnder(old(builder.arena), builder.segments, parent, "sync");
    builder.AddCreateHandler(segment, SyncChampions);
  }

  /** The arena after registering `champions` and the champion by name
      and by id under `parent`. */
  lemma ChampionLevelArena(a0: seq<RouteSegment>, parent: SegmentRef, a1: seq<RouteSegment>,
                           a2: seq<RouteSegment>, a3: seq<RouteSegment>)
    requires parent < |a0|
    requires a1 == WithChild(a0, parent, |a0|) + [Readable("champions", [])]
    requires a2 == WithChild(a1, |a0|, |a1|) + [Readable(CreateTextVariable(ColumnName), [])]
    requires a3 == WithChild(a2, |a0|, |a2|) + [Readable(CreateNumericVariable(ColumnChampionId), [])]
    ensures a3 == WithChild(a0, parent, |a0|) + ChampionLevel(|a0|)
  {
    var n := |a0|;
    AddTwoChildren(WithChild(a0, parent, n), "champions",
                   Readable(CreateTextVariable(ColumnName), []), Readable(CreateNumericVariable(ColumnChampionId), []),
                   n + 1, n + 2);
  }

  /** A new segment that then gets two children appended after it. */
  lemma AddTwoChildren(start: seq<RouteSegment>, component: string, first: RouteSegment, second: RouteSegment,
                       k1: SegmentRef, k2: SegmentRef)
    ensures WithChild(WithChild(start + [Readable(component, [])], |start|, k1) + [first], |start|, k2) + [second]
         == start + [Readable(component, [k1, k2]), first, second]
  {
    assert start + [Readable(component, [])] == start + [] + [Readable(component, [])] + [];
    Grow(start, [], component, [], [], k1, [k1], [first]);
    assert start + [] + [Readable(component, [k1])] + [] + [first] == start + [] + [Readable(component, [k1])] + [first];
    Grow(start, [], component, [k1], [first], k2, [k1, k2], [second]);
  }

  /** The champion by name gets its `skins` child. */
  lemma NamedSkinsStep(start: seq<RouteSegment>, a3: seq<RouteSegment>, a4: seq<RouteSegment>)
    requires a3 == start + ChampionLevel(|start|)
    requires a4 == WithChild(a3, |start| + 1, |a3|) + SkinsSegments(|a3|)
    ensures var n := |start|;
      a4 == start + [Readable("champions", [n + 1, n + 2]), Readable(CreateTextVariable(ColumnName), [n + 3]),
                     Readable(CreateNumericVariable(ColumnChampionId), [])] + SkinsSegments(n + 3)
  {
    var n := |start|;
    var ch := Readable("champions", [n + 1, n + 2]);
    var nm := CreateTextVariable(ColumnName);
    var id := Readable(CreateNumericVariable(ColumnChampionId), []);
    assert a3 == start + [ch] + [Readable(nm, [])] + [id];
    Grow(start, [ch], nm, [], [id], n + 3, [n + 3], SkinsSegments(n + 3));
  }

  /** The champion by id gets its `skins` child. */
  lemma IdSkinsStep(start: seq<RouteSegment>, a4: seq<RouteSegment>, a5: seq<RouteSegment>)
    requires var n := |start|;
      a4 == start + [Readable("champions", [n + 1, n + 2]), Readable(CreateTextVariable(ColumnName), [n + 3]),
                     Readable(CreateNumericVariable(ColumnChampionId), [])] + SkinsSegments(n + 3)
    requires a5 == WithChild(a4, |start| + 2, |a4|) + SkinsSegments(|a4|)
    ensures a5 == start + [Readable("champions", [|start| + 1, |start| + 2])] + ChampionsBelow(|start|)
  {
    var n := |start|;
    var ch := Readable("champions", [n + 1, n + 2]);
    var named := Readable(CreateTextVariable(ColumnName), [n + 3]);
    var id := CreateNumericVariable(ColumnChampionId);
    GrowThird(start, ch, named, id, SkinsSegments(n + 3), n + 5, SkinsSegments(n + 5));
  }

  /** Adding a child to the third of the segments after `start`. */
  lemma GrowThird(start: seq<RouteSegment>, first: RouteSegment, second: RouteSegment, component: string,
                  right: seq<RouteSegment>, child: SegmentRef, extra: seq<RouteSegment>)
    ensures WithChild(start + [first, second, Readable(component, [])] + right, |start| + 2, child) + extra
         == start + [first] + ([second, Readable(component, [child])] + right + extra)
  {
    assert start + [first, second, Readable(component, [])] + right
        == start + [first, second] + [Readable(component, [])] + right;
    Grow(start, [first, second], component, [], right, child, [child], extra);
  }

  /** `champions` gets its `sync` child after whatever lies below it. */
  lemma SyncStep(start: seq<RouteSegment>, below: seq<RouteSegment>, a5: seq<RouteSegment>, a6: seq<RouteSegment>)
    requires a5 == start + [Readable("champions", [|start| + 1, |start| + 2])] + below
    requires a6 == WithChild(a5, |start|, |a5|) + [NewSegment("sync").(createHandler := Some(SyncChampions))]
    ensures a6 == start + ([Readable("champions", [|start| + 1, |start| + 2, |a5|])] + below
                           + [NewSegment("sync").(createHandler := Some(SyncChampions))])
  {
    var n := |start|;
    var sync := [NewSegment("sync").(createHandler := Some(SyncChampions))];
    assert a5 == start + [] + [Readable("champions", [n + 1, n + 2])] + below;
    Grow(start, [], "champions", [n + 1, n + 2], below, |a5|, [n + 1, n + 2, |a5|], sync);
  }

  /** The arena after registering the skins routes of both champion
      segments and `sync` under `champions`. */
  lemma ChampionArena(a0: seq<RouteSegment>, parent: SegmentRef, a3: seq<RouteSegment>, a4: seq<RouteSegment>,
                      a5: seq<RouteSegment>, a6: seq<RouteSegment>)
    requires parent < |a0|
    requires a3 == WithChild(a0, parent, |a0|) + ChampionLevel(|a0|)
    requires a4 == WithChild(a3, |a0| + 1, |a3|) + SkinsSegments(|a3|)
    requires a5 == WithChild(a4, |a0| + 2, |a4|) + SkinsSegments(|a4|)
    requires a6 == WithChild(a5, |a0|, |a5|) + [NewSegment("sync").(createHandler := Some(SyncChampions))]
    ensures a6 == WithChild(a0, parent, |a0|) + ChampionSegments(|a0|)
  {
    var start := WithChild(a0, parent, |a0|);
    NamedSkinsStep(start, a3, a4);
    IdSkinsStep(start, a4, a5);
    SyncStep(start, ChampionsBelow(|a0|), a5, a6);
  }

  /** Adding a child to a segment past `prefix` and appending `extra`
      leaves `prefix` alone. */
  lemma Grow(prefix: seq<RouteSegment>, left: seq<RouteSegment>, component: string, children: seq<SegmentRef>,
             right: seq<RouteSegment>, child: SegmentRef, grown: seq<SegmentRef>, extra: seq<RouteSegment>)
    requires grown == children + [child]
    ensures WithChild(prefix + left + [Readable(component, children)] + right, |prefix| + |left|, child) + extra
         == prefix + left + [Readable(component, grown)] + right + extra
  {
    var before := prefix + left + [Readable(component, children)] + right;
    var after := prefix + left + [Readable(component, grown)] + right;
    assert WithChild(before, |prefix| + |left|, child) == after;
  }

  /** Registering `/lol` on an empty builder. */
  lemma AttachRoot()
    ensures AttachChain([], [], None, ["lol"]) == ([NewSegment("lol")], [0])
  {
    assert ["lol"][1..] == [];
    assert [] + [NewSegment("lol")] == [NewSegment("lol")];
    assert [] + [0] == [0];
    assert Attach([], [], None, "lol") == ([NewSegment("lol")], [0]);
  }
}
