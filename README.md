# LoL Book of Champions: resource router, selection builder and database lifecycle

This project models the in-process data layer of the LoL Book of Champions iOS
application in Dafny and proves properties of that model. That layer has five parts.

- **The resource router** (`Router`, `RouteBuilder`, `RouterFinder`, `RouteSegment`).
  - A slash-separated path is registered as a chain of segments. Each segment is a
    literal, a `{name:*}` text variable or a `{name:#}` numeric variable.
  - A request path is resolved one level at a time. An exact literal beats a
    variable. A text variable takes only components that are not an `Int64`, and a
    numeric variable takes only components that are.
  - Resolution captures the path variables on the way.
- **The SQL selection builder** (`SelectionBuilder`). It accumulates `(expr=?)` or
  `(expr=:valueN)` clauses and a parameter store, and joins the clauses with ` AND `.
- **The database lifecycle logic** (`SQLiteOpenHelper`).
  - Opening a database runs configure, create / upgrade / downgrade, a version write
    and open, in one transaction.
  - The helper computes the directory to create for a database file.
  - The LoL helper derives the database name from a directory path.
- **The value plumbing**: the dictionary `+=` and `+` operators, and the
  `SyncResult.Builder` counters.
- **The repository** (`LoLRepo`).
  - `start()`/`stop()` build and drop the route table `/lol/champions/...`.
  - `create`, `read`, `readSingle`, `update` and `delete` resolve a URI, fail with
    `repoNotStarted`, `noRouteFound` or `noHandlerFound`, and otherwise call the
    matched segment's closure.
  - That closure receives the caller's values or the caller's selection merged with
    the captured path variables.

One Dafny module per Swift file:

| file | module |
|---|---|
| `routing_utils.dfy` | `RoutingUtils` |
| `db_utils.dfy` | `DBUtils` |
| `foundation_extension.dfy` | `FoundationExtension` |
| `repo_utils.dfy` | `RepoUtils` |
| `lol.dfy` | `LoL` |

Three support modules model the Foundation and standard-library operations the code
relies on:

- `wrappers.dfy`: `Option` and `Result`.
- `seqs.dfy`: `Array.filter`.
- `strings.dfy`: `components(separatedBy:)`, `joined(separator:)`, `Int64(String)`
  and decimal interpolation.

Segments are reference objects in Swift. Here they live in an arena (a sequence of
segment values), and a reference to a segment is its index in that arena.

Where the code updates state in place, the model is a class:

- `RouteBuilder`, `RouterFinder`, `SelectionBuilder`, `SQLiteOpenHelper`,
  `SyncResult.Builder`, `LoLDatabase` and `LoLRepo`.
- Their methods are proved against specification functions:
  - `Resolve` for `findRoute`;
  - `AttachChain` for `addSegment`;
  - `Params` for the parameter store;
  - `Plan`, `Run` and `StoredAfter` for `prepareDatabase`;
  - `Lookup`, `CreateOutcome`, `ReadOutcome`, `UpdateOutcome` and `DeleteOutcome`
    for the requests.
- The properties of those functions are proved as lemmas.

## Behaviour as written

In these places the code does something easy to misread; the model follows the code.

- `create` passes its closure `values + pathVariables`. A captured path variable
  therefore overrides a caller value with the same key (`LoL.CreateMergesPathVariables`).
- `onDowngrade` runs only when the stored version is positive and above the helper's
  version. A stored version of 0 or less always means `onCreate` (`DBUtils.PlanOrder`).
- `addSegment` traps for `""` and for a path ending in `/`.
  - `"/"` does not trap: it registers one segment whose component is empty
    (`RoutingUtils.RegistrationEdgeCases`).
  - Only one leading empty component is skipped per level. So `a//b` registers `a`
    then `b`, but `//a` registers an empty component first.
- `mergeSelection` files every path variable under an `Int` key (marker mode), so
  `buildSelectionArgs()` of the merged builder is nil.
  - Every closure therefore receives the caller's own `selectionArgs`, never the
    captured values.
  - The merged selection names one `(name=?)` per variable, but no value is supplied
    for those markers (`LoL.MergedArgsWithPathVariables`).
- The builder takes the caller's selection only when `selectionArgs` comes with it
  (`DBUtils.swift:31-33`). On every route that captures a variable, a caller selection
  without arguments is therefore dropped, and the closure sees only the `(name=?)`
  clauses (`LoL.SelectionWithoutArgsDropped`).
- With no captured variable the builder is still created. It yields the caller's
  selection back. It yields the caller's arguments only when a selection came with
  them, and otherwise an empty dictionary (`LoL.MergedArgsWithoutPathVariables`).
- `ensureDatabaseLocation` drops every path component equal to the file name, not
  only the last one (`DBUtils.DirectoryNamedLikeFile`).

## Model

| member | source | states |
|---|---|---|
| RepoUtils.DefaultSyncResult | LoLBookOfChampions-native/Repos/RepoUtils.swift:42-48 | every field of a default `SyncResult` is zero |
| RepoUtils.Builder.constructor | LoLBookOfChampions-native/Repos/RepoUtils.swift:50-56 | a fresh builder has all six counters at zero and an empty call log |
| RepoUtils.Builder.Inserts | LoLBookOfChampions-native/Repos/RepoUtils.swift:58-61 | adds the argument to `inserts` only, the other five counters are unchanged, the same builder is returned, and each counter stays the sum of its calls' arguments |
| RepoUtils.Builder.Updates | LoLBookOfChampions-native/Repos/RepoUtils.swift:63-66 | adds the argument to `updates` only, the others are unchanged, the same builder is returned |
| RepoUtils.Builder.Deletes | LoLBookOfChampions-native/Repos/RepoUtils.swift:68-71 | adds the argument to `deletes` only, the others are unchanged, the same builder is returned |
| RepoUtils.Builder.AuthenticationErrors | LoLBookOfChampions-native/Repos/RepoUtils.swift:73-76 | adds the argument to `authenticationErrors` only, the others are unchanged, the same builder is returned |
| RepoUtils.Builder.NetworkErrors | LoLBookOfChampions-native/Repos/RepoUtils.swift:78-81 | adds the argument to `networkErrors` only, the others are unchanged, the same builder is returned |
| RepoUtils.Builder.OtherErrors | LoLBookOfChampions-native/Repos/RepoUtils.swift:83-86 | adds the argument to `otherErrors` only, the others are unchanged, the same builder is returned |
| RepoUtils.Builder.Build | LoLBookOfChampions-native/Repos/RepoUtils.swift:88-95 | each field of the result is the sum of the arguments passed to its counter method, and the builder is left unchanged |
| RepoUtils.TotalGrows | LoLBookOfChampions-native/Repos/RepoUtils.swift:58-86 | with non-negative arguments, later calls never make a counter smaller |
| RepoUtils.TotalNonNegative | LoLBookOfChampions-native/Repos/RepoUtils.swift:58-86 | a builder fed only non-negative arguments holds no negative counter |
| FoundationExtension.AddAssign | LoLBookOfChampions-native/Core/Foundation+Extension.swift:9-17 | the loop over `rhs` leaves `lhs` equal to `Updated(lhs, rhs)`, whose own contract gives the key union and `rhs` winning |
| FoundationExtension.Updated | LoLBookOfChampions-native/Core/Foundation+Extension.swift:9-17 | `lhs += nil` changes nothing; otherwise the keys are the union, every key of `rhs` has its `rhs` value, and every other key keeps its old value |
| FoundationExtension.Plus | LoLBookOfChampions-native/Core/Foundation+Extension.swift:20-39 | nil exactly when both are nil; `nil + r == r`; `l + nil == l`; otherwise the union of keys with `rhs` winning on shared keys |
| Strings.Split | LoLBookOfChampions-native/Repos/RoutingUtils.swift:34 | `components(separatedBy:)` yields at least one piece and no piece contains the separator |
| Strings.JoinSplit | LoLBookOfChampions-native/Repos/RoutingUtils.swift:56 | joining the pieces of a split with the separator gives back the string |
| Strings.SplitJoin | LoLBookOfChampions-native/Repos/RoutingUtils.swift:56 | splitting pieces joined by a separator they do not contain gives back the pieces |
| Strings.ParseInt64 | LoLBookOfChampions-native/Repos/RoutingUtils.swift:159-160 | `Int64(s)` yields only values in the 64-bit range, and only for a string that starts with a digit or a sign |
| Strings.NonDigitIsNotInt64 | LoLBookOfChampions-native/Repos/RoutingUtils.swift:159-160 | a character that is neither a digit nor a leading sign makes `Int64` nil |
| Strings.FormatIntRoundTrip | LoLBookOfChampions-native/Repos/RoutingUtils.swift:95 | `Int64` reads back the decimal rendering of every 64-bit integer |
| Seqs.Filter | LoLBookOfChampions-native/Repos/RoutingUtils.swift:155-161 | the result keeps only elements of the input that satisfy the predicate, and keeps every one of them |
| Seqs.FilterHead | LoLBookOfChampions-native/Repos/RoutingUtils.swift:165 | `.first` of a filter is the earliest element that satisfies the predicate |
| Seqs.FilterFilter | LoLBookOfChampions-native/Repos/RoutingUtils.swift:165 | filtering the qualifying segments by the exact test is filtering by the exact test alone |
| RoutingUtils.MarkerShape | LoLBookOfChampions-native/Repos/RoutingUtils.swift:71-77 | `{n:*}` / `{n:#}` is recognised as a variable exactly when `n` uses only `[A-Za-z0-9_-]` |
| RoutingUtils.CreateTextVariable | LoLBookOfChampions-native/Repos/RoutingUtils.swift:23-25 | the component is a text variable exactly when the name is valid, and never a numeric one |
| RoutingUtils.CreateNumericVariable | LoLBookOfChampions-native/Repos/RoutingUtils.swift:27-29 | the component is a numeric variable exactly when the name is valid, and never a text one |
| RoutingUtils.LeadingRun | LoLBookOfChampions-native/Repos/RoutingUtils.swift:115-118 | one greedy match of `[^{}]*`: a brace-free prefix followed by a brace or the end |
| RoutingUtils.ExtractMarkerName | LoLBookOfChampions-native/Repos/RoutingUtils.swift:115-123 | the name written into a marker is the name `extractVariableName` reads back out of it |
| RoutingUtils.GetSegment | LoLBookOfChampions-native/Repos/RoutingUtils.swift:154-166 | the chosen segment is one of the candidates and qualifies for the component |
| RoutingUtils.GetSegmentNone | LoLBookOfChampions-native/Repos/RoutingUtils.swift:154-166 | no segment is chosen exactly when no candidate qualifies |
| RoutingUtils.GetSegmentExactWins | LoLBookOfChampions-native/Repos/RoutingUtils.swift:163-165 | the earliest exact literal match is chosen, whatever variables also qualify |
| RoutingUtils.GetSegmentFirstQualifying | LoLBookOfChampions-native/Repos/RoutingUtils.swift:163-165 | with no exact match, the earliest qualifying segment is chosen |
| RoutingUtils.GetSegmentSecondOfThree | LoLBookOfChampions-native/Repos/RoutingUtils.swift:154-166 | among three non-exact candidates, the second is chosen when the first does not qualify and the second does |
| RoutingUtils.CaptureKinds | LoLBookOfChampions-native/Repos/RoutingUtils.swift:91-113 | a text variable captures the raw component; a numeric one captures the parsed `Int64` and nothing when it does not parse; a literal captures nothing |
| RoutingUtils.TextVariableQualifies | LoLBookOfChampions-native/Repos/RoutingUtils.swift:155-161 | a text variable qualifies for exactly the components that are not an `Int64`, and captures them as text |
| RoutingUtils.NumericVariableQualifies | LoLBookOfChampions-native/Repos/RoutingUtils.swift:155-161 | a numeric variable qualifies for exactly the `Int64` components and its own marker, and captures only the former |
| RoutingUtils.ResolveFrom | LoLBookOfChampions-native/Repos/RoutingUtils.swift:137-151 | the returned segment is in the tree, and the variables are nil exactly when a non-empty walk finds no segment |
| RoutingUtils.ResolveAt | LoLBookOfChampions-native/Repos/RoutingUtils.swift:137-147 | at each component the walk ends when `getSegment` finds nothing, and otherwise goes on below the chosen segment with its capture added |
| RoutingUtils.ResolveStep | LoLBookOfChampions-native/Repos/RoutingUtils.swift:137-147 | one loop iteration: the chosen segment consumes a component, records its capture and hands its children on |
| RoutingUtils.ResolveEmptyPath | LoLBookOfChampions-native/Repos/RoutingUtils.swift:127-151 | a path with no component left after the leading `/` returns nil with an empty, non-nil variable map |
| RoutingUtils.Walk | LoLBookOfChampions-native/Repos/RoutingUtils.swift:137-147 | the segments the loop steps through: no more than there are components, all in the tree |
| RoutingUtils.ResolveFromWalk | LoLBookOfChampions-native/Repos/RoutingUtils.swift:137-151 | a successful walk has one segment per component, each chosen among the previous one's children; the result is its last segment and the variables captured along it |
| RoutingUtils.ResolveSuccess | LoLBookOfChampions-native/Repos/RoutingUtils.swift:137-151 | `findRoute` succeeds with the last segment of a full walk from the roots and the variables captured along it |
| RoutingUtils.ResolveFailure | LoLBookOfChampions-native/Repos/RoutingUtils.swift:137-141 | for a non-empty path, nil is returned exactly when the variables are nil: no partial capture survives |
| RoutingUtils.CaptureSurvives | LoLBookOfChampions-native/Repos/RoutingUtils.swift:143 | a name captured at some level keeps that level's value unless a later level captures the same name |
| RoutingUtils.KeptAlong | LoLBookOfChampions-native/Repos/RoutingUtils.swift:143 | a variable no level captures keeps its earlier value |
| RoutingUtils.CapturedNamesComeFromWalk | LoLBookOfChampions-native/Repos/RoutingUtils.swift:143 | every captured name was bound by some level of the walk |
| RoutingUtils.RouterFinder.constructor | LoLBookOfChampions-native/Repos/RoutingUtils.swift:68-69 | a new finder has nil `pathVariables` |
| RoutingUtils.RouterFinder.FindRoute | LoLBookOfChampions-native/Repos/RoutingUtils.swift:125-152 | the loop returns the segment and leaves the `pathVariables` that `Resolve` gives |
| RoutingUtils.RegistrationChain | LoLBookOfChampions-native/Repos/RoutingUtils.swift:33-57 | when `addSegment` does not trap, it creates at least one segment |
| RoutingUtils.Attach | LoLBookOfChampions-native/Repos/RoutingUtils.swift:35-45 | `createSegment` adds exactly one segment |
| RoutingUtils.AttachChain | LoLBookOfChampions-native/Repos/RoutingUtils.swift:33-57 | registration adds one segment per component |
| RoutingUtils.AttachShape | LoLBookOfChampions-native/Repos/RoutingUtils.swift:35-45 | `createSegment` appends a fresh handler-less segment, linked from its parent or from the top-level list, and changes nothing else |
| RoutingUtils.AttachChainShape | LoLBookOfChampions-native/Repos/RoutingUtils.swift:33-57 | the parent (or the top-level list) gains the first new segment; the new segments follow in order, each fresh and handler-less and the only child of the one before; nothing else changes |
| RoutingUtils.DuplicateSiblings | LoLBookOfChampions-native/Repos/RoutingUtils.swift:201-204 | registering one component twice under a parent gives two sibling segments: nothing is reused |
| RoutingUtils.RouteBuilder.constructor | LoLBookOfChampions-native/Repos/RoutingUtils.swift:31 | a new builder has no segments |
| RoutingUtils.RouteBuilder.AddChild | LoLBookOfChampions-native/Repos/RoutingUtils.swift:201-204 | appends the child to the parent's children, returns it, and changes nothing else |
| RoutingUtils.RouteBuilder.AddCreateHandler | LoLBookOfChampions-native/Repos/RoutingUtils.swift:185-187 | sets the segment's create closure and nothing else |
| RoutingUtils.RouteBuilder.AddDeleteHandler | LoLBookOfChampions-native/Repos/RoutingUtils.swift:189-191 | sets the segment's delete closure and nothing else |
| RoutingUtils.RouteBuilder.AddReadHandler | LoLBookOfChampions-native/Repos/RoutingUtils.swift:193-195 | sets the segment's read closure and nothing else |
| RoutingUtils.RouteBuilder.AddUpdateHandler | LoLBookOfChampions-native/Repos/RoutingUtils.swift:197-199 | sets the segment's update closure and nothing else |
| RoutingUtils.RouteBuilder.CreateSegment | LoLBookOfChampions-native/Repos/RoutingUtils.swift:35-45 | the tree after the closure is `Attach` of the old one, and the new segment is returned |
| RoutingUtils.RouteBuilder.AddSegment | LoLBookOfChampions-native/Repos/RoutingUtils.swift:33-57 | the recursion leaves the tree `AttachChain` gives for the path's components and returns the deepest new segment |
| RoutingUtils.RouteBuilder.Build | LoLBookOfChampions-native/Repos/RoutingUtils.swift:59-63 | the router holds exactly the registered tree and top-level segments |
| RoutingUtils.CleanPathChain | LoLBookOfChampions-native/Repos/RoutingUtils.swift:47-56 | a path without empty components registers exactly its components, with or without a leading `/` |
| RoutingUtils.RegistrationEdgeCases | LoLBookOfChampions-native/Repos/RoutingUtils.swift:47-53 | `""` and `a/` trap; `"/"` registers one empty component; `a//a` registers `a` twice |
| DBUtils.KeyFor | LoLBookOfChampions-native/Repos/DBUtils.swift:75-82 | a marker parameter is filed under the count, a named one under the placeholder without its `:` |
| DBUtils.Clause | LoLBookOfChampions-native/Repos/DBUtils.swift:93 | a generated clause is never empty |
| DBUtils.Reduce | LoLBookOfChampions-native/Repos/DBUtils.swift:45-47 | the fold is empty exactly when every clause is empty |
| DBUtils.ReduceJoin | LoLBookOfChampions-native/Repos/DBUtils.swift:44-50 | when no clause is empty, the fold is the clauses joined by ` AND ` in insertion order |
| DBUtils.SelectionBuilder.constructor | LoLBookOfChampions-native/Repos/DBUtils.swift:25-27 | a new builder has the given type, no clause and an empty store |
| DBUtils.SelectionBuilder.Seeded | LoLBookOfChampions-native/Repos/DBUtils.swift:29-38 | the initial clause and arguments are installed only when both are present; otherwise the builder starts empty |
| DBUtils.SelectionBuilder.GenerateParameterAndPlaceholder | LoLBookOfChampions-native/Repos/DBUtils.swift:72-86 | returns `?` or `:valueN` for the prior count N and files the value under the matching key; the clauses are unchanged |
| DBUtils.SelectionBuilder.With | LoLBookOfChampions-native/Repos/DBUtils.swift:88-96 | a nil value changes nothing; otherwise exactly one `(expr=P)` clause and one parameter are added; the same builder is returned |
| DBUtils.SelectionBuilder.BuildSelection | LoLBookOfChampions-native/Repos/DBUtils.swift:44-50 | nil exactly when every clause is empty (so when there is none); the clauses joined by ` AND ` when none is empty; reads only |
| DBUtils.SelectionBuilder.BuildSelectionArgs | LoLBookOfChampions-native/Repos/DBUtils.swift:52-54 | present exactly when every key is a `String`, and then it is the store re-keyed by those strings |
| DBUtils.SelectionBuilder.BuildSelectionArgsList | LoLBookOfChampions-native/Repos/DBUtils.swift:56-70 | nil in named mode; in marker mode one value per stored parameter, in the sorted key order |
| DBUtils.SelectionOf | LoLBookOfChampions-native/Repos/DBUtils.swift:44-50 | the selection of a clause list: nil exactly when every clause is empty, else the ` AND ` join when none is empty |
| DBUtils.SelectionOfAppended | LoLBookOfChampions-native/Repos/DBUtils.swift:44-50 | appending non-empty clauses always yields a selection, the whole list joined by ` AND ` when no clause is empty |
| DBUtils.ArgsOf | LoLBookOfChampions-native/Repos/DBUtils.swift:52-54 | the `as? [String : Any]` cast of a store: present exactly when every key is a name |
| DBUtils.SeedParameters | LoLBookOfChampions-native/Repos/DBUtils.swift:37 | `parameterValues += initialArgs` on an empty store files each argument under its name |
| DBUtils.SeededLayout | LoLBookOfChampions-native/Repos/DBUtils.swift:36-37 | a freshly seeded store holds only the seeded names |
| DBUtils.MarkerStep | LoLBookOfChampions-native/Repos/DBUtils.swift:76-78 | a further marker parameter lands under the next `Int` and keeps the layout |
| DBUtils.MarkerParams | LoLBookOfChampions-native/Repos/DBUtils.swift:72-86 | in marker mode the store holds the seeded names and the generated values under consecutive `Int`s from the seeded count on |
| DBUtils.UnseededArgsList | LoLBookOfChampions-native/Repos/DBUtils.swift:56-70 | for an unseeded marker builder every key is an `Int`, and the argument list is the values in the order given to `with` |
| DBUtils.UnseededOrder | LoLBookOfChampions-native/Repos/DBUtils.swift:61-69 | an unseeded marker store listed in ascending key order is the generated values in order |
| DBUtils.MarkerArgsAreNil | LoLBookOfChampions-native/Repos/DBUtils.swift:52-54 | in marker mode any generated parameter makes `buildSelectionArgs()` nil |
| DBUtils.NamedStep | LoLBookOfChampions-native/Repos/DBUtils.swift:80-82 | a further named parameter lands under `valueN` for the prior count N |
| DBUtils.NamedParams | LoLBookOfChampions-native/Repos/DBUtils.swift:80-82 | an unseeded named store holds `valueN` for the N-th value and nothing else |
| DBUtils.NamedCollision | LoLBookOfChampions-native/Repos/DBUtils.swift:80-82 | a seeded argument called `value1` is overwritten by the parameter generated when the store holds one entry |
| DBUtils.PlanOrder | LoLBookOfChampions-native/Repos/DBUtils.swift:187-217 | configure, then the version read, first; open last and only last; create iff version <= 0; upgrade iff 0 < current < target; downgrade iff 0 < current and current > target; version write iff they differ, just before open |
| DBUtils.AtMostOneMigration | LoLBookOfChampions-native/Repos/DBUtils.swift:192-208 | at most one of create, upgrade and downgrade runs, right after the version read |
| DBUtils.RunWithoutFault | LoLBookOfChampions-native/Repos/DBUtils.swift:188-217 | with no error the whole plan runs and commits |
| DBUtils.RunPrefix | LoLBookOfChampions-native/Repos/DBUtils.swift:187-220 | the events that ran are a prefix of the plan ending at the step that threw; the transaction fails exactly when the fault is the commit or a step of the plan |
| DBUtils.RollbackOnFault | LoLBookOfChampions-native/Repos/DBUtils.swift:187-220 | the transaction rolls back, leaving the stored version as it was, exactly when the fault is the commit or a step the plan runs (configure, version read, create, upgrade, downgrade, version write); otherwise the helper's version is stored |
| DBUtils.QuietReopen | LoLBookOfChampions-native/Repos/DBUtils.swift:192-213 | after a committed open with a positive version, the next open only configures, reads the version and opens |
| DBUtils.ZeroVersionRecreates | LoLBookOfChampions-native/Repos/DBUtils.swift:192-213 | with a helper version of 0 the stored version stays 0, so `onCreate` runs on every open |
| DBUtils.SQLiteOpenHelper.constructor | LoLBookOfChampions-native/Repos/DBUtils.swift:108-111 | the helper keeps its name and version and starts without a connection |
| DBUtils.SQLiteOpenHelper.Close | LoLBookOfChampions-native/Repos/DBUtils.swift:113-115 | drops the connection and changes nothing else |
| DBUtils.SQLiteOpenHelper.PrepareDatabase | LoLBookOfChampions-native/Repos/DBUtils.swift:182-222 | without a connection nothing happens; otherwise the hooks that run are `Run(Plan(stored, version), fault)` and the stored version becomes `StoredAfter`; errors are swallowed |
| DBUtils.SQLiteOpenHelper.Migrate | LoLBookOfChampions-native/Repos/DBUtils.swift:192-208 | the create / upgrade / downgrade branch runs the planned migration or stops the transaction at the step that throws |
| DBUtils.SQLiteOpenHelper.Fire | LoLBookOfChampions-native/Repos/DBUtils.swift:187-220 | a hook is recorded, and it stops the transaction exactly when it is the step that throws |
| DBUtils.SQLiteOpenHelper.GetDatabase | LoLBookOfChampions-native/Repos/DBUtils.swift:140-165 | an existing connection is reused untouched; otherwise a connection is opened at the location the name selects (in memory, temporary, or under the documents directory) and prepared |
| DBUtils.EnsureDatabaseLocation | LoLBookOfChampions-native/Repos/DBUtils.swift:117-138 | the location comes back unchanged; a directory is computed exactly for a file location |
| DBUtils.PrefixedSplit | LoLBookOfChampions-native/Repos/DBUtils.swift:128-131 | the rebuilt path splits back into an empty piece and its components |
| DBUtils.DatabaseDirectoryComponents | LoLBookOfChampions-native/Repos/DBUtils.swift:119-131 | the directory's components are the non-empty path components other than the last one's name, all of them, each preceded by `/` |
| DBUtils.KeptComponents | LoLBookOfChampions-native/Repos/DBUtils.swift:120-126 | the two filters keep exactly the non-empty components that differ from the last |
| DBUtils.DirectoryNamedLikeFile | LoLBookOfChampions-native/Repos/DBUtils.swift:124-126 | `/x/data/x` gives the directory `/data`: every component equal to the file name is dropped |
| LoL.Sync | LoLBookOfChampions-native/Repos/LoLRepo.swift:188-192 | the stub sync reports all six counters at zero |
| LoL.ForceFlag | LoLBookOfChampions-native/Repos/LoLRepo.swift:63 | `force` is true exactly when the values hold `force` as the boolean true; it defaults to false |
| LoL.SyncStatus | LoLBookOfChampions-native/Repos/LoLRepo.swift:67 | the result is -1 or 1, and -1 exactly when an error counter is positive |
| LoL.SyncChampions | LoLBookOfChampions-native/Repos/LoLRepo.swift:61-68 | with the stubbed sync, the sync closure always returns 1 |
| LoL.LoLRouter | LoLBookOfChampions-native/Repos/LoLRepo.swift:92-98 | the built table is a valid router of nine segments under the single root `lol` |
| LoL.SingleComponent | LoLBookOfChampions-native/Repos/RoutingUtils.swift:47-53 | a component without `/` registers as itself, with or without a leading `/` |
| LoL.Markers | LoLBookOfChampions-native/Repos/LoLRepo.swift:42-43 | the table's variable names are valid, and its markers are `{name:*}`, `{champion_id:#}` and `{skin_id:#}` |
| LoL.LoLRouterShaped | LoLBookOfChampions-native/Repos/LoLRepo.swift:34-98 | the built router has the table's layout, and its closures: `sync` creates, the other segments under `champions` read, nothing updates or deletes |
| LoL.RequestPath | LoLBookOfChampions-native/Repos/RoutingUtils.swift:127-133 | a path rebuilt from clean components resolves component by component |
| LoL.ChampionsLevel | LoLBookOfChampions-native/Repos/LoLRepo.swift:34-43 | `/lol/champions` leads to the choice among the champion by name, the champion by id and `sync` |
| LoL.NameLevel | LoLBookOfChampions-native/Repos/LoLRepo.swift:42-48 | a component that is not an `Int64`, `sync` or the id marker selects the champion by name and captures it as text |
| LoL.IdLevel | LoLBookOfChampions-native/Repos/LoLRepo.swift:43-53 | an `Int64` component selects the champion by id and captures its value |
| LoL.IdChoice | LoLBookOfChampions-native/Repos/LoLRepo.swift:42-58 | below `champions` an `Int64` selects the champion by id: neither the name variable nor `sync` qualifies |
| LoL.SkinLevel | LoLBookOfChampions-native/Repos/LoLRepo.swift:73-87 | `skins` then an `Int64` skin id selects the skin by id and adds its capture to the champion's |
| LoL.LiteralLevel | LoLBookOfChampions-native/Repos/RoutingUtils.swift:155-165 | a lone literal segment consumes exactly its component and captures nothing |
| LoL.NumericLevel | LoLBookOfChampions-native/Repos/RoutingUtils.swift:94-105 | a lone numeric variable consumes an `Int64` component and captures its value |
| LoL.SyncRoute | LoLBookOfChampions-native/Repos/LoLRepo.swift:58-68 | `/lol/champions/sync` reaches the sync segment with no capture: the literal wins over the name variable |
| LoL.ChampionByIdRoute | LoLBookOfChampions-native/Repos/LoLRepo.swift:43-53 | `/lol/champions/<Int64>` reaches the champion by id and captures `champion_id` |
| LoL.ChampionByNameRoute | LoLBookOfChampions-native/Repos/LoLRepo.swift:42-48 | `/lol/champions/<name>` reaches the champion by name and captures `name` as text |
| LoL.SkinOfNamedChampionRoute | LoLBookOfChampions-native/Repos/LoLRepo.swift:73-87 | `/lol/champions/<name>/skins/<id>` reaches the skin by id below the named champion, capturing `name` and `skin_id` |
| LoL.SkinOfChampionByIdRoute | LoLBookOfChampions-native/Repos/LoLRepo.swift:73-87 | `/lol/champions/<id>/skins/<id>` reaches the skin by id below the champion by id, capturing both ids |
| LoL.IdExample | LoLBookOfChampions-native/Repos/LoLRepo.swift:43-53 | `/lol/champions/123` captures `champion_id = 123` |
| LoL.NameExample | LoLBookOfChampions-native/Repos/LoLRepo.swift:42-48 | `/lol/champions/Ahri` captures `name = "Ahri"` |
| LoL.SkinExample | LoLBookOfChampions-native/Repos/LoLRepo.swift:73-87 | `/lol/champions/x/skins/7` captures `name = "x"` and `skin_id = 7` |
| LoL.Lookup | LoLBookOfChampions-native/Repos/LoLRepo.swift:125-137 | no router gives `repoNotStarted`; otherwise success exactly when the path resolves, `noRouteFound(uri)` when it does not, and the finder's segment and variables on success |
| LoL.EntryOrderListsEntries | LoLBookOfChampions-native/Repos/LoLRepo.swift:146 | the dictionary loop visits every entry once, with its value |
| LoL.PathClauses | LoLBookOfChampions-native/Repos/LoLRepo.swift:146-148 | one `(name=?)` clause per visited variable, in visiting order |
| LoL.MergedArgsWithPathVariables | LoLBookOfChampions-native/Repos/LoLRepo.swift:160-164 | once a path variable is merged the closure receives the caller's own `selectionArgs` |
| LoL.MergedArgsWithoutPathVariables | LoLBookOfChampions-native/Repos/LoLRepo.swift:160-164 | with no path variable the caller's arguments come back when a selection came with them, and an empty dictionary otherwise |
| LoL.MergedSelectionWithoutPathVariables | LoLBookOfChampions-native/Repos/LoLRepo.swift:160-164 | with no path variable the closure receives the caller's selection |
| LoL.MergedSelectionNonEmpty | LoLBookOfChampions-native/Repos/LoLRepo.swift:139-151 | with path variables the closure always receives a selection: the caller's clause when `selectionArgs` came with it, then one `(name=?)` per variable, joined by ` AND ` |
| LoL.SelectionWithoutArgsDropped | LoLBookOfChampions-native/Repos/DBUtils.swift:28-36 | on a route that captures a variable, a caller selection without `selectionArgs` is dropped: the closure receives only the `(name=?)` clauses |
| LoL.SelectionWithoutArgsExample | LoLBookOfChampions-native/Repos/LoLRepo.swift:139-151 | merging `a` into the selection `(x=1)` with nil arguments gives `(a=?)` |
| LoL.NotStarted | LoLBookOfChampions-native/Repos/LoLRepo.swift:125-128 | every request fails with `repoNotStarted` while there is no router |
| LoL.RequestFailures | LoLBookOfChampions-native/Repos/LoLRepo.swift:103-184 | an unresolved URI fails with `noRouteFound`; a resolved one whose segment lacks the operation's closure fails with `noHandlerFound` |
| LoL.CreateMergesPathVariables | LoLBookOfChampions-native/Repos/LoLRepo.swift:110 | the create closure receives the caller's values with the captured variables laid over them: the path variable wins |
| LoL.CreateSync | LoLBookOfChampions-native/Repos/LoLRepo.swift:61-68 | creating under `/lol/champions/sync` returns 1 whatever the values |
| LoL.CreateChampionHasNoHandler | LoLBookOfChampions-native/Repos/LoLRepo.swift:103-108 | creating under a champion fails with `noHandlerFound` |
| LoL.ReadSyncHasNoHandler | LoLBookOfChampions-native/Repos/LoLRepo.swift:153-158 | reading `/lol/champions/sync` fails with `noHandlerFound` |
| LoL.NoUpdatesOrDeletes | LoLBookOfChampions-native/Repos/LoLRepo.swift:34-90 | on the table every update and delete fails, with `noRouteFound` or `noHandlerFound` |
| LoL.ReadChampionByIdSelection | LoLBookOfChampions-native/Repos/LoLRepo.swift:153-167 | reading a champion by id hands the closure `(champion_id=?)`, after the caller's clause when `selectionArgs` came with it, joined by ` AND `, with the caller's arguments |
| LoL.MergeChampionId | LoLBookOfChampions-native/Repos/LoLRepo.swift:139-151 | merging the one variable `champion_id` adds its clause and leaves the arguments alone |
| LoL.Slashed | LoLBookOfChampions-native/Repos/LoLRepo.swift:238-245 | the path framed by `/`, with a slash added only where one is missing and the path kept between them |
| LoL.SlashedIdempotent | LoLBookOfChampions-native/Repos/LoLRepo.swift:238-245 | framing twice is framing once |
| LoL.NormalizeDatabasePath | LoLBookOfChampions-native/Repos/LoLRepo.swift:225-252 | the name the convenience initialiser computes is `DatabaseName(databasePath)` |
| LoL.DatabaseNameShape | LoLBookOfChampions-native/Repos/LoLRepo.swift:234-246 | a non-empty path gives an absolute name ending in `/datadragon.sqlite3` |
| LoL.RelativePathExample | LoLBookOfChampions-native/Repos/LoLRepo.swift:228-246 | nil stays nil, `""` stays `""`, `db` becomes `/db/datadragon.sqlite3` |
| LoL.FramedPathExample | LoLBookOfChampions-native/Repos/LoLRepo.swift:238-246 | `/data/` becomes `/data/datadragon.sqlite3` |
| LoL.LoLDatabase.constructor | LoLBookOfChampions-native/Repos/LoLRepo.swift:217-219 | the open helper gets the derived name and version 1 |
| LoL.LoLRepo.constructor | LoLBookOfChampions-native/Repos/LoLRepo.swift:17-21 | a new repository is not started and its database has the derived name |
| LoL.LoLRepo.Start | LoLBookOfChampions-native/Repos/LoLRepo.swift:23-25 | the router becomes the table |
| LoL.LoLRepo.Stop | LoLBookOfChampions-native/Repos/LoLRepo.swift:27-29 | the router is dropped |
| LoL.LoLRepo.CreateRouter | LoLBookOfChampions-native/Repos/LoLRepo.swift:92-98 | the builder calls produce exactly the table `LoLRouter()` |
| LoL.LoLRepo.BuildChampionRoutes | LoLBookOfChampions-native/Repos/LoLRepo.swift:34-71 | `champions` is appended under the parent with the champion by name and by id, each with its skins routes, then `sync` with its closure |
| LoL.LoLRepo.BuildChampionSkinsRoutes | LoLBookOfChampions-native/Repos/LoLRepo.swift:73-90 | `skins` with a read closure is appended under the parent, with the skin by id below it |
| LoL.LoLRepo.FindRoute | LoLBookOfChampions-native/Repos/LoLRepo.swift:125-137 | the answer is `Lookup` of the router field |
| LoL.LoLRepo.MergeSelection | LoLBookOfChampions-native/Repos/LoLRepo.swift:139-151 | no builder without variables; otherwise a fresh marker builder whose selection is the caller's clause plus one `(name=?)` per variable, and whose arguments are the cast of the seeded-then-generated store |
| LoL.LoLRepo.Create | LoLBookOfChampions-native/Repos/LoLRepo.swift:103-111 | the result is `CreateOutcome` of the router field |
| LoL.LoLRepo.Read | LoLBookOfChampions-native/Repos/LoLRepo.swift:153-168 | the result is `ReadOutcome` for some iteration order of the captured variables |
| LoL.LoLRepo.ReadSingle | LoLBookOfChampions-native/Repos/LoLRepo.swift:170-172 | succeeds or fails exactly as `read` does, with the same results or error |
| LoL.LoLRepo.Update | LoLBookOfChampions-native/Repos/LoLRepo.swift:174-184 | the result is `UpdateOutcome` for some iteration order of the captured variables |
| LoL.LoLRepo.Delete | LoLBookOfChampions-native/Repos/LoLRepo.swift:113-123 | the result is `DeleteOutcome` for some iteration order of the captured variables |
| LoL.MergedCriteria | LoLBookOfChampions-native/Repos/LoLRepo.swift:160-164 | the selection and arguments a closure receives are `MergedSelection` and `MergedArgs` |
| LoL.ReadRoute | LoLBookOfChampions-native/Repos/LoLRepo.swift:154-167 | once the route is found: `noHandlerFound` without a read closure, else the closure's answer |
| LoL.ReadWith | LoLBookOfChampions-native/Repos/LoLRepo.swift:160-167 | the read closure receives the caller's projection, grouping, having and sort, and the merged criteria |
| LoL.UpdateRoute | LoLBookOfChampions-native/Repos/LoLRepo.swift:175-183 | once the route is found: `noHandlerFound` without an update closure, else the closure's answer |
| LoL.UpdateWith | LoLBookOfChampions-native/Repos/LoLRepo.swift:181-183 | the update closure receives the caller's values unchanged, and the merged criteria |
| LoL.DeleteRoute | LoLBookOfChampions-native/Repos/LoLRepo.swift:114-122 | once the route is found: `noHandlerFound` without a delete closure, else the closure's answer |
| LoL.DeleteWith | LoLBookOfChampions-native/Repos/LoLRepo.swift:120-122 | the delete closure receives the merged criteria |
| LoL.WithEach | LoLBookOfChampions-native/Repos/LoLRepo.swift:146-148 | the loop visits every variable once, adding one `(name=?)` clause and one parameter each, in the visiting order |
| LoL.WithEntry | LoLBookOfChampions-native/Repos/LoLRepo.swift:147 | one iteration adds the clause and parameter for one more variable |
| LoL.AddRoot | LoLBookOfChampions-native/Repos/LoLRepo.swift:94 | registering `/lol` on an empty builder makes the one root segment `lol` |
| LoL.AddReadable | LoLBookOfChampions-native/Repos/LoLRepo.swift:35-40 | a segment with a read closure is appended under the parent |
| LoL.AddSync | LoLBookOfChampions-native/Repos/LoLRepo.swift:58-68 | `sync` with the sync closure is appended under the parent |

## Left out

- I/O is not modelled: SQLite (`Connection`, `PRAGMA user_version`, transactions, the
  `CREATE TABLE` statements of the LoL open helper), `FileManager`, SwiftyBeaver and
  `print` logging, and the HTTP driver.
  - The store is reduced to its stored version and the hooks to the events they record.
  - The step at which a transaction throws is a parameter (`fault`).
- The documents directory `asAbsolutePath` looks up is a parameter of `GetDatabase`.
- DBUtils.SQLiteOpenHelper.GetDatabase: does not model a failure to open the
  connection or to create the directory. Those are I/O errors, and the method always
  connects.
- DBUtils.EnsureDatabaseLocation: returns the directory it would create rather than
  creating it.
- A `user_version` that is not an integer is read as -1. It is covered by the stored
  version being any integer.
- `NSRegularExpression` is not modelled as a regex engine.
  - The anchored marker patterns and `[^{}]*` are character predicates.
  - RoutingUtils.ContainsTextVariable: ICU's `$` also matches before a final line
    terminator, so a marker followed by a newline is recognised by the code. The model
    does not recognise it, because components with line terminators are not used.
- Handler closures are total Dafny functions. A closure that throws returns `Failure`.
- `Any` values are the tagged `Value` (bool, integer, text).
- Swift's dictionary iteration order is unspecified.
  - LoL.LoLRepo.Read, LoL.LoLRepo.Update and LoL.LoLRepo.Delete return the order in
    which the captured variables were merged as a ghost output.
  - Their contracts hold for every such order.
- DBUtils.SelectionBuilder.BuildSelectionArgsList: takes the key order the sort
  produces as a parameter.
  - Swift's comparator calls every pair that is not two `Int`s unordered, so the order
    of mixed keys is not determined.
  - The model requires only a permutation of the keys, and an ascending order when
    every key is an `Int`.
- The `as? Result` cast of `readSingle` always succeeds, since every `Results` is a
  `Result`.
- RepoUtils.Builder.Inserts and the other counter methods require the sum to fit in 64
  bits, because Swift's `+` traps on overflow.
- Segment references are arena indices rather than object identities.
  - Sharing one segment object between two parents cannot be expressed. The code never
    does it.
  - RoutingUtils.RouteBuilder.Build returns a snapshot of the arena. Swift's `build()`
    hands the router the same segment objects, so handlers or children added to a
    segment after `build()` would be visible to the router. The model does not capture
    that. `createRouter` builds last, so nothing observable changes for the table.
- Strings are sequences of Unicode scalars, compared one code point at a time.
  Swift's canonical equivalence and grapheme clustering are not modelled.
  - RoutingUtils.GetSegment: Swift's `==` treats a precomposed and a decomposed
    spelling of a literal as equal; the model does not.
  - LoL.Slashed: `hasPrefix("/")`/`hasSuffix("/")` compare grapheme clusters, so a `/`
    followed by a combining mark is not a prefix in Swift. The model checks the first
    and last code point.
