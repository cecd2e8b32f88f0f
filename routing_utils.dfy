/** The resource router of RoutingUtils.swift.

    A `RouteSegment` is one level of a slash-separated path: a literal
    component or a typed variable marker (`{name:*}` for text, `{name:#}` for
    an `Int64`), up to four handler closures, and an ordered list of child
    segments. Segments are reference objects in Swift; here they live in an
    arena (a sequence of segment values) and a reference to a segment is its
    index in that arena. `RouteBuilder` owns the arena while the tree is
    registered, `Router` is the finished tree, and `RouterFinder` resolves a
    request path against it, capturing the path variables on the way. */
module RoutingUtils {
  import opened Wrappers
  import opened Seqs
  import opened Strings
  import opened RepoUtils

  // The handler closures a segment may carry. A closure that throws
  // returns `Failure`.
  type CreateHandler = Option<Values> -> Result<ResourceIdentifier, Error>
  type DeleteHandler = (Option<string>, Option<SelectionArgs>) -> Result<int, Error>
  type ReadHandler = (Option<seq<string>>, Option<string>, Option<SelectionArgs>, Option<string>, Option<string>, Option<string>) -> Result<Results, Error>
  type UpdateHandler = (Values, Option<string>, Option<SelectionArgs>) -> Result<int, Error>

  /** A reference to a segment: its index in the arena. */
  type SegmentRef = nat

  datatype RouteSegment = RouteSegment(
    pathComponent: string,
    createHandler: Option<CreateHandler>,
    deleteHandler: Option<DeleteHandler>,
    readHandler: Option<ReadHandler>,
    updateHandler: Option<UpdateHandler>,
    segments: seq<SegmentRef>)

  /** `RouteSegment(pathComponent:)`: no handlers and no children. */
  function NewSegment(pathComponent: string): RouteSegment {
    RouteSegment(pathComponent, None, None, None, None, [])
  }

  predicate RefsIn(refs: seq<SegmentRef>, size: nat) {
    forall i :: 0 <= i < |refs| ==> refs[i] < size
  }

  /** Every child reference of every segment names a segment of the arena. */
  predicate ArenaValid(arena: seq<RouteSegment>) {
    forall i :: 0 <= i < |arena| ==> RefsIn(arena[i].segments, |arena|)
  }

  /** `Router`: the registered tree and its top-level segments. */
  datatype Router = Router(arena: seq<RouteSegment>, routes: seq<SegmentRef>) {
    predicate Valid() {
      ArenaValid(arena) && RefsIn(routes, |arena|)
    }
  }

  // ---------------------------------------------------------------------
  // Variable markers

  /** The characters `[a-zA-Z0-9_-]` a variable name may use. */
  predicate IsNameChar(ch: char) {
    ('a' <= ch <= 'z') || ('A' <= ch <= 'Z') || ('0' <= ch <= '9') || ch == '_' || ch == '-'
  }

  predicate IsVariableName(name: string) {
    forall i :: 0 <= i < |name| ==> IsNameChar(name[i])
  }

  /** The whole component is `{`, a possibly empty name, `:`, the marker
      character and `}`: the anchored patterns `^(\{[a-zA-Z0-9_-]*\:\*\})$`
      and `^(\{[a-zA-Z0-9_-]*\:\#\})$`. */
  predicate IsVariableMarker(component: string, marker: char) {
    && |component| >= 4
    && component[0] == '{'
    && component[|component| - 3] == ':'
    && component[|component| - 2] == marker
    && component[|component| - 1] == '}'
    && IsVariableName(component[1..|component| - 3])
  }

  /** `containsTextVariable(path:)`. */
  predicate ContainsTextVariable(component: string) {
    IsVariableMarker(component, '*')
  }

  /** `containsNumericVariable(path:)`. */
  predicate ContainsNumericVariable(component: string) {
    IsVariableMarker(component, '#')
  }

  /** A marker is recognised exactly when its name uses only the allowed
      characters, and every recognised component is such a marker. */
  lemma MarkerShape(name: string, marker: char)
    ensures IsVariableMarker("{" + name + ":" + [marker] + "}", marker) <==> IsVariableName(name)
  {
    var c := "{" + name + ":" + [marker] + "}";
    assert c[1..|c| - 3] == name;
  }

  /** `RouteBuilder.createTextVariable(named:)`. */
  function CreateTextVariable(name: string): (component: string)
    ensures ContainsTextVariable(component) <==> IsVariableName(name)
    ensures !ContainsNumericVariable(component)
  {
    MarkerShape(name, '*');
    "{" + name + ":*}"
  }

  /** `RouteBuilder.createNumericVariable(named:)`. */
  function CreateNumericVariable(name: string): (component: string)
    ensures ContainsNumericVariable(component) <==> IsVariableName(name)
    ensures !ContainsTextVariable(component)
  {
    MarkerShape(name, '#');
    "{" + name + ":#}"
  }

  predicate IsBrace(ch: char) {
    ch == '{' || ch == '}'
  }

  /** The longest prefix without braces: one greedy match of `[^\{\}]*`. */
  function LeadingRun(s: string): (run: string)
    ensures |run| <= |s| && run == s[..|run|]
    ensures forall i :: 0 <= i < |run| ==> !IsBrace(run[i])
    ensures |run| < |s| ==> IsBrace(s[|run|])
    decreases |s|
  {
    if |s| == 0 || IsBrace(s[0]) then "" else [s[0]] + LeadingRun(s[1..])
  }

  /** The first non-empty match of `[^\{\}]*`, or "" when there is none. */
  function FirstRun(s: string): string
    decreases |s|
  {
    if |s| == 0 then "" else if IsBrace(s[0]) then FirstRun(s[1..]) else LeadingRun(s)
  }

  /** `extractVariableName(fromPathVariable:)`: the first non-empty run of
      non-brace characters, cut at its first `:`. */
  function ExtractVariableName(pathVariable: string): Option<string> {
    var run := FirstRun(pathVariable);
    if run == "" then None else Some(Split(run, ':')[0])
  }

  lemma {:induction false} LeadingRunBeforeBrace(x: string, t: string)
    requires forall i :: 0 <= i < |x| ==> !IsBrace(x[i])
    ensures LeadingRun(x + "}" + t) == x
    decreases |x|
  {
    if |x| > 0 {
      assert (x + "}" + t)[1..] == x[1..] + "}" + t;
      LeadingRunBeforeBrace(x[1..], t);
      assert x == [x[0]] + x[1..];
    }
  }

  /** The name written into a marker is the name read back out of it. */
  lemma ExtractMarkerName(name: string, marker: char)
    requires IsVariableName(name) && !IsBrace(marker)
    ensures ExtractVariableName("{" + name + ":" + [marker] + "}") == Some(name)
  {
    var body := name + ":" + [marker];
    var c := "{" + name + ":" + [marker] + "}";
    assert c == "{" + (body + "}" + "");
    assert c[1..] == body + "}" + "";
    forall i | 0 <= i < |body| ensures !IsBrace(body[i]) {
      if i < |name| { assert body[i] == name[i]; }
    }
    LeadingRunBeforeBrace(body, "");
    assert FirstRun(c) == FirstRun(c[1..]);
    assert FirstRun(c) == body;
    forall i | 0 <= i < |name| ensures name[i] != ':' {
      assert IsNameChar(name[i]);
    }
    SplitConcat(name, ':', [marker]);
    assert body == name + [':'] + [marker];
  }

  // ---------------------------------------------------------------------
  // Matching one level

  /** A segment qualifies for a request component when its own component is
      equal to it, or is a text variable and the request component is not an
      `Int64`, or is a numeric variable and the request component is one. */
  predicate Qualifies(pathComponent: string, path: string) {
    || pathComponent == path
    || (ContainsTextVariable(pathComponent) && ParseInt64(path).None?)
    || (ContainsNumericVariable(pathComponent) && ParseInt64(path).Some?)
  }

  function QualifiesAt(arena: seq<RouteSegment>, path: string): SegmentRef -> bool {
    (s: SegmentRef) => s < |arena| && Qualifies(arena[s].pathComponent, path)
  }

  function ExactAt(arena: seq<RouteSegment>, path: string): SegmentRef -> bool {
    (s: SegmentRef) => s < |arena| && arena[s].pathComponent == path
  }

  /** `getSegment(matching:inRoutes:)`: the qualifying segments, and among
      them the first exact match if there is one, otherwise the first. */
  function GetSegment(arena: seq<RouteSegment>, routes: seq<SegmentRef>, path: string): (r: Option<SegmentRef>)
    requires RefsIn(routes, |arena|)
    ensures r.Some? ==> r.value in routes && Qualifies(arena[r.value].pathComponent, path)
  {
    var matches := Filter(routes, QualifiesAt(arena, path));
    var exact := Filter(matches, ExactAt(arena, path));
    if |exact| > 0 then Some(exact[0]) else if |matches| > 0 then Some(matches[0]) else None
  }

  /** No segment is chosen exactly when no candidate qualifies. */
  lemma GetSegmentNone(arena: seq<RouteSegment>, routes: seq<SegmentRef>, path: string)
    requires RefsIn(routes, |arena|)
    ensures GetSegment(arena, routes, path).None? <==>
            forall k :: 0 <= k < |routes| ==> !Qualifies(arena[routes[k]].pathComponent, path)
  {
    if exists k :: 0 <= k < |routes| && Qualifies(arena[routes[k]].pathComponent, path) {
      var k :| 0 <= k < |routes| && Qualifies(arena[routes[k]].pathComponent, path);
      assert QualifiesAt(arena, path)(routes[k]);
      assert routes[k] in Filter(routes, QualifiesAt(arena, path));
    }
  }

  /** An exact literal match always wins, and the earliest one registered. */
  lemma GetSegmentExactWins(arena: seq<RouteSegment>, routes: seq<SegmentRef>, path: string, k: nat)
    requires RefsIn(routes, |arena|)
    requires k < |routes| && arena[routes[k]].pathComponent == path
    requires forall j :: 0 <= j < k ==> arena[routes[j]].pathComponent != path
    ensures GetSegment(arena, routes, path) == Some(routes[k])
  {
    var q := QualifiesAt(arena, path);
    var e := ExactAt(arena, path);
    FilterFilter(routes, q, e);
    FilterHead(routes, e, k);
  }

  /** With no exact match, the earliest qualifying variable segment wins. */
  lemma GetSegmentFirstQualifying(arena: seq<RouteSegment>, routes: seq<SegmentRef>, path: string, k: nat)
    requires RefsIn(routes, |arena|)
    requires forall j :: 0 <= j < |routes| ==> arena[routes[j]].pathComponent != path
    requires k < |routes| && Qualifies(arena[routes[k]].pathComponent, path)
    requires forall j :: 0 <= j < k ==> !Qualifies(arena[routes[j]].pathComponent, path)
    ensures GetSegment(arena, routes, path) == Some(routes[k])
  {
    var q := QualifiesAt(arena, path);
    var e := ExactAt(arena, path);
    FilterFilter(routes, q, e);
    FilterNone(routes, e);
    FilterHead(routes, q, k);
  }

  // ---------------------------------------------------------------------
  // Capturing path variables

  /** What `extract(pathVariable:fromSegment:into:)` records for a request
      component matched by a segment: nothing for a literal; the raw text
      for a text variable; the parsed value for a numeric variable, and
      nothing when the component does not parse (a numeric marker matched
      literally). */
  function Capture(path: string, pathComponent: string): Option<(string, Value)> {
    if ContainsTextVariable(pathComponent) then
      match ExtractVariableName(pathComponent)
      case Some(name) => Some((name, Text(path)))
      case None => None
    else if ContainsNumericVariable(pathComponent) then
      match ParseInt64(path)
      case None => None
      case Some(v) =>
        match ExtractVariableName(pathComponent)
        case Some(name) => Some((name, Int(v)))
        case None => None
    else None
  }

  function Extract(path: string, pathComponent: string, variables: map<string, Value>): map<string, Value> {
    match Capture(path, pathComponent)
    case Some((name, v)) => variables[name := v]
    case None => variables
  }

  /** A text variable binds its name to the request component; a numeric
      variable binds its name to the parsed `Int64`, and binds nothing when
      the component is not an `Int64`; a literal binds nothing. */
  lemma CaptureKinds(name: string, path: string, literal: string)
    requires IsVariableName(name)
    requires !ContainsTextVariable(literal) && !ContainsNumericVariable(literal)
    ensures Capture(path, CreateTextVariable(name)) == Some((name, Text(path)))
    ensures ParseInt64(path).Some? ==> Capture(path, CreateNumericVariable(name)) == Some((name, Int(ParseInt64(path).value)))
    ensures ParseInt64(path).None? ==> Capture(path, CreateNumericVariable(name)) == None
    ensures Capture(path, literal) == None
  {
    ExtractMarkerName(name, '*');
    ExtractMarkerName(name, '#');
    assert CreateTextVariable(name) == "{" + name + ":" + ['*'] + "}";
    assert CreateNumericVariable(name) == "{" + name + ":" + ['#'] + "}";
  }

  /** A text variable segment qualifies for exactly the components that are
      not an `Int64` (its own marker is one of them) and captures them as
      text. */
  lemma TextVariableQualifies(name: string, path: string)
    requires IsVariableName(name)
    ensures ParseInt64(CreateTextVariable(name)).None?
    ensures Qualifies(CreateTextVariable(name), path) <==> ParseInt64(path).None?
    ensures Capture(path, CreateTextVariable(name)) == Some((name, Text(path)))
  {
    var c := CreateTextVariable(name);
    assert c[0] == '{';
    NonDigitIsNotInt64(c, 0);
    CaptureKinds(name, path, "");
  }

  /** A numeric variable segment qualifies for exactly the `Int64`
      components and for its own marker, and captures only the former. */
  lemma NumericVariableQualifies(name: string, path: string)
    requires IsVariableName(name)
    ensures ParseInt64(CreateNumericVariable(name)).None?
    ensures Qualifies(CreateNumericVariable(name), path) <==> path == CreateNumericVariable(name) || ParseInt64(path).Some?
    ensures Capture(path, CreateNumericVariable(name))
         == if ParseInt64(path).Some? then Some((name, Int(ParseInt64(path).value))) else None
  {
    var c := CreateNumericVariable(name);
    assert c[0] == '{';
    NonDigitIsNotInt64(c, 0);
    CaptureKinds(name, path, "");
  }

  /** Among three segments none of which is spelled `path`, the second is
      chosen when the first does not qualify and the second does. */
  lemma GetSegmentSecondOfThree(arena: seq<RouteSegment>, a: SegmentRef, b: SegmentRef, c: SegmentRef, path: string)
    requires a < |arena| && b < |arena| && c < |arena|
    requires arena[a].pathComponent != path && arena[b].pathComponent != path && arena[c].pathComponent != path
    requires !Qualifies(arena[a].pathComponent, path) && Qualifies(arena[b].pathComponent, path)
    ensures GetSegment(arena, [a, b, c], path) == Some(b)
  {
    var routes := [a, b, c];
    assert RefsIn(routes, |arena|);
    GetSegmentFirstQualifying(arena, routes, path, 1);
  }

  // ---------------------------------------------------------------------
  // Resolving a whole path

  /** The request path's components, without the empty one a leading `/`
      produces. */
  function RequestComponents(path: string): seq<string> {
    var components := Split(path, '/');
    if |components| > 0 && components[0] == "" then components[1..] else components
  }

  /** The outcome of `findRoute`: the returned segment and the finder's
      `pathVariables`. */
  datatype RouteMatch = RouteMatch(segment: Option<SegmentRef>, pathVariables: Option<map<string, Value>>)

  /** The `findRoute` loop from a given level on: match one component against
      the current candidates, capture, descend into the match's children. */
  function ResolveFrom(router: Router, segments: seq<SegmentRef>, components: seq<string>,
                       variables: map<string, Value>, last: Option<SegmentRef>): (m: RouteMatch)
    requires router.Valid() && RefsIn(segments, |router.arena|)
    requires last.Some? ==> last.value < |router.arena|
    ensures m.segment.Some? ==> m.segment.value < |router.arena|
    ensures m.pathVariables.None? <==> (m.segment.None? && |components| > 0)
    ensures |components| > 0 && m.segment.Some? ==> m.pathVariables.Some?
    decreases |components|
  {
    if |components| == 0 then RouteMatch(last, Some(variables))
    else
      match GetSegment(router.arena, segments, components[0])
      case None => RouteMatch(None, None)
      case Some(s) =>
        ResolveFrom(router, router.arena[s].segments, components[1..],
                    Extract(components[0], router.arena[s].pathComponent, variables), Some(s))
  }

  /** `RouterFinder.findRoute(path:inRouter:)` as a function of the router. */
  function Resolve(router: Router, path: string): RouteMatch
    requires router.Valid()
  {
    ResolveFrom(router, router.routes, RequestComponents(path), map[], None)
  }

  /** The `findRoute` loop at component `i`: no segment for it ends the
      walk, otherwise the walk goes on below the segment. */
  lemma ResolveAt(router: Router, segments: seq<SegmentRef>, components: seq<string>, i: nat,
                  variables: map<string, Value>, last: Option<SegmentRef>)
    requires router.Valid() && RefsIn(segments, |router.arena|)
    requires last.Some? ==> last.value < |router.arena|
    requires i < |components|
    ensures var segment := GetSegment(router.arena, segments, components[i]);
      && (segment.None? ==> ResolveFrom(router, segments, components[i..], variables, last) == RouteMatch(None, None))
      && (segment.Some? ==>
            && segment.value < |router.arena|
            && ResolveFrom(router, segments, components[i..], variables, last)
            == ResolveFrom(router, router.arena[segment.value].segments, components[i + 1..],
                           Extract(components[i], router.arena[segment.value].pathComponent, variables), segment))
  {
    assert components[i..][0] == components[i];
    assert components[i..][1..] == components[i + 1..];
  }

  /** One level of the `findRoute` loop: the chosen segment consumes the
      first component, records its capture and hands its children on. */
  lemma ResolveStep(router: Router, segments: seq<SegmentRef>, component: string, rest: seq<string>,
                    variables: map<string, Value>, last: Option<SegmentRef>, s: SegmentRef)
    requires router.Valid() && RefsIn(segments, |router.arena|)
    requires last.Some? ==> last.value < |router.arena|
    requires GetSegment(router.arena, segments, component) == Some(s)
    ensures s < |router.arena|
    ensures ResolveFrom(router, segments, [component] + rest, variables, last)
         == ResolveFrom(router, router.arena[s].segments, rest,
                        Extract(component, router.arena[s].pathComponent, variables), Some(s))
  {
    assert ([component] + rest)[0] == component;
    assert ([component] + rest)[1..] == rest;
  }

  /** A path with no component left after the leading `/` matches nothing,
      yet leaves an empty (not nil) variable map. */
  lemma ResolveEmptyPath(router: Router, path: string)
    requires router.Valid() && RequestComponents(path) == []
    ensures Resolve(router, path) == RouteMatch(None, Some(map[]))
  {
  }

  /** The segments `findRoute` steps through: at each level the choice of
      `GetSegment` among the children of the previous choice, as far as a
      choice exists. */
  function Walk(router: Router, segments: seq<SegmentRef>, components: seq<string>): (walk: seq<SegmentRef>)
    requires router.Valid() && RefsIn(segments, |router.arena|)
    ensures |walk| <= |components| && RefsIn(walk, |router.arena|)
    decreases |components|
  {
    if |components| == 0 then []
    else
      match GetSegment(router.arena, segments, components[0])
      case None => []
      case Some(s) => [s] + Walk(router, router.arena[s].segments, components[1..])
  }

  /** `walk` picks, for every component, a segment that `GetSegment` chooses
      among the children of the segment picked for the component before. */
  predicate IsWalkFrom(router: Router, segments: seq<SegmentRef>, components: seq<string>, walk: seq<SegmentRef>)
    requires router.Valid() && RefsIn(segments, |router.arena|)
    decreases |walk|
  {
    && |walk| == |components|
    && (|walk| > 0 ==>
          && walk[0] < |router.arena|
          && Some(walk[0]) == GetSegment(router.arena, segments, components[0])
          && IsWalkFrom(router, router.arena[walk[0]].segments, components[1..], walk[1..]))
  }

  /** The variables captured along a walk, later levels overwriting earlier
      ones that bind the same name. */
  function CapturesAlong(router: Router, walk: seq<SegmentRef>, components: seq<string>,
                         variables: map<string, Value>): map<string, Value>
    requires RefsIn(walk, |router.arena|) && |walk| == |components|
    decreases |walk|
  {
    if |walk| == 0 then variables
    else CapturesAlong(router, walk[1..], components[1..],
                       Extract(components[0], router.arena[walk[0]].pathComponent, variables))
  }

  lemma {:induction false} ResolveFromWalk(router: Router, segments: seq<SegmentRef>, components: seq<string>,
                                           variables: map<string, Value>, last: Option<SegmentRef>)
    requires router.Valid() && RefsIn(segments, |router.arena|)
    requires last.Some? ==> last.value < |router.arena|
    requires |components| > 0
    requires ResolveFrom(router, segments, components, variables, last).segment.Some?
    ensures var walk := Walk(router, segments, components);
      && |walk| == |components|
      && IsWalkFrom(router, segments, components, walk)
      && ResolveFrom(router, segments, components, variables, last) ==
         RouteMatch(Some(walk[|walk| - 1]), Some(CapturesAlong(router, walk, components, variables)))
    decreases |components|
  {
    var s := GetSegment(router.arena, segments, components[0]).value;
    var vars' := Extract(components[0], router.arena[s].pathComponent, variables);
    var walk := Walk(router, segments, components);
    var rest := Walk(router, router.arena[s].segments, components[1..]);
    assert walk == [s] + rest;
    assert walk[1..] == rest;
    if |components| > 1 {
      ResolveFromWalk(router, router.arena[s].segments, components[1..], vars', Some(s));
    }
  }

  /** A successful match is the last segment of the walk through the tree,
      one segment per request component, each the choice of `GetSegment`
      among the children of the previous one; the variables are those
      captured along that walk. */
  lemma ResolveSuccess(router: Router, path: string)
    requires router.Valid() && Resolve(router, path).segment.Some?
    requires RequestComponents(path) != []
    ensures var walk := Walk(router, router.routes, RequestComponents(path));
      && IsWalkFrom(router, router.routes, RequestComponents(path), walk) && |walk| > 0
      && Resolve(router, path) == RouteMatch(Some(walk[|walk| - 1]),
                                             Some(CapturesAlong(router, walk, RequestComponents(path), map[])))
  {
    ResolveFromWalk(router, router.routes, RequestComponents(path), map[], None);
  }

  /** When some level has no qualifying segment, nothing is returned and no
      partial capture survives. */
  lemma ResolveFailure(router: Router, path: string)
    requires router.Valid() && RequestComponents(path) != []
    ensures Resolve(router, path).segment.None? <==> Resolve(router, path).pathVariables.None?
  {
  }

  /** A name captured at some level keeps that level's value unless a later
      level captures the same name. */
  lemma {:induction false} CaptureSurvives(router: Router, walk: seq<SegmentRef>, components: seq<string>,
                                           variables: map<string, Value>, j: nat, name: string, v: Value)
    requires RefsIn(walk, |router.arena|) && |walk| == |components|
    requires j < |walk| && Capture(components[j], router.arena[walk[j]].pathComponent) == Some((name, v))
    requires forall k :: j < k < |walk| ==>
      match Capture(components[k], router.arena[walk[k]].pathComponent)
      case Some(c) => c.0 != name
      case None => true
    ensures name in CapturesAlong(router, walk, components, variables)
    ensures CapturesAlong(router, walk, components, variables)[name] == v
    decreases |walk|
  {
    var vars' := Extract(components[0], router.arena[walk[0]].pathComponent, variables);
    if j == 0 {
      KeptAlong(router, walk[1..], components[1..], vars', name);
    } else {
      forall k | j - 1 < k < |walk[1..]|
        ensures match Capture(components[1..][k], router.arena[walk[1..][k]].pathComponent)
                case Some(c) => c.0 != name
                case None => true
      {
        assert walk[1..][k] == walk[k + 1] && components[1..][k] == components[k + 1];
      }
      CaptureSurvives(router, walk[1..], components[1..], vars', j - 1, name, v);
    }
  }

  lemma {:induction false} KeptAlong(router: Router, walk: seq<SegmentRef>, components: seq<string>,
                                     variables: map<string, Value>, name: string)
    requires RefsIn(walk, |router.arena|) && |walk| == |components| && name in variables
    requires forall k :: 0 <= k < |walk| ==>
      match Capture(components[k], router.arena[walk[k]].pathComponent)
      case Some(c) => c.0 != name
      case None => true
    ensures name in CapturesAlong(router, walk, components, variables)
    ensures CapturesAlong(router, walk, components, variables)[name] == variables[name]
    decreases |walk|
  {
    if |walk| > 0 {
      var vars' := Extract(components[0], router.arena[walk[0]].pathComponent, variables);
      forall k | 0 <= k < |walk[1..]|
        ensures match Capture(components[1..][k], router.arena[walk[1..][k]].pathComponent)
                case Some(c) => c.0 != name
                case None => true
      {
        assert walk[1..][k] == walk[k + 1] && components[1..][k] == components[k + 1];
      }
      KeptAlong(router, walk[1..], components[1..], vars', name);
    }
  }

  /** Every captured name was bound at some level of the walk (or was there
      before it started). */
  lemma {:induction false} CapturedNamesComeFromWalk(router: Router, walk: seq<SegmentRef>, components: seq<string>,
                                                     variables: map<string, Value>, name: string)
    requires RefsIn(walk, |router.arena|) && |walk| == |components|
    requires name in CapturesAlong(router, walk, components, variables)
    ensures name !in variables ==>
      exists k, v :: 0 <= k < |walk| && Capture(components[k], router.arena[walk[k]].pathComponent) == Some((name, v))
    decreases |walk|
  {
    if |walk| > 0 {
      var vars' := Extract(components[0], router.arena[walk[0]].pathComponent, variables);
      CapturedNamesComeFromWalk(router, walk[1..], components[1..], vars', name);
      if name in vars' && name !in variables {
        var c := Capture(components[0], router.arena[walk[0]].pathComponent);
        assert c.Some? && c.value.0 == name;
        assert Capture(components[0], router.arena[walk[0]].pathComponent) == Some((name, c.value.1));
      } else if name !in vars' {
        var k, v :| 0 <= k < |walk[1..]| &&
          Capture(components[1..][k], router.arena[walk[1..][k]].pathComponent) == Some((name, v));
        assert walk[1..][k] == walk[k + 1] && components[1..][k] == components[k + 1];
      }
    }
  }

  // ---------------------------------------------------------------------
  // The finder

  class RouterFinder {
    /** nil until a lookup fails or succeeds; then the captured variables,
        or nil again after a failed lookup. */
    var pathVariables: Option<map<string, Value>>

    constructor()
      ensures pathVariables == None
    {
      pathVariables := None;
    }

    /** `findRoute(path:inRouter:)`. */
    method FindRoute(path: string, router: Router) returns (r: Option<SegmentRef>)
      requires router.Valid()
      modifies this
      ensures RouteMatch(r, pathVariables) == Resolve(router, path)
    {
      var variables: map<string, Value> := map[];
      var pathComponents := Split(path, '/');
      var segments := router.routes;

      // A path that begins with `/` has an empty first component.
      if |pathComponents| > 0 && pathComponents[0] == "" {
        pathComponents := pathComponents[1..];
      }

      var lastPathSegment: Option<SegmentRef> := None;
      var i := 0;
      while i < |pathComponents|
        invariant 0 <= i <= |pathComponents|
        invariant RefsIn(segments, |router.arena|)
        invariant lastPathSegment.Some? ==> lastPathSegment.value < |router.arena|
        invariant ResolveFrom(router, segments, pathComponents[i..], variables, lastPathSegment) == Resolve(router, path)
      {
        var segment := GetSegment(router.arena, segments, pathComponents[i]);
        ResolveAt(router, segments, pathComponents, i, variables, lastPathSegment);
        if segment.None? {
          pathVariables := None;
          return None;
        }
        variables := Extract(pathComponents[i], router.arena[segment.value].pathComponent, variables);
        lastPathSegment := segment;
        segments := router.arena[segment.value].segments;
        i := i + 1;
      }

      pathVariables := Some(variables);
      r := lastPathSegment;
    }
  }

  // ---------------------------------------------------------------------
  // Registration

  /** The components `addSegment` creates for a split path, or None when it
      would trap. Each recursive call re-splits the joined remainder and
      drops one leading empty component, so of several empty components in
      a row only the first is skipped; a path with no component left at some
      level (`""`, or one ending in `/` such as `"a/"`) indexes an empty
      array. */
  function RegistrationChain(components: seq<string>): (chain: Option<seq<string>>)
    ensures chain.Some? ==> |chain.value| >= 1
    decreases |components|
  {
    var cs := if |components| > 0 && components[0] == "" then components[1..] else components;
    if |cs| == 0 then None
    else if |cs| == 1 then Some(cs)
    else
      match RegistrationChain(cs[1..])
      case None => None
      case Some(rest) => Some([cs[0]] + rest)
  }

  /** The `createSegment` closure: a fresh segment appended under `parent`,
      or onto the top-level list when there is none. */
  function Attach(arena: seq<RouteSegment>, roots: seq<SegmentRef>, parent: Option<SegmentRef>,
                  pathComponent: string): (r: (seq<RouteSegment>, seq<SegmentRef>))
    requires parent.Some? ==> parent.value < |arena|
    ensures |r.0| == |arena| + 1
  {
    var s := |arena|;
    var grown := arena + [NewSegment(pathComponent)];
    match parent
    case None => (grown, roots + [s])
    case Some(p) => (grown[p := grown[p].(segments := grown[p].segments + [s])], roots)
  }

  /** A chain of fresh segments, each created under the one before. */
  function AttachChain(arena: seq<RouteSegment>, roots: seq<SegmentRef>, parent: Option<SegmentRef>,
                       chain: seq<string>): (r: (seq<RouteSegment>, seq<SegmentRef>))
    requires parent.Some? ==> parent.value < |arena|
    ensures |r.0| == |arena| + |chain|
    decreases |chain|
  {
    if |chain| == 0 then (arena, roots)
    else
      var (a, r) := Attach(arena, roots, parent, chain[0]);
      AttachChain(a, r, Some(|arena|), chain[1..])
  }

  /** What registering a chain does to the tree: the existing segments are
      untouched except that the parent (or the top-level list) gains the
      first new segment as its last child; the new segments follow in chain
      order, each fresh, with no handlers, and each the only child of the
      one before. Nothing is ever reused. */
  lemma {:induction false} AttachChainShape(arena: seq<RouteSegment>, roots: seq<SegmentRef>,
                                            parent: Option<SegmentRef>, chain: seq<string>)
    requires parent.Some? ==> parent.value < |arena|
    requires |chain| >= 1
    ensures var (a, r) := AttachChain(arena, roots, parent, chain);
      && |a| == |arena| + |chain|
      && (forall i :: 0 <= i < |arena| && Some(i) != parent ==> a[i] == arena[i])
      && (parent.Some? ==> a[parent.value] == arena[parent.value].(segments := arena[parent.value].segments + [|arena|]))
      && r == (if parent.None? then roots + [|arena|] else roots)
      && (forall j :: 0 <= j < |chain| ==>
            a[|arena| + j] == NewSegment(chain[j]).(segments := if j + 1 < |chain| then [|arena| + j + 1] else []))
    decreases |chain|
  {
    var (a1, r1) := Attach(arena, roots, parent, chain[0]);
    var n := |arena|;
    AttachShape(arena, roots, parent, chain[0]);
    if |chain| > 1 {
      AttachChainShape(a1, r1, Some(n), chain[1..]);
      var (a, r) := AttachChain(a1, r1, Some(n), chain[1..]);
      assert AttachChain(arena, roots, parent, chain) == (a, r);
      assert a[n] == NewSegment(chain[0]).(segments := [n + 1]) by {
        assert a1[n].segments + [n + 1] == [n + 1];
      }
      forall j | 0 < j < |chain|
        ensures a[n + j] == NewSegment(chain[j]).(segments := if j + 1 < |chain| then [n + j + 1] else [])
      {
        assert chain[1..][j - 1] == chain[j];
        assert |a1| + (j - 1) == n + j;
      }
    }
  }

  /** One registration: a fresh segment at the end, linked from its parent
      or from the top-level list. */
  lemma AttachShape(arena: seq<RouteSegment>, roots: seq<SegmentRef>, parent: Option<SegmentRef>, pathComponent: string)
    requires parent.Some? ==> parent.value < |arena|
    ensures var (a, r) := Attach(arena, roots, parent, pathComponent);
      && (forall i :: 0 <= i < |arena| && Some(i) != parent ==> a[i] == arena[i])
      && (parent.Some? ==> a[parent.value] == arena[parent.value].(segments := arena[parent.value].segments + [|arena|]))
      && r == (if parent.None? then roots + [|arena|] else roots)
      && a[|arena|] == NewSegment(pathComponent)
  {
  }

  /** The same component registered twice under one parent gives two
      sibling segments with that component; the first is not reused. */
  lemma DuplicateSiblings(arena: seq<RouteSegment>, roots: seq<SegmentRef>, p: SegmentRef, c: string)
    requires p < |arena|
    ensures var (a1, r1) := AttachChain(arena, roots, Some(p), [c]);
            var (a2, r2) := AttachChain(a1, r1, Some(p), [c]);
      && a2[p].segments == arena[p].segments + [|arena|, |arena| + 1]
      && a2[|arena|].pathComponent == c && a2[|arena| + 1].pathComponent == c
  {
    AttachChainShape(arena, roots, Some(p), [c]);
    var (a1, r1) := AttachChain(arena, roots, Some(p), [c]);
    AttachChainShape(a1, r1, Some(p), [c]);
  }

  class RouteBuilder {
    /** Every segment registered so far. */
    var arena: seq<RouteSegment>
    /** `segments`: the top-level segments, in registration order. */
    var segments: seq<SegmentRef>

    ghost predicate Valid()
      reads this
    {
      ArenaValid(arena) && RefsIn(segments, |arena|)
    }

    constructor()
      ensures Valid() && arena == [] && segments == []
    {
      arena := [];
      segments := [];
    }

    /** `RouteSegment.add(segment:)`: append `child` to `parent`'s children
        and hand it back. */
    method AddChild(parent: SegmentRef, child: SegmentRef) returns (added: SegmentRef)
      requires Valid() && parent < |arena| && child < |arena|
      modifies this
      ensures Valid() && added == child && segments == old(segments)
      ensures arena == old(arena)[parent := old(arena)[parent].(segments := old(arena)[parent].segments + [child])]
    {
      arena := arena[parent := arena[parent].(segments := arena[parent].segments + [child])];
      added := child;
    }

    /** `RouteSegment.add(createHandler:)`. */
    method AddCreateHandler(segment: SegmentRef, handler: CreateHandler)
      requires Valid() && segment < |arena|
      modifies this
      ensures Valid() && segments == old(segments)
      ensures arena == old(arena)[segment := old(arena)[segment].(createHandler := Some(handler))]
    {
      arena := arena[segment := arena[segment].(createHandler := Some(handler))];
    }

    /** `RouteSegment.add(deleteHandler:)`. */
    method AddDeleteHandler(segment: SegmentRef, handler: DeleteHandler)
      requires Valid() && segment < |arena|
      modifies this
      ensures Valid() && segments == old(segments)
      ensures arena == old(arena)[segment := old(arena)[segment].(deleteHandler := Some(handler))]
    {
      arena := arena[segment := arena[segment].(deleteHandler := Some(handler))];
    }

    /** `RouteSegment.add(readHandler:)`. */
    method AddReadHandler(segment: SegmentRef, handler: ReadHandler)
      requires Valid() && segment < |arena|
      modifies this
      ensures Valid() && segments == old(segments)
      ensures arena == old(arena)[segment := old(arena)[segment].(readHandler := Some(handler))]
    {
      arena := arena[segment := arena[segment].(readHandler := Some(handler))];
    }

    /** `RouteSegment.add(updateHandler:)`. */
    method AddUpdateHandler(segment: SegmentRef, handler: UpdateHandler)
      requires Valid() && segment < |arena|
      modifies this
      ensures Valid() && segments == old(segments)
      ensures arena == old(arena)[segment := old(arena)[segment].(updateHandler := Some(handler))]
    {
      arena := arena[segment := arena[segment].(updateHandler := Some(handler))];
    }

    /** The `createSegment` closure inside `addSegment`. */
    method CreateSegment(pathComponent: string, parent: Option<SegmentRef>) returns (created: SegmentRef)
      requires Valid() && (parent.Some? ==> parent.value < |arena|)
      modifies this
      ensures Valid()
      ensures (arena, segments) == Attach(old(arena), old(segments), parent, pathComponent)
      ensures created == |old(arena)|
    {
      created := |arena|;
      arena := arena + [NewSegment(pathComponent)];
      if parent.None? {
        segments := segments + [created];
        return;
      }
      var _ := AddChild(parent.value, created);
    }

    /** `addSegment(path:toSegment:)`: split the path, skip a leading empty
        component, create a segment for the first component under `toSegment`
        and register the rest, re-joined, under it. Returns the deepest
        segment created. */
    method AddSegment(path: string, toSegment: Option<SegmentRef>) returns (deepest: SegmentRef)
      requires Valid() && (toSegment.Some? ==> toSegment.value < |arena|)
      requires RegistrationChain(Split(path, '/')).Some?
      modifies this
      ensures Valid()
      ensures var chain := RegistrationChain(Split(path, '/')).value;
        && (arena, segments) == AttachChain(old(arena), old(segments), toSegment, chain)
        && deepest == |old(arena)| + |chain| - 1
      decreases |Split(path, '/')|
    {
      var pathComponents := Split(path, '/');
      if |pathComponents| > 0 && pathComponents[0] == "" {
        pathComponents := pathComponents[1..];
      }

      if |pathComponents| <= 1 {
        deepest := CreateSegment(pathComponents[0], toSegment);
        return;
      }

      var newSegment := CreateSegment(pathComponents[0], toSegment);
      var rest := pathComponents[1..];
      SplitJoin(rest, '/');
      deepest := AddSegment(Join(rest, "/"), Some(newSegment));
    }

    /** `build()`: the router over the registered tree. */
    method Build() returns (router: Router)
      requires Valid()
      ensures router.Valid() && router.arena == arena && router.routes == segments
    {
      router := Router(arena, segments);
    }
  }

  // ---------------------------------------------------------------------
  // What registration accepts

  /** A path without empty components (after an optional leading `/`) is
      registered as exactly its components. */
  lemma {:induction false} CleanPathChain(components: seq<string>)
    requires |components| >= 1
    requires forall i :: 0 <= i < |components| ==> components[i] != ""
    ensures RegistrationChain(components) == Some(components)
    ensures RegistrationChain([""] + components) == Some(components)
    decreases |components|
  {
    assert ([""] + components)[1..] == components;
    if |components| > 1 {
      CleanPathChain(components[1..]);
      assert components == [components[0]] + components[1..];
    }
  }

  /** `""` and a path ending in `/` trap; `"/"` does not: it registers one
      segment whose component is empty. */
  lemma RegistrationEdgeCases(a: string)
    requires a != "" && '/' !in a
    ensures RegistrationChain(Split("", '/')) == None
    ensures RegistrationChain(Split(a + "/", '/')) == None
    ensures RegistrationChain(Split("/", '/')) == Some([""])
    ensures RegistrationChain(Split(a + "//" + a, '/')) == Some([a, a])
  {
    SplitConcat(a, '/', "");
    assert a + "/" == a + ['/'] + "";
    assert Split("/", '/') == ["", ""];
    SplitNoSeparator(a, '/');
    SplitConcat("", '/', a);
    assert "/" + a == "" + ['/'] + a;
    SplitConcat(a, '/', "/" + a);
    assert a + "//" + a == a + ['/'] + ("/" + a);
    assert Split(a + "//" + a, '/') == [a, "", a];
    assert [a, "", a][1..] == ["", a];
    assert ["", a][1..] == [a];
    assert RegistrationChain([a]) == Some([a]);
    assert RegistrationChain(["", a]) == Some([a]);
    assert RegistrationChain([a, "", a]) == Some([a] + [a]);
    assert [a] + [a] == [a, a];
  }
}
