/** The database helpers of DBUtils.swift: `SelectionBuilder`, which
    accumulates the clauses and parameters of a SQL `WHERE`, and the
    lifecycle logic of `SQLiteOpenHelper`: the order in which the version
    hooks run when a database is opened, and the directory computed for a
    database file. The SQLite store itself is reduced to its stored
    `user_version`, and the hooks to the events they record. */
module DBUtils {
  import opened Wrappers
  import opened Seqs
  import opened Strings
  import opened RepoUtils
  import opened FoundationExtension

  // ---------------------------------------------------------------------
  // SelectionBuilder

  /** `SelectionBuilder.GeneratedType`: `?` markers or `:valueN` names. */
  datatype GeneratedType = Marker | Named

  /** The `AnyHashable` keys of the parameter store: the `Int` a marker
      parameter is filed under, or a `String` name. */
  datatype Key = Ordinal(n: int) | Name(s: string)

  /** `"value\(n)"`, the name of the n-th generated named parameter. */
  function ValueName(n: nat): string {
    "value" + FormatNat(n)
  }

  /** The placeholder generated when the store holds `count` parameters. */
  function Placeholder(kind: GeneratedType, count: nat): string {
    match kind
    case Marker => "?"
    case Named => ":" + ValueName(count)
  }

  /** The key the generated parameter is filed under: the count itself in
      marker mode, the placeholder without its leading `:` in named mode. */
  function KeyFor(kind: GeneratedType, count: nat): (k: Key)
    ensures kind == Marker ==> k == Ordinal(count)
    ensures kind == Named ==> k == Name(Placeholder(kind, count)[1..])
  {
    match kind
    case Marker => Ordinal(count)
    case Named => Name(ValueName(count))
  }

  /** The caller's `[String : Any]` arguments as `[AnyHashable : Any]`. */
  function NameKeyed(args: map<string, Value>): map<Key, Value> {
    map k | k in args :: Name(k) := args[k]
  }

  /** The parameter store after seeding with `seed` and then generating one
      parameter per element of `generated`, each filed under the key the
      store's count at that moment gives. */
  function Params(kind: GeneratedType, seed: map<string, Value>, generated: seq<Value>): map<Key, Value>
    decreases |generated|
  {
    if |generated| == 0 then NameKeyed(seed)
    else
      var p := Params(kind, seed, generated[..|generated| - 1]);
      p[KeyFor(kind, |p|) := generated[|generated| - 1]]
  }

  /** The clause `with(expression:equalsValue:)` appends. */
  function Clause(expression: string, placeholder: string): (c: string)
    ensures |c| > 0
  {
    "(" + expression + "=" + placeholder + ")"
  }

  /** `clauses.reduce("")`: a clause is appended after `" AND "`, unless
      what has been generated so far is empty, in which case the clause
      replaces it. */
  function Reduce(clauses: seq<string>): (selection: string)
    ensures selection == "" <==> forall i :: 0 <= i < |clauses| ==> clauses[i] == ""
    decreases |clauses|
  {
    if |clauses| == 0 then ""
    else
      var generated := Reduce(clauses[..|clauses| - 1]);
      var clause := clauses[|clauses| - 1];
      if generated == "" then clause else generated + " AND " + clause
  }

  predicate NoEmptyClause(clauses: seq<string>) {
    forall i :: 0 <= i < |clauses| ==> clauses[i] != ""
  }

  lemma {:induction false} JoinSnoc(parts: seq<string>, last: string, sep: string)
    requires |parts| >= 1
    ensures Join(parts + [last], sep) == Join(parts, sep) + sep + last
    decreases |parts|
  {
    if |parts| == 1 {
      assert (parts + [last])[1..] == [last];
    } else {
      assert (parts + [last])[1..] == parts[1..] + [last];
      JoinSnoc(parts[1..], last, sep);
    }
  }

  /** When no clause is empty, the fold is the clauses joined by `" AND "`. */
  lemma {:induction false} ReduceJoin(clauses: seq<string>)
    ensures NoEmptyClause(clauses) && |clauses| > 0 ==> Reduce(clauses) == Join(clauses, " AND ")
    decreases |clauses|
  {
    if NoEmptyClause(clauses) && |clauses| > 1 {
      var init := clauses[..|clauses| - 1];
      ReduceJoin(init);
      assert NoEmptyClause(init) && init[0] != "";
      JoinSnoc(init, clauses[|clauses| - 1], " AND ");
      assert init + [clauses[|clauses| - 1]] == clauses;
    }
  }

  /** An enumeration of a set of keys: every key exactly once. */
  predicate IsEnumeration(order: seq<Key>, keys: set<Key>) {
    && |order| == |keys|
    && (forall i :: 0 <= i < |order| ==> order[i] in keys)
    && (forall k :: k in keys ==> k in order)
    && (forall i, j :: 0 <= i < j < |order| ==> order[i] != order[j])
  }

  /** Every key is an `Int`, in strictly ascending order. */
  predicate Ascending(order: seq<Key>) {
    && (forall i :: 0 <= i < |order| ==> order[i].Ordinal?)
    && (forall i, j :: 0 <= i < j < |order| ==> order[i].n < order[j].n)
  }

  predicate AllOrdinal(keys: set<Key>) {
    forall k :: k in keys ==> k.Ordinal?
  }

  class SelectionBuilder {
    var clauses: seq<string>
    const kind: GeneratedType
    var parameterValues: map<Key, Value>

    /** The arguments the builder was seeded with. */
    ghost var seed: map<string, Value>
    /** The values passed to `with`, in order. */
    ghost var generated: seq<Value>

    ghost predicate Valid()
      reads this
    {
      parameterValues == Params(kind, seed, generated)
    }

    /** `init(type:)`. */
    constructor(kind: GeneratedType)
      ensures Valid() && this.kind == kind
      ensures clauses == [] && parameterValues == map[] && seed == map[] && generated == []
    {
      this.kind := kind;
      clauses := [];
      parameterValues := map[];
      seed := map[];
      generated := [];
      new;
      NameKeyedEmpty();
    }

    /** `init(type:initialClause:initialArgs:)`: seeded only when both the
        clause and the arguments are present. */
    constructor Seeded(kind: GeneratedType, initialClause: Option<string>, initialArgs: Option<map<string, Value>>)
      ensures Valid() && this.kind == kind && generated == []
      ensures initialClause.Some? && initialArgs.Some? ==>
        clauses == [initialClause.value] && seed == initialArgs.value && parameterValues == NameKeyed(initialArgs.value)
      ensures initialClause.None? || initialArgs.None? ==>
        clauses == [] && seed == map[] && parameterValues == map[]
    {
      this.kind := kind;
      generated := [];
      if initialClause.Some? && initialArgs.Some? {
        clauses := [initialClause.value];
        var seeded := SeedParameters(initialArgs.value);
        parameterValues := seeded;
        seed := initialArgs.value;
      } else {
        clauses := [];
        parameterValues := map[];
        seed := map[];
        NameKeyedEmpty();
      }
      new;
      assert Params(kind, seed, []) == NameKeyed(seed);
    }

    /** `generateParameterAndPlaceholder(for:)`: file `value` under the key
        the current count gives and return the placeholder for it. */
    method GenerateParameterAndPlaceholder(value: Value) returns (placeholder: string)
      requires Valid()
      modifies this
      ensures Valid() && clauses == old(clauses) && seed == old(seed)
      ensures generated == old(generated) + [value]
      ensures placeholder == Placeholder(kind, |old(parameterValues)|)
      ensures parameterValues == old(parameterValues)[KeyFor(kind, |old(parameterValues)|) := value]
    {
      var count := |parameterValues|;
      match kind {
        case Marker =>
          placeholder := "?";
          parameterValues := parameterValues[Ordinal(count) := value];
        case Named =>
          placeholder := ":value" + FormatNat(count);
          assert placeholder[1..] == ValueName(count);
          parameterValues := parameterValues[Name(placeholder[1..]) := value];
      }
      generated := generated + [value];
      assert generated[..|generated| - 1] == old(generated);
      assert Params(kind, seed, generated) == old(parameterValues)[KeyFor(kind, count) := value];
    }

    /** `with(expression:equalsValue:)`: a nil value changes nothing;
        otherwise one clause `(expression=placeholder)` and one parameter are
        added. The builder itself is returned. */
    method With(expression: string, value: Option<Value>) returns (b: SelectionBuilder)
      requires Valid()
      modifies this
      ensures b == this && Valid() && seed == old(seed)
      ensures value.None? ==>
        clauses == old(clauses) && parameterValues == old(parameterValues) && generated == old(generated)
      ensures value.Some? ==>
        && clauses == old(clauses) + [Clause(expression, Placeholder(kind, |old(parameterValues)|))]
        && parameterValues == old(parameterValues)[KeyFor(kind, |old(parameterValues)|) := value.value]
        && generated == old(generated) + [value.value]
    {
      b := this;
      if value.None? {
        return;
      }
      var placeholder := GenerateParameterAndPlaceholder(value.value);
      clauses := clauses + [Clause(expression, placeholder)];
    }

    /** `buildSelection()`: nil exactly when every clause is empty (in
        particular when there is none); the clauses joined by `" AND "` when
        none is empty. */
    function BuildSelection(): (r: Option<string>)
      reads this
      ensures r.None? <==> forall i :: 0 <= i < |clauses| ==> clauses[i] == ""
      ensures NoEmptyClause(clauses) && |clauses| > 0 ==> r == Some(Join(clauses, " AND "))
    {
      SelectionOf(clauses)
    }

    /** `buildSelectionArgs()`: the store as `[String : Any]`, which fails
        as soon as one key is not a `String`. */
    function BuildSelectionArgs(): (r: Option<map<string, Value>>)
      reads this
      ensures r.Some? <==> AllNames(parameterValues)
      ensures r.Some? ==> NameKeyed(r.value) == parameterValues
    {
      ArgsOf(parameterValues)
    }

    /** `buildSelectionArgsList()`. Swift sorts the keys with a comparator
        that orders two `Int`s and calls every other pair unordered, so the
        key order is a parameter here: an enumeration of the keys, ascending
        when every key is an `Int`. */
    function BuildSelectionArgsList(keyOrder: seq<Key>): (r: Option<seq<Value>>)
      reads this
      requires kind == Marker ==> IsEnumeration(keyOrder, parameterValues.Keys)
      requires kind == Marker && AllOrdinal(parameterValues.Keys) ==> Ascending(keyOrder)
      ensures kind == Named ==> r.None?
      ensures kind == Marker ==> r.Some? && |r.value| == |parameterValues|
      ensures kind == Marker ==> forall i :: 0 <= i < |keyOrder| ==> r.value[i] == parameterValues[keyOrder[i]]
    {
      if kind != Marker then None
      else Some(ValuesIn(parameterValues, keyOrder))
    }
  }

  /** The selection `buildSelection()` makes of a list of clauses. */
  function SelectionOf(clauses: seq<string>): (r: Option<string>)
    ensures r.None? <==> forall i :: 0 <= i < |clauses| ==> clauses[i] == ""
    ensures NoEmptyClause(clauses) && |clauses| > 0 ==> r == Some(Join(clauses, " AND "))
  {
    ReduceJoin(clauses);
    var selection := Reduce(clauses);
    if selection == "" then None else Some(selection)
  }

  /** Appending non-empty clauses always yields a selection, and the whole
      list joined by `AND` when no clause is empty. */
  lemma SelectionOfAppended(seed: seq<string>, added: seq<string>)
    requires |added| > 0 && NoEmptyClause(added)
    ensures SelectionOf(seed + added).Some?
    ensures NoEmptyClause(seed) ==> SelectionOf(seed + added) == Some(Join(seed + added, " AND "))
  {
    var clauses := seed + added;
    assert clauses[|clauses| - 1] == added[|added| - 1];
    if NoEmptyClause(seed) {
      forall i | 0 <= i < |clauses| ensures clauses[i] != "" {
        if i >= |seed| {
          assert clauses[i] == added[i - |seed|];
        }
      }
    }
  }

  /** The arguments `buildSelectionArgs()` makes of a parameter store. */
  function ArgsOf(p: map<Key, Value>): (r: Option<map<string, Value>>)
    ensures r.Some? <==> AllNames(p)
    ensures r.Some? ==> NameKeyed(r.value) == p
  {
    if AllNames(p) then
      NameKeyedOfNames(p);
      Some(StripNames(p))
    else None
  }

  predicate AllNames(m: map<Key, Value>) {
    forall k :: k in m ==> k.Name?
  }

  /** The store re-keyed by the names of its keys. */
  function StripNames(m: map<Key, Value>): map<string, Value>
    requires AllNames(m)
  {
    map k | k in m :: k.s := m[k]
  }

  lemma NameKeyedOfNames(m: map<Key, Value>)
    requires AllNames(m)
    ensures NameKeyed(StripNames(m)) == m
  {
    var args := StripNames(m);
    forall k | k in m ensures k in NameKeyed(args) && NameKeyed(args)[k] == m[k] {
      assert k == Name(k.s);
      assert k.s in args;
    }
    forall k | k in NameKeyed(args) ensures k in m {
      var s :| s in args && k == Name(s);
      var k' :| k' in m && k'.s == s;
      assert k' == Name(s);
    }
  }

  /** The values of `m` in the order `order` lists their keys. */
  function ValuesIn(m: map<Key, Value>, order: seq<Key>): (values: seq<Value>)
    requires forall i :: 0 <= i < |order| ==> order[i] in m
    ensures |values| == |order|
    ensures forall i :: 0 <= i < |order| ==> values[i] == m[order[i]]
    decreases |order|
  {
    if |order| == 0 then [] else [m[order[0]]] + ValuesIn(m, order[1..])
  }

  // ---------------------------------------------------------------------
  // What the parameter store holds

  /** The marker-mode store: the seeded names as they are, and the
      generated values under consecutive `Int`s from the number of seeded
      arguments on. */
  predicate MarkerLayout(p: map<Key, Value>, base: map<Key, Value>, generated: seq<Value>) {
    && |p| == |base| + |generated|
    && (forall j :: |base| <= j < |base| + |generated| ==> Ordinal(j) in p && p[Ordinal(j)] == generated[j - |base|])
    && (forall k :: k in p && k.Name? ==> k in base && p[k] == base[k])
    && (forall k :: k in p && k.Ordinal? ==> |base| <= k.n < |base| + |generated|)
  }

  /** One more generated value lands under the next `Int`. */
  lemma MarkerStep(p: map<Key, Value>, base: map<Key, Value>, generated: seq<Value>)
    requires |generated| > 0
    requires MarkerLayout(p, base, generated[..|generated| - 1])
    ensures MarkerLayout(p[Ordinal(|p|) := generated[|generated| - 1]], base, generated)
  {
    var n := |generated| - 1;
    var q := p[Ordinal(|p|) := generated[n]];
    assert Ordinal(|p|) !in p;
    assert |q| == |p| + 1;
    forall j | |base| <= j < |base| + |generated| ensures Ordinal(j) in q && q[Ordinal(j)] == generated[j - |base|] {
      if j < |p| {
        assert generated[..n][j - |base|] == generated[j - |base|];
      }
    }
  }

  /** A freshly seeded store holds only names. */
  lemma SeededLayout(seed: map<string, Value>)
    ensures MarkerLayout(NameKeyed(seed), NameKeyed(seed), [])
  {
    forall k | k in NameKeyed(seed) ensures k.Name? {
      var s :| s in seed && k == Name(s);
    }
  }

  lemma {:induction false} MarkerParams(seed: map<string, Value>, generated: seq<Value>)
    ensures MarkerLayout(Params(Marker, seed, generated), NameKeyed(seed), generated)
    decreases |generated|
  {
    var base := NameKeyed(seed);
    if |generated| == 0 {
      SeededLayout(seed);
    } else {
      var p := Params(Marker, seed, generated[..|generated| - 1]);
      MarkerParams(seed, generated[..|generated| - 1]);
      MarkerStep(p, base, generated);
    }
  }

  /** `parameterValues += initialArgs` on the empty store of a new builder. */
  method SeedParameters(args: map<string, Value>) returns (m: map<Key, Value>)
    ensures m == NameKeyed(args)
  {
    var seeded := NameKeyed(args);
    m := AddAssign(map[], Some(seeded));
    AddedToEmpty(map[], m, Some(seeded));
  }

  /** What `+=` leaves in a dictionary that was empty. */
  lemma AddedToEmpty(lhs: map<Key, Value>, r: map<Key, Value>, rhs: Option<map<Key, Value>>)
    requires lhs == map[] && rhs.Some?
    requires r.Keys == lhs.Keys + rhs.value.Keys
    requires forall k :: k in rhs.value ==> r[k] == rhs.value[k]
    ensures r == rhs.value
  {
  }

  lemma NameKeyedEmpty()
    ensures NameKeyed(map[]) == map[]
  {
    assert NameKeyed(map[]).Keys == {};
  }

  /** An unseeded marker-mode store holds exactly the `Int` keys 0, 1, ...
      in the order the values were given, so its only admissible key order
      is ascending and the argument list is the values as given. */
  lemma UnseededArgsList(b: SelectionBuilder, keyOrder: seq<Key>)
    requires b.Valid() && b.kind == Marker && b.seed == map[]
    requires IsEnumeration(keyOrder, b.parameterValues.Keys)
    requires AllOrdinal(b.parameterValues.Keys) ==> Ascending(keyOrder)
    ensures AllOrdinal(b.parameterValues.Keys)
    ensures b.BuildSelectionArgsList(keyOrder) == Some(b.generated)
  {
    NameKeyedEmpty();
    MarkerParams(map[], b.generated);
    UnseededOrder(b.parameterValues, b.generated, keyOrder);
  }

  /** The store of an unseeded marker-mode builder, listed in an ascending
      key order, is the generated values in order. */
  lemma UnseededOrder(p: map<Key, Value>, g: seq<Value>, keyOrder: seq<Key>)
    requires MarkerLayout(p, map[], g)
    requires IsEnumeration(keyOrder, p.Keys)
    requires AllOrdinal(p.Keys) ==> Ascending(keyOrder)
    ensures AllOrdinal(p.Keys)
    ensures ValuesIn(p, keyOrder) == g
  {
    var n := |g|;
    forall k | k in p ensures k.Ordinal? && 0 <= k.n < n {
    }
    assert |keyOrder| == n;
    AscendingFloor(keyOrder);
    AscendingCeiling(keyOrder, n);
    var r := ValuesIn(p, keyOrder);
    forall i | 0 <= i < n ensures r[i] == g[i] {
      assert keyOrder[i] == Ordinal(i);
      assert p[Ordinal(i)] == g[i - 0];
    }
  }

  lemma {:induction false} AscendingFloor(order: seq<Key>)
    requires Ascending(order) && forall i :: 0 <= i < |order| ==> 0 <= order[i].n
    ensures forall i :: 0 <= i < |order| ==> order[i].n >= i
    decreases |order|
  {
    if |order| > 1 {
      var init := order[..|order| - 1];
      AscendingFloor(init);
      assert forall i :: 0 <= i < |init| ==> init[i] == order[i];
      assert order[|order| - 2].n < order[|order| - 1].n;
    }
  }

  lemma {:induction false} AscendingCeiling(order: seq<Key>, n: nat)
    requires Ascending(order) && |order| == n && forall i :: 0 <= i < |order| ==> order[i].n < n
    ensures forall i :: 0 <= i < |order| ==> order[i].n <= i
    decreases |order|
  {
    if |order| > 1 {
      var init := order[..|order| - 1];
      assert forall i :: 0 <= i < |init| ==> init[i] == order[i] && init[i].n < order[|order| - 1].n;
      AscendingCeiling(init, n - 1);
    }
  }

  /** In marker mode, any generated parameter makes `buildSelectionArgs`
      nil: its key is an `Int`. */
  lemma MarkerArgsAreNil(b: SelectionBuilder)
    requires b.Valid() && b.kind == Marker && |b.generated| > 0
    ensures b.BuildSelectionArgs() == None
  {
    MarkerParams(b.seed, b.generated);
    var base := NameKeyed(b.seed);
    assert |base| <= |base| + 0 < |base| + |b.generated|;
    assert Ordinal(|base|) in b.parameterValues;
  }

  /** The named-mode store of an unseeded builder: `valueN` for the n-th
      generated value, and nothing else. */
  predicate NamedLayout(p: map<Key, Value>, generated: seq<Value>) {
    && |p| == |generated|
    && (forall j :: 0 <= j < |generated| ==> Name(ValueName(j)) in p && p[Name(ValueName(j))] == generated[j])
    && (forall k :: k in p ==> k.Name? && exists j :: 0 <= j < |generated| && k.s == ValueName(j))
  }

  /** Distinct counts give distinct names. */
  lemma ValueNameInjective(i: nat, j: nat)
    requires ValueName(i) == ValueName(j)
    ensures i == j
  {
    FormatNatValue(i);
    FormatNatValue(j);
    assert ValueName(i)[5..] == FormatNat(i);
    assert ValueName(j)[5..] == FormatNat(j);
  }

  lemma NamedStep(p: map<Key, Value>, generated: seq<Value>)
    requires |generated| > 0
    requires NamedLayout(p, generated[..|generated| - 1])
    ensures NamedLayout(p[Name(ValueName(|p|)) := generated[|generated| - 1]], generated)
  {
    var n := |generated| - 1;
    var key := Name(ValueName(n));
    assert key !in p by {
      if key in p {
        var j :| 0 <= j < n && key.s == ValueName(j);
        ValueNameInjective(j, n);
      }
    }
    var q := p[key := generated[n]];
    forall j | 0 <= j < |generated| ensures Name(ValueName(j)) in q && q[Name(ValueName(j))] == generated[j] {
      if j < n {
        if ValueName(j) == ValueName(n) {
          ValueNameInjective(j, n);
        }
        assert generated[..n][j] == generated[j];
      }
    }
    forall k | k in q ensures k.Name? && exists j :: 0 <= j < |generated| && k.s == ValueName(j) {
      if k != key {
        var j :| 0 <= j < n && k.s == ValueName(j);
      }
    }
  }

  /** In named mode an unseeded store holds `valueN` for the n-th value. */
  lemma {:induction false} NamedParams(generated: seq<Value>)
    ensures NamedLayout(Params(Named, map[], generated), generated)
    decreases |generated|
  {
    if |generated| == 0 {
      NameKeyedEmpty();
    } else {
      var n := |generated| - 1;
      var init := generated[..n];
      NamedParams(init);
      var p := Params(Named, map[], init);
      assert Params(Named, map[], generated) == p[Name(ValueName(|p|)) := generated[n]] by {
        assert KeyFor(Named, |p|) == Name(ValueName(|p|));
      }
      NamedStep(p, generated);
    }
  }

  /** In named mode a seeded argument called `valueN` is overwritten by the
      parameter generated when the store holds N entries. */
  lemma NamedCollision()
    ensures Params(Named, map["value1" := Text("seeded")], [Int(5)]) == map[Name("value1") := Int(5)]
  {
    var seed := map["value1" := Text("seeded")];
    var base := NameKeyed(seed);
    assert base.Keys == {Name("value1")};
    assert base == map[Name("value1") := Text("seeded")];
    assert |base| == 1;
    assert DigitChar(1) == '1';
    assert ValueName(1) == "value1";
    assert [Int(5)][..0] == [];
    assert Params(Named, seed, [Int(5)]) == base[Name(ValueName(1)) := Int(5)];
  }

  // ---------------------------------------------------------------------
  // prepareDatabase

  /** What the helper does to a connection, in the order it does it: the
      subclass hooks, the version read, and the version write. */
  datatype Hook =
    | Configure
    | ReadVersion
    | Create
    | Upgrade(oldVersion: int, newVersion: int)
    | Downgrade(oldVersion: int, newVersion: int)
    | SetVersion(version: int)
    | Open

  /** The points at which the transaction can throw: each hook that may
      throw, the version read and write, and the commit. */
  datatype Step = ConfigureStep | ReadVersionStep | CreateStep | UpgradeStep | DowngradeStep | SetVersionStep | CommitStep

  /** The step a hook runs at; `onOpen` cannot throw. */
  function StepOf(h: Hook): Option<Step> {
    match h
    case Configure => Some(ConfigureStep)
    case ReadVersion => Some(ReadVersionStep)
    case Create => Some(CreateStep)
    case Upgrade(_, _) => Some(UpgradeStep)
    case Downgrade(_, _) => Some(DowngradeStep)
    case SetVersion(_) => Some(SetVersionStep)
    case Open => None
  }

  /** The events of one transaction that runs to the end, given the stored
      version and the helper's version. */
  function Plan(current: int, target: int): seq<Hook> {
    [Configure, ReadVersion] + (Migration(current, target) + Finish(current, target))
  }

  /** Create a store that has no version yet; otherwise upgrade or
      downgrade towards the helper's version. */
  function Migration(current: int, target: int): seq<Hook> {
    if current <= 0 then [Create]
    else if current < target then [Upgrade(current, target)]
    else if current > target then [Downgrade(current, target)]
    else []
  }

  /** Write the version when it changes, then open. */
  function Finish(current: int, target: int): seq<Hook> {
    (if current != target then [SetVersion(target)] else []) + [Open]
  }

  datatype Outcome = Outcome(trace: seq<Hook>, failed: bool)

  /** Running the planned events when `fault` throws: the events up to and
      including the one that throws, and whether the transaction failed (and
      so rolled back). A commit failure comes after every event. */
  function Run(plan: seq<Hook>, fault: Option<Step>): Outcome
    decreases |plan|
  {
    if |plan| == 0 then Outcome([], fault == Some(CommitStep))
    else if fault.Some? && StepOf(plan[0]) == fault then Outcome([plan[0]], true)
    else
      var rest := Run(plan[1..], fault);
      Outcome([plan[0]] + rest.trace, rest.failed)
  }

  /** The version stored after the transaction: the helper's version when
      it commits, the old one when it rolls back. */
  function StoredAfter(current: int, target: int, fault: Option<Step>): int {
    if Run(Plan(current, target), fault).failed then current else target
  }

  /** The hook order and the conditions of each migration. */
  lemma PlanOrder(current: int, target: int)
    ensures var p := Plan(current, target);
      && |p| >= 3 && p[0] == Configure && p[1] == ReadVersion && p[|p| - 1] == Open
      && (Create in p <==> current <= 0)
      && (Upgrade(current, target) in p <==> 0 < current < target)
      && (Downgrade(current, target) in p <==> 0 < current && current > target)
      && (SetVersion(target) in p <==> current != target)
      && (forall i :: 0 <= i < |p| && p[i].Upgrade? ==> p[i] == Upgrade(current, target))
      && (forall i :: 0 <= i < |p| && p[i].Downgrade? ==> p[i] == Downgrade(current, target))
      && (forall i :: 0 <= i < |p| && p[i].SetVersion? ==> p[i] == SetVersion(target) && i == |p| - 2)
      && (forall i :: 0 <= i < |p| - 1 ==> p[i] != Open)
  {
  }

  /** At most one of create, upgrade and downgrade runs, and right after the
      version read. */
  lemma AtMostOneMigration(current: int, target: int)
    ensures var p := Plan(current, target);
      forall i, j :: 0 <= i < j < |p| && p[i] in {Create} + {Upgrade(current, target), Downgrade(current, target)} ==>
        p[j] != Create && !p[j].Upgrade? && !p[j].Downgrade? && i == 2
  {
  }

  /** Without a fault the whole plan runs and commits. */
  lemma {:induction false} RunWithoutFault(plan: seq<Hook>)
    ensures Run(plan, None) == Outcome(plan, false)
    decreases |plan|
  {
    if |plan| > 0 {
      RunWithoutFault(plan[1..]);
    }
  }

  /** The events that ran are a prefix of the plan, and the transaction
      fails exactly when the fault is the commit or a step of the plan. */
  lemma {:induction false} RunPrefix(plan: seq<Hook>, fault: Option<Step>)
    ensures var o := Run(plan, fault);
      && o.trace <= plan
      && (o.failed <==> fault == Some(CommitStep) || (fault.Some? && exists i :: 0 <= i < |plan| && StepOf(plan[i]) == fault))
      && (o.failed && fault != Some(CommitStep) ==> |o.trace| > 0 && StepOf(o.trace[|o.trace| - 1]) == fault)
      && (!o.failed || fault == Some(CommitStep) ==> o.trace == plan)
    decreases |plan|
  {
    if |plan| > 0 && !(fault.Some? && StepOf(plan[0]) == fault) {
      RunPrefix(plan[1..], fault);
      var o := Run(plan, fault);
      if fault.Some? && exists i :: 0 <= i < |plan| && StepOf(plan[i]) == fault {
        var i :| 0 <= i < |plan| && StepOf(plan[i]) == fault;
        assert StepOf(plan[1..][i - 1]) == fault;
      }
      if fault.Some? && exists i :: 0 <= i < |plan[1..]| && StepOf(plan[1..][i]) == fault {
        var i :| 0 <= i < |plan[1..]| && StepOf(plan[1..][i]) == fault;
        assert StepOf(plan[i + 1]) == fault;
      }
    }
  }

  /** A failed transaction leaves the stored version as it was; a
      committed one stores the helper's version. The transaction fails
      exactly when the fault is the commit or a step the plan runs, so a
      fault in create, upgrade, downgrade or the version write rolls back
      whenever that step is planned. */
  lemma RollbackOnFault(current: int, target: int, fault: Option<Step>)
    ensures var p := Plan(current, target);
      (fault == Some(CommitStep) || (fault.Some? && exists i :: 0 <= i < |p| && StepOf(p[i]) == fault)) ==>
        StoredAfter(current, target, fault) == current
    ensures var p := Plan(current, target);
      !(fault == Some(CommitStep) || (fault.Some? && exists i :: 0 <= i < |p| && StepOf(p[i]) == fault)) ==>
        StoredAfter(current, target, fault) == target
    ensures fault.None? ==> StoredAfter(current, target, fault) == target
    ensures fault == Some(CommitStep) || fault == Some(ConfigureStep) || fault == Some(ReadVersionStep) ==>
      StoredAfter(current, target, fault) == current
    ensures fault == Some(UpgradeStep) && 0 < current < target ==> StoredAfter(current, target, fault) == current
  {
    RunWithoutFault(Plan(current, target));
    RunPrefix(Plan(current, target), fault);
    PlanOrder(current, target);
    if fault == Some(UpgradeStep) && 0 < current < target {
      var p := Plan(current, target);
      assert p[2] == Upgrade(current, target);
      assert StepOf(p[2]) == fault;
    }
  }

  /** Opening again after a committed open, with a positive version, only
      configures, reads the version and opens. */
  lemma QuietReopen(current: int, target: int)
    requires target > 0
    ensures var stored := StoredAfter(current, target, None);
      Run(Plan(stored, target), None).trace == [Configure, ReadVersion, Open]
  {
    RollbackOnFault(current, target, None);
    RunWithoutFault(Plan(target, target));
  }

  /** With a version of 0 the stored version stays 0, so `onCreate` runs on
      every open. */
  lemma ZeroVersionRecreates(current: int)
    requires current <= 0
    ensures Create in Run(Plan(StoredAfter(current, 0, None), 0), None).trace
  {
    RollbackOnFault(current, 0, None);
    RunWithoutFault(Plan(0, 0));
    PlanOrder(0, 0);
  }

  /** `Connection.Location`. */
  datatype Location = InMemory | Temporary | Uri(path: string)

  class SQLiteOpenHelper {
    var databaseName: Option<string>
    var version: int
    /** Whether `databaseConnection` is set. */
    var connected: bool
    /** The `user_version` the store holds; 0 for a store just created. */
    var storedVersion: int
    /** The hook events seen on the connection so far. */
    var hooks: seq<Hook>

    /** `init(databaseName:version:)`, over a store holding `storedVersion`. */
    constructor(databaseName: Option<string>, version: int, storedVersion: int)
      ensures this.databaseName == databaseName && this.version == version
      ensures this.storedVersion == storedVersion && !connected && hooks == []
    {
      this.databaseName := databaseName;
      this.version := version;
      this.storedVersion := storedVersion;
      connected := false;
      hooks := [];
    }

    /** `close()`. */
    method Close()
      modifies this
      ensures !connected && hooks == old(hooks) && storedVersion == old(storedVersion)
      ensures databaseName == old(databaseName) && version == old(version)
    {
      connected := false;
    }

    /** `prepareDatabase()`: inside one transaction, configure, read the
        stored version, create / upgrade / downgrade as it dictates, write
        the new version when it differs, and open. An error at any step is
        swallowed and rolls the transaction back. Nothing happens without a
        connection. */
    method PrepareDatabase(fault: Option<Step>)
      modifies this
      ensures databaseName == old(databaseName) && version == old(version) && connected == old(connected)
      ensures !connected ==> hooks == old(hooks) && storedVersion == old(storedVersion)
      ensures connected ==>
        && hooks == old(hooks) + Run(Plan(old(storedVersion), version), fault).trace
        && storedVersion == StoredAfter(old(storedVersion), version, fault)
    {
      if !connected {
        return;
      }
      ghost var plan := Plan(storedVersion, version);
      ghost var done: seq<Hook> := [];
      var rollback := storedVersion;
      var target := version;
      assert plan == [Configure] + ([ReadVersion] + (Migration(rollback, target) + Finish(rollback, target)));
      assert hooks == old(hooks) + done;

      var stop := Fire(old(hooks), plan, done, Configure, [ReadVersion] + (Migration(rollback, target) + Finish(rollback, target)), fault);
      if stop { return; }
      done := done + [Configure];

      stop := Fire(old(hooks), plan, done, ReadVersion, Migration(rollback, target) + Finish(rollback, target), fault);
      if stop { return; }
      done := done + [ReadVersion];
      var currentVersion := storedVersion;

      stop := Migrate(old(hooks), plan, done, currentVersion, target, fault);
      if stop { return; }
      done := done + Migration(currentVersion, target);

      if currentVersion != target {
        stop := Fire(old(hooks), plan, done, SetVersion(target), [Open], fault);
        if stop { return; }
        done := done + [SetVersion(target)];
      } else {
        assert Finish(currentVersion, target) == [Open];
      }

      assert hooks == old(hooks) + done;
      Opened(plan, done, fault);
      ghost var trace := done + [Open];
      assert Run(plan, fault).trace == trace;
      ghost var before := hooks;
      hooks := hooks + [Open];
      AppendAssoc(old(hooks), done, Open);
      assert hooks == before + [Open];
      if fault != Some(CommitStep) {
        storedVersion := target;
      }
    }

    /** The create / upgrade / downgrade branch of the transaction. */
    method Migrate(ghost prior: seq<Hook>, ghost plan: seq<Hook>, ghost done: seq<Hook>,
                   currentVersion: int, target: int, fault: Option<Step>)
      returns (stop: bool)
      modifies this`hooks
      requires hooks == prior + done
      requires Progress(plan, done, Migration(currentVersion, target) + Finish(currentVersion, target), fault)
      ensures stop ==> hooks == prior + Run(plan, fault).trace && Run(plan, fault).failed
      ensures !stop ==>
        && hooks == prior + (done + Migration(currentVersion, target))
        && Progress(plan, done + Migration(currentVersion, target), Finish(currentVersion, target), fault)
    {
      if currentVersion <= 0 {
        stop := Fire(prior, plan, done, Create, Finish(currentVersion, target), fault);
      } else if currentVersion < target {
        stop := Fire(prior, plan, done, Upgrade(currentVersion, target), Finish(currentVersion, target), fault);
      } else if currentVersion > target {
        stop := Fire(prior, plan, done, Downgrade(currentVersion, target), Finish(currentVersion, target), fault);
      } else {
        stop := false;
        assert done + Migration(currentVersion, target) == done;
        assert Migration(currentVersion, target) + Finish(currentVersion, target) == Finish(currentVersion, target);
      }
    }

    /** One hook of the transaction: it runs, and stops the transaction
        when it is the step that throws. */
    method Fire(ghost prior: seq<Hook>, ghost plan: seq<Hook>, ghost done: seq<Hook>, h: Hook, ghost rest: seq<Hook>, fault: Option<Step>)
      returns (stop: bool)
      modifies this`hooks
      requires hooks == prior + done
      requires Progress(plan, done, [h] + rest, fault)
      ensures hooks == prior + (done + [h])
      ensures stop <==> fault.Some? && StepOf(h) == fault
      ensures stop ==> hooks == prior + Run(plan, fault).trace && Run(plan, fault).failed
      ensures !stop ==> Progress(plan, done + [h], rest, fault)
    {
      hooks := hooks + [h];
      stop := fault.Some? && StepOf(h) == fault;
      if stop {
        StopAtFault(plan, done, h, rest, fault);
      } else {
        Advance(plan, done, h, rest, fault);
      }
    }

    /** `getDatabase()`: the existing connection, or a new one at the
        location the database name selects, which is then prepared. */
    method GetDatabase(documentsPath: string, fault: Option<Step>) returns (location: Option<Location>)
      modifies this
      ensures databaseName == old(databaseName) && version == old(version) && connected
      ensures old(connected) ==> location.None? && hooks == old(hooks) && storedVersion == old(storedVersion)
      ensures !old(connected) ==>
        && location == Some(LocationFor(databaseName, documentsPath))
        && hooks == old(hooks) + Run(Plan(old(storedVersion), version), fault).trace
        && storedVersion == StoredAfter(old(storedVersion), version, fault)
    {
      if connected {
        return None;
      }
      var dbLocation: Location;
      if databaseName.Some? {
        if databaseName.value == "" {
          dbLocation := Temporary;
        } else {
          dbLocation := Uri(documentsPath + databaseName.value);
        }
      } else {
        dbLocation := InMemory;
      }
      var ensured := EnsureDatabaseLocation(dbLocation);
      connected := true;
      PrepareDatabase(fault);
      location := Some(ensured.0);
    }
  }

  /** The location `getDatabase` opens: in memory without a name, a
      temporary file for an empty name, else the name under the documents
      directory. */
  function LocationFor(databaseName: Option<string>, documentsPath: string): Location {
    match databaseName
    case None => InMemory
    case Some(name) => if name == "" then Temporary else Uri(documentsPath + name)
  }

  lemma AppendAssoc(a: seq<Hook>, b: seq<Hook>, x: Hook)
    ensures (a + b) + [x] == a + (b + [x])
  {
  }

  /** The transaction has run `done` and still has `rest` to run. */
  predicate Progress(plan: seq<Hook>, done: seq<Hook>, rest: seq<Hook>, fault: Option<Step>) {
    Run(plan, fault) == Outcome(done + Run(rest, fault).trace, Run(rest, fault).failed)
  }

  /** A step that is not the fault runs and the transaction moves past it. */
  lemma Advance(plan: seq<Hook>, done: seq<Hook>, h: Hook, rest: seq<Hook>, fault: Option<Step>)
    requires Progress(plan, done, [h] + rest, fault)
    requires !(fault.Some? && StepOf(h) == fault)
    ensures Progress(plan, done + [h], rest, fault)
  {
    assert ([h] + rest)[1..] == rest;
    assert done + ([h] + Run(rest, fault).trace) == (done + [h]) + Run(rest, fault).trace;
  }

  /** `onOpen` cannot throw: the transaction then fails only at the commit. */
  lemma Opened(plan: seq<Hook>, done: seq<Hook>, fault: Option<Step>)
    requires Progress(plan, done, [Open], fault)
    ensures Run(plan, fault) == Outcome(done + [Open], fault == Some(CommitStep))
  {
    assert [Open][1..] == [];
  }

  /** The faulting step is recorded and the transaction stops there, failed. */
  lemma StopAtFault(plan: seq<Hook>, done: seq<Hook>, h: Hook, rest: seq<Hook>, fault: Option<Step>)
    requires Progress(plan, done, [h] + rest, fault)
    requires fault.Some? && StepOf(h) == fault
    ensures Run(plan, fault) == Outcome(done + [h], true)
  {
  }

  // ---------------------------------------------------------------------
  // ensureDatabaseLocation

  /** Each component preceded by `/`: the `forEach` that rebuilds the path. */
  function Prefixed(components: seq<string>): string
    decreases |components|
  {
    if |components| == 0 then "" else "/" + components[0] + Prefixed(components[1..])
  }

  function NonEmpty(): string -> bool {
    (c: string) => c != ""
  }

  function Differs(last: string): string -> bool {
    (c: string) => c != last
  }

  /** The directory `ensureDatabaseLocation` creates for a file path: the
      non-empty components, less every one equal to the last of them (not
      only the last itself), each preceded by `/`. */
  function DatabaseDirectory(fullPath: string): string {
    var components := Filter(Split(fullPath, '/'), NonEmpty());
    var kept := if |components| == 0 then components else Filter(components, Differs(components[|components| - 1]));
    Prefixed(kept)
  }

  /** `ensureDatabaseLocation(_:)`: the location comes back unchanged; for a
      file location the directory to create is computed. */
  function EnsureDatabaseLocation(location: Location): (r: (Location, Option<string>))
    ensures r.0 == location
    ensures r.1.Some? <==> location.Uri?
  {
    match location
    case Uri(fullPath) => (location, Some(DatabaseDirectory(fullPath)))
    case _ => (location, None)
  }

  /** Splitting a rebuilt path gives back an empty first piece and then the
      components, when they are non-empty and hold no `/`. */
  lemma {:induction false} PrefixedSplit(components: seq<string>)
    requires |components| > 0
    requires forall i :: 0 <= i < |components| ==> components[i] != "" && '/' !in components[i]
    ensures Split(Prefixed(components), '/') == [""] + components
    decreases |components|
  {
    var rest := Prefixed(components[1..]);
    if |components| == 1 {
      SplitNoSeparator(components[0], '/');
      SplitConcat("", '/', components[0]);
      assert Prefixed(components) == "" + ['/'] + components[0];
    } else {
      PrefixedSplit(components[1..]);
      assert rest == "/" + rest[1..];
      SplitCons(components[0], rest[1..], components[1..]);
      assert Prefixed(components) == "/" + components[0] + "/" + rest[1..];
      assert components == [components[0]] + components[1..];
    }
  }

  /** One step of `PrefixedSplit`: a `/` and a component in front of a
      path that already starts with `/`. */
  lemma SplitCons(c: string, t: string, parts: seq<string>)
    requires '/' !in c
    requires Split("/" + t, '/') == [""] + parts
    ensures Split("/" + c + "/" + t, '/') == ["", c] + parts
  {
    assert "/" + t == "" + ['/'] + t;
    SplitConcat("", '/', t);
    assert Split(t, '/') == parts by {
      assert ([""] + Split(t, '/'))[1..] == Split(t, '/');
      assert ([""] + parts)[1..] == parts;
    }
    assert "/" + c + "/" + t == "" + ['/'] + (c + ['/'] + t);
    SplitConcat("", '/', c + ['/'] + t);
    SplitConcat(c, '/', t);
  }

  /** The directory's components are the path's non-empty components other
      than the file name, and every such component is kept; the directory
      splits back into exactly those. */
  lemma DatabaseDirectoryComponents(fullPath: string)
    ensures var components := Filter(Split(fullPath, '/'), NonEmpty());
      var dir := DatabaseDirectory(fullPath);
      && (|components| == 0 ==> dir == "")
      && (|components| > 0 ==>
            var last := components[|components| - 1];
            var kept := Filter(components, Differs(last));
            && (forall i :: 0 <= i < |kept| ==> kept[i] != "" && kept[i] != last && kept[i] in Split(fullPath, '/'))
            && (forall c :: c in Split(fullPath, '/') && c != "" && c != last ==> c in kept)
            && (|kept| > 0 ==> Split(dir, '/') == [""] + kept))
  {
    var components := Filter(Split(fullPath, '/'), NonEmpty());
    if |components| > 0 {
      var last := components[|components| - 1];
      KeptComponents(Split(fullPath, '/'), last);
      var kept := Filter(components, Differs(last));
      if |kept| > 0 {
        PrefixedSplit(kept);
      }
    }
  }

  /** Keeping the non-empty pieces other than `last` keeps exactly those. */
  lemma KeptComponents(parts: seq<string>, last: string)
    requires forall i :: 0 <= i < |parts| ==> '/' !in parts[i]
    ensures var kept := Filter(Filter(parts, NonEmpty()), Differs(last));
      && (forall i :: 0 <= i < |kept| ==> kept[i] != "" && kept[i] != last && '/' !in kept[i] && kept[i] in parts)
      && (forall c :: c in parts && c != "" && c != last ==> c in kept)
  {
    var components := Filter(parts, NonEmpty());
    var kept := Filter(components, Differs(last));
    forall c | c in parts && c != "" && c != last ensures c in kept {
      assert NonEmpty()(c);
      assert c in components;
      assert Differs(last)(c);
    }
    forall i | 0 <= i < |kept| ensures kept[i] != "" && '/' !in kept[i] && kept[i] in parts {
      assert kept[i] in components;
      var j :| 0 <= j < |components| && components[j] == kept[i];
      assert NonEmpty()(components[j]);
    }
  }

  /** A file named like one of its directories loses that directory too:
      `/x/data/x` gives the directory `/data`, not `/x/data`. */
  lemma DirectoryNamedLikeFile(name: string, dir: string)
    requires name != "" && dir != "" && name != dir
    requires '/' !in name && '/' !in dir
    ensures DatabaseDirectory("/" + name + "/" + dir + "/" + name) == "/" + dir
  {
    var path := [name, dir, name];
    PrefixedSplit(path);
    assert Prefixed(path[2..]) == "/" + name;
    assert Prefixed(path[1..]) == "/" + dir + ("/" + name);
    assert Prefixed(path) == "/" + name + "/" + dir + "/" + name;
    var parts := [""] + path;
    assert parts[1..] == path && path[1..] == [dir, name] && path[2..] == [name];
    assert path[2..][1..] == [] && path[1..][1..] == path[2..];
    assert Filter(path[2..], NonEmpty()) == [name] + Filter([], NonEmpty());
    assert Filter(path[1..], NonEmpty()) == [dir] + Filter(path[2..], NonEmpty());
    assert Filter(path, NonEmpty()) == [name] + Filter(path[1..], NonEmpty());
    assert Filter(parts, NonEmpty()) == Filter(path, NonEmpty());
    assert Filter(path[2..], Differs(name)) == Filter([], Differs(name));
    assert Filter(path[1..], Differs(name)) == [dir] + Filter(path[2..], Differs(name));
    assert Filter(path, Differs(name)) == Filter(path[1..], Differs(name));
    assert Prefixed([dir]) == "/" + dir + Prefixed([]);
    var full := "/" + name + "/" + dir + "/" + name;
    assert Split(full, '/') == parts;
    var components := Filter(Split(full, '/'), NonEmpty());
    assert components == path && components[|components| - 1] == name;
    assert DatabaseDirectory(full) == Prefixed(Filter(components, Differs(name)));
  }
}
