/** The structural extractor: walks a parsed module and produces one
    `CodeContext` per function it reaches, plus one per method of every class.

    Two variants exist in the repository.  `Package`
    (docstring_agent/core/ast_analyzer.py) also scores `%` and the aggregate
    calls `len`/`sum`/`max`/`min`, and records parameter defaults; `App`
    (app/tools.py) does neither.  Everything else is shared.

    Every accumulation below is specified by a function that folds over the
    visited nodes from the last one backwards, so that a loop visiting
    `walk[..i]` meets its specification at every step. */
module Analyzer {
  import opened Wrappers
  import opened Syntax
  import opened Models
  import Text

  datatype Variant = Package | App

  /** The keys of the type-pattern table. */
  datatype PyType = IntType | FloatType | StrType | BoolType | ListType | DictType | SetType | TupleType

  /** The table's keys in its declaration order (the order `max` scans them). */
  const TypeTable: seq<PyType> := [IntType, FloatType, StrType, BoolType, ListType, DictType, SetType, TupleType]

  function TypeName(t: PyType): string {
    match t
    case IntType => "int"
    case FloatType => "float"
    case StrType => "str"
    case BoolType => "bool"
    case ListType => "list"
    case DictType => "dict"
    case SetType => "set"
    case TupleType => "tuple"
  }

  lemma TypeTableComplete(t: PyType)
    ensures t in TypeTable
  {
    var k := match t
      case IntType => 0 case FloatType => 1 case StrType => 2 case BoolType => 3
      case ListType => 4 case DictType => 5 case SetType => 6 case TupleType => 7;
    assert TypeTable[k] == t;
  }

  /** The library calls the analyzer makes and this model does not open:
      `source(n)` is `ast.unparse(n).strip()` (`astor.to_source` in the
      package variant), `matches(t, text)` is
      `re.match(type_patterns[t], text) is not None`, `joinTypes` is
      `', '.join` over a set (whose order Python leaves to hashing), and
      `docstring(n)` is `ast.get_docstring(n)`. */
  datatype Library = Library(
    source: Node -> string,
    matches: (PyType, string) -> bool,
    joinTypes: set<string> -> string,
    docstring: Node -> Option<string>)

  /** What the model relies on of those calls: `ast.get_docstring` finds a
      docstring exactly when a definition's body starts with a string
      statement, and the join of a set of type names contains each of them. */
  ghost predicate ValidLibrary(lib: Library) {
    (forall n :: IsDefinition(n) ==> (lib.docstring(n).Some? <==> RawDocstring(n.body).Some?))
    && (forall ts: set<string>, t :: t in ts ==> Text.Contains(lib.joinTypes(ts), t))
  }

  // ---------------------------------------------------------------------------
  // Parameter type scoring

  /** The arithmetic operators whose left operand votes for `int` and `float`. */
  predicate IsArithmetic(v: Variant, op: BinOperator) {
    op.Add? || op.Sub? || op.Mult? || op.Div? || (v == Package && op.Mod?)
  }

  /** Points a qualifying `BinOp` adds to type `t`. */
  function BinOpBonus(t: PyType): nat {
    if t == IntType then 2 else if t == FloatType then 1 else 0
  }

  /** The type a call to `f` names when `f` is `int`, `float`, `str`, `list` or `dict`. */
  function ConstructorType(f: string): Option<PyType> {
    if f == "int" then Some(IntType)
    else if f == "float" then Some(FloatType)
    else if f == "str" then Some(StrType)
    else if f == "list" then Some(ListType)
    else if f == "dict" then Some(DictType)
    else None
  }

  /** `len`, `sum`, `max` and `min`. */
  predicate IsAggregate(f: string) {
    f == "len" || f == "sum" || f == "max" || f == "min"
  }

  /** Points one positional occurrence of the parameter in a call to `f` adds to `t`. */
  function CallBonus(v: Variant, f: string, t: PyType): nat {
    match ConstructorType(f)
    case Some(c) => if t == c then 3 else 0
    case None => if v == Package && IsAggregate(f) && (t == ListType || t == TupleType) then 2 else 0
  }

  /** Points the arguments `args` of a call to `f` add to `t` for parameter `p`. */
  function ArgsScore(v: Variant, f: string, args: seq<Node>, p: string, t: PyType): nat {
    if args == [] then 0
    else
      ArgsScore(v, f, args[..|args| - 1], p, t)
      + (if args[|args| - 1] == Name(p) then CallBonus(v, f, t) else 0)
  }

  /** Points one visited node adds to type `t` for parameter `p`. */
  function NodeScore(v: Variant, child: Node, p: string, t: PyType): nat {
    match child
    case BinOp(Name(id), op, _) => if id == p && IsArithmetic(v, op) then BinOpBonus(t) else 0
    case Call(Name(f), args, _) => ArgsScore(v, f, args, p, t)
    case _ => 0
  }

  /** `type_scores[t]` after visiting `nodes`. */
  function TypeScore(v: Variant, nodes: seq<Node>, p: string, t: PyType): nat {
    if nodes == [] then 0
    else TypeScore(v, nodes[..|nodes| - 1], p, t) + NodeScore(v, nodes[|nodes| - 1], p, t)
  }

  /** `max(type_scores.items(), key=...)` over the keys listed in `keys`:
      Python's `max` keeps the first of equal maxima. */
  function BestType(v: Variant, nodes: seq<Node>, p: string, keys: seq<PyType>): PyType
    requires |keys| > 0
  {
    if |keys| == 1 then keys[0]
    else
      var best := BestType(v, nodes, p, keys[..|keys| - 1]);
      if TypeScore(v, nodes, p, keys[|keys| - 1]) > TypeScore(v, nodes, p, best) then keys[|keys| - 1] else best
  }

  /** The type found is one of the keys, with a greatest score, and every key
      listed before it scores strictly less. */
  lemma {:induction false} BestTypeIsFirstMax(v: Variant, nodes: seq<Node>, p: string, keys: seq<PyType>)
    requires |keys| > 0
    ensures var best := BestType(v, nodes, p, keys);
            (forall k :: 0 <= k < |keys| ==> TypeScore(v, nodes, p, keys[k]) <= TypeScore(v, nodes, p, best))
            && exists i :: 0 <= i < |keys| && keys[i] == best
                           && forall j :: 0 <= j < i ==> TypeScore(v, nodes, p, keys[j]) < TypeScore(v, nodes, p, best)
    decreases |keys|
  {
    if |keys| == 1 {
      assert keys[0] == BestType(v, nodes, p, keys);
    } else {
      var front := keys[..|keys| - 1];
      BestTypeIsFirstMax(v, nodes, p, front);
      var best := BestType(v, nodes, p, front);
      assert forall k :: 0 <= k < |front| ==> keys[k] == front[k];
      FirstMaxExtends((t: PyType) => TypeScore(v, nodes, p, t), keys, best);
    }
  }

  /** Appending one key to a list whose first greatest element under `score`
      is `best`: the new key is the first greatest one when it scores more,
      and `best` stays otherwise. */
  lemma FirstMaxExtends<T>(score: T -> nat, keys: seq<T>, best: T)
    requires |keys| > 1
    requires forall k :: 0 <= k < |keys| - 1 ==> score(keys[k]) <= score(best)
    requires exists i :: 0 <= i < |keys| - 1 && keys[i] == best && forall j :: 0 <= j < i ==> score(keys[j]) < score(best)
    ensures var winner := if score(keys[|keys| - 1]) > score(best) then keys[|keys| - 1] else best;
            (forall k :: 0 <= k < |keys| ==> score(keys[k]) <= score(winner))
            && exists i :: 0 <= i < |keys| && keys[i] == winner && forall j :: 0 <= j < i ==> score(keys[j]) < score(winner)
  {
    var last := |keys| - 1;
    if score(keys[last]) > score(best) {
      assert forall j :: 0 <= j < last ==> score(keys[j]) < score(keys[last]);
    } else {
      var i :| 0 <= i < last && keys[i] == best && forall j :: 0 <= j < i ==> score(keys[j]) < score(best);
    }
  }

  /** The type inferred for parameter `p` of a function whose walk is `nodes`:
      `None` unless the greatest score is positive. */
  function InferredTypeOf(v: Variant, nodes: seq<Node>, p: string): Option<PyType> {
    var best := BestType(v, nodes, p, TypeTable);
    if TypeScore(v, nodes, p, best) > 0 then Some(best) else None
  }

  /** The inferred type as the table key the dictionary holds. */
  function InferredName(v: Variant, nodes: seq<Node>, p: string): Option<string> {
    match InferredTypeOf(v, nodes, p)
    case Some(t) => Some(TypeName(t))
    case None => None
  }

  /** The inferred type is absent exactly when every type scored zero; otherwise
      it is the first type of the table with the greatest score. */
  lemma InferredTypeCharacterized(v: Variant, nodes: seq<Node>, p: string)
    ensures InferredTypeOf(v, nodes, p).None? <==> forall t :: TypeScore(v, nodes, p, t) == 0
    ensures InferredTypeOf(v, nodes, p).Some? ==>
              var best := InferredTypeOf(v, nodes, p).value;
              (forall t :: TypeScore(v, nodes, p, t) <= TypeScore(v, nodes, p, best))
              && exists i :: 0 <= i < |TypeTable| && TypeTable[i] == best
                             && forall j :: 0 <= j < i ==> TypeScore(v, nodes, p, TypeTable[j]) < TypeScore(v, nodes, p, best)
  {
    var best := BestType(v, nodes, p, TypeTable);
    BestTypeIsFirstMax(v, nodes, p, TypeTable);
    forall t ensures TypeScore(v, nodes, p, t) <= TypeScore(v, nodes, p, best) {
      TypeTableComplete(t);
      var k :| 0 <= k < |TypeTable| && TypeTable[k] == t;
    }
    if TypeScore(v, nodes, p, best) == 0 {
      assert InferredTypeOf(v, nodes, p).None?;
    } else {
      assert InferredTypeOf(v, nodes, p) == Some(best);
    }
  }

  /** `_infer_parameter_type`: one pass over `ast.walk(fn)` updating the score
      dictionary, then the first-maximum choice. */
  method InferParameterType(v: Variant, fn: Node, p: string) returns (r: Option<string>)
    ensures r == InferredName(v, Walk(fn), p)
  {
    var walk := Walk(fn);
    var scores := ScoreWalk(v, walk, p);
    r := PickType(v, walk, p, scores);
  }

  /** The scoring loop over the visited nodes. */
  method ScoreWalk(v: Variant, walk: seq<Node>, p: string) returns (scores: map<PyType, nat>)
    ensures forall t :: t in TypeTable ==> t in scores && scores[t] == TypeScore(v, walk, p, t)
  {
    scores := map t | t in TypeTable :: 0;
    var i := 0;
    while i < |walk|
      invariant 0 <= i <= |walk|
      invariant forall t :: t in TypeTable ==> t in scores && scores[t] == TypeScore(v, walk[..i], p, t)
    {
      TypeScoreStep(v, walk, p, i);
      scores := ScoreNode(v, walk[i], p, scores);
      i := i + 1;
    }
    assert walk[..i] == walk;
  }

  /** The body of the scoring loop for one visited node. */
  method ScoreNode(v: Variant, child: Node, p: string, scores: map<PyType, nat>)
    returns (updated: map<PyType, nat>)
    requires forall t :: t in TypeTable ==> t in scores
    ensures forall t :: t in TypeTable ==> t in updated && updated[t] == scores[t] + NodeScore(v, child, p, t)
  {
    if child.BinOp? && child.left.Name? {
      updated := ScoreBinOp(v, child, p, scores);
    } else if child.Call? {
      updated := ScoreCall(v, child, p, scores);
    } else {
      updated := scores;
    }
  }

  lemma TypeScoreStep(v: Variant, walk: seq<Node>, p: string, i: nat)
    requires i < |walk|
    ensures forall t :: TypeScore(v, walk[..i + 1], p, t) == TypeScore(v, walk[..i], p, t) + NodeScore(v, walk[i], p, t)
  {
    assert walk[..i + 1][..i] == walk[..i];
  }

  /** `max` over the dictionary's items in table order, then the check that
      the winner scored at all. */
  method PickType(v: Variant, walk: seq<Node>, p: string, scores: map<PyType, nat>) returns (r: Option<string>)
    requires forall t :: t in TypeTable ==> t in scores && scores[t] == TypeScore(v, walk, p, t)
    ensures r == InferredName(v, walk, p)
  {
    var best := TypeTable[0];
    var k := 1;
    while k < |TypeTable|
      invariant 1 <= k <= |TypeTable|
      invariant best == BestType(v, walk, p, TypeTable[..k])
    {
      BestTypeStep(v, walk, p, k);
      TypeTableComplete(best);
      if scores[TypeTable[k]] > scores[best] {
        best := TypeTable[k];
      }
      k := k + 1;
    }
    assert TypeTable[..k] == TypeTable;
    TypeTableComplete(best);
    if scores[best] > 0 {
      r := Some(TypeName(best));
    } else {
      r := None;
    }
  }

  lemma BestTypeStep(v: Variant, walk: seq<Node>, p: string, k: nat)
    requires 1 <= k < |TypeTable|
    ensures var best := BestType(v, walk, p, TypeTable[..k]);
            BestType(v, walk, p, TypeTable[..k + 1])
            == if TypeScore(v, walk, p, TypeTable[k]) > TypeScore(v, walk, p, best) then TypeTable[k] else best
  {
    assert TypeTable[..k + 1][..k] == TypeTable[..k];
  }

  /** The `BinOp` branch of the scoring loop. */
  method ScoreBinOp(v: Variant, child: Node, p: string, scores: map<PyType, nat>)
    returns (updated: map<PyType, nat>)
    requires child.BinOp? && child.left.Name?
    requires forall t :: t in TypeTable ==> t in scores
    ensures forall t :: t in TypeTable ==> t in updated && updated[t] == scores[t] + NodeScore(v, child, p, t)
  {
    updated := scores;
    if child.left.id == p {
      if child.op.Add? || child.op.Sub? || child.op.Mult? || child.op.Div? {
        updated := updated[IntType := updated[IntType] + 2][FloatType := updated[FloatType] + 1];
      } else if v == Package && child.op.Mod? {
        updated := updated[IntType := updated[IntType] + 2][FloatType := updated[FloatType] + 1];
      }
    }
  }

  /** The `Call` branch of the scoring loop: one vote per positional argument
      that is the parameter itself. */
  method ScoreCall(v: Variant, child: Node, p: string, scores: map<PyType, nat>)
    returns (updated: map<PyType, nat>)
    requires child.Call?
    requires forall t :: t in TypeTable ==> t in scores
    ensures forall t :: t in TypeTable ==> t in updated && updated[t] == scores[t] + NodeScore(v, child, p, t)
  {
    updated := scores;
    var j := 0;
    while j < |child.args|
      invariant 0 <= j <= |child.args|
      invariant forall t :: t in TypeTable ==> t in updated && updated[t] == scores[t] + CallScore(v, child, p, j, t)
    {
      CallScoreStep(v, child, p, j);
      var arg := child.args[j];
      if arg.Name? && arg.id == p {
        if child.func.Name? {
          updated := Vote(v, child.func.id, updated);
        }
      }
      j := j + 1;
    }
    CallScoreComplete(v, child, p);
  }

  /** The points the first `j` arguments of the call `child` have added. */
  function CallScore(v: Variant, child: Node, p: string, j: nat, t: PyType): nat
    requires child.Call? && j <= |child.args|
  {
    if child.func.Name? then ArgsScore(v, child.func.id, child.args[..j], p, t) else 0
  }

  lemma CallScoreStep(v: Variant, child: Node, p: string, j: nat)
    requires child.Call? && j < |child.args|
    ensures forall t :: CallScore(v, child, p, j + 1, t)
                        == CallScore(v, child, p, j, t)
                           + (if child.func.Name? && child.args[j] == Name(p) then CallBonus(v, child.func.id, t) else 0)
  {
    assert child.args[..j + 1][..j] == child.args[..j];
  }

  lemma CallScoreComplete(v: Variant, child: Node, p: string)
    requires child.Call?
    ensures forall t :: CallScore(v, child, p, |child.args|, t) == NodeScore(v, child, p, t)
  {
    assert child.args[..|child.args|] == child.args;
  }

  /** One vote of a call to `f`: `+3` to the constructor's own type, or
      `+2` to `list` and `tuple` for an aggregate. */
  method Vote(v: Variant, f: string, scores: map<PyType, nat>) returns (updated: map<PyType, nat>)
    requires forall t :: t in TypeTable ==> t in scores
    ensures forall t :: t in TypeTable ==> t in updated && updated[t] == scores[t] + CallBonus(v, f, t)
  {
    updated := scores;
    if f in ["int", "float", "str", "list", "dict"] {
      var named := ConstructorType(f).value;
      updated := updated[named := updated[named] + 3];
    } else if v == Package && f in ["len", "sum", "max", "min"] {
      updated := updated[ListType := updated[ListType] + 2][TupleType := updated[TupleType] + 2];
    }
  }

  /** The package variant scores every node at least as high as the app variant. */
  lemma {:induction false} PackageScoresAtLeastApp(nodes: seq<Node>, p: string, t: PyType)
    ensures TypeScore(App, nodes, p, t) <= TypeScore(Package, nodes, p, t)
    decreases |nodes|
  {
    if nodes != [] {
      PackageScoresAtLeastApp(nodes[..|nodes| - 1], p, t);
      var child := nodes[|nodes| - 1];
      if child.Call? && child.func.Name? {
        ArgsPackageAtLeastApp(child.func.id, child.args, p, t);
      }
    }
  }

  lemma {:induction false} ArgsPackageAtLeastApp(f: string, args: seq<Node>, p: string, t: PyType)
    ensures ArgsScore(App, f, args, p, t) <= ArgsScore(Package, f, args, p, t)
    decreases |args|
  {
    if args != [] {
      ArgsPackageAtLeastApp(f, args[..|args| - 1], p, t);
    }
  }

  /** Without `%` and without aggregate calls the two variants score alike. */
  lemma {:induction false} VariantsAgree(nodes: seq<Node>, p: string, t: PyType)
    requires forall k :: 0 <= k < |nodes| ==> !(nodes[k].BinOp? && nodes[k].op.Mod?)
    requires forall k :: 0 <= k < |nodes| && nodes[k].Call? && nodes[k].func.Name? ==> !IsAggregate(nodes[k].func.id)
    ensures TypeScore(App, nodes, p, t) == TypeScore(Package, nodes, p, t)
    decreases |nodes|
  {
    if nodes != [] {
      VariantsAgree(nodes[..|nodes| - 1], p, t);
      var child := nodes[|nodes| - 1];
      if child.Call? && child.func.Name? {
        ArgsVariantsAgree(child.func.id, child.args, p, t);
      }
    }
  }

  lemma {:induction false} ArgsVariantsAgree(f: string, args: seq<Node>, p: string, t: PyType)
    requires !IsAggregate(f)
    ensures ArgsScore(App, f, args, p, t) == ArgsScore(Package, f, args, p, t)
    decreases |args|
  {
    if args != [] {
      ArgsVariantsAgree(f, args[..|args| - 1], p, t);
    }
  }

  /** A call to a function outside both tables never changes a score. */
  lemma {:induction false} UnlistedCallScoresNothing(v: Variant, f: string, args: seq<Node>, p: string, t: PyType)
    requires ConstructorType(f).None? && !IsAggregate(f)
    ensures ArgsScore(v, f, args, p, t) == 0
    decreases |args|
  {
    if args != [] {
      UnlistedCallScoresNothing(v, f, args[..|args| - 1], p, t);
    }
  }

  // ---------------------------------------------------------------------------
  // Return analysis

  /** `isinstance(child, ast.Return) and child.value`. */
  predicate ReturnsValue(n: Node) {
    n.Return? && n.returned.Some?
  }

  predicate ReturnsTuple(n: Node) {
    ReturnsValue(n) && n.returned.value.Tuple?
  }

  predicate ReturnsYield(n: Node) {
    ReturnsValue(n) && n.returned.value.Yield?
  }

  /** The types of the table whose pattern matches `text` at its start. */
  function PatternTypes(lib: Library, text: string): set<string> {
    set t | t in TypeTable && lib.matches(t, text) :: TypeName(t)
  }

  /** What one returned expression adds to the set of return types. */
  function ValueTypes(lib: Library, value: Node): set<string> {
    if value.Tuple? then {"tuple"}
    else if value.Yield? then {"generator"}
    else PatternTypes(lib, lib.source(value))
  }

  /** `return_types` after visiting `nodes`. */
  function ReturnTypes(lib: Library, nodes: seq<Node>): set<string> {
    if nodes == [] then {}
    else
      var last := nodes[|nodes| - 1];
      ReturnTypes(lib, nodes[..|nodes| - 1])
      + (if ReturnsValue(last) then ValueTypes(lib, last.returned.value) else {})
  }

  predicate SomeNode(P: Node -> bool, nodes: seq<Node>) {
    exists i :: 0 <= i < |nodes| && P(nodes[i])
  }

  /** `_analyze_returns`' result for a function whose walk is `nodes`. */
  function ReturnsOf(lib: Library, nodes: seq<Node>): ReturnInfo {
    var types := ReturnTypes(lib, nodes);
    ReturnInfo(None, if types != {} then Some(lib.joinTypes(types)) else None, None,
               SomeNode(ReturnsYield, nodes), SomeNode(ReturnsTuple, nodes))
  }

  /** A type is collected exactly when some visited `return` contributes it. */
  lemma {:induction false} ReturnTypesMembers(lib: Library, nodes: seq<Node>, ty: string)
    ensures ty in ReturnTypes(lib, nodes)
            <==> exists i :: 0 <= i < |nodes| && ReturnsValue(nodes[i]) && ty in ValueTypes(lib, nodes[i].returned.value)
    decreases |nodes|
  {
    if nodes != [] {
      var front := nodes[..|nodes| - 1];
      ReturnTypesMembers(lib, front, ty);
      assert forall i :: 0 <= i < |front| ==> front[i] == nodes[i];
    }
  }

  /** The inferred return type is absent exactly when no `return` contributes a
      type: a function may return values and still get none, when no pattern
      matches them.  A tuple literal always contributes `tuple` and a `yield`
      always contributes `generator`; the latter is the only source of
      `generator`. */
  lemma ReturnsCharacterized(lib: Library, nodes: seq<Node>)
    ensures ReturnsOf(lib, nodes).inferredType.None?
            <==> forall i :: 0 <= i < |nodes| && ReturnsValue(nodes[i]) ==> ValueTypes(lib, nodes[i].returned.value) == {}
    ensures ReturnsOf(lib, nodes).isMultiple ==> "tuple" in ReturnTypes(lib, nodes)
    ensures ReturnsOf(lib, nodes).isGenerator <==> "generator" in ReturnTypes(lib, nodes)
    ensures !SomeNode(ReturnsValue, nodes) ==> ReturnsOf(lib, nodes).inferredType.None?
  {
    var types := ReturnTypes(lib, nodes);
    if types != {} {
      var ty :| ty in types;
      ReturnTypesMembers(lib, nodes, ty);
    } else {
      forall i | 0 <= i < |nodes| && ReturnsValue(nodes[i])
        ensures ValueTypes(lib, nodes[i].returned.value) == {}
      {
        if ty :| ty in ValueTypes(lib, nodes[i].returned.value) {
          ReturnTypesMembers(lib, nodes, ty);
        }
      }
    }
    ReturnTypesMembers(lib, nodes, "tuple");
    ReturnTypesMembers(lib, nodes, "generator");
    forall t: PyType ensures TypeName(t) != "generator" {
      assert TypeName(t)[0] != 'g';
    }
  }

  /** `_analyze_returns`: one pass over `ast.walk(fn)`, setting the flags and
      collecting types, then the join. */
  method AnalyzeReturns(lib: Library, fn: Node) returns (info: ReturnInfo)
    ensures info == ReturnsOf(lib, Walk(fn))
  {
    var walk := Walk(fn);
    info := NewReturnInfo();
    var types: set<string> := {};
    var i := 0;
    while i < |walk|
      invariant 0 <= i <= |walk|
      invariant types == ReturnTypes(lib, walk[..i])
      invariant info == ReturnInfo(None, None, None, SomeNode(ReturnsYield, walk[..i]), SomeNode(ReturnsTuple, walk[..i]))
    {
      var child := walk[i];
      ReturnsStep(lib, walk, i);
      if child.Return? && child.returned.Some? {
        var value := child.returned.value;
        if value.Tuple? {
          info := info.(isMultiple := true);
          types := types + {"tuple"};
        } else if value.Yield? {
          info := info.(isGenerator := true);
          types := types + {"generator"};
        } else {
          var added := MatchingTypes(lib, lib.source(value));
          types := types + added;
        }
      }
      i := i + 1;
    }
    assert walk[..i] == walk;
    if types != {} {
      info := info.(inferredType := Some(lib.joinTypes(types)));
    }
  }

  lemma ReturnsStep(lib: Library, walk: seq<Node>, i: nat)
    requires i < |walk|
    ensures ReturnTypes(lib, walk[..i + 1])
            == ReturnTypes(lib, walk[..i]) + (if ReturnsValue(walk[i]) then ValueTypes(lib, walk[i].returned.value) else {})
    ensures SomeNode(ReturnsYield, walk[..i + 1]) == (SomeNode(ReturnsYield, walk[..i]) || ReturnsYield(walk[i]))
    ensures SomeNode(ReturnsTuple, walk[..i + 1]) == (SomeNode(ReturnsTuple, walk[..i]) || ReturnsTuple(walk[i]))
  {
    var next := walk[..i + 1];
    assert next[..i] == walk[..i];
    assert next[i] == walk[i];
    assert forall k :: 0 <= k < i ==> next[k] == walk[..i][k];
  }

  /** The pattern loop of `_analyze_returns`: the names of the table's types
      whose pattern matches `text`. */
  method MatchingTypes(lib: Library, text: string) returns (added: set<string>)
    ensures added == PatternTypes(lib, text)
  {
    added := {};
    var k := 0;
    while k < |TypeTable|
      invariant 0 <= k <= |TypeTable|
      invariant added == set t | t in TypeTable[..k] && lib.matches(t, text) :: TypeName(t)
    {
      if lib.matches(TypeTable[k], text) {
        added := added + {TypeName(TypeTable[k])};
      }
      assert TypeTable[..k + 1] == TypeTable[..k] + [TypeTable[k]];
      k := k + 1;
    }
    assert TypeTable[..k] == TypeTable;
  }

  // ---------------------------------------------------------------------------
  // Exceptions

  /** `raise Name(...)`: the only form that names an exception. */
  predicate RaisesNamedCall(n: Node) {
    n.Raise? && n.exc.Some? && n.exc.value.Call? && n.exc.value.func.Name?
  }

  /** The exception list after visiting `nodes`. */
  function ExceptionsIn(nodes: seq<Node>): seq<ExceptionInfo> {
    if nodes == [] then []
    else
      var last := nodes[|nodes| - 1];
      ExceptionsIn(nodes[..|nodes| - 1])
      + (if RaisesNamedCall(last) then [ExceptionInfo(last.exc.value.func.id, None)] else [])
  }

  function RaiseWeight(n: Node): nat {
    if RaisesNamedCall(n) then 1 else 0
  }

  /** One entry per `raise Name(...)` visited, duplicates kept, each naming
      the called exception of a visited `raise`. */
  lemma {:induction false} ExceptionsCharacterized(nodes: seq<Node>)
    ensures |ExceptionsIn(nodes)| == SumIn(RaiseWeight, nodes)
    ensures forall k :: 0 <= k < |ExceptionsIn(nodes)| ==>
              ExceptionsIn(nodes)[k].description.None?
              && exists i :: 0 <= i < |nodes| && RaisesNamedCall(nodes[i])
                             && nodes[i].exc.value.func.id == ExceptionsIn(nodes)[k].exceptionType
    decreases |nodes|
  {
    if nodes != [] {
      var front := nodes[..|nodes| - 1];
      ExceptionsCharacterized(front);
      assert nodes == front + [nodes[|nodes| - 1]];
      SumInAppend(RaiseWeight, front, [nodes[|nodes| - 1]]);
      assert forall i :: 0 <= i < |front| ==> front[i] == nodes[i];
    }
  }

  /** The number of exceptions listed for a function is the number of
      `raise Name(...)` statements anywhere in its subtree. */
  lemma ExceptionCount(fn: Node)
    ensures |ExceptionsIn(Walk(fn))| == SumIn(RaiseWeight, Preorder(fn))
  {
    ExceptionsCharacterized(Walk(fn));
    SumWalk(RaiseWeight, fn);
  }

  lemma ExceptionsStep(walk: seq<Node>, i: nat)
    requires i < |walk|
    ensures ExceptionsIn(walk[..i + 1])
            == ExceptionsIn(walk[..i])
               + (if RaisesNamedCall(walk[i]) then [ExceptionInfo(walk[i].exc.value.func.id, None)] else [])
  {
    assert walk[..i + 1][..i] == walk[..i];
  }

  /** `_detect_exceptions`. */
  method DetectExceptions(fn: Node) returns (es: seq<ExceptionInfo>)
    ensures es == ExceptionsIn(Walk(fn))
  {
    var walk := Walk(fn);
    es := [];
    var i := 0;
    while i < |walk|
      invariant 0 <= i <= |walk|
      invariant es == ExceptionsIn(walk[..i])
    {
      var child := walk[i];
      ExceptionsStep(walk, i);
      if child.Raise? {
        if child.exc.Some? {
          if child.exc.value.Call? {
            if child.exc.value.func.Name? {
              es := es + [ExceptionInfo(child.exc.value.func.id, None)];
            }
          }
        }
      }
      i := i + 1;
    }
    assert walk[..i] == walk;
  }

  // ---------------------------------------------------------------------------
  // Complexity

  /** If, While, For, ExceptHandler, With, Assert and BoolOp each add a path. */
  predicate IsBranch(n: Node) {
    n.Block? && !n.kind.OtherKind?
  }

  function BranchWeight(n: Node): nat {
    if IsBranch(n) then 1 else 0
  }

  /** `_calculate_complexity`. */
  method CalculateComplexity(fn: Node) returns (c: int)
    ensures c == 1 + SumIn(BranchWeight, Walk(fn))
  {
    var walk := Walk(fn);
    c := 1;
    var i := 0;
    while i < |walk|
      invariant 0 <= i <= |walk|
      invariant c == 1 + SumIn(BranchWeight, walk[..i])
    {
      assert walk[..i + 1] == walk[..i] + [walk[i]];
      SumInAppend(BranchWeight, walk[..i], [walk[i]]);
      if IsBranch(walk[i]) {
        c := c + 1;
      }
      i := i + 1;
    }
    assert walk[..i] == walk;
  }

  /** Complexity counts the branching nodes of the whole subtree, so it is at
      least 1, and exactly 1 when the subtree has none. */
  lemma ComplexityCharacterized(fn: Node)
    ensures 1 + SumIn(BranchWeight, Walk(fn)) == 1 + SumIn(BranchWeight, Preorder(fn))
    ensures 1 + SumIn(BranchWeight, Walk(fn)) == 1 <==> forall x :: x in Preorder(fn) ==> !IsBranch(x)
  {
    SumWalk(BranchWeight, fn);
    SumInZero(BranchWeight, Preorder(fn));
  }

  // ---------------------------------------------------------------------------
  // Functions and classes

  /** The default shown for positional parameter `i`: the last `|defaults|`
      positional parameters take the defaults in order (package variant only). */
  function DefaultFor(v: Variant, lib: Library, fn: Node, i: nat): Option<string>
    requires fn.FunctionDef? && i < |fn.params|
  {
    if v == Package && |fn.defaults| > 0 && i >= |fn.params| - |fn.defaults| then
      Some(lib.source(fn.defaults[i - (|fn.params| - |fn.defaults|)]))
    else
      None
  }

  /** `_get_type_hint`: the unparsed annotation, if any. */
  function TypeHintOf(lib: Library, a: Param): Option<string> {
    if a.annotation.Some? then Some(lib.source(a.annotation.value)) else None
  }

  /** The record of positional parameter `i`. */
  function ParameterOf(v: Variant, lib: Library, fn: Node, walk: seq<Node>, i: nat): Parameter
    requires fn.FunctionDef? && i < |fn.params|
  {
    var a := fn.params[i];
    Parameter(a.arg, TypeHintOf(lib, a), DefaultFor(v, lib, fn, i), InferredName(v, walk, a.arg), None)
  }

  /** The records of the first `n` positional parameters. */
  function ParametersUpTo(v: Variant, lib: Library, fn: Node, walk: seq<Node>, n: nat): (ps: seq<Parameter>)
    requires fn.FunctionDef? && n <= |fn.params|
    ensures |ps| == n
  {
    if n == 0 then [] else ParametersUpTo(v, lib, fn, walk, n - 1) + [ParameterOf(v, lib, fn, walk, n - 1)]
  }

  function ParametersOf(v: Variant, lib: Library, fn: Node): (ps: seq<Parameter>)
    requires fn.FunctionDef?
    ensures |ps| == |fn.params|
  {
    ParametersUpTo(v, lib, fn, Walk(fn), |fn.params|)
  }

  lemma {:induction false} ParametersUpToIndex(v: Variant, lib: Library, fn: Node, walk: seq<Node>, n: nat, i: nat)
    requires fn.FunctionDef? && i < n <= |fn.params|
    ensures ParametersUpTo(v, lib, fn, walk, n)[i] == ParameterOf(v, lib, fn, walk, i)
  {
    if i < n - 1 {
      ParametersUpToIndex(v, lib, fn, walk, n - 1, i);
    }
  }

  /** Parameters come one per positional argument, in order; in the package
      variant parameter `i` has a default exactly when it is among the last
      `|defaults|`, and it is then `defaults[i - (|params| - |defaults|)]`; the
      app variant records no defaults. */
  lemma ParametersAligned(v: Variant, lib: Library, fn: Node, i: nat)
    requires fn.FunctionDef? && i < |fn.params|
    ensures ParametersOf(v, lib, fn)[i].name == fn.params[i].arg
    ensures ParametersOf(v, lib, fn)[i].defaultValue.Some?
            <==> v == Package && i + |fn.defaults| >= |fn.params|
    ensures ParametersOf(v, lib, fn)[i].defaultValue.Some? ==>
              ParametersOf(v, lib, fn)[i].defaultValue.value
              == lib.source(fn.defaults[i + |fn.defaults| - |fn.params|])
  {
    ParametersUpToIndex(v, lib, fn, Walk(fn), |fn.params|, i);
  }

  /** The unparsed decorators, in order. */
  function DecoratorsOf(lib: Library, ds: seq<Node>): seq<string> {
    if ds == [] then [] else DecoratorsOf(lib, ds[..|ds| - 1]) + [lib.source(ds[|ds| - 1])]
  }

  /** One entry per decorator, each its unparsed text. */
  lemma {:induction false} DecoratorsAligned(lib: Library, ds: seq<Node>)
    ensures |DecoratorsOf(lib, ds)| == |ds|
    ensures forall k :: 0 <= k < |ds| ==> DecoratorsOf(lib, ds)[k] == lib.source(ds[k])
    decreases |ds|
  {
    if ds != [] {
      DecoratorsAligned(lib, ds[..|ds| - 1]);
    }
  }

  /** `_analyze_function`'s record. */
  function FunctionContext(v: Variant, lib: Library, fn: Node): CodeContext
    requires fn.FunctionDef?
  {
    CodeContext(Function, fn.name, fn.name, ParametersOf(v, lib, fn),
                Some(ReturnsOf(lib, Walk(fn))), ExceptionsIn(Walk(fn)),
                lib.docstring(fn), lib.source(fn), fn.lineno,
                Some(1 + SumIn(BranchWeight, Walk(fn))), DecoratorsOf(lib, fn.decorators),
                fn.isAsync, None)
  }

  /** With a library that behaves as Python's, a function's record (and so
      each method record built from it) carries a docstring exactly when the
      body starts with a string statement, and the return type names every
      type collected. */
  lemma FunctionContextFromTree(v: Variant, lib: Library, fn: Node)
    requires ValidLibrary(lib) && fn.FunctionDef?
    ensures FunctionContext(v, lib, fn).existingDocstring.Some? <==> RawDocstring(fn.body).Some?
    ensures var ty := FunctionContext(v, lib, fn).returnInfo.value.inferredType;
            (ty.None? <==> ReturnTypes(lib, Walk(fn)) == {})
            && forall t :: t in ReturnTypes(lib, Walk(fn)) ==> Text.Contains(ty.value, t)
  {
  }

  /** `_analyze_function`: the parameter loop, then the four analyses. */
  method AnalyzeFunction(v: Variant, lib: Library, fn: Node) returns (ctx: CodeContext)
    requires fn.FunctionDef?
    ensures ctx == FunctionContext(v, lib, fn)
  {
    var parameters := AnalyzeParameters(v, lib, fn);
    var returnInfo := AnalyzeReturns(lib, fn);
    var raises := DetectExceptions(fn);
    var complexity := CalculateComplexity(fn);
    var decorators := DecoratorsOf(lib, fn.decorators);
    ctx := CodeContext(Function, fn.name, fn.name, parameters, Some(returnInfo), raises,
                       lib.docstring(fn), lib.source(fn), fn.lineno,
                       Some(complexity), decorators, fn.isAsync, None);
  }

  /** The parameter loop of `_analyze_function`. */
  method AnalyzeParameters(v: Variant, lib: Library, fn: Node) returns (parameters: seq<Parameter>)
    requires fn.FunctionDef?
    ensures parameters == ParametersOf(v, lib, fn)
  {
    ghost var walk := Walk(fn);
    parameters := [];
    var i := 0;
    while i < |fn.params|
      invariant 0 <= i <= |fn.params|
      invariant parameters == ParametersUpTo(v, lib, fn, walk, i)
    {
      var param := AnalyzeParameter(v, lib, fn, i);
      parameters := parameters + [param];
      i := i + 1;
    }
  }

  /** One iteration of the parameter loop: hint, inferred type, then the
      default (package variant only). */
  method AnalyzeParameter(v: Variant, lib: Library, fn: Node, i: nat) returns (param: Parameter)
    requires fn.FunctionDef? && i < |fn.params|
    ensures param == ParameterOf(v, lib, fn, Walk(fn), i)
  {
    var a := fn.params[i];
    var inferred := InferParameterType(v, fn, a.arg);
    param := Parameter(a.arg, TypeHintOf(lib, a), None, inferred, None);
    param := WithDefault(v, lib, fn, i, param);
  }

  /** The default check of the parameter loop: in the package variant, one of
      the last `|defaults|` parameters takes its default; otherwise the record
      is left as it is. */
  method WithDefault(v: Variant, lib: Library, fn: Node, i: nat, param: Parameter) returns (updated: Parameter)
    requires fn.FunctionDef? && i < |fn.params|
    ensures DefaultFor(v, lib, fn, i).Some? ==> updated == param.(defaultValue := DefaultFor(v, lib, fn, i))
    ensures DefaultFor(v, lib, fn, i).None? ==> updated == param
  {
    var args, defaults := fn.params, fn.defaults;
    updated := param;
    if v == Package && |defaults| > 0 {
      var defaultIndex := |args| - |defaults|;
      if i >= defaultIndex {
        updated := updated.(defaultValue := Some(lib.source(defaults[i - defaultIndex])));
      }
    }
  }

  /** The records a sequence of nodes yields, each node contributing `f(n)`
      in turn. */
  function FlatMap(f: Node -> seq<CodeContext>, nodes: seq<Node>): seq<CodeContext> {
    if nodes == [] then [] else FlatMap(f, nodes[..|nodes| - 1]) + f(nodes[|nodes| - 1])
  }

  /** The length of a flat map is the sum of the parts' lengths. */
  lemma {:induction false} FlatMapLength(f: Node -> seq<CodeContext>, nodes: seq<Node>)
    ensures |FlatMap(f, nodes)| == SumIn(n => |f(n)|, nodes)
    decreases |nodes|
  {
    if nodes != [] {
      var front, last := nodes[..|nodes| - 1], nodes[|nodes| - 1];
      FlatMapLength(f, front);
      assert nodes == front + [last];
      SumInAppend(n => |f(n)|, front, [last]);
    }
  }

  /** Visiting one more node appends its part. */
  lemma FlatMapStep(f: Node -> seq<CodeContext>, nodes: seq<Node>, i: nat)
    requires i < |nodes|
    ensures FlatMap(f, nodes[..i + 1]) == FlatMap(f, nodes[..i]) + f(nodes[i])
  {
    assert nodes[..i + 1][..i] == nodes[..i];
  }

  /** Every entry of a flat map comes from the part of one of the nodes. */
  lemma {:induction false} FlatMapOrigin(f: Node -> seq<CodeContext>, nodes: seq<Node>, k: nat)
    requires k < |FlatMap(f, nodes)|
    ensures exists i :: 0 <= i < |nodes| && FlatMap(f, nodes)[k] in f(nodes[i])
    decreases |nodes|
  {
    var front, last := nodes[..|nodes| - 1], nodes[|nodes| - 1];
    if k < |FlatMap(f, front)| {
      FlatMapOrigin(f, front, k);
      var i :| 0 <= i < |front| && FlatMap(f, front)[k] in f(front[i]);
      assert front[i] == nodes[i];
    } else {
      assert FlatMap(f, nodes)[k] == f(last)[k - |FlatMap(f, front)|];
    }
  }

  /** The records of the first `j` nodes come first. */
  lemma {:induction false} FlatMapPrefix(f: Node -> seq<CodeContext>, nodes: seq<Node>, j: nat)
    requires j <= |nodes|
    ensures |FlatMap(f, nodes[..j])| <= |FlatMap(f, nodes)|
    ensures FlatMap(f, nodes)[..|FlatMap(f, nodes[..j])|] == FlatMap(f, nodes[..j])
    decreases |nodes|
  {
    if j == |nodes| {
      assert nodes[..j] == nodes;
    } else {
      var front := nodes[..|nodes| - 1];
      assert front[..j] == nodes[..j];
      FlatMapPrefix(f, front, j);
    }
  }

  /** Each node's part appears whole in the flat map, right after the parts
      of the nodes before it. */
  lemma FlatMapPart(f: Node -> seq<CodeContext>, nodes: seq<Node>, i: nat)
    requires i < |nodes|
    ensures var off := |FlatMap(f, nodes[..i])|;
            off + |f(nodes[i])| <= |FlatMap(f, nodes)|
            && FlatMap(f, nodes)[off..off + |f(nodes[i])|] == f(nodes[i])
  {
    FlatMapStep(f, nodes, i);
    FlatMapPrefix(f, nodes, i + 1);
    var off := |FlatMap(f, nodes[..i])|;
    var upto := FlatMap(f, nodes[..i + 1]);
    assert FlatMap(f, nodes)[off..off + |f(nodes[i])|] == upto[off..];
  }

  /** A method's record: the function record, retyped and qualified by its class. */
  function MethodContext(v: Variant, lib: Library, className: string, item: Node): (c: CodeContext)
    requires item.FunctionDef?
    ensures IsMethodRecord(className, c)
  {
    FunctionContext(v, lib, item).(
      elementType := if item.name == "__init__" then Constructor else Method,
      qualifiedName := className + "." + item.name)
  }

  /** `__init__` is the constructor, every other method a method, and the
      qualified name is the class name, a dot and the method name. */
  predicate IsMethodRecord(className: string, c: CodeContext) {
    (c.elementType == Constructor <==> c.name == "__init__")
    && (c.elementType == Constructor || c.elementType == Method)
    && c.qualifiedName == className + "." + c.name
  }

  /** What one item of a class body contributes: a record if it is a function. */
  function ItemContexts(v: Variant, lib: Library, className: string, item: Node): seq<CodeContext> {
    if item.FunctionDef? then [MethodContext(v, lib, className, item)] else []
  }

  /** The records of the methods among `items`, in order. */
  function MethodContexts(v: Variant, lib: Library, className: string, items: seq<Node>): seq<CodeContext> {
    FlatMap(item => ItemContexts(v, lib, className, item), items)
  }

  function FunctionWeight(n: Node): nat {
    if n.FunctionDef? then 1 else 0
  }

  /** One record per function in the class body, in order; `__init__` is the
      constructor, every other one a method, each qualified by the class name;
      the class itself has no record. */
  lemma MethodContextsCharacterized(v: Variant, lib: Library, className: string, items: seq<Node>)
    ensures |MethodContexts(v, lib, className, items)| == SumIn(FunctionWeight, items)
    ensures forall k :: 0 <= k < |MethodContexts(v, lib, className, items)| ==>
              IsMethodRecord(className, MethodContexts(v, lib, className, items)[k])
  {
    MethodContextsCount(v, lib, className, items);
    forall k | 0 <= k < |MethodContexts(v, lib, className, items)|
      ensures IsMethodRecord(className, MethodContexts(v, lib, className, items)[k])
    {
      MethodContextIsMethod(v, lib, className, items, k);
    }
  }

  lemma MethodContextsCount(v: Variant, lib: Library, className: string, items: seq<Node>)
    ensures |MethodContexts(v, lib, className, items)| == SumIn(FunctionWeight, items)
  {
    var f := item => ItemContexts(v, lib, className, item);
    FlatMapLength(f, items);
    SumInCongruent(n => |f(n)|, FunctionWeight, items);
  }

  lemma MethodContextIsMethod(v: Variant, lib: Library, className: string, items: seq<Node>, k: nat)
    requires k < |MethodContexts(v, lib, className, items)|
    ensures IsMethodRecord(className, MethodContexts(v, lib, className, items)[k])
  {
    var f := item => ItemContexts(v, lib, className, item);
    FlatMapOrigin(f, items, k);
    var i :| 0 <= i < |items| && FlatMap(f, items)[k] in f(items[i]);
    assert FlatMap(f, items)[k] in ItemContexts(v, lib, className, items[i]);
  }

  /** `_analyze_class`. */
  method AnalyzeClass(v: Variant, lib: Library, node: Node) returns (contexts: seq<CodeContext>)
    requires node.ClassDef?
    ensures contexts == MethodContexts(v, lib, node.name, node.body)
  {
    contexts := [];
    var i := 0;
    while i < |node.body|
      invariant 0 <= i <= |node.body|
      invariant contexts == MethodContexts(v, lib, node.name, node.body[..i])
    {
      var more := AnalyzeItem(v, lib, node.name, node.body[i]);
      FlatMapStep(item => ItemContexts(v, lib, node.name, item), node.body, i);
      contexts := contexts + more;
      i := i + 1;
    }
    assert node.body[..i] == node.body;
  }

  /** One iteration of `_analyze_class`: a function item is analyzed, then
      retyped and qualified. */
  method AnalyzeItem(v: Variant, lib: Library, className: string, item: Node) returns (more: seq<CodeContext>)
    ensures more == ItemContexts(v, lib, className, item)
  {
    more := [];
    if item.FunctionDef? {
      var methodContext := AnalyzeFunction(v, lib, item);
      methodContext := methodContext.(elementType := if item.name == "__init__" then Constructor else Method);
      methodContext := methodContext.(qualifiedName := className + "." + item.name);
      more := [methodContext];
    }
  }

  /** The records one visited node contributes. */
  function NodeContexts(v: Variant, lib: Library, n: Node): seq<CodeContext> {
    if n.FunctionDef? then [FunctionContext(v, lib, n)]
    else if n.ClassDef? then MethodContexts(v, lib, n.name, n.body)
    else []
  }

  /** The records after visiting `nodes`. */
  function ContextsOf(v: Variant, lib: Library, nodes: seq<Node>): seq<CodeContext> {
    FlatMap(n => NodeContexts(v, lib, n), nodes)
  }

  /** `analyze` over an already parsed module. */
  method Analyze(v: Variant, lib: Library, tree: Node) returns (contexts: seq<CodeContext>)
    ensures contexts == ContextsOf(v, lib, Walk(tree))
  {
    var walk := Walk(tree);
    contexts := AnalyzeNodes(v, lib, n => NodeContexts(v, lib, n), walk);
  }

  /** The loop of `analyze` over the visited nodes, proved for any `records`
      that gives each node's records. */
  method AnalyzeNodes(v: Variant, lib: Library, ghost records: Node -> seq<CodeContext>, walk: seq<Node>)
    returns (contexts: seq<CodeContext>)
    requires forall n {:trigger NodeContexts(v, lib, n)} :: records(n) == NodeContexts(v, lib, n)
    ensures contexts == FlatMap(records, walk)
  {
    contexts := [];
    var i := 0;
    while i < |walk|
      invariant 0 <= i <= |walk|
      invariant contexts == FlatMap(records, walk[..i])
    {
      var more := AnalyzeNode(v, lib, records, walk[i]);
      FlatMapStep(records, walk, i);
      contexts := contexts + more;
      i := i + 1;
    }
    assert walk[..i] == walk;
  }

  /** One iteration of `analyze`: a function's record, or its class's method
      records, or nothing. */
  method AnalyzeNode(v: Variant, lib: Library, ghost records: Node -> seq<CodeContext>, node: Node)
    returns (more: seq<CodeContext>)
    requires forall n {:trigger NodeContexts(v, lib, n)} :: records(n) == NodeContexts(v, lib, n)
    ensures more == records(node)
  {
    if node.FunctionDef? {
      var context := AnalyzeFunction(v, lib, node);
      more := [context];
    } else if node.ClassDef? {
      more := AnalyzeClass(v, lib, node);
    } else {
      more := [];
    }
    assert more == NodeContexts(v, lib, node);
  }

  /** How many records one node yields: one per function, and one per method
      of a class (the methods are also reached by the walk on their own). */
  function RecordWeight(n: Node): nat {
    if n.FunctionDef? then 1 else if n.ClassDef? then SumIn(FunctionWeight, n.body) else 0
  }

  lemma NodeContextsCount(v: Variant, lib: Library, n: Node)
    ensures |NodeContexts(v, lib, n)| == RecordWeight(n)
  {
    if n.ClassDef? {
      MethodContextsCharacterized(v, lib, n.name, n.body);
    }
  }

  /** The number of records is fixed by the tree alone: one per function
      definition anywhere in it, plus one more per function directly in a
      class body. */
  lemma RecordCount(v: Variant, lib: Library, tree: Node)
    ensures |ContextsOf(v, lib, Walk(tree))| == SumIn(RecordWeight, Preorder(tree))
  {
    var walk := Walk(tree);
    var f := n => NodeContexts(v, lib, n);
    assert ContextsOf(v, lib, walk) == FlatMap(f, walk);
    FlatMapLength(f, walk);
    var g := n => |f(n)|;
    forall n ensures g(n) == RecordWeight(n) {
      NodeContextsCount(v, lib, n);
    }
    SumInCongruent(g, RecordWeight, walk);
    SumWalk(RecordWeight, tree);
  }

  /** Conversely, every node's records appear in the result, together and
      in walk order: after the records of the nodes visited before it. */
  lemma NodeContextsAppear(v: Variant, lib: Library, nodes: seq<Node>, i: nat)
    requires i < |nodes|
    ensures var all, before, own := ContextsOf(v, lib, nodes), ContextsOf(v, lib, nodes[..i]), NodeContexts(v, lib, nodes[i]);
            |before| + |own| <= |all| && all[|before|..|before| + |own|] == own
  {
    FlatMapPart(n => NodeContexts(v, lib, n), nodes, i);
  }

  /** Every record comes from a node the walk reaches: a function's own
      record, or a method's record from its class. */
  lemma ContextsComeFromNodes(v: Variant, lib: Library, nodes: seq<Node>, k: nat)
    requires k < |ContextsOf(v, lib, nodes)|
    ensures exists i :: 0 <= i < |nodes| && ContextsOf(v, lib, nodes)[k] in NodeContexts(v, lib, nodes[i])
  {
    FlatMapOrigin(n => NodeContexts(v, lib, n), nodes, k);
  }
}
