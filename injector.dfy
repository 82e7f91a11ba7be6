/** `DocstringInjector` of docstring_agent/core/docstring_injector.py and of
    app/tools.py.  The two differ only in the printer they call at the end
    (`astor.to_source` and `ast.unparse`); parsing and printing are not part
    of this model, so the injector takes the parsed tree and returns the
    edited one. */
module Injector {
  import opened Wrappers
  import opened Models
  import opened Syntax

  /** `{r.element_name: r.generated_docstring for r in results}`: a later
      result for a name overwrites an earlier one. */
  function DocstringMap(results: seq<DocstringResult>): map<string, string> {
    if results == [] then map[]
    else
      var last := results[|results| - 1];
      DocstringMap(results[..|results| - 1])[last.elementName := last.generatedDocstring]
  }

  /** A name is in the map exactly when some result carries it, and it maps
      to the text of the last result that does. */
  lemma {:induction false} DocstringMapLastWins(results: seq<DocstringResult>)
    ensures forall name :: name in DocstringMap(results)
                           <==> exists i :: 0 <= i < |results| && results[i].elementName == name
    ensures forall i :: 0 <= i < |results|
                        && (forall k :: i < k < |results| ==> results[k].elementName != results[i].elementName)
                        ==> DocstringMap(results)[results[i].elementName] == results[i].generatedDocstring
    decreases |results|
  {
    if results != [] {
      var front := results[..|results| - 1];
      DocstringMapLastWins(front);
      assert forall i :: 0 <= i < |front| ==> front[i] == results[i];
      forall name | name in DocstringMap(results)
        ensures exists i :: 0 <= i < |results| && results[i].elementName == name
      {
        if name != results[|results| - 1].elementName {
          var i :| 0 <= i < |front| && front[i].elementName == name;
          assert results[i].elementName == name;
        }
      }
    }
  }

  /** The statement `_add_docstring` puts first: an expression holding the
      text as a string constant. */
  function DocstringStatement(doc: string): Node {
    Expr(Constant(StrLit(doc)))
  }

  /** A body after `_add_docstring`. */
  function WithDocstring(body: seq<Node>, doc: string): seq<Node> {
    [DocstringStatement(doc)] + if RawDocstring(body).Some? then body[1..] else body
  }

  /** `_add_docstring` on the body it edits in place: `pop(0)` when the body
      starts with a string-constant statement, then `insert(0, ...)`. */
  method AddDocstring(body: seq<Node>, doc: string) returns (edited: seq<Node>)
    ensures edited == WithDocstring(body, doc)
  {
    edited := body;
    if |edited| > 0 && edited[0].Expr? && edited[0].expr.Constant? && edited[0].expr.lit.StrLit? {
      edited := edited[1..];
    }
    edited := [DocstringStatement(doc)] + edited;
  }

  /** Afterwards the body's docstring is exactly the given text; the body
      grows by one statement only when it had no string statement first,
      and the other statements keep their order.  A leading constant that is
      not a string stays, right after the new docstring. */
  lemma WithDocstringShape(body: seq<Node>, doc: string)
    ensures var r := WithDocstring(body, doc);
            && RawDocstring(r) == Some(doc)
            && |r| == (if RawDocstring(body).Some? then |body| else |body| + 1)
            && (RawDocstring(body).Some? ==> r[1..] == body[1..])
            && (RawDocstring(body).None? ==> r[1..] == body)
            && (|body| > 0 && body[0].Expr? && body[0].expr.Constant? && body[0].expr.lit.OtherLit? ==> r[1] == body[0])
  {
    var r := WithDocstring(body, doc);
    assert r[0] == DocstringStatement(doc);
  }

  /** A second edit replaces the first one's text: editing twice with the
      same text is editing once, and an earlier docstring is gone. */
  lemma WithDocstringTwice(body: seq<Node>, first: string, second: string)
    ensures WithDocstring(WithDocstring(body, first), second) == WithDocstring(body, second)
  {
    var once := WithDocstring(body, first);
    assert RawDocstring(once).Some?;
    assert once[1..] == if RawDocstring(body).Some? then body[1..] else body;
  }

  /** The tree after the walk of `inject_docstrings`: every `def`,
      `async def` and `class` at any depth whose name is in the map has its
      body edited, and nothing else changes.  The walk queues a node's
      children before editing it and the edit only moves statements that
      are not definitions, so every definition of the original tree is
      reached, whether or not an enclosing one was edited. */
  function Injected(n: Node, m: map<string, string>): Node
    decreases n
  {
    match n
    case Module(body) => Module(InjectedSeq(body, m))
    case FunctionDef(name, ps, others, defaults, body, decorators, ann, isAsync, lineno) =>
      FunctionDef(name, InjectedParams(ps, m), InjectedSeq(others, m), InjectedSeq(defaults, m),
                  Edited(name, InjectedSeq(body, m), m), InjectedSeq(decorators, m), InjectedOpt(ann, m),
                  isAsync, lineno)
    case ClassDef(name, bases, keywords, body, decorators, lineno) =>
      ClassDef(name, InjectedSeq(bases, m), InjectedSeq(keywords, m), Edited(name, InjectedSeq(body, m), m),
               InjectedSeq(decorators, m), lineno)
    case Return(v) => Return(InjectedOpt(v, m))
    case Raise(e, c) => Raise(InjectedOpt(e, m), InjectedOpt(c, m))
    case Expr(v) => Expr(Injected(v, m))
    case Constant(_) => n
    case Name(_) => n
    case Attribute(b, attr) => Attribute(Injected(b, m), attr)
    case BinOp(l, op, r) => BinOp(Injected(l, m), op, Injected(r, m))
    case Call(f, args, kws) => Call(Injected(f, m), InjectedSeq(args, m), InjectedSeq(kws, m))
    case Tuple(elts) => Tuple(InjectedSeq(elts, m))
    case Yield(v) => Yield(InjectedOpt(v, m))
    case Block(kind, cs) => Block(kind, InjectedSeq(cs, m))
  }

  /** A definition's body, edited when its name is in the map. */
  function Edited(name: string, body: seq<Node>, m: map<string, string>): seq<Node> {
    if name in m then WithDocstring(body, m[name]) else body
  }

  function InjectedSeq(s: seq<Node>, m: map<string, string>): (r: seq<Node>)
    ensures |r| == |s|
    decreases s
  {
    if s == [] then [] else [Injected(s[0], m)] + InjectedSeq(s[1..], m)
  }

  function InjectedOpt(o: Option<Node>, m: map<string, string>): Option<Node>
    decreases o
  {
    if o.Some? then Some(Injected(o.value, m)) else None
  }

  function InjectedParams(ps: seq<Param>, m: map<string, string>): seq<Param>
    decreases ps
  {
    if ps == [] then [] else [Param(ps[0].arg, InjectedOpt(ps[0].annotation, m))] + InjectedParams(ps[1..], m)
  }

  /** `inject_docstrings` on the parsed tree. */
  method InjectDocstrings(tree: Node, results: seq<DocstringResult>) returns (edited: Node)
    ensures edited == Injected(tree, DocstringMap(results))
  {
    var m: map<string, string> := map[];
    var i := 0;
    while i < |results|
      invariant 0 <= i <= |results|
      invariant m == DocstringMap(results[..i])
    {
      assert results[..i + 1][..i] == results[..i];
      m := m[results[i].elementName := results[i].generatedDocstring];
      i := i + 1;
    }
    assert results[..|results|] == results;
    edited := Injected(tree, m);
  }

  /** A definition whose name is in the map. */
  predicate Targeted(m: map<string, string>, x: Node) {
    IsDefinition(x) && x.name in m
  }

  /** A targeted definition whose docstring is the map's text for its name. */
  predicate Documented(m: map<string, string>, x: Node) {
    Targeted(m, x) ==> RawDocstring(x.body) == Some(m[x.name])
  }

  /** A tree in which the walk meets no definition named in the map comes
      back unchanged. */
  lemma UntouchedWithoutMatch(n: Node, m: map<string, string>)
    requires forall x :: x in Walk(n) ==> !Targeted(m, x)
    ensures Injected(n, m) == n
  {
    EverywhereWalk((x: Node) => !Targeted(m, x), n);
    Untouched(n, m);
  }

  /** Every definition the walk meets in the edited tree whose name is in
      the map carries that name's text as its docstring. */
  lemma EveryMatchEdited(n: Node, m: map<string, string>)
    ensures forall x :: x in Walk(Injected(n, m)) ==> Documented(m, x)
  {
    AllDocumented(n, m);
    EverywhereWalk((x: Node) => Documented(m, x), Injected(n, m));
  }

  /** What the walk makes of a definition: a definition of the same name
      whose docstring is the map's text when the name is mapped, and its
      own docstring otherwise. */
  predicate EditedDefinition(m: map<string, string>, y: Node, e: Node) {
    IsDefinition(y) && IsDefinition(e) && e.name == y.name
    && RawDocstring(e.body) == (if y.name in m then Some(m[y.name]) else RawDocstring(y.body))
  }

  /** Every definition of the original tree, at any depth, is still met by
      the walk of the edited tree, edited when its name is mapped and with
      its docstring kept when it is not. */
  lemma DefinitionsKept(n: Node, m: map<string, string>)
    ensures forall y :: y in Walk(n) && IsDefinition(y) ==>
              Injected(y, m) in Walk(Injected(n, m)) && EditedDefinition(m, y, Injected(y, m))
  {
    WalkMembers(n);
    WalkMembers(Injected(n, m));
    DefinitionsKeptPreorder(n, m);
    forall y | IsDefinition(y)
      ensures EditedDefinition(m, y, Injected(y, m))
    {
      InjectedDefinition(y, m);
    }
  }

  lemma InjectedDefinition(y: Node, m: map<string, string>)
    requires IsDefinition(y)
    ensures EditedDefinition(m, y, Injected(y, m))
  {
    InjectedKeepsDocstring(y.body, m);
    if y.name in m {
      WithDocstringShape(InjectedSeq(y.body, m), m[y.name]);
    }
  }

  /** The walk's edits below a body never add or remove its leading string
      statement. */
  lemma InjectedKeepsDocstring(body: seq<Node>, m: map<string, string>)
    ensures RawDocstring(InjectedSeq(body, m)) == RawDocstring(body)
  {
    if body != [] {
      InjectedStringStatement(body[0], m);
      assert InjectedSeq(body, m)[0] == Injected(body[0], m);
    }
  }

  lemma InjectedStringStatement(x: Node, m: map<string, string>)
    ensures IsStringStatement(Injected(x, m)) <==> IsStringStatement(x)
    ensures IsStringStatement(x) ==> Injected(x, m) == x
  {
    if x.Expr? {
      assert Injected(x, m) == Expr(Injected(x.expr, m));
    }
  }

  lemma {:induction false} DefinitionsKeptPreorder(n: Node, m: map<string, string>)
    ensures forall y :: y in Preorder(n) && IsDefinition(y) ==> Injected(y, m) in Preorder(Injected(n, m))
    decreases n
  {
    PreorderMembers(n);
    PreorderMembers(Injected(n, m));
    forall y | y in Preorder(n) && IsDefinition(y)
      ensures Injected(y, m) in Preorder(Injected(n, m))
    {
      if y != n {
        var c :| c in Children(n) && y in Preorder(c);
        StringStatementHoldsNoDefinition(c);
        DefinitionsKeptPreorder(c, m);
        ChildKept(n, m, c);
      }
    }
  }

  lemma StringStatementHoldsNoDefinition(c: Node)
    ensures IsStringStatement(c) ==> forall y :: y in Preorder(c) ==> !IsDefinition(y)
  {
    if IsStringStatement(c) {
      PreorderMembers(c);
      PreorderMembers(c.expr);
      assert Children(c) == [c.expr] && Children(c.expr) == [];
    }
  }

  /** A child that is not a string statement stays a child: only a leading
      docstring statement is ever removed. */
  lemma ChildKept(n: Node, m: map<string, string>, c: Node)
    requires c in Children(n) && !IsStringStatement(c)
    ensures Injected(c, m) in Children(Injected(n, m))
  {
    if IsDefinition(n) {
      DefinitionChildKept(n, m, c);
    } else {
      OtherChildKept(n, m, c);
    }
  }

  lemma OtherChildKept(n: Node, m: map<string, string>, c: Node)
    requires !IsDefinition(n) && c in Children(n)
    ensures Injected(c, m) in Children(Injected(n, m))
  {
    if n.Module? || n.Call? || n.Tuple? || n.Block? {
      ListChildKept(n, m, c);
    } else if n.Return? || n.Raise? || n.Yield? {
      OptChildKept(n, m, c);
    } else {
      match n
      case Expr(v) =>
      case Attribute(b, _) =>
      case BinOp(l, _, r) =>
    }
  }

  lemma ListChildKept(n: Node, m: map<string, string>, c: Node)
    requires (n.Module? || n.Call? || n.Tuple? || n.Block?) && c in Children(n)
    ensures Injected(c, m) in Children(Injected(n, m))
  {
    match n
    case Module(body) =>
      InjectedSeqHas(body, m);
    case Call(f, args, kws) =>
      InjectedSeqHas(args, m);
      InjectedSeqHas(kws, m);
    case Tuple(elts) =>
      InjectedSeqHas(elts, m);
    case Block(kind, cs) =>
      InjectedSeqHas(cs, m);
  }

  lemma OptChildKept(n: Node, m: map<string, string>, c: Node)
    requires (n.Return? || n.Raise? || n.Yield?) && c in Children(n)
    ensures Injected(c, m) in Children(Injected(n, m))
  {
    match n
    case Return(v) =>
      OptHas(v, m);
    case Raise(e, cause) =>
      OptHas(e, m);
      OptHas(cause, m);
    case Yield(v) =>
      OptHas(v, m);
  }

  lemma OptHas(o: Option<Node>, m: map<string, string>)
    ensures forall c :: c in OptList(o) ==> Injected(c, m) in OptList(InjectedOpt(o, m))
  {
  }

  lemma DefinitionChildKept(n: Node, m: map<string, string>, c: Node)
    requires IsDefinition(n) && c in Children(n) && !IsStringStatement(c)
    ensures Injected(c, m) in Children(Injected(n, m))
  {
    InjectedStringStatement(c, m);
    InjectedSeqHas(n.body, m);
    EditedKeeps(n.name, InjectedSeq(n.body, m), m);
    if n.FunctionDef? {
      var FunctionDef(name, ps, others, defaults, body, decorators, ann, _, _) := n;
      InjectedParamsHas(ps, m);
      InjectedSeqHas(others, m);
      InjectedSeqHas(defaults, m);
      InjectedSeqHas(decorators, m);
    } else {
      var ClassDef(name, bases, keywords, body, decorators, _) := n;
      InjectedSeqHas(bases, m);
      InjectedSeqHas(keywords, m);
      InjectedSeqHas(decorators, m);
    }
  }

  lemma EditedKeeps(name: string, body: seq<Node>, m: map<string, string>)
    ensures forall y :: y in body && !IsStringStatement(y) ==> y in Edited(name, body, m)
  {
    if name in m && RawDocstring(body).Some? {
      forall y | y in body && !IsStringStatement(y)
        ensures y in body[1..]
      {
        var i :| 0 <= i < |body| && body[i] == y;
        assert body[1..][i - 1] == y;
      }
    }
  }

  lemma {:induction false} InjectedSeqHas(s: seq<Node>, m: map<string, string>)
    ensures forall c :: c in s ==> Injected(c, m) in InjectedSeq(s, m)
    decreases |s|
  {
    if s != [] {
      InjectedSeqHas(s[1..], m);
      assert forall c :: c in s ==> c == s[0] || c in s[1..];
    }
  }

  lemma {:induction false} InjectedParamsHas(ps: seq<Param>, m: map<string, string>)
    ensures forall c :: c in Annotations(ps) ==> Injected(c, m) in Annotations(InjectedParams(ps, m))
    decreases |ps|
  {
    if ps != [] {
      var q := InjectedParams(ps, m);
      assert q[0].annotation == InjectedOpt(ps[0].annotation, m);
      assert q[1..] == InjectedParams(ps[1..], m);
      assert Annotations(q) == OptList(q[0].annotation) + Annotations(q[1..]);
      assert Annotations(ps) == OptList(ps[0].annotation) + Annotations(ps[1..]);
      InjectedParamsHas(ps[1..], m);
    }
  }

  lemma {:induction false} Untouched(n: Node, m: map<string, string>)
    requires Everywhere((x: Node) => !Targeted(m, x), n)
    ensures Injected(n, m) == n
    decreases n
  {
    forall c | c in Children(n)
      ensures Injected(c, m) == c
    {
      Untouched(c, m);
    }
    match n
    case Module(body) =>
      SeqFixed(body, m);
    case FunctionDef(name, ps, others, defaults, body, decorators, ann, isAsync, lineno) =>
      ParamsFixed(ps, m);
      SeqFixed(others, m);
      SeqFixed(defaults, m);
      SeqFixed(body, m);
      SeqFixed(decorators, m);
      OptFixed(ann, m);
    case ClassDef(name, bases, keywords, body, decorators, lineno) =>
      SeqFixed(bases, m);
      SeqFixed(keywords, m);
      SeqFixed(body, m);
      SeqFixed(decorators, m);
    case Call(f, args, kws) =>
      SeqFixed(args, m);
      SeqFixed(kws, m);
    case Tuple(elts) =>
      SeqFixed(elts, m);
    case Block(kind, cs) =>
      SeqFixed(cs, m);
    case Return(v) =>
      OptFixed(v, m);
    case Raise(e, c) =>
      OptFixed(e, m);
      OptFixed(c, m);
    case Yield(v) =>
      OptFixed(v, m);
    case _ =>
  }

  lemma OptFixed(o: Option<Node>, m: map<string, string>)
    requires forall c :: c in OptList(o) ==> Injected(c, m) == c
    ensures InjectedOpt(o, m) == o
  {
    if o.Some? {
      assert o.value in OptList(o);
    }
  }

  lemma {:induction false} SeqFixed(s: seq<Node>, m: map<string, string>)
    requires forall c :: c in s ==> Injected(c, m) == c
    ensures InjectedSeq(s, m) == s
    decreases |s|
  {
    if s != [] {
      SeqFixed(s[1..], m);
    }
  }

  lemma {:induction false} ParamsFixed(ps: seq<Param>, m: map<string, string>)
    requires forall c :: c in Annotations(ps) ==> Injected(c, m) == c
    ensures InjectedParams(ps, m) == ps
    decreases |ps|
  {
    if ps != [] {
      assert Annotations(ps) == OptList(ps[0].annotation) + Annotations(ps[1..]);
      OptFixed(ps[0].annotation, m);
      ParamsFixed(ps[1..], m);
    }
  }

  lemma {:induction false} AllDocumented(n: Node, m: map<string, string>)
    ensures Everywhere((x: Node) => Documented(m, x), Injected(n, m))
    decreases n
  {
    var P := (x: Node) => Documented(m, x);
    forall c | c in Children(n)
      ensures Everywhere(P, Injected(c, m))
    {
      AllDocumented(c, m);
    }
    forall d: string
      ensures Everywhere(P, DocstringStatement(d))
    {
      assert Everywhere(P, Constant(StrLit(d)));
    }
    forall y | y in Children(Injected(n, m))
      ensures Everywhere(P, y)
    {
      ChildOfInjected(n, m, y);
    }
    if n.FunctionDef? || n.ClassDef? {
      WithDocstringShape(InjectedSeq(n.body, m), if n.name in m then m[n.name] else "");
    }
  }

  /** Every child of an edited node is an edited child of the original, or
      an inserted docstring. */
  lemma ChildOfInjected(n: Node, m: map<string, string>, y: Node)
    requires y in Children(Injected(n, m))
    ensures (exists c :: c in Children(n) && y == Injected(c, m)) || exists d :: y == DocstringStatement(d)
  {
    if n.FunctionDef? {
      ChildOfInjectedFunction(n, m, y);
    } else if n.ClassDef? {
      ChildOfInjectedClass(n, m, y);
    } else {
      ChildOfInjectedOther(n, m, y);
    }
  }

  lemma ChildOfInjectedFunction(n: Node, m: map<string, string>, y: Node)
    requires n.FunctionDef? && y in Children(Injected(n, m))
    ensures (exists c :: c in Children(n) && y == Injected(c, m)) || exists d :: y == DocstringStatement(d)
  {
    var FunctionDef(name, ps, others, defaults, body, decorators, ann, isAsync, lineno) := n;
    var kids := Children(n);
    assert kids == Annotations(ps) + others + defaults + body + decorators + OptList(ann);
    if y in Annotations(InjectedParams(ps, m)) {
      ParamsMembers(ps, m);
      var c :| c in Annotations(ps) && y == Injected(c, m);
      assert c in kids;
    } else if y in InjectedSeq(others, m) {
      var c := SeqWitness(others, m, y);
      assert c in kids;
    } else if y in InjectedSeq(defaults, m) {
      var c := SeqWitness(defaults, m, y);
      assert c in kids;
    } else if y in Edited(name, InjectedSeq(body, m), m) {
      EditedMembers(name, InjectedSeq(body, m), m);
      if y in InjectedSeq(body, m) {
        var c := SeqWitness(body, m, y);
        assert c in kids;
      }
    } else if y in InjectedSeq(decorators, m) {
      var c := SeqWitness(decorators, m, y);
      assert c in kids;
    } else {
      OptMembers(ann, m);
      assert ann.value in kids;
    }
  }

  lemma ChildOfInjectedClass(n: Node, m: map<string, string>, y: Node)
    requires n.ClassDef? && y in Children(Injected(n, m))
    ensures (exists c :: c in Children(n) && y == Injected(c, m)) || exists d :: y == DocstringStatement(d)
  {
    var ClassDef(name, bases, keywords, body, decorators, lineno) := n;
    var kids := Children(n);
    assert kids == bases + keywords + body + decorators;
    if y in InjectedSeq(bases, m) {
      var c := SeqWitness(bases, m, y);
      assert c in kids;
    } else if y in InjectedSeq(keywords, m) {
      var c := SeqWitness(keywords, m, y);
      assert c in kids;
    } else if y in Edited(name, InjectedSeq(body, m), m) {
      EditedMembers(name, InjectedSeq(body, m), m);
      if y in InjectedSeq(body, m) {
        var c := SeqWitness(body, m, y);
        assert c in kids;
      }
    } else {
      var c := SeqWitness(decorators, m, y);
      assert c in kids;
    }
  }

  lemma SeqWitness(s: seq<Node>, m: map<string, string>, y: Node) returns (c: Node)
    requires y in InjectedSeq(s, m)
    ensures c in s && y == Injected(c, m)
  {
    SeqMembers(s, m);
    c :| c in s && y == Injected(c, m);
  }

  lemma ChildOfInjectedOther(n: Node, m: map<string, string>, y: Node)
    requires !IsDefinition(n) && y in Children(Injected(n, m))
    ensures exists c :: c in Children(n) && y == Injected(c, m)
  {
    match n
    case Module(body) =>
      SeqMembers(body, m);
    case Call(f, args, kws) =>
      if y != Injected(f, m) {
        if y in InjectedSeq(args, m) {
          SeqMembers(args, m);
        } else {
          SeqMembers(kws, m);
        }
      }
    case Tuple(elts) =>
      SeqMembers(elts, m);
    case Block(kind, cs) =>
      SeqMembers(cs, m);
    case Return(v) =>
      OptMembers(v, m);
    case Raise(e, cause) =>
      if y in OptList(InjectedOpt(e, m)) {
        OptMembers(e, m);
      } else {
        OptMembers(cause, m);
      }
    case Yield(v) =>
      OptMembers(v, m);
    case Expr(v) =>
      assert v in Children(n);
    case Attribute(b, attr) =>
      assert b in Children(n);
    case BinOp(l, op, r) =>
      assert l in Children(n) && r in Children(n);
  }

  lemma OptMembers(o: Option<Node>, m: map<string, string>)
    ensures forall y :: y in OptList(InjectedOpt(o, m)) ==> o.Some? && o.value in OptList(o) && y == Injected(o.value, m)
  {
  }

  lemma {:induction false} SeqMembers(s: seq<Node>, m: map<string, string>)
    ensures forall y :: y in InjectedSeq(s, m) ==> exists c :: c in s && y == Injected(c, m)
    decreases |s|
  {
    if s != [] {
      SeqMembers(s[1..], m);
      assert s[0] in s && forall c :: c in s[1..] ==> c in s;
    }
  }

  lemma {:induction false} ParamsMembers(ps: seq<Param>, m: map<string, string>)
    ensures forall y :: y in Annotations(InjectedParams(ps, m)) ==> exists c :: c in Annotations(ps) && y == Injected(c, m)
    decreases |ps|
  {
    if ps != [] {
      var q := InjectedParams(ps, m);
      assert q[0].annotation == InjectedOpt(ps[0].annotation, m);
      assert q[1..] == InjectedParams(ps[1..], m);
      assert Annotations(q) == OptList(q[0].annotation) + Annotations(q[1..]);
      assert Annotations(ps) == OptList(ps[0].annotation) + Annotations(ps[1..]);
      forall y | y in Annotations(q)
        ensures exists c :: c in Annotations(ps) && y == Injected(c, m)
      {
        if y in OptList(q[0].annotation) {
          OptMembers(ps[0].annotation, m);
          assert ps[0].annotation.value in Annotations(ps);
        } else {
          ParamsMembers(ps[1..], m);
          var c :| c in Annotations(ps[1..]) && y == Injected(c, m);
          assert c in Annotations(ps);
        }
      }
    }
  }

  lemma EditedMembers(name: string, body: seq<Node>, m: map<string, string>)
    ensures forall y :: y in Edited(name, body, m) ==> y in body || (name in m && y == DocstringStatement(m[name]))
  {
    if name in m {
      WithDocstringShape(body, m[name]);
    }
  }
}
