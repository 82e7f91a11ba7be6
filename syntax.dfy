/** The slice of Python's syntax tree that the analyzer and the injector look at,
    and `ast.walk` over it.

    Every statement and expression kind the core distinguishes has its own
    constructor; every other kind is a `Block` carrying its tag and its child
    nodes in the order Python's `_fields` lists them.  The `arguments`, `arg`
    and `keyword` wrapper nodes are folded into their parents: their
    expressions become the parent's children directly.  They hold no
    statements, so the order in which the walk meets statements is the same.
    Operator and load/store marker nodes, which have no children, are
    dropped. */
module Syntax {
  import opened Wrappers

  /** A constant's value: a `str`, or anything else (number, bytes, None, ...). */
  datatype Literal = StrLit(s: string) | OtherLit(repr: string)

  datatype BinOperator = Add | Sub | Mult | Div | Mod | OtherOp(tag: string)

  /** The node kinds counted by the complexity metric, and all the others. */
  datatype Kind =
    | IfStmt | WhileStmt | ForStmt | ExceptHandlerClause | WithStmt | AssertStmt | BoolOpExpr
    | OtherKind(tag: string)

  /** One positional parameter (`ast.arg`): its name and its annotation. */
  datatype Param = Param(arg: string, annotation: Option<Node>)

  datatype Node =
    | Module(body: seq<Node>)
      /** `def` and `async def`.  `params` are `args.args`, and `defaults`
          align with the last of them.  `otherArgs` holds the rest of the
          `arguments` node: the annotations of the positional-only, `*args`,
          keyword-only and `**kwargs` parameters and the keyword-only
          defaults that are present. */
    | FunctionDef(name: string, params: seq<Param>, otherArgs: seq<Node>, defaults: seq<Node>,
                  body: seq<Node>, decorators: seq<Node>, returnsAnn: Option<Node>, isAsync: bool,
                  lineno: int)
      /** `keywords` are the values of the `metaclass=...`-style keyword arguments. */
    | ClassDef(name: string, bases: seq<Node>, keywords: seq<Node>, body: seq<Node>,
               decorators: seq<Node>, lineno: int)
    | Return(returned: Option<Node>)
    | Raise(exc: Option<Node>, cause: Option<Node>)
    | Expr(expr: Node)
    | Constant(lit: Literal)
    | Name(id: string)
    | Attribute(base: Node, attr: string)
    | BinOp(left: Node, op: BinOperator, right: Node)
    | Call(func: Node, args: seq<Node>, keywords: seq<Node>)
    | Tuple(elts: seq<Node>)
    | Yield(yielded: Option<Node>)
    | Block(kind: Kind, children: seq<Node>)

  predicate IsDefinition(n: Node) {
    n.FunctionDef? || n.ClassDef?
  }

  /** An expression statement holding a string constant. */
  predicate IsStringStatement(n: Node) {
    n.Expr? && n.expr.Constant? && n.expr.lit.StrLit?
  }

  /** The string of a leading string-constant statement, as `ast.get_docstring`
      finds it before cleaning. */
  function RawDocstring(body: seq<Node>): (r: Option<string>)
    ensures r.Some? <==> |body| > 0 && IsStringStatement(body[0])
    ensures r.Some? ==> body[0] == Expr(Constant(StrLit(r.value)))
  {
    if |body| > 0 && IsStringStatement(body[0]) then Some(body[0].expr.lit.s) else None
  }

  function OptList(o: Option<Node>): (r: seq<Node>)
    ensures forall c :: c in r ==> o == Some(c)
  {
    if o.Some? then [o.value] else []
  }

  function Annotations(ps: seq<Param>): (r: seq<Node>)
    ensures forall c :: c in r ==> exists i :: 0 <= i < |ps| && ps[i].annotation == Some(c)
  {
    if ps == [] then [] else OptList(ps[0].annotation) + Annotations(ps[1..])
  }

  /** `ast.iter_child_nodes`: the direct children, in field order. */
  function Children(n: Node): (r: seq<Node>)
    ensures forall c :: c in r ==> c < n
  {
    match n
    case Module(body) => body
    case FunctionDef(_, ps, others, defaults, body, decorators, ann, _, _) =>
      Annotations(ps) + others + defaults + body + decorators + OptList(ann)
    case ClassDef(_, bases, keywords, body, decorators, _) => bases + keywords + body + decorators
    case Return(v) => OptList(v)
    case Raise(e, c) => OptList(e) + OptList(c)
    case Expr(v) => [v]
    case Constant(_) => []
    case Name(_) => []
    case Attribute(b, _) => [b]
    case BinOp(l, _, r) => [l, r]
    case Call(f, args, kws) => [f] + args + kws
    case Tuple(elts) => elts
    case Yield(v) => OptList(v)
    case Block(_, cs) => cs
  }

  /** Number of nodes in the subtree rooted at `n`. */
  function Size(n: Node): nat
    decreases n, 1
  {
    1 + ForestSize(Children(n), n)
  }

  function ForestSize(s: seq<Node>, ghost bound: Node): nat
    requires forall c :: c in s ==> c < bound
    decreases bound, 0, |s|
  {
    if s == [] then 0
    else
      assert s[0] in s && forall c :: c in s[1..] ==> c in s;
      Size(s[0]) + ForestSize(s[1..], bound)
  }

  /** Total size of a work queue of subtrees. */
  function Weight(q: seq<Node>): nat {
    if q == [] then 0 else Size(q[0]) + Weight(q[1..])
  }

  lemma {:induction false} ForestSizeIsWeight(s: seq<Node>, bound: Node)
    requires forall c :: c in s ==> c < bound
    ensures ForestSize(s, bound) == Weight(s)
    decreases |s|
  {
    if s != [] {
      assert forall c :: c in s[1..] ==> c in s;
      ForestSizeIsWeight(s[1..], bound);
    }
  }

  lemma {:induction false} WeightAppend(a: seq<Node>, b: seq<Node>)
    ensures Weight(a + b) == Weight(a) + Weight(b)
    decreases |a|
  {
    if a == [] {
      assert a + b == b;
    } else {
      assert (a + b)[0] == a[0] && (a + b)[1..] == a[1..] + b;
      WeightAppend(a[1..], b);
    }
  }

  /** The breadth-first traversal of `ast.walk`: pop the front of the queue,
      append its children at the back, yield it. */
  function WalkQueue(q: seq<Node>): seq<Node>
    decreases Weight(q)
  {
    if q == [] then []
    else
      ForestSizeIsWeight(Children(q[0]), q[0]);
      WeightAppend(q[1..], Children(q[0]));
      [q[0]] + WalkQueue(q[1..] + Children(q[0]))
  }

  /** `ast.walk(n)`. */
  function Walk(n: Node): seq<Node> {
    WalkQueue([n])
  }

  /** Reference order: depth-first pre-order of the subtree. */
  function Preorder(n: Node): seq<Node>
    decreases n, 1
  {
    [n] + PreorderForest(Children(n), n)
  }

  function PreorderForest(s: seq<Node>, ghost bound: Node): seq<Node>
    requires forall c :: c in s ==> c < bound
    decreases bound, 0, |s|
  {
    if s == [] then []
    else
      assert s[0] in s && forall c :: c in s[1..] ==> c in s;
      Preorder(s[0]) + PreorderForest(s[1..], bound)
  }

  /** Pre-order of each tree of a queue, one after the other. */
  function PreorderAll(q: seq<Node>): seq<Node> {
    if q == [] then [] else Preorder(q[0]) + PreorderAll(q[1..])
  }

  lemma {:induction false} PreorderForestIsAll(s: seq<Node>, bound: Node)
    requires forall c :: c in s ==> c < bound
    ensures PreorderForest(s, bound) == PreorderAll(s)
    decreases |s|
  {
    if s != [] {
      assert forall c :: c in s[1..] ==> c in s;
      PreorderForestIsAll(s[1..], bound);
    }
  }

  lemma {:induction false} PreorderAllAppend(a: seq<Node>, b: seq<Node>)
    ensures PreorderAll(a + b) == PreorderAll(a) + PreorderAll(b)
    decreases |a|
  {
    if a == [] {
      assert a + b == b;
    } else {
      assert (a + b)[0] == a[0] && (a + b)[1..] == a[1..] + b;
      PreorderAllAppend(a[1..], b);
    }
  }

  /** The sum of `f` over the elements of `s`. */
  function SumIn(f: Node -> nat, s: seq<Node>): nat {
    if s == [] then 0 else f(s[0]) + SumIn(f, s[1..])
  }

  lemma {:induction false} SumInAppend(f: Node -> nat, a: seq<Node>, b: seq<Node>)
    ensures SumIn(f, a + b) == SumIn(f, a) + SumIn(f, b)
    decreases |a|
  {
    if a == [] {
      assert a + b == b;
    } else {
      assert (a + b)[0] == a[0] && (a + b)[1..] == a[1..] + b;
      SumInAppend(f, a[1..], b);
    }
  }

  /** Sums of two weights that agree on every element are equal. */
  lemma {:induction false} SumInCongruent(f: Node -> nat, g: Node -> nat, s: seq<Node>)
    requires forall x :: x in s ==> f(x) == g(x)
    ensures SumIn(f, s) == SumIn(g, s)
    decreases |s|
  {
    if s != [] {
      assert forall x :: x in s[1..] ==> x in s;
      SumInCongruent(f, g, s[1..]);
    }
  }

  /** A sum is zero exactly when every summand is. */
  lemma {:induction false} SumInZero(f: Node -> nat, s: seq<Node>)
    ensures SumIn(f, s) == 0 <==> forall x :: x in s ==> f(x) == 0
    decreases |s|
  {
    if s != [] {
      SumInZero(f, s[1..]);
      assert forall x :: x in s ==> x == s[0] || x in s[1..];
    }
  }

  /** The breadth-first walk visits exactly the nodes of the pre-order
      traversal, with the same multiplicities: it is a permutation of it. */
  lemma {:induction false} WalkQueuePermutesPreorder(q: seq<Node>)
    ensures multiset(WalkQueue(q)) == multiset(PreorderAll(q))
    decreases Weight(q)
  {
    if q != [] {
      var x, rest := q[0], q[1..];
      ForestSizeIsWeight(Children(x), x);
      WeightAppend(rest, Children(x));
      WalkQueuePermutesPreorder(rest + Children(x));
      PreorderAllAppend(rest, Children(x));
      PreorderForestIsAll(Children(x), x);
      var kids := Children(x);
      assert WalkQueue(q) == [x] + WalkQueue(rest + kids);
      assert Preorder(x) == [x] + PreorderAll(kids);
      assert PreorderAll(q) == Preorder(x) + PreorderAll(rest);
      MultisetRotate(x, WalkQueue(rest + kids), PreorderAll(rest), PreorderAll(kids));
    }
  }

  lemma MultisetRotate(x: Node, w: seq<Node>, a: seq<Node>, b: seq<Node>)
    requires multiset(w) == multiset(a + b)
    ensures multiset([x] + w) == multiset(([x] + b) + a)
  {
    calc {
      multiset([x] + w);
      multiset([x]) + multiset(a) + multiset(b);
      multiset(([x] + b) + a);
    }
  }

  /** Summing along the walk gives the same answer as summing over the
      subtrees, whatever the summand. */
  lemma {:induction false} SumWalkQueue(f: Node -> nat, q: seq<Node>)
    ensures SumIn(f, WalkQueue(q)) == SumIn(f, PreorderAll(q))
    decreases Weight(q)
  {
    if q != [] {
      var x, rest := q[0], q[1..];
      ForestSizeIsWeight(Children(x), x);
      WeightAppend(rest, Children(x));
      SumWalkQueue(f, rest + Children(x));
      PreorderAllAppend(rest, Children(x));
      PreorderForestIsAll(Children(x), x);
      SumInAppend(f, PreorderAll(rest), PreorderAll(Children(x)));
      SumInAppend(f, Preorder(x), PreorderAll(rest));
      SumInAppend(f, [x], PreorderAll(Children(x)));
      assert WalkQueue(q) == [x] + WalkQueue(rest + Children(x));
      SumInAppend(f, [x], WalkQueue(rest + Children(x)));
    }
  }

  /** `ast.walk(n)` visits every node of the subtree of `n` once, so a sum
      along it does not depend on the breadth-first order. */
  lemma SumWalk(f: Node -> nat, n: Node)
    ensures SumIn(f, Walk(n)) == SumIn(f, Preorder(n))
  {
    SumWalkQueue(f, [n]);
    assert [n][1..] == [];
    assert PreorderAll([n]) == Preorder(n) + [] == Preorder(n);
  }

  /** The walk starts at the node itself and contains exactly the nodes of its
      subtree: nested definitions are reached. */
  lemma WalkIsSubtree(n: Node)
    ensures |Walk(n)| == Size(n) && Walk(n)[0] == n
    ensures multiset(Walk(n)) == multiset(Preorder(n))
  {
    WalkQueuePermutesPreorder([n]);
    assert [n][1..] == [];
    assert PreorderAll([n]) == Preorder(n) + [] == Preorder(n);
    PreorderSize(n);
    assert |multiset(Walk(n))| == |Walk(n)|;
  }

  lemma {:induction false} PreorderSize(n: Node)
    ensures |Preorder(n)| == Size(n)
    decreases n, 1
  {
    PreorderForestSize(Children(n), n);
  }

  lemma {:induction false} PreorderForestSize(s: seq<Node>, bound: Node)
    requires forall c :: c in s ==> c < bound
    ensures |PreorderForest(s, bound)| == ForestSize(s, bound)
    decreases bound, 0, |s|
  {
    if s != [] {
      assert s[0] in s && forall c :: c in s[1..] ==> c in s;
      PreorderSize(s[0]);
      PreorderForestSize(s[1..], bound);
    }
  }

  /** `P` holds at `n` and at every node below it. */
  predicate Everywhere(P: Node -> bool, n: Node)
    decreases n
  {
    P(n) && forall c :: c in Children(n) ==> Everywhere(P, c)
  }

  /** A node lies in the pre-order of a queue exactly when it lies in the
      pre-order of one of the queue's trees. */
  lemma {:induction false} PreorderAllMembers(q: seq<Node>)
    ensures forall x :: x in PreorderAll(q) <==> exists c :: c in q && x in Preorder(c)
    decreases |q|
  {
    if q != [] {
      PreorderAllMembers(q[1..]);
      assert PreorderAll(q) == Preorder(q[0]) + PreorderAll(q[1..]);
      forall x
        ensures x in PreorderAll(q) <==> exists c :: c in q && x in Preorder(c)
      {
        if x in Preorder(q[0]) {
          assert q[0] in q;
        } else if x in PreorderAll(q[1..]) {
          var c :| c in q[1..] && x in Preorder(c);
          assert c in q;
        } else {
          assert forall c :: c in q ==> c == q[0] || c in q[1..];
        }
      }
    }
  }

  /** The pre-order of `n` holds `n` and the pre-orders of its children,
      and nothing else. */
  lemma PreorderMembers(n: Node)
    ensures forall x :: x in Preorder(n) <==> x == n || exists c :: c in Children(n) && x in Preorder(c)
  {
    PreorderForestIsAll(Children(n), n);
    PreorderAllMembers(Children(n));
    assert Preorder(n) == [n] + PreorderAll(Children(n));
  }

  /** `ast.walk(n)` yields exactly the nodes of the pre-order of `n`. */
  lemma WalkMembers(n: Node)
    ensures forall x :: x in Walk(n) <==> x in Preorder(n)
  {
    WalkIsSubtree(n);
    assert forall x :: x in Walk(n) <==> x in multiset(Preorder(n));
  }

  lemma {:induction false} EverywherePreorder(P: Node -> bool, n: Node)
    ensures Everywhere(P, n) <==> forall x :: x in Preorder(n) ==> P(x)
    decreases n
  {
    var kids := Children(n);
    PreorderForestIsAll(kids, n);
    PreorderAllMembers(kids);
    assert Preorder(n) == [n] + PreorderAll(kids);
    forall c | c in kids
      ensures Everywhere(P, c) <==> forall x :: x in Preorder(c) ==> P(x)
    {
      EverywherePreorder(P, c);
    }
    if Everywhere(P, n) {
      forall x | x in Preorder(n)
        ensures P(x)
      {
        if x != n {
          var c :| c in kids && x in Preorder(c);
        }
      }
    } else if P(n) {
      var c :| c in kids && !Everywhere(P, c);
      var x :| x in Preorder(c) && !P(x);
      assert x in Preorder(n);
    }
  }

  /** A property holds everywhere below `n` exactly when it holds at every
      node `ast.walk(n)` yields. */
  lemma EverywhereWalk(P: Node -> bool, n: Node)
    ensures Everywhere(P, n) <==> forall x :: x in Walk(n) ==> P(x)
  {
    WalkIsSubtree(n);
    EverywherePreorder(P, n);
    assert forall x :: x in Walk(n) <==> x in multiset(Preorder(n));
  }
}
