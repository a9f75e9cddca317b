/** `traverse` and `render` of aydin.js: the walk over an expression that
    calls a pluggable driver, and the entry point that validates the driver
    factory and the expression before starting the walk at path `[0]`. */
module Engine {
  import opened Wrappers
  import opened Values
  import opened TagMeta
  import opened PropsAssembly

  const ELEMENT_NODE: int := 1
  const TEXT_NODE: int := 3

  /** The zero-based child indices from the root to a node. */
  type Path = seq<nat>

  /** What a driver call or a traversal step produces. `Finalizer(k)` is a
      `visit` result that is a function: the traversal calls it with the
      effects of the element's children. `Plain(v)` is any other value. */
  datatype Effect<F> = Finalizer(k: F) | Plain(v: Value)

  /** A driver: the object `drive(root)` returns. `finish(k, effects)` calls
      the finalizer `k`; `reduce`, `isSpecialTag` and `expand` may be absent,
      as they are from an object that has no such property. */
  datatype Driver<!F> = Driver(
    visit: (Value, Option<Props>, int, Path) -> Effect<F>,
    finish: (F, seq<Effect<F>>) -> Effect<F>,
    reduce: Option<seq<Effect<F>> -> Effect<F>>,
    isSpecialTag: Option<Value -> (bool, int)>,
    expand: Option<(Template, Value, seq<Value>) -> Value>)

  /** The `notify` function a driver factory is called with: the render root
      (which `render` passes in that position), a function that does nothing,
      or the `intercept` of a model-view-update decorator that forwards to an
      outer listener. */
  datatype Listener = Host(root: Value) | Silent | Intercepting(outer: Listener)

  /** The `drive` argument of `render`: anything that is not a function, or
      a function of the given arity. Calling it may throw. */
  datatype Factory<!F> = NotAFunction | Factory(arity: nat, make: Listener -> Result<Driver<F>, Error>)

  /** One call the traversal makes on its driver. `Reduce(path)` and
      `Finish(path)` are the calls of `reduce` and of a finalizer for the
      fragment or element at `path`. */
  datatype DriverCall =
    | AskSpecial(tag: Value)
    | Visit(expr: Value, props: Option<Props>, nodeType: int, path: Path)
    | Reduce(path: Path)
    | Finish(path: Path)

  /** The outcome of a traversal together with the calls it made on the
      driver, in order. The calls of a failed traversal are the ones made
      before the error. */
  datatype Run<T> = Run(result: Result<T, Error>, calls: seq<DriverCall>)

  /** `isArray(expr[0]) || expr[0] === ""`: the array is a fragment. */
  predicate IsFragment(es: seq<Value>)
  {
    |es| > 0 && (es[0].Arr? || es[0] == Str(""))
  }

  /** Whether the second slot of an element is its props. */
  predicate HasProps(es: seq<Value>)
  {
    |es| > 1 && IsObject(es[1])
  }

  /** Where the children of an element start. */
  function ChildStart(es: seq<Value>): (start: nat)
    ensures start == 1 || start == 2
    ensures start == 2 <==> HasProps(es)
  {
    if HasProps(es) then 2 else 1
  }

  /** The children of an element: everything after the tag and the props. */
  function Children(es: seq<Value>): (cs: seq<Value>)
    ensures |es| >= ChildStart(es) ==> cs == es[ChildStart(es)..]
    ensures |es| < ChildStart(es) ==> cs == []
  {
    var start := ChildStart(es);
    if |es| >= start then es[start..] else []
  }

  /** An element is its tag, then its props when it has some, then its
      children, and nothing else. */
  lemma ElementParts(es: seq<Value>)
    requires |es| > 0
    ensures [es[0]] + (if HasProps(es) then [es[1]] else []) + Children(es) == es
  {
    if HasProps(es) {
      assert es == [es[0], es[1]] + es[2..];
    } else {
      assert es == [es[0]] + es[1..];
    }
  }

  /** The values a list of effects holds. A finalizer has no value of its
      own in the model and shows as `undefined`. */
  function EffectValues<F>(effects: seq<Effect<F>>): (vs: seq<Value>)
    ensures |vs| == |effects|
    ensures forall i :: 0 <= i < |effects| && effects[i].Plain? ==> vs[i] == effects[i].v
  {
    if effects == [] then []
    else [if effects[0].Plain? then effects[0].v else Undefined] + EffectValues(effects[1..])
  }

  /** The driver with its optional members defaulted: a missing
      `isSpecialTag` reports nothing as special, and a missing `reduce`
      gives a fragment the list of its children's effects. */
  function WithDefaults<F>(d: Driver<F>): Driver<F>
  {
    d.(isSpecialTag := if d.isSpecialTag.Some? then d.isSpecialTag else Some((tag: Value) => (false, 0)),
       reduce := if d.reduce.Some? then d.reduce else Some((effects: seq<Effect<F>>) => Plain(Arr(EffectValues(effects)))))
  }

  /** The errors a traversal can end in: a missing or misused method, a
      duplicate id, or the fuel running out. The two checks of `render` are
      never among them. */
  predicate TraversalError(err: Error)
  {
    err == TypeError || err == DuplicateId || err == OutOfFuel
  }

  /** `traverse(driver, expr, path)`. A string is visited as text; anything
      that is neither a string nor an array gives `""`; an array is a
      fragment or an element. `fuel` bounds the depth of component
      expansion. */
  function Traverse<F>(d: Driver<F>, env: Env, e: Value, path: Path, fuel: nat): (r: Run<Effect<F>>)
    ensures r.result.Err? ==> TraversalError(r.result.error)
    decreases fuel, e, if e.Arr? then |e.elems| + 3 else 0
  {
    match e
    case Str(_) => Run(Ok(d.visit(e, None, TEXT_NODE, path)), [Visit(e, None, TEXT_NODE, path)])
    case Arr(es) =>
      if IsFragment(es) then
        var kids := TraverseAll(d, env, es, 0, 0, path, fuel);
        if kids.result.Err? then Run(Err(kids.result.error), kids.calls)
        else if d.reduce.None? then Run(Err(TypeError), kids.calls)
        else Run(Ok(d.reduce.value(kids.result.value)), kids.calls + [Reduce(path)])
      else TraverseElement(d, env, es, path, fuel)
    case _ => Run(Ok(Plain(Str(""))), [])
  }

  /** An array that is not a fragment: a special tag, a component or an
      element. */
  function TraverseElement<F>(d: Driver<F>, env: Env, es: seq<Value>, path: Path, fuel: nat): (r: Run<Effect<F>>)
    ensures r.result.Err? ==> TraversalError(r.result.error)
    decreases fuel, Arr(es), |es| + 2
  {
    var tagName := if |es| > 0 then es[0] else Undefined;
    if d.isSpecialTag.None? then Run(Err(TypeError), [])
    else
      var asked := [AskSpecial(tagName)];
      var (special, nodeType) := d.isSpecialTag.value(tagName);
      if special then
        Run(Ok(d.visit(tagName, None, nodeType, path)), asked + [Visit(tagName, None, nodeType, path)])
      else
        match ExtractTagMeta(tagName)
        case Err(err) => Run(Err(err), asked)
        case Ok(meta) =>
          match Assemble(meta.id, meta.classes, if HasProps(es) then es[1].entries else [])
          case Err(err) => Run(Err(err), asked)
          case Ok(props) =>
            var r := TraverseNode(d, env, es, meta.tag, props, path, fuel);
            Run(r.result, asked + r.calls)
  }

  /** A tag that has been taken apart and its props assembled: a component
      is called and its result traversed at the same path; any other tag is
      visited as an element, and its children are traversed only when the
      visit returns a finalizer. */
  function TraverseNode<F>(d: Driver<F>, env: Env, es: seq<Value>, tag: Value, props: Props, path: Path, fuel: nat): (r: Run<Effect<F>>)
    ensures r.result.Err? ==> TraversalError(r.result.error)
    decreases fuel, Arr(es), |es| + 1
  {
    if tag.Fn? then
      if fuel == 0 then Run(Err(OutOfFuel), [])
      else Traverse(d, env, Call(env, tag.t, Obj(props), Children(es)), path, fuel - 1)
    else
      var visited := [Visit(tag, Some(props), ELEMENT_NODE, path)];
      match d.visit(tag, Some(props), ELEMENT_NODE, path)
      case Plain(v) => Run(Ok(Plain(v)), visited)
      case Finalizer(k) =>
        var kids := TraverseAll(d, env, es, ChildStart(es), ChildStart(es), path, fuel);
        if kids.result.Err? then Run(Err(kids.result.error), visited + kids.calls)
        else Run(Ok(d.finish(k, kids.result.value)), visited + kids.calls + [Finish(path)])
  }

  /** The children `es[i..]` of the node at `path`, where the children begin
      at `start`: child `j` is traversed at `path + [j - start]`, left to
      right, stopping at the first error. */
  function TraverseAll<F>(d: Driver<F>, env: Env, es: seq<Value>, start: nat, i: nat, path: Path, fuel: nat): (r: Run<seq<Effect<F>>>)
    requires start <= i
    ensures r.result.Ok? ==> |r.result.value| == if i <= |es| then |es| - i else 0
    ensures r.result.Err? ==> TraversalError(r.result.error)
    decreases fuel, Arr(es), |es| - i
  {
    if i >= |es| then Run(Ok([]), [])
    else
      var first := Traverse(d, env, es[i], path + [i - start], fuel);
      if first.result.Err? then Run(Err(first.result.error), first.calls)
      else
        var rest := TraverseAll(d, env, es, start, i + 1, path, fuel);
        if rest.result.Err? then Run(Err(rest.result.error), first.calls + rest.calls)
        else Run(Ok([first.result.value] + rest.result.value), first.calls + rest.calls)
  }

  /** `render(drive, expr, root)`: the driver must be a function of at most
      two parameters, and the expression a non-empty string or an array. */
  function Render<F>(drive: Factory<F>, env: Env, e: Value, root: Value, fuel: nat): Run<Effect<F>>
  {
    if drive.NotAFunction? || drive.arity > 2 then Run(Err(InvalidDriver), [])
    else if !(Truthy(e) && (e.Str? || e.Arr?)) then Run(Err(InvalidExpression), [])
    else
      match drive.make(Host(root))
      case Err(err) => Run(Err(err), [])
      case Ok(d) => Traverse(d, env, e, [0], fuel)
  }

  // What each child contributes

  /** Child `j` of `es`, traversed on its own where `TraverseAll` puts it. */
  function Child<F>(d: Driver<F>, env: Env, es: seq<Value>, start: nat, j: nat, path: Path, fuel: nat): Run<Effect<F>>
    requires start <= j < |es|
  {
    Traverse(d, env, es[j], path + [j - start], fuel)
  }

  /** The calls of children `i` to `k - 1`, each traversed on its own, one
      after the other. */
  function ChildCalls<F>(d: Driver<F>, env: Env, es: seq<Value>, start: nat, i: nat, k: nat, path: Path, fuel: nat): seq<DriverCall>
    requires start <= i <= k <= |es|
    decreases k - i
  {
    if i == k then [] else Child(d, env, es, start, i, path, fuel).calls + ChildCalls(d, env, es, start, i + 1, k, path, fuel)
  }

  /** The children succeed together exactly when each child succeeds on its
      own. Effect `j` is then child `j`'s own result, and the calls are the
      children's calls in index order. */
  lemma {:induction false} TraverseAllAt<F>(d: Driver<F>, env: Env, es: seq<Value>, start: nat, i: nat, path: Path, fuel: nat)
    requires start <= i <= |es|
    ensures TraverseAll(d, env, es, start, i, path, fuel).result.Ok?
        <==> forall j :: i <= j < |es| ==> Child(d, env, es, start, j, path, fuel).result.Ok?
    ensures var r := TraverseAll(d, env, es, start, i, path, fuel);
      r.result.Ok? ==> forall j :: i <= j < |es| ==> Child(d, env, es, start, j, path, fuel).result == Ok(r.result.value[j - i])
    ensures var r := TraverseAll(d, env, es, start, i, path, fuel);
      r.result.Ok? ==> r.calls == ChildCalls(d, env, es, start, i, |es|, path, fuel)
    decreases |es| - i
  {
    if i < |es| {
      TraverseAllAt(d, env, es, start, i + 1, path, fuel);
      var r := TraverseAll(d, env, es, start, i, path, fuel);
      var rest := TraverseAll(d, env, es, start, i + 1, path, fuel);
      var first := Child(d, env, es, start, i, path, fuel);
      assert first == Traverse(d, env, es[i], path + [i - start], fuel);
      if r.result.Ok? {
        forall j | i <= j < |es| ensures Child(d, env, es, start, j, path, fuel).result == Ok(r.result.value[j - i]) {
          if j > i {
            assert r.result.value[j - i] == rest.result.value[j - (i + 1)];
          }
        }
      }
    }
  }

  /** A failure is the first failing child's error: every child before it
      succeeds, no child after it is traversed, and the calls are those of
      the children up to and including it. */
  lemma {:induction false} TraverseAllFirstError<F>(d: Driver<F>, env: Env, es: seq<Value>, start: nat, i: nat, path: Path, fuel: nat)
    requires start <= i <= |es|
    ensures var r := TraverseAll(d, env, es, start, i, path, fuel);
      r.result.Err? ==> exists k :: (
        && i <= k < |es|
        && (forall j :: i <= j < k ==> Child(d, env, es, start, j, path, fuel).result.Ok?)
        && Child(d, env, es, start, k, path, fuel).result == Err(r.result.error)
        && r.calls == ChildCalls(d, env, es, start, i, k + 1, path, fuel))
    decreases |es| - i
  {
    var r := TraverseAll(d, env, es, start, i, path, fuel);
    if i < |es| && r.result.Err? {
      var first := Child(d, env, es, start, i, path, fuel);
      if first.result.Err? {
        assert ChildCalls(d, env, es, start, i + 1, i + 1, path, fuel) == [];
        assert first.calls + [] == first.calls;
        assert r.calls == ChildCalls(d, env, es, start, i, i + 1, path, fuel);
      } else {
        TraverseAllFirstError(d, env, es, start, i + 1, path, fuel);
        var k :| i + 1 <= k < |es|
          && (forall j :: i + 1 <= j < k ==> Child(d, env, es, start, j, path, fuel).result.Ok?)
          && Child(d, env, es, start, k, path, fuel).result == Err(r.result.error)
          && TraverseAll(d, env, es, start, i + 1, path, fuel).calls == ChildCalls(d, env, es, start, i + 1, k + 1, path, fuel);
        assert r.calls == ChildCalls(d, env, es, start, i, k + 1, path, fuel);
      }
    }
  }

  // The order of the visits

  /** `q` lies in the subtree at `p`. */
  predicate Extends(q: Path, p: Path)
  {
    |p| <= |q| && q[..|p|] == p
  }

  /** Pre-order: `p` comes strictly before `q` when it is a proper prefix of
      `q`, or when the first index where they differ is smaller in `p`. */
  predicate Before(p: Path, q: Path)
    decreases |p|
  {
    if p == [] then q != []
    else q != [] && (p[0] < q[0] || (p[0] == q[0] && Before(p[1..], q[1..])))
  }

  /** The paths of the `visit` calls, in call order. */
  function VisitPaths(calls: seq<DriverCall>): seq<Path>
  {
    if calls == [] then []
    else (if calls[0].Visit? then [calls[0].path] else []) + VisitPaths(calls[1..])
  }

  predicate Ascending(ps: seq<Path>)
  {
    forall i, j :: 0 <= i < j < |ps| ==> Before(ps[i], ps[j])
  }

  /** Every path lies strictly below `p`, in a child subtree whose index is
      at least `lo`. */
  predicate Below(ps: seq<Path>, p: Path, lo: nat)
  {
    forall k :: 0 <= k < |ps| ==> Extends(ps[k], p) && |ps[k]| > |p| && ps[k][|p|] >= lo
  }

  lemma {:induction false} VisitPathsAppend(a: seq<DriverCall>, b: seq<DriverCall>)
    ensures VisitPaths(a + b) == VisitPaths(a) + VisitPaths(b)
  {
    if a == [] {
      assert a + b == b;
    } else {
      assert (a + b)[1..] == a[1..] + b;
      VisitPathsAppend(a[1..], b);
    }
  }

  lemma {:induction false} BeforeDescendant(p: Path, q: Path)
    requires Extends(q, p) && |q| > |p|
    ensures Before(p, q)
  {
    if p != [] {
      assert q[1..][..|p| - 1] == p[1..];
      BeforeDescendant(p[1..], q[1..]);
    }
  }

  lemma {:induction false} BeforeSibling(p: Path, x: Path, y: Path)
    requires Extends(x, p) && Extends(y, p) && |x| > |p| && |y| > |p|
    requires x[|p|] < y[|p|]
    ensures Before(x, y)
  {
    if p != [] {
      assert x[1..][..|p| - 1] == p[1..];
      assert y[1..][..|p| - 1] == p[1..];
      BeforeSibling(p[1..], x[1..], y[1..]);
    }
  }

  lemma ExtendsChild(q: Path, p: Path, a: nat)
    requires Extends(q, p + [a])
    ensures Extends(q, p) && |q| > |p| && q[|p|] == a
  {
    assert q[..|p|] == (p + [a])[..|p|];
    assert q[|p|] == (p + [a])[|p|];
  }

  lemma AscendingAppend(a: seq<Path>, b: seq<Path>)
    requires Ascending(a) && Ascending(b)
    requires forall i, j :: 0 <= i < |a| && 0 <= j < |b| ==> Before(a[i], b[j])
    ensures Ascending(a + b)
  {
    forall i, j | 0 <= i < j < |a + b|
      ensures Before((a + b)[i], (a + b)[j])
    {
      if j < |a| {
        assert (a + b)[i] == a[i] && (a + b)[j] == a[j];
      } else if i < |a| {
        assert (a + b)[i] == a[i] && (a + b)[j] == b[j - |a|];
      } else {
        assert (a + b)[i] == b[i - |a|] && (a + b)[j] == b[j - |a|];
      }
    }
  }

  /** Every node is visited at most once and in pre-order: the paths of the
      `visit` calls of a traversal strictly ascend, and all of them lie in
      the subtree at the path the traversal started from. Children come
      after their parent and in index order; a fragment adds a level to the
      path without a visit of its own, and a component is expanded at its
      own path. */
  lemma {:induction false} VisitOrder<F>(d: Driver<F>, env: Env, e: Value, path: Path, fuel: nat)
    ensures var ps := VisitPaths(Traverse(d, env, e, path, fuel).calls);
      Ascending(ps) && forall k :: 0 <= k < |ps| ==> Extends(ps[k], path)
    decreases fuel, e, if e.Arr? then |e.elems| + 3 else 0
  {
    match e
    case Str(_) =>
      assert VisitPaths([Visit(e, None, TEXT_NODE, path)]) == [path];
      assert path[..|path|] == path;
    case Arr(es) =>
      if IsFragment(es) {
        var kids := TraverseAll(d, env, es, 0, 0, path, fuel);
        VisitOrderAll(d, env, es, 0, 0, path, fuel);
        VisitPathsAppend(kids.calls, [Reduce(path)]);
        assert VisitPaths([Reduce(path)]) == [];
      } else {
        VisitOrderElement(d, env, es, path, fuel);
      }
    case _ =>
  }

  lemma {:induction false} VisitOrderElement<F>(d: Driver<F>, env: Env, es: seq<Value>, path: Path, fuel: nat)
    ensures var ps := VisitPaths(TraverseElement(d, env, es, path, fuel).calls);
      Ascending(ps) && forall k :: 0 <= k < |ps| ==> Extends(ps[k], path)
    decreases fuel, Arr(es), |es| + 2
  {
    var tagName := if |es| > 0 then es[0] else Undefined;
    if d.isSpecialTag.Some? {
      var asked := [AskSpecial(tagName)];
      assert VisitPaths(asked) == [];
      assert path[..|path|] == path;
      var (special, nodeType) := d.isSpecialTag.value(tagName);
      if special {
        VisitPathsAppend(asked, [Visit(tagName, None, nodeType, path)]);
      } else if ExtractTagMeta(tagName).Ok? {
        var meta := ExtractTagMeta(tagName).value;
        var assembled := Assemble(meta.id, meta.classes, if HasProps(es) then es[1].entries else []);
        if assembled.Ok? {
          var r := TraverseNode(d, env, es, meta.tag, assembled.value, path, fuel);
          VisitOrderNode(d, env, es, meta.tag, assembled.value, path, fuel);
          VisitPathsAppend(asked, r.calls);
        }
      }
    }
  }

  lemma {:induction false} VisitOrderNode<F>(d: Driver<F>, env: Env, es: seq<Value>, tag: Value, props: Props, path: Path, fuel: nat)
    ensures var ps := VisitPaths(TraverseNode(d, env, es, tag, props, path, fuel).calls);
      Ascending(ps) && forall k :: 0 <= k < |ps| ==> Extends(ps[k], path)
    decreases fuel, Arr(es), |es| + 1
  {
    if tag.Fn? {
      if fuel > 0 {
        VisitOrder(d, env, Call(env, tag.t, Obj(props), Children(es)), path, fuel - 1);
      }
    } else {
      var visited := [Visit(tag, Some(props), ELEMENT_NODE, path)];
      assert VisitPaths(visited) == [path];
      assert path[..|path|] == path;
      if d.visit(tag, Some(props), ELEMENT_NODE, path).Finalizer? {
        var start := ChildStart(es);
        var kids := TraverseAll(d, env, es, start, start, path, fuel);
        VisitOrderAll(d, env, es, start, start, path, fuel);
        NodePaths(visited[0], kids.calls, path);
        NodeFirst(path, VisitPaths(kids.calls));
      }
    }
  }

  /** The visit paths of a node: its own, then its children's; the
      closing `finish` adds none. */
  lemma NodePaths(v: DriverCall, calls: seq<DriverCall>, path: Path)
    requires v.Visit? && v.path == path
    ensures VisitPaths([v] + calls) == [path] + VisitPaths(calls)
    ensures VisitPaths([v] + calls + [Finish(path)]) == [path] + VisitPaths(calls)
  {
    assert ([v] + calls)[1..] == calls;
    VisitPathsAppend([v] + calls, [Finish(path)]);
    assert VisitPaths([Finish(path)]) == [];
    assert [path] + VisitPaths(calls) + [] == [path] + VisitPaths(calls);
  }

  /** A node's own path, followed by the ascending paths of its subtrees,
      is ascending and stays in the node's subtree. */
  lemma NodeFirst(path: Path, ks: seq<Path>)
    requires Ascending(ks) && Below(ks, path, 0)
    ensures Ascending([path] + ks)
    ensures forall k :: 0 <= k < |[path] + ks| ==> Extends(([path] + ks)[k], path)
  {
    assert path[..|path|] == path;
    forall j | 0 <= j < |ks| ensures Before(path, ks[j]) {
      BeforeDescendant(path, ks[j]);
    }
    AscendingAppend([path], ks);
    forall k | 0 <= k < |[path] + ks| ensures Extends(([path] + ks)[k], path) {
      if k > 0 { assert ([path] + ks)[k] == ks[k - 1]; }
    }
  }

  lemma {:induction false} VisitOrderAll<F>(d: Driver<F>, env: Env, es: seq<Value>, start: nat, i: nat, path: Path, fuel: nat)
    requires start <= i
    ensures var ps := VisitPaths(TraverseAll(d, env, es, start, i, path, fuel).calls);
      Ascending(ps) && Below(ps, path, i - start)
    decreases fuel, Arr(es), |es| - i
  {
    if i < |es| {
      var child := path + [i - start];
      var first := Traverse(d, env, es[i], child, fuel);
      VisitOrder(d, env, es[i], child, fuel);
      var fs := VisitPaths(first.calls);
      forall k | 0 <= k < |fs| ensures Extends(fs[k], path) && |fs[k]| > |path| && fs[k][|path|] == i - start {
        ExtendsChild(fs[k], path, i - start);
      }
      if first.result.Ok? {
        var rest := TraverseAll(d, env, es, start, i + 1, path, fuel);
        VisitOrderAll(d, env, es, start, i + 1, path, fuel);
        var rs := VisitPaths(rest.calls);
        VisitPathsAppend(first.calls, rest.calls);
        forall a, b | 0 <= a < |fs| && 0 <= b < |rs| ensures Before(fs[a], rs[b]) {
          BeforeSibling(path, fs[a], rs[b]);
        }
        AscendingAppend(fs, rs);
      }
    }
  }

  // What the traversal does not depend on

  /** The traversal never calls `expand`: replacing it, as the decorators
      do, changes neither the result nor the calls. */
  lemma {:induction false} ExpandUnused<F>(d: Driver<F>, x: Option<(Template, Value, seq<Value>) -> Value>, env: Env, e: Value, path: Path, fuel: nat)
    ensures Traverse(d.(expand := x), env, e, path, fuel) == Traverse(d, env, e, path, fuel)
    decreases fuel, e, if e.Arr? then |e.elems| + 3 else 0
  {
    match e
    case Arr(es) =>
      if IsFragment(es) {
        ExpandUnusedAll(d, x, env, es, 0, 0, path, fuel);
      } else {
        ExpandUnusedElement(d, x, env, es, path, fuel);
      }
    case _ =>
  }

  lemma {:induction false} ExpandUnusedElement<F>(d: Driver<F>, x: Option<(Template, Value, seq<Value>) -> Value>, env: Env, es: seq<Value>, path: Path, fuel: nat)
    ensures TraverseElement(d.(expand := x), env, es, path, fuel) == TraverseElement(d, env, es, path, fuel)
    decreases fuel, Arr(es), |es| + 2
  {
    var tagName := if |es| > 0 then es[0] else Undefined;
    if d.isSpecialTag.Some? && !d.isSpecialTag.value(tagName).0 && ExtractTagMeta(tagName).Ok? {
      var meta := ExtractTagMeta(tagName).value;
      var assembled := Assemble(meta.id, meta.classes, if HasProps(es) then es[1].entries else []);
      if assembled.Ok? {
        ExpandUnusedNode(d, x, env, es, meta.tag, assembled.value, path, fuel);
      }
    }
  }

  lemma {:induction false} ExpandUnusedNode<F>(d: Driver<F>, x: Option<(Template, Value, seq<Value>) -> Value>, env: Env, es: seq<Value>, tag: Value, props: Props, path: Path, fuel: nat)
    ensures TraverseNode(d.(expand := x), env, es, tag, props, path, fuel) == TraverseNode(d, env, es, tag, props, path, fuel)
    decreases fuel, Arr(es), |es| + 1
  {
    if tag.Fn? {
      if fuel > 0 {
        ExpandUnused(d, x, env, Call(env, tag.t, Obj(props), Children(es)), path, fuel - 1);
      }
    } else if d.visit(tag, Some(props), ELEMENT_NODE, path).Finalizer? {
      ExpandUnusedAll(d, x, env, es, ChildStart(es), ChildStart(es), path, fuel);
    }
  }

  lemma {:induction false} ExpandUnusedAll<F>(d: Driver<F>, x: Option<(Template, Value, seq<Value>) -> Value>, env: Env, es: seq<Value>, start: nat, i: nat, path: Path, fuel: nat)
    requires start <= i
    ensures TraverseAll(d.(expand := x), env, es, start, i, path, fuel) == TraverseAll(d, env, es, start, i, path, fuel)
    decreases fuel, Arr(es), |es| - i
  {
    if i < |es| {
      ExpandUnused(d, x, env, es[i], path + [i - start], fuel);
      ExpandUnusedAll(d, x, env, es, start, i + 1, path, fuel);
    }
  }

  // Fuel

  /** Fuel is only a bound: a traversal that does not run out of it gives
      the same result and the same calls with any larger bound. */
  lemma {:induction false} MoreFuel<F>(d: Driver<F>, env: Env, e: Value, path: Path, fuel: nat, more: nat)
    requires fuel <= more
    ensures Traverse(d, env, e, path, fuel).result != Err(OutOfFuel)
        ==> Traverse(d, env, e, path, more) == Traverse(d, env, e, path, fuel)
    decreases fuel, e, if e.Arr? then |e.elems| + 3 else 0
  {
    match e
    case Arr(es) =>
      if IsFragment(es) {
        MoreFuelAll(d, env, es, 0, 0, path, fuel, more);
      } else {
        MoreFuelElement(d, env, es, path, fuel, more);
      }
    case _ =>
  }

  /** The same for a whole render. */
  lemma RenderMoreFuel<F>(drive: Factory<F>, env: Env, e: Value, root: Value, fuel: nat, more: nat)
    requires fuel <= more
    ensures Render(drive, env, e, root, fuel).result != Err(OutOfFuel)
        ==> Render(drive, env, e, root, more) == Render(drive, env, e, root, fuel)
  {
    if drive.Factory? && drive.make(Host(root)).Ok? {
      MoreFuel(drive.make(Host(root)).value, env, e, [0], fuel, more);
    }
  }

  lemma {:induction false} MoreFuelElement<F>(d: Driver<F>, env: Env, es: seq<Value>, path: Path, fuel: nat, more: nat)
    requires fuel <= more
    ensures TraverseElement(d, env, es, path, fuel).result != Err(OutOfFuel)
        ==> TraverseElement(d, env, es, path, more) == TraverseElement(d, env, es, path, fuel)
    decreases fuel, Arr(es), |es| + 2
  {
    var tagName := if |es| > 0 then es[0] else Undefined;
    if d.isSpecialTag.Some? && !d.isSpecialTag.value(tagName).0 && ExtractTagMeta(tagName).Ok? {
      var meta := ExtractTagMeta(tagName).value;
      var assembled := Assemble(meta.id, meta.classes, if HasProps(es) then es[1].entries else []);
      if assembled.Ok? {
        MoreFuelNode(d, env, es, meta.tag, assembled.value, path, fuel, more);
      }
    }
  }

  lemma {:induction false} MoreFuelNode<F>(d: Driver<F>, env: Env, es: seq<Value>, tag: Value, props: Props, path: Path, fuel: nat, more: nat)
    requires fuel <= more
    ensures TraverseNode(d, env, es, tag, props, path, fuel).result != Err(OutOfFuel)
        ==> TraverseNode(d, env, es, tag, props, path, more) == TraverseNode(d, env, es, tag, props, path, fuel)
    decreases fuel, Arr(es), |es| + 1
  {
    if tag.Fn? {
      if fuel > 0 {
        MoreFuel(d, env, Call(env, tag.t, Obj(props), Children(es)), path, fuel - 1, more - 1);
      }
    } else if d.visit(tag, Some(props), ELEMENT_NODE, path).Finalizer? {
      MoreFuelAll(d, env, es, ChildStart(es), ChildStart(es), path, fuel, more);
    }
  }

  lemma {:induction false} MoreFuelAll<F>(d: Driver<F>, env: Env, es: seq<Value>, start: nat, i: nat, path: Path, fuel: nat, more: nat)
    requires start <= i && fuel <= more
    ensures TraverseAll(d, env, es, start, i, path, fuel).result != Err(OutOfFuel)
        ==> TraverseAll(d, env, es, start, i, path, more) == TraverseAll(d, env, es, start, i, path, fuel)
    decreases fuel, Arr(es), |es| - i
  {
    if i < |es| {
      MoreFuel(d, env, es[i], path + [i - start], fuel, more);
      MoreFuelAll(d, env, es, start, i + 1, path, fuel, more);
    }
  }

  // Leaves and components

  /** A special tag is visited once, at its own path, with no props and
      with the token as given; its children are never traversed. */
  lemma SpecialTagIsLeaf<F>(d: Driver<F>, env: Env, es: seq<Value>, path: Path, fuel: nat)
    requires !IsFragment(es)
    requires d.isSpecialTag.Some? && |es| > 0 && d.isSpecialTag.value(es[0]).0
    ensures var nodeType := d.isSpecialTag.value(es[0]).1;
      Traverse(d, env, Arr(es), path, fuel)
        == Run(Ok(d.visit(es[0], None, nodeType, path)), [AskSpecial(es[0]), Visit(es[0], None, nodeType, path)])
  {
  }

  /** An element whose visit does not return a finalizer yields that visit
      result as it is, and none of its children is traversed. */
  lemma PlainVisitIsLeaf<F>(d: Driver<F>, env: Env, es: seq<Value>, path: Path, fuel: nat)
    requires !IsFragment(es)
    requires d.isSpecialTag.Some? && |es| > 0 && !d.isSpecialTag.value(es[0]).0
    requires ExtractTagMeta(es[0]).Ok? && !ExtractTagMeta(es[0]).value.tag.Fn?
    requires var meta := ExtractTagMeta(es[0]).value;
      Assemble(meta.id, meta.classes, if HasProps(es) then es[1].entries else []).Ok?
    ensures var meta := ExtractTagMeta(es[0]).value;
      var props := Assemble(meta.id, meta.classes, if HasProps(es) then es[1].entries else []).value;
      var v := d.visit(meta.tag, Some(props), ELEMENT_NODE, path);
      v.Plain? ==>
        Traverse(d, env, Arr(es), path, fuel)
          == Run(Ok(v), [AskSpecial(es[0]), Visit(meta.tag, Some(props), ELEMENT_NODE, path)])
  {
    var meta := ExtractTagMeta(es[0]).value;
    var props := Assemble(meta.id, meta.classes, if HasProps(es) then es[1].entries else []).value;
    var v := d.visit(meta.tag, Some(props), ELEMENT_NODE, path);
    if v.Plain? {
      assert TraverseNode(d, env, es, meta.tag, props, path, fuel) == Run(Ok(v), [Visit(meta.tag, Some(props), ELEMENT_NODE, path)]);
      assert Traverse(d, env, Arr(es), path, fuel) == TraverseElement(d, env, es, path, fuel);
    }
  }
  /** `effects` holds, in order, the results of the children of `es` from
      index `start` on. */
  ghost predicate ChildEffects<F>(d: Driver<F>, env: Env, es: seq<Value>, start: nat, path: Path, fuel: nat, effects: seq<Effect<F>>)
  {
    && start <= |es|
    && |effects| == |es| - start
    && forall j :: start <= j < |es| ==> Child(d, env, es, start, j, path, fuel).result == Ok(effects[j - start])
  }

  /** When the children from `start` on all succeed, `TraverseAll` collects
      their results, visiting them in index order. */
  lemma CollectsChildren<F>(d: Driver<F>, env: Env, es: seq<Value>, start: nat, path: Path, fuel: nat)
    requires start <= |es|
    ensures TraverseAll(d, env, es, start, start, path, fuel).result.Ok?
        <==> forall j :: start <= j < |es| ==> Child(d, env, es, start, j, path, fuel).result.Ok?
    ensures var kids := TraverseAll(d, env, es, start, start, path, fuel);
      kids.result.Ok? ==>
        && ChildEffects(d, env, es, start, path, fuel, kids.result.value)
        && kids.calls == ChildCalls(d, env, es, start, start, |es|, path, fuel)
  {
    TraverseAllAt(d, env, es, start, start, path, fuel);
  }

  /** An element whose visit answers with a finalizer is visited first,
      then its children in index order, then finished. It succeeds exactly
      when every child does, and the finalizer then receives one effect per
      child, each that child's own result. */
  lemma FinalizerGetsChildren<F>(d: Driver<F>, env: Env, es: seq<Value>, tag: Value, props: Props, path: Path, fuel: nat)
    requires |es| > 0 && !tag.Fn?
    requires d.visit(tag, Some(props), ELEMENT_NODE, path).Finalizer?
    ensures TraverseNode(d, env, es, tag, props, path, fuel).result.Ok?
        <==> forall j :: ChildStart(es) <= j < |es| ==> Child(d, env, es, ChildStart(es), j, path, fuel).result.Ok?
    ensures var r := TraverseNode(d, env, es, tag, props, path, fuel);
      var start := ChildStart(es);
      r.result.Ok? ==>
        && r.calls == [Visit(tag, Some(props), ELEMENT_NODE, path)] + ChildCalls(d, env, es, start, start, |es|, path, fuel) + [Finish(path)]
        && exists effects :: ChildEffects(d, env, es, start, path, fuel, effects)
             && r.result.value == d.finish(d.visit(tag, Some(props), ELEMENT_NODE, path).k, effects)
  {
    var start := ChildStart(es);
    CollectsChildren(d, env, es, start, path, fuel);
    var kids := TraverseAll(d, env, es, start, start, path, fuel);
    if kids.result.Ok? {
      assert ChildEffects(d, env, es, start, path, fuel, kids.result.value);
    }
  }

  /** A fragment's children are traversed in index order at `path + [j]`,
      then reduced. With a `reduce` it succeeds exactly when every child
      does, and `reduce` then receives one effect per child, each that
      child's own result. */
  lemma ReduceGetsChildren<F>(d: Driver<F>, env: Env, es: seq<Value>, path: Path, fuel: nat)
    requires IsFragment(es) && d.reduce.Some?
    ensures Traverse(d, env, Arr(es), path, fuel).result.Ok?
        <==> forall j :: 0 <= j < |es| ==> Child(d, env, es, 0, j, path, fuel).result.Ok?
    ensures var r := Traverse(d, env, Arr(es), path, fuel);
      r.result.Ok? ==>
        && r.calls == ChildCalls(d, env, es, 0, 0, |es|, path, fuel) + [Reduce(path)]
        && exists effects :: ChildEffects(d, env, es, 0, path, fuel, effects)
             && r.result.value == d.reduce.value(effects)
  {
    CollectsChildren(d, env, es, 0, path, fuel);
    var kids := TraverseAll(d, env, es, 0, 0, path, fuel);
    if kids.result.Ok? {
      assert ChildEffects(d, env, es, 0, path, fuel, kids.result.value);
    }
  }

  /** A component receives the assembled props and the children, and what
      it returns is traversed at the component's own path; with `connect`
      wrappers, `CallForwards` says which body runs. */
  lemma ComponentSamePath<F>(d: Driver<F>, env: Env, t: Template, es: seq<Value>, path: Path, fuel: nat)
    requires |es| > 0 && es[0] == Fn(t)
    requires d.isSpecialTag.Some? && !d.isSpecialTag.value(Fn(t)).0
    requires Assemble("", [], if HasProps(es) then es[1].entries else []).Ok?
    requires fuel > 0
    ensures var props := Assemble("", [], if HasProps(es) then es[1].entries else []).value;
      var r := Traverse(d, env, Call(env, t, Obj(props), Children(es)), path, fuel - 1);
      Traverse(d, env, Arr(es), path, fuel) == Run(r.result, [AskSpecial(Fn(t))] + r.calls)
  {
    var props := Assemble("", [], if HasProps(es) then es[1].entries else []).value;
    assert ExtractTagMeta(Fn(t)) == Ok(Meta(Fn(t), "", []));
    assert TraverseNode(d, env, es, Fn(t), props, path, fuel) == Traverse(d, env, Call(env, t, Obj(props), Children(es)), path, fuel - 1);
    assert Traverse(d, env, Arr(es), path, fuel) == TraverseElement(d, env, es, path, fuel);
  }

  // Render

  /** `render` rejects a factory that is not a function or takes more than
      two parameters, then an expression that is falsy or neither a string
      nor an array, before calling anything; otherwise it traverses the
      driver the factory builds for the root, starting at path `[0]`. Its
      two rejections are its own: the traversal never raises them. */
  lemma RenderChecks<F>(drive: Factory<F>, env: Env, e: Value, root: Value, fuel: nat)
    ensures drive.NotAFunction? || drive.arity > 2 ==> Render(drive, env, e, root, fuel) == Run(Err(InvalidDriver), [])
    ensures drive.Factory? && drive.arity <= 2 && !((e.Str? && e.s != "") || e.Arr?) ==>
      Render(drive, env, e, root, fuel) == Run(Err(InvalidExpression), [])
    ensures drive.Factory? && drive.arity <= 2 && ((e.Str? && e.s != "") || e.Arr?) && drive.make(Host(root)).Ok? ==>
      var r := Render(drive, env, e, root, fuel);
      && r == Traverse(drive.make(Host(root)).value, env, e, [0], fuel)
      && (r.result.Err? ==> TraversalError(r.result.error))
      && (forall k :: 0 <= k < |VisitPaths(r.calls)| ==> Extends(VisitPaths(r.calls)[k], [0]))
  {
    if drive.Factory? && drive.arity <= 2 && ((e.Str? && e.s != "") || e.Arr?) && drive.make(Host(root)).Ok? {
      VisitOrder(drive.make(Host(root)).value, env, e, [0], fuel);
    }
  }
}
