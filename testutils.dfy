/** The drivers, decorators and helpers of testUtils.js: `identityDriver`,
    which rebuilds the expression it is walked over, the `nonReactive` and
    `tracable` decorators, and the `range` and `html` helpers. */
module TestUtils {
  import opened Wrappers
  import opened Values
  import opened TagMeta
  import opened PropsAssembly
  import opened Engine

  // identityDriver

  /** The finalizer `identityDriver.visit` returns for an element: a
      closure over the tag and the props. */
  datatype Rebuild = Rebuild(tag: Value, props: Option<Props>)

  /** `identityDriver().visit`: an element gives a finalizer, text gives the
      text itself, and any other node kind gives `undefined`. */
  function IdentityVisit(expr: Value, props: Option<Props>, nodeType: int, path: Path): (e: Effect<Rebuild>)
    ensures nodeType == ELEMENT_NODE ==> e == Finalizer(Rebuild(expr, props))
    ensures nodeType == TEXT_NODE ==> e == Plain(expr)
  {
    if nodeType == ELEMENT_NODE then Finalizer(Rebuild(expr, props))
    else if nodeType == TEXT_NODE then Plain(expr)
    else Plain(Undefined)
  }

  /** The finalizer: `[tag, props, ...children]` when the props have keys,
      `[tag, ...children]` otherwise. */
  function Rebuilt(k: Rebuild, children: seq<Effect<Rebuild>>): Effect<Rebuild>
  {
    var props := if k.props.Some? && k.props.value != [] then [Obj(k.props.value)] else [];
    Plain(Arr([k.tag] + props + EffectValues(children)))
  }

  /** `identityDriver()`: a driver with `visit` only. */
  function IdentityDriver(): Driver<Rebuild>
  {
    Driver(IdentityVisit, Rebuilt, None, None, None)
  }

  /** The factory `identityDriver` itself, a function of no parameters. */
  function IdentityFactory(): Factory<Rebuild>
  {
    Factory(0, (notify: Listener) => Ok(IdentityDriver()))
  }

  /** As written, the traversal calls `isSpecialTag` on every element and
      `reduce` on every fragment, neither of which `identityDriver` has: any
      array fails with a `TypeError`, and a failure is always that one. */
  lemma {:induction false} IdentityRejectsArrays(env: Env, e: Value, path: Path, fuel: nat)
    ensures var r := Traverse(IdentityDriver(), env, e, path, fuel);
      && (r.result.Err? ==> r.result.error == TypeError)
      && (e.Arr? ==> r.result == Err(TypeError))
    decreases e, if e.Arr? then |e.elems| + 3 else 0
  {
    if e.Arr? && IsFragment(e.elems) {
      IdentityRejectsAll(env, e.elems, 0, path, fuel);
    }
  }

  lemma {:induction false} IdentityRejectsAll(env: Env, es: seq<Value>, i: nat, path: Path, fuel: nat)
    ensures var r := TraverseAll(IdentityDriver(), env, es, 0, i, path, fuel);
      r.result.Err? ==> r.result.error == TypeError
    decreases Arr(es), |es| - i
  {
    if i < |es| {
      IdentityRejectsArrays(env, es[i], path + [i], fuel);
      IdentityRejectsAll(env, es, i + 1, path, fuel);
    }
  }

  /** `render(identityDriver, ["div"], root)` throws. */
  lemma IdentityRenderFails(env: Env, root: Value, fuel: nat)
    ensures Render(IdentityFactory(), env, Arr([Str("div")]), root, fuel) == Run(Err(TypeError), [])
  {
    assert !IsFragment([Str("div")]);
    assert Traverse(IdentityDriver(), env, Arr([Str("div")]), [0], fuel) == TraverseElement(IdentityDriver(), env, [Str("div")], [0], fuel);
  }

  // The round trip, with the optional members defaulted

  /** Props the identity driver gives back as they were: not empty, and
      without the keys `assembleProps` rewrites. */
  predicate PlainProps(p: Props)
  {
    p != [] && !Has(p, "class") && !Has(p, "className") && !Has(p, "classList")
  }

  /** Expressions the identity driver rebuilds exactly: text, fragments of
      such expressions, and elements with a bare tag name, plain props or
      none, and such children. */
  predicate Normal(e: Value)
    decreases e
  {
    match e
    case Str(_) => true
    case Arr(es) =>
      if IsFragment(es) then forall i :: 0 <= i < |es| ==> Normal(es[i])
      else
        && |es| > 0 && es[0].Str? && ValidName(es[0].s)
        && (HasProps(es) ==> PlainProps(es[1].entries))
        && forall i :: ChildStart(es) <= i < |es| ==> Normal(es[i])
    case _ => false
  }

  function Plains(vs: seq<Value>): (effects: seq<Effect<Rebuild>>)
    ensures |effects| == |vs|
    ensures EffectValues(effects) == vs
  {
    if vs == [] then [] else [Plain(vs[0])] + Plains(vs[1..])
  }

  /** With its optional members defaulted, the identity driver gives back
      every normal expression it is walked over. */
  lemma {:induction false} IdentityRoundTrip(env: Env, e: Value, path: Path, fuel: nat)
    requires Normal(e)
    ensures Traverse(WithDefaults(IdentityDriver()), env, e, path, fuel).result == Ok(Plain(e))
    decreases e, if e.Arr? then |e.elems| + 3 else 0
  {
    var d := WithDefaults(IdentityDriver());
    match e
    case Str(_) =>
    case Arr(es) =>
      if IsFragment(es) {
        IdentityRoundTripAll(env, es, 0, 0, path, fuel);
        assert es[0..] == es;
      } else {
        IdentityRoundTripElement(env, es, path, fuel);
      }
  }

  /** The element node of a normal element rebuilds it from the children it
      gets back. */
  lemma IdentityNode(env: Env, es: seq<Value>, name: string, props: Props, path: Path, fuel: nat)
    requires ChildStart(es) <= |es|
    requires TraverseAll(WithDefaults(IdentityDriver()), env, es, ChildStart(es), ChildStart(es), path, fuel).result
          == Ok(Plains(es[ChildStart(es)..]))
    ensures TraverseNode(WithDefaults(IdentityDriver()), env, es, Str(name), props, path, fuel).result
         == Ok(Plain(Arr([Str(name)] + (if props != [] then [Obj(props)] else []) + es[ChildStart(es)..])))
  {
  }

  lemma {:induction false} IdentityRoundTripElement(env: Env, es: seq<Value>, path: Path, fuel: nat)
    requires Normal(Arr(es)) && !IsFragment(es)
    ensures TraverseElement(WithDefaults(IdentityDriver()), env, es, path, fuel).result == Ok(Plain(Arr(es)))
    decreases Arr(es), |es| + 2
  {
    var d := WithDefaults(IdentityDriver());
    var name := es[0].s;
    assert Format(name, "", []) == name;
    ExtractFormat(name, "", []);
    var props := if HasProps(es) then es[1].entries else [];
    AssembleNeutral(props);
    var start := ChildStart(es);
    IdentityRoundTripAll(env, es, start, start, path, fuel);
    IdentityNode(env, es, Str(name).s, props, path, fuel);
    ElementParts(es);
    assert (if props != [] then [Obj(props)] else []) == (if HasProps(es) then [es[1]] else []);
  }

  lemma {:induction false} IdentityRoundTripAll(env: Env, es: seq<Value>, start: nat, i: nat, path: Path, fuel: nat)
    requires start <= i <= |es|
    requires forall j :: i <= j < |es| ==> Normal(es[j])
    ensures TraverseAll(WithDefaults(IdentityDriver()), env, es, start, i, path, fuel).result == Ok(Plains(es[i..]))
    decreases Arr(es), |es| - i
  {
    if i < |es| {
      IdentityRoundTrip(env, es[i], path + [i - start], fuel);
      IdentityRoundTripAll(env, es, start, i + 1, path, fuel);
      assert es[i..] == [es[i]] + es[i + 1..];
    }
  }

  // nonReactive and tracable

  /** `nonReactive(next)`: a factory of no parameters that builds `next`
      with a `notify` that does nothing, whatever it is itself called with,
      and exposes the members of the driver it gets unchanged. */
  function NonReactive<F>(next: Factory<F>): (f: Factory<F>)
    ensures f.Factory? && f.arity == 0
    ensures forall notify :: f.make(notify) == if next.NotAFunction? then Err(TypeError) else next.make(Silent)
  {
    Factory(0, (notify: Listener) => if next.NotAFunction? then Err(TypeError) else next.make(Silent))
  }

  /** Rendering through `nonReactive` passes the driver check whatever
      `next` is, and then walks the driver `next` builds with a silent
      `notify`, exactly as `render` would walk it. */
  lemma NonReactiveRender<F>(next: Factory<F>, env: Env, e: Value, root: Value, fuel: nat)
    requires next.Factory? && next.make(Silent).Ok?
    requires (e.Str? && e.s != "") || e.Arr?
    ensures Render(NonReactive(next), env, e, root, fuel) == Traverse(next.make(Silent).value, env, e, [0], fuel)
  {
  }

  /** `tracable(next, trace)`: a factory of one parameter that passes its
      `notify` on to `next`. The driver it returns is `next`'s, unchanged;
      the logging `visit` is `Tracer.Visit`, and `TraceFrom` relates it to
      a traversal. */
  function Tracable<F>(next: Factory<F>): (f: Factory<F>)
    ensures f.Factory? && f.arity == 1
    ensures forall notify :: f.make(notify) == if next.NotAFunction? then Err(TypeError) else next.make(notify)
  {
    Factory(1, (notify: Listener) => if next.NotAFunction? then Err(TypeError) else next.make(notify))
  }

  /** `String(n).padStart(4, "0")`. */
  function Pad4(s: string): (r: string)
    ensures |r| == if |s| >= 4 then |s| else 4
    ensures r[|r| - |s|..] == s
    ensures forall i :: 0 <= i < |r| - |s| ==> r[i] == '0'
  {
    if |s| >= 4 then s else seq(4 - |s|, _ => '0') + s
  }

  /** `path.join(",")`. */
  function PathText(path: Path): string
  {
    Join(seq(|path|, i requires 0 <= i < |path| => NatToString(path[i])), ",")
  }

  /** The visits `tracable` logs: element and text visits. */
  predicate Logged(c: DriverCall)
  {
    c.Visit? && (c.nodeType == ELEMENT_NODE || c.nodeType == TEXT_NODE)
  }

  /** A logged visit and its number in the trace. */
  datatype LogEntry = LogEntry(index: nat, call: DriverCall)

  /** The line `tracable` logs for a visit; other calls log nothing, and
      have no line. */
  function LineText(e: LogEntry): string
  {
    if !Logged(e.call) then ""
    else
      Pad4(NatToString(e.index)) + ": [" + PathText(e.call.path) + "] "
        + if e.call.nodeType == ELEMENT_NODE then "ELEMENT_NODE(1) <" + Display(e.call.expr) + ">"
          else "TEXT_NODE(3) '" + Display(e.call.expr) + "'"
  }

  /** The visits a sequence of driver calls logs onto a trace that already
      holds `n` lines: exactly the element and text visits, in call order,
      each numbered with the length of the trace before it. */
  function Entries(n: nat, calls: seq<DriverCall>): (es: seq<LogEntry>)
    decreases |calls|
  {
    if calls == [] then []
    else if Logged(calls[0]) then [LogEntry(n, calls[0])] + Entries(n + 1, calls[1..])
    else Entries(n, calls[1..])
  }

  /** Only element and text visits are logged, and the line numbers count
      on from the length of the trace. */
  lemma {:induction false} EntriesNumbered(n: nat, calls: seq<DriverCall>)
    ensures forall i :: 0 <= i < |Entries(n, calls)| ==> Logged(Entries(n, calls)[i].call) && Entries(n, calls)[i].index == n + i
    decreases |calls|
  {
    if calls != [] {
      EntriesNumbered(if Logged(calls[0]) then n + 1 else n, calls[1..]);
    }
  }

  /** `entries.map(show)`. */
  function Texts(es: seq<LogEntry>, show: LogEntry -> string): seq<string>
  {
    if es == [] then [] else [show(es[0])] + Texts(es[1..], show)
  }

  /** One line per entry, in order. */
  lemma {:induction false} TextsAt(es: seq<LogEntry>, show: LogEntry -> string)
    ensures |Texts(es, show)| == |es|
    ensures forall i :: 0 <= i < |es| ==> Texts(es, show)[i] == show(es[i])
  {
    if es != [] {
      TextsAt(es[1..], show);
    }
  }

  lemma TextsOne(e: LogEntry, show: LogEntry -> string)
    ensures Texts([e], show) == [show(e)]
  {
    assert [e][1..] == [];
  }

  lemma {:induction false} TextsAppend(x: seq<LogEntry>, y: seq<LogEntry>, show: LogEntry -> string)
    ensures Texts(x + y, show) == Texts(x, show) + Texts(y, show)
  {
    if x == [] {
      assert x + y == y;
    } else {
      assert (x + y)[1..] == x[1..] + y;
      TextsAppend(x[1..], y, show);
    }
  }

  /** The lines a sequence of driver calls adds to a trace of `n` lines. */
  function TraceFrom(n: nat, calls: seq<DriverCall>): seq<string>
  {
    Texts(Entries(n, calls), LineText)
  }

  /** Logging two runs of calls one after the other numbers the visits of
      the second on from where the first stopped. */
  lemma {:induction false} EntriesAppend(n: nat, a: seq<DriverCall>, b: seq<DriverCall>)
    ensures Entries(n, a + b) == Entries(n, a) + Entries(n + |Entries(n, a)|, b)
    decreases |a|
  {
    if a == [] {
      assert a + b == b;
    } else {
      assert (a + b)[1..] == a[1..] + b;
      EntriesAppend(if Logged(a[0]) then n + 1 else n, a[1..], b);
    }
  }

  /** So a tracer that pushes the line of each visit as it happens ends
      with the lines of the whole sequence of calls. */
  lemma LinesAppend(n: nat, a: seq<DriverCall>, b: seq<DriverCall>, show: LogEntry -> string)
    ensures Texts(Entries(n, a + b), show) == Texts(Entries(n, a), show) + Texts(Entries(n + |Entries(n, a)|, b), show)
  {
    EntriesAppend(n, a, b);
    TextsAppend(Entries(n, a), Entries(n + |Entries(n, a)|, b), show);
  }

  lemma TraceFromAppend(n: nat, a: seq<DriverCall>, b: seq<DriverCall>)
    ensures TraceFrom(n, a + b) == TraceFrom(n, a) + TraceFrom(n + |Entries(n, a)|, b)
  {
    LinesAppend(n, a, b, LineText);
  }


  /** The `trace` array of `tracable` and the driver whose `visit` it wraps. */
  class Tracer<F> {
    const inner: Driver<F>
    var trace: seq<string>

    constructor (inner: Driver<F>, trace: seq<string>)
      ensures this.inner == inner && this.trace == trace
    {
      this.inner := inner;
      this.trace := trace;
    }

    /** The decorated `visit`: pushes the line for an element or text visit
        and returns what the inner `visit` returns. */
    method Visit(expr: Value, props: Option<Props>, nodeType: int, path: Path) returns (e: Effect<F>)
      modifies this
      ensures e == inner.visit(expr, props, nodeType, path)
      ensures trace == old(trace) + TraceFrom(|old(trace)|, [Engine.Visit(expr, props, nodeType, path)])
    {
      var c := Engine.Visit(expr, props, nodeType, path);
      if nodeType == ELEMENT_NODE || nodeType == TEXT_NODE {
        var line := LineText(LogEntry(|trace|, c));
        assert Entries(|trace|, [c]) == [LogEntry(|trace|, c)];
        TextsOne(LogEntry(|trace|, c), LineText);
        trace := trace + [line];
      } else {
        assert Entries(|trace|, [c]) == [];
      }
      e := inner.visit(expr, props, nodeType, path);
    }
  }

  // range and html

  /** `range(count, step = 1)`: `count` multiples of `step` from 0, none when
      `count` is not positive. */
  method Range(count: int, step: int := 1) returns (r: seq<int>)
    ensures |r| == if count > 0 then count else 0
    ensures forall i :: 0 <= i < |r| ==> r[i] == i * step
  {
    r := [];
    var i := 0;
    while i < count
      invariant 0 <= i && |r| == i
      invariant count > 0 ==> i <= count
      invariant count <= 0 ==> i == 0
      invariant forall j :: 0 <= j < i ==> r[j] == j * step
    {
      r := r + [i * step];
      i := i + 1;
    }
  }

  /** The examples of `range`'s documentation comment. */
  method RangeExamples() returns (five: seq<int>, evens: seq<int>, none: seq<int>)
    ensures five == [0, 1, 2, 3, 4]
    ensures evens == [0, 2, 4, 6, 8]
    ensures none == []
  {
    five := Range(5);
    evens := Range(5, 2);
    none := Range(0);
  }

  /** The characters `String.prototype.trim` removes: white space and line
      terminators. */
  predicate IsSpace(c: char)
  {
    c in {'\t', '\n', '\U{000B}', '\U{000C}', '\r', ' ', '\U{00A0}', '\U{1680}', '\U{2000}', '\U{2001}',
          '\U{2002}', '\U{2003}', '\U{2004}', '\U{2005}', '\U{2006}', '\U{2007}', '\U{2008}', '\U{2009}',
          '\U{200A}', '\U{2028}', '\U{2029}', '\U{202F}', '\U{205F}', '\U{3000}', '\U{FEFF}'}
  }

  /** How many white-space characters `s` begins with. */
  function LeadingSpaces(s: string): (k: nat)
    ensures k <= |s|
    ensures forall i :: 0 <= i < k ==> IsSpace(s[i])
    ensures k == |s| || !IsSpace(s[k])
  {
    if s != [] && IsSpace(s[0]) then 1 + LeadingSpaces(s[1..]) else 0
  }

  /** Where the white space that `s` ends with begins. */
  function TrailingSpaces(s: string): (k: nat)
    ensures k <= |s|
    ensures forall i :: k <= i < |s| ==> IsSpace(s[i])
    ensures k == 0 || !IsSpace(s[k - 1])
  {
    if s != [] && IsSpace(s[|s| - 1]) then TrailingSpaces(s[..|s| - 1]) else |s|
  }

  /** `s.trim()`: `s` with its leading and trailing white space cut off.
      What is cut off is white space. */
  function Trim(s: string): (r: string)
    ensures LeadingSpaces(s) + |r| <= |s|
    ensures r == s[LeadingSpaces(s)..LeadingSpaces(s) + |r|]
    ensures forall i :: 0 <= i < |s| && !(LeadingSpaces(s) <= i < LeadingSpaces(s) + |r|) ==> IsSpace(s[i])
  {
    var k := LeadingSpaces(s);
    var t := s[k..];
    var r := t[..TrailingSpaces(t)];
    r
  }

  /** What is left neither begins nor ends with white space, so nothing
      more could be cut. */
  lemma TrimBare(s: string)
    ensures Trim(s) == [] || (!IsSpace(Trim(s)[0]) && !IsSpace(Trim(s)[|Trim(s)| - 1]))
  {
    var k := LeadingSpaces(s);
    var t := s[k..];
    assert Trim(s) == t[..TrailingSpaces(t)];
  }

  /** Trimming twice cuts nothing more. */
  lemma TrimIdempotent(s: string)
    ensures Trim(Trim(s)) == Trim(s)
  {
    var r := Trim(s);
    TrimBare(s);
    assert LeadingSpaces(r) == 0;
    var t := r[0..];
    assert t == r;
    assert TrailingSpaces(r) == |r|;
  }

  lemma {:induction false} LeadingSpacesOf(a: string, rest: string)
    requires forall i :: 0 <= i < |a| ==> IsSpace(a[i])
    requires rest == [] || !IsSpace(rest[0])
    ensures LeadingSpaces(a + rest) == |a|
  {
    if a == [] {
      assert a + rest == rest;
    } else {
      assert (a + rest)[1..] == a[1..] + rest;
      LeadingSpacesOf(a[1..], rest);
    }
  }

  lemma {:induction false} TrailingSpacesOf(rest: string, b: string)
    requires forall i :: 0 <= i < |b| ==> IsSpace(b[i])
    requires rest == [] || !IsSpace(rest[|rest| - 1])
    ensures TrailingSpaces(rest + b) == |rest|
    decreases |b|
  {
    if b == [] {
      assert rest + b == rest;
    } else {
      var s := rest + b;
      assert s[..|s| - 1] == rest + b[..|b| - 1];
      TrailingSpacesOf(rest, b[..|b| - 1]);
    }
  }

  /** Conversely, white space around a text that neither begins nor ends
      with white space is exactly what trimming cuts off. */
  lemma TrimExact(a: string, core: string, b: string)
    requires forall i :: 0 <= i < |a| ==> IsSpace(a[i])
    requires forall i :: 0 <= i < |b| ==> IsSpace(b[i])
    requires core == [] || (!IsSpace(core[0]) && !IsSpace(core[|core| - 1]))
    ensures Trim(a + core + b) == core
  {
    var s := a + core + b;
    if core == [] {
      assert s == a + b;
      assert forall i :: 0 <= i < |s| ==> IsSpace(s[i]);
      assert LeadingSpaces(s) == |s|;
    } else {
      assert s == a + (core + b);
      LeadingSpacesOf(a, core + b);
      assert s[|a|..] == core + b;
      TrailingSpacesOf(core, b);
    }
  }

  /** `items.map(it => it.trim()).join("")`. */
  function Html(items: seq<string>): string
  {
    if items == [] then "" else Trim(items[0]) + Html(items[1..])
  }

  /** Lines written one after another give the text of each, trimmed, in
      order. */
  lemma {:induction false} HtmlAppend(a: seq<string>, b: seq<string>)
    ensures Html(a + b) == Html(a) + Html(b)
  {
    if a == [] {
      assert a + b == b;
    } else {
      assert (a + b)[1..] == a[1..] + b;
      HtmlAppend(a[1..], b);
    }
  }

  /** A string with no space at either end is its own trim. */
  lemma TrimKeeps(core: string)
    requires core == [] || (!IsSpace(core[0]) && !IsSpace(core[|core| - 1]))
    ensures Trim(core) == core
  {
    assert "" + core + "" == core;
    TrimExact("", core, "");
  }

  // The trims the example of `html`'s documentation comment needs

  lemma TrimTags()
    ensures Trim("<i>") == "<i>" && Trim("</i>") == "</i>"
  {
    TrimKeeps("<i>");
    TrimKeeps("</i>");
  }

  lemma TrimIndented()
    ensures Trim("  text") == "text"
  {
    assert "  text" == "  " + "text" + "";
    TrimExact("  ", "text", "");
  }

  lemma TrimTrailing()
    ensures Trim("<b>bold</b> .  ") == "<b>bold</b> ."
  {
    assert "<b>bold</b> .  " == "" + "<b>bold</b> ." + "  ";
    TrimExact("", "<b>bold</b> .", "  ");
  }

  lemma HtmlCons(x: string, rest: seq<string>)
    ensures Html([x] + rest) == Trim(x) + Html(rest)
  {
    assert ([x] + rest)[1..] == rest;
  }

  /** The list of four lines, built up one line at a time. */
  lemma FourItems(a: string, b: string, c: string, d: string)
    ensures [d] + [] == [d] && [c] + [d] == [c, d]
    ensures [b] + [c, d] == [b, c, d] && [a] + [b, c, d] == [a, b, c, d]
  {
  }

  lemma HtmlOfFour(a: string, b: string, c: string, d: string)
    ensures Html([a, b, c, d]) == Trim(a) + Trim(b) + Trim(c) + Trim(d)
  {
    FourItems(a, b, c, d);
    HtmlCons(d, []);
    HtmlCons(c, [d]);
    HtmlCons(b, [c, d]);
    HtmlCons(a, [b, c, d]);
  }

  /** The four trimmed lines of the example, joined. */
  lemma JoinExample(a: string, b: string, c: string, d: string)
    requires a == "<i>" && b == "text" && c == "<b>bold</b> ." && d == "</i>"
    ensures a + b + c + d == "<i>text<b>bold</b> .</i>"
  {
  }

  /** The example of `html`'s documentation comment. */
  lemma HtmlExample()
    ensures Html(["<i>", "  text", "<b>bold</b> .  ", "</i>"]) == "<i>text<b>bold</b> .</i>"
  {
    HtmlOfFour("<i>", "  text", "<b>bold</b> .  ", "</i>");
    TrimTags();
    TrimIndented();
    TrimTrailing();
    JoinExample(Trim("<i>"), Trim("  text"), Trim("<b>bold</b> .  "), Trim("</i>"));
  }
}
