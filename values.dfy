/** The JavaScript values the renderer inspects: expressions, props objects,
    templates, and the few string operations (`split`, `String(...)`) the
    renderer and its test drivers apply to them. */
module Values {
  import opened Wrappers

  /** Errors the renderer throws. `TypeError` is what the JavaScript engine
      throws when a missing method is called or `null` is indexed;
      `DuplicateId` is the "Multiple IDs" error of `assembleProps`;
      `InvalidDriver` and `InvalidExpression` are the two `invariant` checks of
      `render`. `OutOfFuel` belongs to the model only: it stands for a
      component expansion deeper than the fuel the traversal was given. */
  datatype Error = TypeError | DuplicateId | InvalidDriver | InvalidExpression | OutOfFuel

  /** A JavaScript value. Numbers are integers; an object is the ordered list
      of its own properties (insertion order, as `Object.keys` reports them);
      a function is a template, named by a tag rather than a closure. */
  datatype Value =
    | Undefined
    | Null
    | Bool(b: bool)
    | Num(n: int)
    | Str(s: string)
    | Arr(elems: seq<Value>)
    | Obj(entries: seq<Entry>)
    | Fn(t: Template)

  datatype Entry = Entry(key: string, val: Value)

  /** A props object: its properties in insertion order. */
  type Props = seq<Entry>

  /** The getter a connected template carries: the whole model (`identity`)
      or a caller-supplied lens, named by its index in `Env.select`. */
  datatype Getter = WholeModel | Lens(id: nat)

  /** A template (component) function. `Base(id)` is a caller-written
      template whose body is `Env.body(id, ·, ·)`; `Connected(inner, get)` is
      the wrapper `connect(get)(inner)` builds, which carries `get` in place of
      the source's hidden expando property. */
  datatype Template = Base(id: nat) | Connected(inner: Template, get: Getter)

  /** What the caller-written functions compute: template bodies, called as
      `tmpl(props, children)`, and lenses, called as `get(model)`. */
  datatype Env = Env(body: (nat, Value, seq<Value>) -> Value, select: (nat, Value) -> Value)

  /** JavaScript truthiness. */
  predicate Truthy(v: Value)
  {
    match v
    case Undefined => false
    case Null => false
    case Bool(b) => b
    case Num(n) => n != 0
    case Str(s) => s != ""
    case _ => true
  }

  /** `isObject` of the source's utilities: a non-null object that is neither
      an array nor a function. */
  predicate IsObject(v: Value) { v.Obj? }

  // Properties of an object

  predicate Has(p: Props, key: string)
  {
    exists i :: 0 <= i < |p| && p[i].key == key
  }

  /** `p[key]`: the value of the property, `undefined` when absent. */
  function Get(p: Props, key: string): (v: Value)
  {
    if p == [] then Undefined
    else if p[0].key == key then p[0].val
    else Get(p[1..], key)
  }

  /** A property that is not there reads as `undefined`. */
  lemma {:induction false} GetAbsent(p: Props, key: string)
    requires !Has(p, key)
    ensures Get(p, key) == Undefined
    decreases |p|
  {
    if p != [] {
      assert p[0].key != key;
      assert !Has(p[1..], key) by {
        forall i | 0 <= i < |p[1..]| ensures p[1..][i].key != key {
          assert p[1..][i] == p[i + 1];
        }
      }
      GetAbsent(p[1..], key);
    }
  }

  /** `p[key] = v`: an existing property keeps its position, a new one is
      appended. */
  function Set(p: Props, key: string, v: Value): (r: Props)
    ensures Get(r, key) == v
  {
    if p == [] then [Entry(key, v)]
    else if p[0].key == key then [Entry(key, v)] + p[1..]
    else [p[0]] + Set(p[1..], key, v)
  }

  /** `delete p[key]`. */
  function Delete(p: Props, key: string): (r: Props)
    ensures Get(r, key) == Undefined
  {
    if p == [] then []
    else if p[0].key == key then Delete(p[1..], key)
    else [p[0]] + Delete(p[1..], key)
  }

  /** Setting one property leaves every other one as it was. */
  lemma {:induction false} SetOther(p: Props, key: string, v: Value, k: string)
    requires k != key
    ensures Get(Set(p, key, v), k) == Get(p, k)
    decreases |p|
  {
    if p != [] {
      if p[0].key == key {
        assert ([Entry(key, v)] + p[1..])[1..] == p[1..];
      } else {
        assert ([p[0]] + Set(p[1..], key, v))[1..] == Set(p[1..], key, v);
        SetOther(p[1..], key, v, k);
      }
    }
  }

  /** Deleting one property leaves every other one as it was. */
  lemma {:induction false} DeleteOther(p: Props, key: string, k: string)
    requires k != key
    ensures Get(Delete(p, key), k) == Get(p, k)
    decreases |p|
  {
    if p != [] {
      if p[0].key != key {
        assert ([p[0]] + Delete(p[1..], key))[1..] == Delete(p[1..], key);
      }
      DeleteOther(p[1..], key, k);
    }
  }

  /** `member` access `v.key` on an arbitrary value: indexing `undefined` or
      `null` throws; strings, numbers, booleans, arrays and functions have no
      own property of the names the model reads. */
  function Member(v: Value, key: string): (r: Result<Value, Error>)
    ensures r.Err? <==> (v == Undefined || v == Null)
    ensures v.Obj? ==> r == Ok(Get(v.entries, key))
  {
    match v
    case Undefined => Err(TypeError)
    case Null => Err(TypeError)
    case Obj(p) => Ok(Get(p, key))
    case _ => Ok(Undefined)
  }

  // Templates

  /** `tmpl(props, children)`. A connected template forwards all its
      arguments to the template it wraps. */
  function Call(env: Env, t: Template, props: Value, children: seq<Value>): (r: Value)
  {
    match t
    case Base(id) => env.body(id, props, children)
    case Connected(inner, _) => Call(env, inner, props, children)
  }

  /** The template at the bottom of a chain of `connect` wrappers. */
  function Original(t: Template): (b: Template)
    ensures b.Base?
  {
    match t
    case Base(_) => t
    case Connected(inner, _) => Original(inner)
  }

  /** However many `connect` wrappers a template has, calling it runs the
      body of the template at the bottom with the arguments unchanged. */
  lemma {:induction false} CallForwards(env: Env, t: Template, props: Value, children: seq<Value>)
    ensures Call(env, t, props, children) == env.body(Original(t).id, props, children)
  {
    match t
    case Base(_) =>
    case Connected(inner, _) => CallForwards(env, inner, props, children);
  }

  /** `get(model)`. */
  function Select(env: Env, g: Getter, model: Value): (r: Value)
    ensures g == WholeModel ==> r == model
  {
    match g
    case WholeModel => model
    case Lens(id) => env.select(id, model)
  }

  // Strings

  function IndexOf(s: string, c: char): (i: nat)
    requires c in s
    ensures i < |s| && s[i] == c && c !in s[..i]
  {
    if s[0] == c then 0 else 1 + IndexOf(s[1..], c)
  }

  /** `s.split(sep)` for a one-character separator: the pieces between the
      separators, empty ones included; `"".split(" ")` is `[""]`. */
  function Split(s: string, sep: char): (parts: seq<string>)
    ensures |parts| >= 1
    ensures forall i :: 0 <= i < |parts| ==> sep !in parts[i]
    decreases |s|
  {
    if sep !in s then [s]
    else
      var i := IndexOf(s, sep);
      [s[..i]] + Split(s[i + 1..], sep)
  }

  /** `parts.join(sep)`. */
  function Join(parts: seq<string>, sep: string): string
  {
    if parts == [] then ""
    else if |parts| == 1 then parts[0]
    else parts[0] + sep + Join(parts[1..], sep)
  }

  /** Splitting loses nothing: joining the pieces with the separator gives
      the string back. */
  lemma {:induction false} JoinSplit(s: string, sep: char)
    ensures Join(Split(s, sep), [sep]) == s
    decreases |s|
  {
    if sep in s {
      var i := IndexOf(s, sep);
      JoinSplit(s[i + 1..], sep);
      assert s == s[..i] + [sep] + s[i + 1..];
    }
  }

  function DigitChar(d: nat): char
    requires d < 10
  {
    "0123456789"[d]
  }

  /** The decimal numeral of a natural number. */
  function NatToString(n: nat): (r: string)
    ensures |r| >= 1
    ensures forall i :: 0 <= i < |r| ==> '0' <= r[i] <= '9'
  {
    if n < 10 then [DigitChar(n)] else NatToString(n / 10) + [DigitChar(n % 10)]
  }

  function IntToString(n: int): string
  {
    if n < 0 then "-" + NatToString(-n) else NatToString(n)
  }

  /** `String(v)`. A function's source text is not modelled. */
  function Display(v: Value): string
    decreases v, 0
  {
    match v
    case Undefined => "undefined"
    case Null => "null"
    case Bool(b) => if b then "true" else "false"
    case Num(n) => IntToString(n)
    case Str(s) => s
    case Arr(es) => Join(seq(|es|, i requires 0 <= i < |es| => ElementText(es[i])), ",")
    case Obj(_) => "[object Object]"
    case Fn(_) => "function"
  }

  /** How `Array.prototype.toString` shows one element: `undefined` and
      `null` as nothing, everything else as `String` does. */
  function ElementText(v: Value): string
    decreases v, 1
  {
    if v == Undefined || v == Null then "" else Display(v)
  }
}
