/** The model-view-update plugin of aydin-plugin-mvu.js: a plugin object
    holding the current model, a `dispatch` that folds messages through
    `update`, and a driver decorator that turns "missing handler" signals
    into dispatches and feeds connected templates from the model. */
module Mvu {
  import opened Wrappers
  import opened Values
  import opened Engine

  /** The signals a driver reports through its `notify` function. Their
      names are not modelled, only that they are distinct. */
  datatype Signal = CoreRerender | MissingHandler | OtherSignal(name: string)

  /** One call of the outer `notify`: `notify(signal)` or
      `notify(signal, data)`. */
  datatype Notification = Notification(signal: Signal, data: Option<Value>)

  /** The model after `update` has taken each message in turn, left to
      right; `update(model, msg)` stands for the first component of the
      pair the source's `update` returns. */
  function Fold(update: (Value, Value) -> Value, model: Value, msgs: seq<Value>): Value
    decreases |msgs|
  {
    if msgs == [] then model else Fold(update, update(model, msgs[0]), msgs[1..])
  }

  /** One more message is one more step of `update`. */
  lemma {:induction false} FoldSnoc(update: (Value, Value) -> Value, model: Value, msgs: seq<Value>, msg: Value)
    ensures Fold(update, model, msgs + [msg]) == update(Fold(update, model, msgs), msg)
    decreases |msgs|
  {
    if msgs != [] {
      assert (msgs + [msg])[1..] == msgs[1..] + [msg];
      FoldSnoc(update, update(model, msgs[0]), msgs[1..], msg);
    }
  }

  /** Dispatching two batches one after the other leaves the same model as
      dispatching them as one batch. */
  lemma {:induction false} FoldAppend(update: (Value, Value) -> Value, model: Value, first: seq<Value>, second: seq<Value>)
    ensures Fold(update, model, first + second) == Fold(update, Fold(update, model, first), second)
    decreases |first|
  {
    if first == [] {
      assert first + second == second;
    } else {
      assert (first + second)[1..] == first[1..] + second;
      FoldAppend(update, update(model, first[0]), first[1..], second);
    }
  }

  /** An `update` that adds numeric messages to the model, counting a
      missing model as 0. */
  function Add(model: Value, msg: Value): Value
  {
    var m := if model == Undefined then Num(0) else model;
    if m.Num? && msg.Num? then Num(m.n + msg.n) else Undefined
  }

  /** Dispatching `[1, 2, 3]` with `Add` takes the model from 0 to 6. */
  lemma AddExample()
    ensures Fold(Add, Num(0), [Num(1), Num(2), Num(3)]) == Num(6)
  {
    var msgs := [Num(1), Num(2), Num(3)];
    assert msgs[1..] == [Num(2), Num(3)] && msgs[1..][1..] == [Num(3)];
  }

  /** `baseExpand(tmpl, props, children)`: calling the template runs the body
      at the bottom of its `connect` wrappers with the arguments unchanged. */
  function BaseExpand(env: Env, t: Template, props: Value, children: seq<Value>): (r: Value)
    ensures r == env.body(Original(t).id, props, children)
  {
    CallForwards(env, t, props, children);
    Call(env, t, props, children)
  }

  /** `connect(get)(tmpl)`: the wrapper carries `get`, or `identity` when no
      getter is given, and forwards its arguments to `tmpl`. */
  function Connect(get: Option<Getter>, t: Template): Template
  {
    Connected(t, if get.Some? then get.value else WholeModel)
  }

  /** The decorated `expand`: a connected template is called with the
      selected part of the model in place of its props; any other template
      goes to the inner driver's `expand`, or else to `baseExpand`. */
  function Expand(env: Env, model: Value, inner: Option<(Template, Value, seq<Value>) -> Value>,
                  t: Template, props: Value, children: seq<Value>): Value
  {
    if t.Connected? then Call(env, t, Select(env, t.get, model), children)
    else if inner.Some? then inner.value(t, props, children)
    else BaseExpand(env, t, props, children)
  }

  /** A connected template ignores the props it is expanded with: it sees
      `get(model)` and the children, and runs the template it wraps. With
      no getter given it sees the whole model. */
  lemma ConnectedExpand(env: Env, model: Value, inner: Option<(Template, Value, seq<Value>) -> Value>,
                        get: Option<Getter>, t: Template, props: Value, children: seq<Value>)
    ensures Expand(env, model, inner, Connect(get, t), props, children)
         == Call(env, t, Select(env, if get.Some? then get.value else WholeModel, model), children)
    ensures get.None? ==> Expand(env, model, inner, Connect(get, t), props, children) == Call(env, t, model, children)
  {
  }

  /** An unconnected template is expanded by the inner driver when it has
      an `expand`, and is otherwise called with its own props. */
  lemma UnconnectedExpand(env: Env, model: Value, inner: Option<(Template, Value, seq<Value>) -> Value>,
                          id: nat, props: Value, children: seq<Value>)
    ensures inner.Some? ==> Expand(env, model, inner, Base(id), props, children) == inner.value(Base(id), props, children)
    ensures inner.None? ==> Expand(env, model, inner, Base(id), props, children) == env.body(id, props, children)
  {
  }

  /** `mvu(notify)`: builds the inner driver with `intercept` as its notify
      and returns it with the decorated `expand`; building fails as calling
      a non-function does. */
  function MvuMake<F>(env: Env, model: Value, next: Factory<F>, notify: Listener): (r: Result<Driver<F>, Error>)
    ensures next.NotAFunction? ==> r == Err(TypeError)
    ensures next.Factory? && next.make(Intercepting(notify)).Err? ==> r == Err(next.make(Intercepting(notify)).error)
    ensures next.Factory? && next.make(Intercepting(notify)).Ok? ==>
      var inner := next.make(Intercepting(notify)).value;
      && r.Ok?
      && r.value.visit == inner.visit && r.value.finish == inner.finish
      && r.value.reduce == inner.reduce && r.value.isSpecialTag == inner.isSpecialTag
      && r.value.expand.Some?
      && forall t, props, children :: r.value.expand.value(t, props, children) == Expand(env, model, inner.expand, t, props, children)
  {
    if next.NotAFunction? then Err(TypeError)
    else
      match next.make(Intercepting(notify))
      case Err(err) => Err(err)
      case Ok(inner) =>
        Ok(inner.(expand := Some((t, props, children) => Expand(env, model, inner.expand, t, props, children))))
  }

  /** The decorator is transparent to the traversal: the decorated driver
      walks every expression exactly as the inner driver it wraps. */
  lemma MvuTransparent<F>(env: Env, model: Value, next: Factory<F>, notify: Listener, e: Value, path: Path, fuel: nat)
    requires next.Factory? && next.make(Intercepting(notify)).Ok?
    ensures MvuMake(env, model, next, notify).Ok?
    ensures Traverse(MvuMake(env, model, next, notify).value, env, e, path, fuel)
         == Traverse(next.make(Intercepting(notify)).value, env, e, path, fuel)
  {
    var inner := next.make(Intercepting(notify)).value;
    ExpandUnused(inner, MvuMake(env, model, next, notify).value.expand, env, e, path, fuel);
    assert MvuMake(env, model, next, notify).value == inner.(expand := MvuMake(env, model, next, notify).value.expand);
  }

  /** The object `plugin(update)` sets up: the `update` function, the
      template bodies connected templates run, and the current model. */
  class Plugin {
    const update: (Value, Value) -> Value
    const env: Env
    var model: Value

    /** `plugin(update)`: the initial model is what `update()` returns. */
    constructor (update: (Value, Value) -> Value, env: Env)
      ensures this.update == update && this.env == env
      ensures model == update(Undefined, Undefined)
    {
      this.update := update;
      this.env := env;
      this.model := update(Undefined, Undefined);
    }

    /** `dispatch(msgs)`: folds the messages into the model and reports
      whether the model changed. No messages leave the model and report
      no change. */
    method Dispatch(msgs: seq<Value>) returns (changed: bool)
      modifies this
      ensures model == Fold(update, old(model), msgs)
      ensures changed <==> model != old(model)
    {
      if |msgs| == 0 {
        assert msgs == [];
        return false;
      }
      var newModel := model;
      var i := 0;
      while i < |msgs|
        invariant 0 <= i <= |msgs|
        invariant model == old(model)
        invariant newModel == Fold(update, model, msgs[..i])
      {
        FoldSnoc(update, model, msgs[..i], msgs[i]);
        assert msgs[..i + 1] == msgs[..i] + [msgs[i]];
        newModel := update(newModel, msgs[i]);
        i := i + 1;
      }
      assert msgs[..i] == msgs;
      changed := newModel != model;
      model := newModel;
    }

    /** `intercept(evt, data)`. A "missing handler" signal dispatches
      `data.value` (reading it from `undefined` or `null` throws) and
      notifies a re-render exactly when the model changed; every other
      signal goes to the outer `notify` as it came, with its data, and the
      model is not touched. */
    method Intercept(signal: Signal, data: Value) returns (r: Result<seq<Notification>, Error>)
      modifies this
      ensures signal != MissingHandler ==> model == old(model) && r == Ok([Notification(signal, Some(data))])
      ensures signal == MissingHandler && (data == Undefined || data == Null) ==>
        model == old(model) && r == Err(TypeError)
      ensures signal == MissingHandler && data != Undefined && data != Null ==>
        && model == update(old(model), Member(data, "value").value)
        && r == Ok(if model != old(model) then [Notification(CoreRerender, None)] else [])
    {
      if signal == MissingHandler {
        var value := Member(data, "value");
        if value.Err? {
          return Err(TypeError);
        }
        var changed := Dispatch([value.value]);
        assert [value.value][1..] == [];
        if changed {
          return Ok([Notification(CoreRerender, None)]);
        }
        return Ok([]);
      }
      return Ok([Notification(signal, Some(data))]);
    }

    /** `driver(next)`: a factory of one parameter whose drivers expand
      connected templates from the model as it is now. */
    function DriverFactory<F>(next: Factory<F>): (f: Factory<F>)
      reads this
      ensures f.Factory? && f.arity == 1
      ensures forall notify :: f.make(notify) == MvuMake(env, model, next, notify)
    {
      var m := model;
      var env := env;
      Factory(1, (notify: Listener) => MvuMake(env, m, next, notify))
    }
  }
}
