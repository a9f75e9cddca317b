/** `assembleProps` of aydin.js: folds the id and the class names of a tag
    token, and the class conventions of a props object, into that props
    object, in place. */
module PropsAssembly {
  import opened Wrappers
  import opened Values

  // The pieces the class list is made of, in the order the source appends
  // them

  function Strs(names: seq<string>): (vs: seq<Value>)
    ensures |vs| == |names|
  {
    if names == [] then [] else [Str(names[0])] + Strs(names[1..])
  }

  /** `Object.keys(o).filter(name => o[name])`. */
  function TruthyKeys(o: Props): seq<Value>
  {
    if o == [] then []
    else (if Truthy(o[0].val) then [Str(o[0].key)] else []) + TruthyKeys(o[1..])
  }

  /** The names an object-valued `class` switches on. */
  function ObjectClasses(p: Props): seq<Value>
  {
    var c := Get(p, "class");
    if c.Obj? then TruthyKeys(c.entries) else []
  }

  /** The elements of an array-valued `classList`. */
  function ArrayClasses(p: Props): seq<Value>
  {
    var c := Get(p, "classList");
    if c.Arr? then c.elems else []
  }

  /** The space-separated pieces of a string-valued `class`. */
  function StringClasses(p: Props): seq<Value>
  {
    var c := Get(p, "class");
    if c.Str? then Strs(Split(c.s, ' ')) else []
  }

  /** The space-separated pieces of a truthy string `className`. */
  function NameClasses(p: Props): seq<Value>
  {
    var c := Get(p, "className");
    if Truthy(c) && c.Str? then Strs(Split(c.s, ' ')) else []
  }

  /** The class list `assembleProps` builds: plain concatenation, with no
      sorting and no removal of duplicates. */
  function ClassList(classNames: seq<string>, p: Props): seq<Value>
  {
    Strs(classNames) + ObjectClasses(p) + ArrayClasses(p) + StringClasses(p) + NameClasses(p)
  }

  /** What `assembleProps` throws, if anything: "Multiple IDs" when the token
      has an id and the props already carry a truthy one, equal or not; a
      `TypeError` when a truthy `className` is not a string and so has no
      `split`. */
  function AssembleError(id: string, p: Props): (e: Option<Error>)
    ensures e.Some? ==> e.value == DuplicateId || e.value == TypeError
  {
    if id != "" && Truthy(Get(p, "id")) then Some(DuplicateId)
    else
      var cn := Get(p, "className");
      if Truthy(cn) && !cn.Str? then Some(TypeError) else None
  }

  // The steps of a call that does not throw, in the source's order

  /** The id from the token, when it has one. */
  function WithId(id: string, p: Props): Props
  {
    if id != "" then Set(p, "id", Str(id)) else p
  }

  /** An object or string `class` is removed once folded into the list. */
  function WithoutClass(p: Props): Props
  {
    var c := Get(p, "class");
    if c.Obj? || c.Str? then Delete(p, "class") else p
  }

  /** A truthy `className` is removed once folded into the list. */
  function WithoutClassName(p: Props): Props
  {
    if Truthy(Get(p, "className")) then Delete(p, "className") else p
  }

  /** The combined list is written only when it is not empty. */
  function WithClassList(list: seq<Value>, p: Props): Props
  {
    if |list| > 0 then Set(p, "classList", Arr(list)) else p
  }

  /** The props object after `assembleProps` has run on it. When it throws,
      this is the object as far as the source had got: untouched on a
      duplicate id, with the id set and `class` removed on a `TypeError`. */
  function AssembledState(id: string, classNames: seq<string>, p: Props): Props
  {
    if id != "" && Truthy(Get(p, "id")) then p
    else
      var p2 := WithoutClass(WithId(id, p));
      var cn := Get(p, "className");
      if Truthy(cn) && !cn.Str? then p2
      else WithClassList(ClassList(classNames, p), WithoutClassName(p2))
  }

  /** `assembleProps` as the traversal sees it: the new props, or the error. */
  function Assemble(id: string, classNames: seq<string>, p: Props): Result<Props, Error>
  {
    match AssembleError(id, p)
    case Some(e) => Err(e)
    case None => Ok(AssembledState(id, classNames, p))
  }

  /** A props object, which `assembleProps` updates in place. */
  class PropsObject {
    var entries: Props

    constructor (entries: Props)
      ensures this.entries == entries
    {
      this.entries := entries;
    }
  }

  /** `assembleProps(id, classNames, props)`: returns the same object it was
      given, after updating it. */
  method AssembleProps(id: string, classNames: seq<string>, props: PropsObject) returns (r: Result<PropsObject, Error>)
    modifies props
    ensures props.entries == AssembledState(id, classNames, old(props.entries))
    ensures r == match AssembleError(id, old(props.entries))
                 case Some(e) => Err(e)
                 case None => Ok(props)
  {
    ghost var p := props.entries;
    if id != "" {
      if Truthy(Get(props.entries, "id")) {
        return Err(DuplicateId);
      }
      props.entries := Set(props.entries, "id", Str(id));
    }
    ghost var p1 := props.entries;
    assert p1 == WithId(id, p);
    WithIdOther(id, p, "class");
    WithIdOther(id, p, "classList");
    WithIdOther(id, p, "className");
    var classList := Strs(classNames);
    var cls := Get(props.entries, "class");
    if cls.Obj? {
      classList := classList + TruthyKeys(cls.entries);
      DeleteOther(props.entries, "class", "classList");
      DeleteOther(props.entries, "class", "className");
      props.entries := Delete(props.entries, "class");
    }
    assert classList == Strs(classNames) + ObjectClasses(p);
    var list := Get(props.entries, "classList");
    if list.Arr? {
      classList := classList + list.elems;
    }
    assert classList == Strs(classNames) + ObjectClasses(p) + ArrayClasses(p);
    cls := Get(props.entries, "class");
    if cls.Str? {
      classList := classList + Strs(Split(cls.s, ' '));
      DeleteOther(props.entries, "class", "className");
      props.entries := Delete(props.entries, "class");
    }
    assert classList == Strs(classNames) + ObjectClasses(p) + ArrayClasses(p) + StringClasses(p);
    ghost var p2 := props.entries;
    assert p2 == WithoutClass(p1);
    var name := Get(props.entries, "className");
    assert name == Get(p, "className");
    if Truthy(name) {
      if !name.Str? {
        AssembledStopsAtClassName(id, classNames, p);
        return Err(TypeError);
      }
      classList := classList + Strs(Split(name.s, ' '));
      props.entries := Delete(props.entries, "className");
    }
    ghost var p3 := props.entries;
    assert p3 == WithoutClassName(p2);
    assert classList == ClassList(classNames, p);
    if |classList| > 0 {
      props.entries := Set(props.entries, "classList", Arr(classList));
    }
    AssembledSteps(id, classNames, p);
    return Ok(props);
  }

  /** A successful call is the four steps, one after the other. */
  lemma AssembledSteps(id: string, classNames: seq<string>, p: Props)
    requires AssembleError(id, p).None?
    ensures AssembledState(id, classNames, p)
         == WithClassList(ClassList(classNames, p), WithoutClassName(WithoutClass(WithId(id, p))))
  {
  }

  /** A `className` without `split` stops the call after the `class` step. */
  lemma AssembledStopsAtClassName(id: string, classNames: seq<string>, p: Props)
    requires AssembleError(id, p) == Some(TypeError)
    ensures AssembledState(id, classNames, p) == WithoutClass(WithId(id, p))
  {
  }

  // What a successful call leaves under each key: the id from the token, a
  // folded `class` and a truthy `className` removed, the combined class list
  // written when it is not empty (an empty one writes nothing), and every
  // other property as it was.

  /** The id step leaves every other key as it was. */
  lemma WithIdOther(id: string, p: Props, k: string)
    requires k != "id"
    ensures Get(WithId(id, p), k) == Get(p, k)
  {
    if id != "" {
      SetOther(p, "id", Str(id), k);
    }
  }

  /** The `class` step leaves every other key as it was. */
  lemma WithoutClassOther(p: Props, k: string)
    requires k != "class"
    ensures Get(WithoutClass(p), k) == Get(p, k)
  {
    var c := Get(p, "class");
    if c.Obj? || c.Str? {
      DeleteOther(p, "class", k);
    }
  }

  /** The `className` step leaves every other key as it was. */
  lemma WithoutClassNameOther(p: Props, k: string)
    requires k != "className"
    ensures Get(WithoutClassName(p), k) == Get(p, k)
  {
    if Truthy(Get(p, "className")) {
      DeleteOther(p, "className", k);
    }
  }

  /** The `classList` step leaves every other key as it was. */
  lemma WithClassListOther(list: seq<Value>, p: Props, k: string)
    requires k != "classList"
    ensures Get(WithClassList(list, p), k) == Get(p, k)
  {
    if |list| > 0 {
      SetOther(p, "classList", Arr(list), k);
    }
  }

  /** One key of a successful result, followed through the four steps. */
  lemma AssembledGet(id: string, classNames: seq<string>, p: Props, k: string)
    requires AssembleError(id, p).None?
    ensures Get(AssembledState(id, classNames, p), k)
         == (var c := Get(p, "class"); var cn := Get(p, "className"); var l := ClassList(classNames, p);
             if k == "classList" && |l| > 0 then Arr(l)
             else if k == "className" && Truthy(cn) then Undefined
             else if k == "class" && (c.Obj? || c.Str?) then Undefined
             else if k == "id" && id != "" then Str(id)
             else Get(p, k))
  {
    var p1 := WithId(id, p);
    WithIdOther(id, p, "class");
    WithIdOther(id, p, "className");
    var p2 := WithoutClass(p1);
    WithoutClassOther(p1, "className");
    var p3 := WithoutClassName(p2);
    var l := ClassList(classNames, p);
    AssembledSteps(id, classNames, p);
    if k != "classList" { WithClassListOther(l, p3, k); }
    if k != "className" { WithoutClassNameOther(p2, k); }
    if k != "class" { WithoutClassOther(p1, k); }
    if k != "id" { WithIdOther(id, p, k); }
  }

  lemma AssembleSetsId(id: string, classNames: seq<string>, p: Props)
    requires AssembleError(id, p).None?
    ensures Get(AssembledState(id, classNames, p), "id") == (if id != "" then Str(id) else Get(p, "id"))
  {
    AssembledGet(id, classNames, p, "id");
  }

  lemma AssembleFoldsClass(id: string, classNames: seq<string>, p: Props)
    requires AssembleError(id, p).None?
    ensures Get(AssembledState(id, classNames, p), "class")
         == (var c := Get(p, "class"); if c.Obj? || c.Str? then Undefined else c)
  {
    AssembledGet(id, classNames, p, "class");
  }

  lemma AssembleFoldsClassName(id: string, classNames: seq<string>, p: Props)
    requires AssembleError(id, p).None?
    ensures Get(AssembledState(id, classNames, p), "className")
         == (var c := Get(p, "className"); if Truthy(c) then Undefined else c)
  {
    AssembledGet(id, classNames, p, "className");
  }

  lemma AssembleWritesClassList(id: string, classNames: seq<string>, p: Props)
    requires AssembleError(id, p).None?
    ensures Get(AssembledState(id, classNames, p), "classList")
         == (var l := ClassList(classNames, p); if |l| > 0 then Arr(l) else Get(p, "classList"))
  {
    AssembledGet(id, classNames, p, "classList");
  }

  lemma AssembleKeepsOthers(id: string, classNames: seq<string>, p: Props, k: string)
    requires AssembleError(id, p).None?
    requires k != "id" && k != "class" && k != "className" && k != "classList"
    ensures Get(AssembledState(id, classNames, p), k) == Get(p, k)
  {
    AssembledGet(id, classNames, p, k);
  }

  /** With no id and no class names from the token, props that carry none
      of the class keys come back unchanged. */
  lemma AssembleNeutral(p: Props)
    requires !Has(p, "class") && !Has(p, "className") && !Has(p, "classList")
    ensures Assemble("", [], p) == Ok(p)
  {
    GetAbsent(p, "class");
    GetAbsent(p, "className");
    GetAbsent(p, "classList");
    assert ClassList([], p) == [];
  }

  /** The id check comes first: a token id meets a truthy props id, even an
      equal one, exactly when "Multiple IDs" is thrown, and the object is
      then left untouched. */
  lemma DuplicateIdCheck(id: string, classNames: seq<string>, p: Props)
    ensures Assemble(id, classNames, p) == Err(DuplicateId) <==> id != "" && Truthy(Get(p, "id"))
    ensures id != "" && Truthy(Get(p, "id")) ==> AssembledState(id, classNames, p) == p
  {
  }

  // The examples of the source's documentation comment, one lemma each

  lemma ExampleIdOnly()
    ensures Assemble("a", [], []) == Ok([Entry("id", Str("a"))])
  {
    assert ClassList([], []) == [];
  }

  lemma ExampleIdAndClass()
    ensures Assemble("a", ["X"], [Entry("class", Str("Y"))])
         == Ok([Entry("id", Str("a")), Entry("classList", Arr([Str("X"), Str("Y")]))])
  {
    var p := [Entry("class", Str("Y"))];
    assert Get(p, "id") == Undefined && Get(p, "className") == Undefined;
    var p1 := Set(p, "id", Str("a"));
    assert p1 == [Entry("class", Str("Y")), Entry("id", Str("a"))];
    var p2 := Delete(p1, "class");
    assert p2 == [Entry("id", Str("a"))] by {
      assert p1[1..] == [Entry("id", Str("a"))];
      assert Delete(p1[1..], "class") == [Entry("id", Str("a"))] + Delete([], "class");
    }
    assert Get(p2, "className") == Undefined;
    assert Split("Y", ' ') == ["Y"];
    var list := [Str("X"), Str("Y")];
    assert ClassList(["X"], p) == list by {
      assert Strs(["X"]) == [Str("X")];
      assert ObjectClasses(p) == [] && ArrayClasses(p) == [] && NameClasses(p) == [];
      assert StringClasses(p) == [Str("Y")];
    }
    assert Set(p2, "classList", Arr(list)) == [Entry("id", Str("a")), Entry("classList", Arr(list))];
  }

  lemma ExampleClassName()
    ensures Assemble("", ["X"], [Entry("className", Str("Y"))])
         == Ok([Entry("classList", Arr([Str("X"), Str("Y")]))])
  {
    var p := [Entry("className", Str("Y"))];
    assert Delete(p, "className") == [];
    assert Split("Y", ' ') == ["Y"];
    assert ClassList(["X"], p) == [Str("X"), Str("Y")];
  }

  lemma ExampleClassAndClassName()
    ensures Assemble("", ["X"], [Entry("class", Str("Z")), Entry("className", Str("Y"))])
         == Ok([Entry("classList", Arr([Str("X"), Str("Z"), Str("Y")]))])
  {
    var p := [Entry("class", Str("Z")), Entry("className", Str("Y"))];
    assert Delete(p, "class") == [Entry("className", Str("Y"))];
    assert Delete([Entry("className", Str("Y"))], "className") == [];
    assert Split("Y", ' ') == ["Y"];
    assert Split("Z", ' ') == ["Z"];
    assert ClassList(["X"], p) == [Str("X"), Str("Z"), Str("Y")];
  }

  // Repeated renders. The traversal hands `assembleProps` the props object of
  // the expression itself, so a second render of the same expression sees the
  // first one's writes.

  /** As written: the second call on the same object finds the id the first
      call wrote, and throws "Multiple IDs". */
  method ReuseAsWritten() returns (first: Result<PropsObject, Error>, second: Result<PropsObject, Error>)
    ensures first.Ok?
    ensures second == Err(DuplicateId)
  {
    var props := new PropsObject([]);
    first := AssembleProps("a", [], props);
    second := AssembleProps("a", [], props);
  }

  /** Corrected: normalize a fresh copy, so the caller's object is never
      written and every call sees the same input. */
  method AssemblePropsCopy(id: string, classNames: seq<string>, props: PropsObject) returns (r: Result<PropsObject, Error>)
    ensures r.Err? <==> AssembleError(id, props.entries).Some?
    ensures r.Err? ==> r.error == AssembleError(id, props.entries).value
    ensures r.Ok? ==> fresh(r.value) && r.value.entries == AssembledState(id, classNames, props.entries)
  {
    var copy := new PropsObject(props.entries);
    r := AssembleProps(id, classNames, copy);
  }

  /** With the copy, repeating the call gives the same props both times. */
  method ReuseCopied() returns (first: Result<PropsObject, Error>, second: Result<PropsObject, Error>)
    ensures first.Ok? && second.Ok?
    ensures first.value.entries == second.value.entries == [Entry("id", Str("a"))]
  {
    var props := new PropsObject([]);
    ExampleIdOnly();
    first := AssemblePropsCopy("a", [], props);
    second := AssemblePropsCopy("a", [], props);
  }
}
