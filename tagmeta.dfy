/** `extractTagMeta` of aydin.js: splits a tag token `name#id.cls…` into the
    bare tag name, the id and the class names. The three regular expressions
    of the source are written out as character scans. */
module TagMeta {
  import opened Wrappers
  import opened Values

  /** The parts of a tag token. `tag` is the bare name (a string), or the
      template itself when the token is a function. */
  datatype Meta = Meta(tag: Value, id: string, classes: seq<string>)

  /** The longest prefix of `s` that contains no character of `stops`. */
  function Run(s: string, stops: set<char>): (r: string)
    ensures r <= s
    ensures forall i :: 0 <= i < |r| ==> r[i] !in stops
    ensures |r| < |s| ==> s[|r|] in stops
  {
    if s == [] || s[0] in stops then [] else [s[0]] + Run(s[1..], stops)
  }

  /** The match of `/^[^.#]+/`, or `""` where the source's `match` returns
      `null`. */
  function NameOf(s: string): string
  {
    Run(s, {'.', '#'})
  }

  /** The first match of `/#[^.]+/` with its `#` removed, or `""` when there
      is none: a `#` followed by at least one character other than `.`, and
      everything after it up to the next `.`. */
  function IdOf(s: string): (id: string)
    ensures '.' !in id
    ensures '#' !in s ==> id == ""
    decreases |s|
  {
    if |s| < 2 then ""
    else if s[0] == '#' && s[1] != '.' then Run(s[1..], {'.'})
    else IdOf(s[1..])
  }

  /** All matches of `/\.[^.#]+/g`, each with its `.` removed, in the order
      they occur. */
  function ClassesOf(s: string): (cs: seq<string>)
    ensures forall i :: 0 <= i < |cs| ==> cs[i] != "" && '.' !in cs[i] && '#' !in cs[i]
    ensures '.' !in s ==> cs == []
    decreases |s|
  {
    if |s| < 2 then []
    else if s[0] == '.' && s[1] != '.' && s[1] != '#' then
      var c := Run(s[1..], {'.', '#'});
      [c] + ClassesOf(s[1 + |c|..])
    else ClassesOf(s[1..])
  }

  /** `extractTagMeta(tagName)`. A function is its own tag, with no id and no
      classes. A string fails only when it has no leading name: the source
      then indexes the `null` that `match` returns. Anything else has no
      `match` method and fails as well. */
  function ExtractTagMeta(tagName: Value): (r: Result<Meta, Error>)
    ensures r.Ok? <==> tagName.Fn? || (tagName.Str? && tagName.s != [] && tagName.s[0] !in {'.', '#'})
    ensures tagName.Fn? ==> r == Ok(Meta(tagName, "", []))
    ensures r.Err? ==> r.error == TypeError
    ensures r.Ok? && tagName.Str? ==>
      && r.value.tag == Str(NameOf(tagName.s))
      && r.value.id == IdOf(tagName.s)
      && r.value.classes == ClassesOf(tagName.s)
  {
    match tagName
    case Fn(_) => Ok(Meta(tagName, "", []))
    case Str(s) =>
      var name := NameOf(s);
      if name == "" then Err(TypeError) else Ok(Meta(Str(name), IdOf(s), ClassesOf(s)))
    case _ => Err(TypeError)
  }

  // The token grammar, as a reference to check the scans against

  predicate ValidName(name: string)
  {
    name != "" && '.' !in name && '#' !in name
  }

  predicate ValidClass(c: string)
  {
    c != "" && '.' !in c && '#' !in c
  }

  /** `.c₁.c₂…` */
  function DotJoin(classes: seq<string>): string
  {
    if classes == [] then "" else "." + classes[0] + DotJoin(classes[1..])
  }

  /** The token `name#id.c₁.c₂…`, leaving out `#id` when the id is empty. */
  function Format(name: string, id: string, classes: seq<string>): string
  {
    name + (if id == "" then "" else "#" + id) + DotJoin(classes)
  }

  lemma {:induction false} RunStops(a: string, b: string, stops: set<char>)
    requires forall i :: 0 <= i < |a| ==> a[i] !in stops
    requires b == [] || b[0] in stops
    ensures Run(a + b, stops) == a
  {
    if a != [] {
      assert (a + b)[1..] == a[1..] + b;
      RunStops(a[1..], b, stops);
    }
  }

  lemma {:induction false} IdOfSkips(a: string, b: string)
    requires '#' !in a
    ensures IdOf(a + b) == IdOf(b)
  {
    if a != [] {
      var s := a + b;
      assert s[0] == a[0] && s[1..] == a[1..] + b;
      IdOfSkips(a[1..], b);
      if |s| >= 2 {
        assert IdOf(s) == IdOf(s[1..]);
      }
    } else {
      assert a + b == b;
    }
  }

  lemma {:induction false} ClassesOfSkips(a: string, b: string)
    requires '.' !in a
    ensures ClassesOf(a + b) == ClassesOf(b)
  {
    if a != [] {
      var s := a + b;
      assert s[0] == a[0] && s[1..] == a[1..] + b;
      ClassesOfSkips(a[1..], b);
      if |s| >= 2 {
        assert ClassesOf(s) == ClassesOf(s[1..]);
      }
    } else {
      assert a + b == b;
    }
  }

  lemma {:induction false} DotJoinShape(classes: seq<string>)
    requires forall i :: 0 <= i < |classes| ==> ValidClass(classes[i])
    ensures '#' !in DotJoin(classes)
    ensures DotJoin(classes) == [] || DotJoin(classes)[0] == '.'
  {
    if classes != [] {
      DotJoinShape(classes[1..]);
    }
  }

  lemma {:induction false} ClassesOfDotJoin(classes: seq<string>)
    requires forall i :: 0 <= i < |classes| ==> ValidClass(classes[i])
    ensures ClassesOf(DotJoin(classes)) == classes
  {
    if classes != [] {
      var c, rest := classes[0], DotJoin(classes[1..]);
      var s := DotJoin(classes);
      assert s == "." + c + rest;
      DotJoinShape(classes[1..]);
      assert s[1..] == c + rest;
      RunStops(c, rest, {'.', '#'});
      assert s[1 + |c|..] == rest;
      ClassesOfDotJoin(classes[1..]);
    }
  }

  lemma {:induction false} NameOfFormat(name: string, id: string, classes: seq<string>)
    requires ValidName(name)
    requires forall i :: 0 <= i < |classes| ==> ValidClass(classes[i])
    ensures NameOf(Format(name, id, classes)) == name
  {
    var rest := (if id == "" then "" else "#" + id) + DotJoin(classes);
    assert Format(name, id, classes) == name + rest;
    DotJoinShape(classes);
    RunStops(name, rest, {'.', '#'});
  }

  lemma IdOfHash(id: string, dots: string)
    requires id != "" && '.' !in id
    requires dots == [] || dots[0] == '.'
    ensures IdOf("#" + id + dots) == id
  {
    var s := "#" + id + dots;
    assert s[0] == '#' && s[1] == id[0];
    assert s[1..] == id + dots;
    RunStops(id, dots, {'.'});
  }

  lemma {:induction false} IdOfFormat(name: string, id: string, classes: seq<string>)
    requires ValidName(name)
    requires '.' !in id
    requires forall i :: 0 <= i < |classes| ==> ValidClass(classes[i])
    ensures IdOf(Format(name, id, classes)) == id
  {
    var dots := DotJoin(classes);
    DotJoinShape(classes);
    if id == "" {
      assert Format(name, id, classes) == name + dots;
      IdOfSkips(name, dots);
    } else {
      assert Format(name, id, classes) == name + ("#" + id + dots);
      IdOfSkips(name, "#" + id + dots);
      IdOfHash(id, dots);
    }
  }

  lemma {:induction false} ClassesOfFormat(name: string, id: string, classes: seq<string>)
    requires ValidName(name)
    requires '.' !in id
    requires forall i :: 0 <= i < |classes| ==> ValidClass(classes[i])
    ensures ClassesOf(Format(name, id, classes)) == classes
  {
    var head := name + (if id == "" then "" else "#" + id);
    assert Format(name, id, classes) == head + DotJoin(classes);
    assert '.' !in head;
    ClassesOfSkips(head, DotJoin(classes));
    ClassesOfDotJoin(classes);
  }

  /** The scans invert `Format`: a token built from a valid name, an id
      without `.` and valid class names is taken apart into exactly those
      parts, the classes in the order they were written. */
  lemma ExtractFormat(name: string, id: string, classes: seq<string>)
    requires ValidName(name)
    requires '.' !in id
    requires forall i :: 0 <= i < |classes| ==> ValidClass(classes[i])
    ensures ExtractTagMeta(Str(Format(name, id, classes))) == Ok(Meta(Str(name), id, classes))
  {
    NameOfFormat(name, id, classes);
    IdOfFormat(name, id, classes);
    ClassesOfFormat(name, id, classes);
  }

  /** The examples of the source's documentation comment, one lemma each. */
  lemma ExamplePlain()
    ensures ExtractTagMeta(Str("div")) == Ok(Meta(Str("div"), "", []))
  {
    assert Format("div", "", []) == "div";
    ExtractFormat("div", "", []);
  }

  lemma ExampleId()
    ensures ExtractTagMeta(Str("div#some-id")) == Ok(Meta(Str("div"), "some-id", []))
  {
    assert Format("div", "some-id", []) == "div#some-id";
    ExtractFormat("div", "some-id", []);
  }

  lemma ExampleClasses()
    ensures ExtractTagMeta(Str("div.cls-a.cls-b")) == Ok(Meta(Str("div"), "", ["cls-a", "cls-b"]))
  {
    TwoClasses("div", "", "cls-a", "cls-b");
    assert Format("div", "", ["cls-a", "cls-b"]) == "div.cls-a.cls-b";
  }

  lemma ExampleIdAndClasses()
    ensures ExtractTagMeta(Str("i#idx.some-class.fx42")) == Ok(Meta(Str("i"), "idx", ["some-class", "fx42"]))
  {
    var s := "i#idx.some-class.fx42";
    var cs := ["some-class", "fx42"];
    assert s == Format("i", "idx", cs) by {
      assert DotJoin(cs) == ".some-class.fx42" by {
        assert DotJoin(cs[1..]) == ".fx42" by { assert cs[1..][1..] == []; }
      }
    }
    ExtractFormat("i", "idx", cs);
  }

  lemma TwoClasses(name: string, id: string, a: string, b: string)
    requires ValidName(name) && '.' !in id && ValidClass(a) && ValidClass(b)
    ensures Format(name, id, [a, b]) == name + (if id == "" then "" else "#" + id) + "." + a + "." + b
    ensures ExtractTagMeta(Str(Format(name, id, [a, b]))) == Ok(Meta(Str(name), id, [a, b]))
  {
    var cs := [a, b];
    assert DotJoin(cs[1..]) == "." + b by {
      assert cs[1..] == [b];
      assert DotJoin([b]) == "." + b + DotJoin([]);
    }
    assert DotJoin(cs) == "." + a + "." + b;
    ExtractFormat(name, id, cs);
  }

  /** Tokens the scans do not reject: a trailing `.` is dropped, a second
      `#` becomes part of the id, and a token without a leading name fails. */
  lemma LenientTokens()
    ensures ExtractTagMeta(Str("div.")) == Ok(Meta(Str("div"), "", []))
    ensures ExtractTagMeta(Str("div#a#b")) == Ok(Meta(Str("div"), "a#b", []))
    ensures ExtractTagMeta(Str("#a.b")) == Err(TypeError)
    ensures ExtractTagMeta(Str("")) == Err(TypeError)
  {
    assert "div." == "div" + ".";
    RunStops("div", ".", {'.', '#'});
    IdOfSkips("div", ".");
    ClassesOfSkips("div", ".");
    assert Format("div", "a#b", []) == "div#a#b";
    ExtractFormat("div", "a#b", []);
  }
}
