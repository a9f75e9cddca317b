/** The `<b>Bold!</b>` element of the shallow-tree example that the DOM
    driver's tests trace with `tracable`: the driver calls traversing it
    makes, and the trace lines those calls log. */
module ShallowTree {
  import opened Wrappers
  import opened Values
  import opened TagMeta
  import opened PropsAssembly
  import opened Engine
  import opened TestUtils

  /** A driver that walks into plain elements, as the DOM driver does: no
      string tag is special, and an element visit answers with a
      finalizer. */
  ghost predicate WalksElements<F>(d: Driver<F>)
  {
    && d.isSpecialTag.Some?
    && (forall s :: !d.isSpecialTag.value(Str(s)).0)
    && (forall tag, props, path :: d.visit(tag, props, ELEMENT_NODE, path).Finalizer?)
  }

  // The calls

  /** The one child of `["b", "Bold!"]` at `[0, 2]` is visited as text at
      `[0, 2, 0]`. */
  lemma BoldChildren<F>(d: Driver<F>, env: Env, fuel: nat)
    ensures TraverseAll(d, env, [Str("b"), Str("Bold!")], 1, 1, [0, 2], fuel)
         == Run(Ok([d.visit(Str("Bold!"), None, TEXT_NODE, [0, 2, 0])]), [Visit(Str("Bold!"), None, TEXT_NODE, [0, 2, 0])])
  {
    var es := [Str("b"), Str("Bold!")];
    var path: Path := [0, 2];
    assert path + [1 - 1] == [0, 2, 0];
    assert TraverseAll(d, env, es, 1, 2, path, fuel) == Run(Ok([]), []);
    var first := Traverse(d, env, es[1], path + [1 - 1], fuel);
    assert first == Run(Ok(d.visit(Str("Bold!"), None, TEXT_NODE, [0, 2, 0])), [Visit(Str("Bold!"), None, TEXT_NODE, [0, 2, 0])]);
    assert [first.result.value] + [] == [first.result.value];
    assert first.calls + [] == first.calls;
  }

  /** The element is visited with empty props; its finalizer receives the
      child's effect. */
  lemma BoldNode<F>(d: Driver<F>, env: Env, fuel: nat)
    requires d.visit(Str("b"), Some([]), ELEMENT_NODE, [0, 2]).Finalizer?
    ensures TraverseNode(d, env, [Str("b"), Str("Bold!")], Str("b"), [], [0, 2], fuel).calls
         == [Visit(Str("b"), Some([]), ELEMENT_NODE, [0, 2]), Visit(Str("Bold!"), None, TEXT_NODE, [0, 2, 0]), Finish([0, 2])]
  {
    var es := [Str("b"), Str("Bold!")];
    assert !HasProps(es) && ChildStart(es) == 1;
    BoldChildren(d, env, fuel);
  }

  /** The tag `b` is asked about, taken apart into a bare name, and given
      an empty props object. */
  lemma BoldElement<F>(d: Driver<F>, env: Env, fuel: nat)
    requires d.isSpecialTag.Some? && !d.isSpecialTag.value(Str("b")).0
    requires d.visit(Str("b"), Some([]), ELEMENT_NODE, [0, 2]).Finalizer?
    ensures TraverseElement(d, env, [Str("b"), Str("Bold!")], [0, 2], fuel).calls
         == [AskSpecial(Str("b"))] + TraverseNode(d, env, [Str("b"), Str("Bold!")], Str("b"), [], [0, 2], fuel).calls
  {
    var es := [Str("b"), Str("Bold!")];
    assert ExtractTagMeta(Str("b")) == Ok(Meta(Str("b"), "", [])) by {
      assert Format("b", "", []) == "b";
      ExtractFormat("b", "", []);
    }
    assert Assemble("", [], []) == Ok([]) by {
      AssembleNeutral([]);
    }
    assert !HasProps(es);
  }

  /** The question about the tag, followed by the node's three calls. */
  lemma BoldJoin(a: DriverCall, b: DriverCall, c: DriverCall, d: DriverCall)
    ensures [a] + [b, c, d] == [a, b, c, d]
  {
  }

  /** All the calls, in order. */
  lemma BoldCalls<F>(d: Driver<F>, env: Env, fuel: nat)
    requires d.isSpecialTag.Some? && !d.isSpecialTag.value(Str("b")).0
    requires d.visit(Str("b"), Some([]), ELEMENT_NODE, [0, 2]).Finalizer?
    ensures Traverse(d, env, Arr([Str("b"), Str("Bold!")]), [0, 2], fuel).calls
         == [AskSpecial(Str("b")), Visit(Str("b"), Some([]), ELEMENT_NODE, [0, 2]),
             Visit(Str("Bold!"), None, TEXT_NODE, [0, 2, 0]), Finish([0, 2])]
  {
    var es := [Str("b"), Str("Bold!")];
    assert !IsFragment(es);
    assert Traverse(d, env, Arr(es), [0, 2], fuel) == TraverseElement(d, env, es, [0, 2], fuel);
    BoldElement(d, env, fuel);
    BoldNode(d, env, fuel);
    BoldJoin(AskSpecial(Str("b")), Visit(Str("b"), Some([]), ELEMENT_NODE, [0, 2]),
             Visit(Str("Bold!"), None, TEXT_NODE, [0, 2, 0]), Finish([0, 2]));
  }

  /** Of those calls, the two visits are logged, numbered on from 3. */
  lemma BoldEntries()
    ensures Entries(3, [AskSpecial(Str("b")), Visit(Str("b"), Some([]), ELEMENT_NODE, [0, 2]),
                        Visit(Str("Bold!"), None, TEXT_NODE, [0, 2, 0]), Finish([0, 2])])
         == [LogEntry(3, Visit(Str("b"), Some([]), ELEMENT_NODE, [0, 2])), LogEntry(4, Visit(Str("Bold!"), None, TEXT_NODE, [0, 2, 0]))]
  {
    var c1 := Visit(Str("b"), Some([]), ELEMENT_NODE, [0, 2]);
    var c2 := Visit(Str("Bold!"), None, TEXT_NODE, [0, 2, 0]);
    var calls := [AskSpecial(Str("b")), c1, c2, Finish([0, 2])];
    assert calls[1..] == [c1, c2, Finish([0, 2])] && calls[1..][1..] == [c2, Finish([0, 2])];
    assert calls[1..][1..][1..] == [Finish([0, 2])];
    assert Entries(5, [Finish([0, 2])]) == [];
    assert Entries(4, calls[1..][1..]) == [LogEntry(4, c2)] + Entries(5, [Finish([0, 2])]);
    assert Entries(3, calls[1..]) == [LogEntry(3, c1)] + Entries(4, calls[1..][1..]);
    assert Entries(3, calls) == Entries(3, calls[1..]);
  }

  // The lines

  /** A one-digit line number is padded with three zeros. */
  lemma PadDigit(d: nat)
    requires d < 10
    ensures Pad4(NatToString(d)) == ['0', '0', '0', DigitChar(d)]
  {
    var z := seq(3, _ => '0');
    assert z == ['0', '0', '0'];
  }

  lemma PathOfThirdChild()
    ensures PathText([0, 2]) == "0,2"
  {
    var p: Path := [0, 2];
    var parts := seq(|p|, i requires 0 <= i < |p| => NatToString(p[i]));
    assert parts[0] == "0" && parts[1] == "2";
    assert parts[1..] == ["2"];
    assert Join(parts[1..], ",") == "2";
    assert Join(parts, ",") == "0" + "," + "2";
  }

  lemma PathOfItsChild()
    ensures PathText([0, 2, 0]) == "0,2,0"
  {
    var p: Path := [0, 2, 0];
    var parts := seq(|p|, i requires 0 <= i < |p| => NatToString(p[i]));
    assert parts[0] == "0" && parts[1] == "2" && parts[2] == "0";
    assert parts[1..] == ["2", "0"];
    assert parts[1..][1..] == ["0"];
    assert Join(parts[1..][1..], ",") == "0";
    assert Join(parts[1..], ",") == "2" + "," + "0";
    assert Join(parts, ",") == "0" + "," + "2,0";
  }

  lemma ElementLine(n: nat, expr: Value, props: Option<Props>, path: Path)
    ensures LineText(LogEntry(n, Visit(expr, props, ELEMENT_NODE, path)))
         == Pad4(NatToString(n)) + ": [" + PathText(path) + "] " + ("ELEMENT_NODE(1) <" + Display(expr) + ">")
  {
  }

  lemma TextLine(n: nat, expr: Value, path: Path)
    ensures LineText(LogEntry(n, Visit(expr, None, TEXT_NODE, path)))
         == Pad4(NatToString(n)) + ": [" + PathText(path) + "] " + ("TEXT_NODE(3) '" + Display(expr) + "'")
  {
  }

  lemma BoldElementText(pad: string, path: string, tag: string)
    requires pad == "0003" && path == "0,2" && tag == "b"
    ensures pad + ": [" + path + "] " + ("ELEMENT_NODE(1) <" + tag + ">") == "0003: [0,2] ELEMENT_NODE(1) <b>"
  {
  }

  lemma BoldTextText(pad: string, path: string, text: string)
    requires pad == "0004" && path == "0,2,0" && text == "Bold!"
    ensures pad + ": [" + path + "] " + ("TEXT_NODE(3) '" + text + "'") == "0004: [0,2,0] TEXT_NODE(3) 'Bold!'"
  {
  }

  lemma BoldElementLine()
    ensures LineText(LogEntry(3, Visit(Str("b"), Some([]), ELEMENT_NODE, [0, 2]))) == "0003: [0,2] ELEMENT_NODE(1) <b>"
  {
    ElementLine(3, Str("b"), Some([]), [0, 2]);
    PadDigit(3);
    PathOfThirdChild();
    BoldElementText(Pad4(NatToString(3)), PathText([0, 2]), Display(Str("b")));
  }

  lemma BoldTextLine()
    ensures LineText(LogEntry(4, Visit(Str("Bold!"), None, TEXT_NODE, [0, 2, 0]))) == "0004: [0,2,0] TEXT_NODE(3) 'Bold!'"
  {
    TextLine(4, Str("Bold!"), [0, 2, 0]);
    PadDigit(4);
    PathOfItsChild();
    BoldTextText(Pad4(NatToString(4)), PathText([0, 2, 0]), Display(Str("Bold!")));
  }

  /** Traversed as the third child of the root, after three lines have been
      logged, `["b", "Bold!"]` logs lines 0003 and 0004 of the example. */
  lemma BoldTrace<F>(d: Driver<F>, env: Env, fuel: nat)
    requires WalksElements(d)
    ensures TraceFrom(3, Traverse(d, env, Arr([Str("b"), Str("Bold!")]), [0, 2], fuel).calls)
         == ["0003: [0,2] ELEMENT_NODE(1) <b>", "0004: [0,2,0] TEXT_NODE(3) 'Bold!'"]
  {
    assert !d.isSpecialTag.value(Str("b")).0;
    assert d.visit(Str("b"), Some([]), ELEMENT_NODE, [0, 2]).Finalizer?;
    BoldCalls(d, env, fuel);
    BoldEntries();
    BoldElementLine();
    BoldTextLine();
    var es := [LogEntry(3, Visit(Str("b"), Some([]), ELEMENT_NODE, [0, 2])), LogEntry(4, Visit(Str("Bold!"), None, TEXT_NODE, [0, 2, 0]))];
    assert es == [es[0]] + [es[1]];
    TextsAppend([es[0]], [es[1]], LineText);
    TextsOne(es[0], LineText);
    TextsOne(es[1], LineText);
  }
}
