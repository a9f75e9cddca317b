# aydin, modelled in Dafny

aydin renders nested-array expressions (`["div", {id: "x"}, "text", ["b", "bold"]]`)
through a pluggable *driver*. The renderer itself decides nothing about output. It
walks the expression, splits tag tokens such as `div#id.cls` into name, id and
classes, folds those into the element's props, and calls the driver's `visit`,
`reduce` and `isSpecialTag` at each node, identified by its *path* (the child
indices from the root). A model-view-update plugin decorates a driver so that
"missing handler" events become messages folded into a model through a
user-supplied `update`, and so that *connected* templates are fed from that model.
The test utilities provide an identity driver, a decorator that silences
notifications, a tracing decorator that logs each element and text visit, and two helpers, `range`
and `html`.

The Dafny project models:

- `values.dfy`: the JavaScript values the renderer inspects, and props objects as
  ordered lists of entries.
- `tagmeta.dfy`: `extractTagMeta`.
- `props.dfy`: `assembleProps`, as a method updating a props object in place.
- `engine.dfy`: `traverse` and `render`, with the traversal as a function that
  returns its result and the ordered list of calls it made on the driver.
- `mvu.dfy`: the plugin, as a class holding the current model, with `dispatch`, the
  `intercept` of `notify`, and the decorated `expand`.
- `testutils.dfy`: `identityDriver`, `nonReactive`, `tracable` (its trace buffer is
  a class), `range` and `html`.
- `shallowtree.dfy`: the one traced example, the `<b>` element of the DOM tests'
  shallow tree.

Three facts about the code shape the model:

- `traverse` calls `driver.reduce` on every fragment and `driver.isSpecialTag` on
  every element without checking that they exist, so a driver without them fails
  with a `TypeError`.
- A component is called directly, not through the driver's `expand`, so `expand`
  is never used by the traversal (`Engine.ExpandUnused`).
- A traversal makes no visit at the end of a collection of children, and sends no
  signal around itself; only the calls listed in `Engine.DriverCall` are made.

## Model

| member | source | states |
|---|---|---|
| Values.Member | src/aydin-plugin-mvu.js:47 | `data.value` throws exactly when `data` is `undefined` or `null`; on an object it is the property, `undefined` when absent |
| Values.SetOther | src/aydin.js:39 | assigning one property leaves every other property as it was |
| Values.DeleteOther | src/aydin.js:52 | deleting one property leaves every other property as it was |
| Values.GetAbsent | src/aydin.js:45 | a property that is not there reads as `undefined` |
| Values.Split | src/aydin.js:60 | `split(" ")` gives at least one piece and no piece contains the separator |
| Values.JoinSplit | src/aydin.js:60 | joining the pieces of `split` with the separator gives back the original string |
| Values.CallForwards | src/aydin-plugin-mvu.js:87-89 | however many `connect` wrappers a template has, calling it runs the bottom template's body with the same arguments |
| Values.Select | src/aydin-plugin-mvu.js:92 | the default getter (`identity`) returns the whole model |
| TagMeta.ExtractTagMeta | src/aydin.js:86-98 | a function is its own tag with no id and no classes; a string succeeds exactly when it starts with a character other than `.`/`#`, giving name, id and classes by the three scans; everything else is a `TypeError` |
| TagMeta.IdOf | src/aydin.js:92-93 | the id contains no `.`, and is empty when the token has no `#` |
| TagMeta.ClassesOf | src/aydin.js:94-96 | every class is non-empty and contains neither `.` nor `#`; no `.` gives no classes |
| TagMeta.NameOfFormat | src/aydin.js:91 | the name scan recovers the name of a well-formed token `name#id.c1.c2` |
| TagMeta.IdOfFormat | src/aydin.js:92-93 | the id scan recovers the id of a well-formed token |
| TagMeta.ClassesOfFormat | src/aydin.js:94-96 | the class scan recovers the classes of a well-formed token, in order |
| TagMeta.ExtractFormat | src/aydin.js:86-98 | `extractTagMeta` inverts token formatting: name, id and classes come back exactly |
| TagMeta.ExamplePlain | src/aydin.js:79 | `"div"` gives `["div", "", []]` |
| TagMeta.ExampleId | src/aydin.js:80 | `"div#some-id"` gives `["div", "some-id", []]` |
| TagMeta.ExampleClasses | src/aydin.js:81 | `"div.cls-a.cls-b"` gives `["div", "", ["cls-a", "cls-b"]]` |
| TagMeta.ExampleIdAndClasses | src/aydin.js:82-83 | `"i#idx.some-class.fx42"` gives `["i", "idx", ["some-class", "fx42"]]` |
| TagMeta.TwoClasses | src/aydin.js:94-96 | any token with two valid classes is taken apart into those two, in order |
| TagMeta.LenientTokens | src/aydin.js:91-96 | a trailing `.` is dropped, a second `#` stays in the id, and a token with no leading name, or the empty token, throws |
| PropsAssembly.AssembleError | src/aydin.js:31-67 | the only errors are "Multiple IDs" and the `TypeError` of a non-string truthy `className` |
| PropsAssembly.AssembleProps | src/aydin.js:30-75 | the object is updated in place to the assembled state, and the same object is returned, or else the error is returned |
| PropsAssembly.AssembleSetsId | src/aydin.js:31-40 | after success, `id` is the token's id when it has one, and is otherwise unchanged |
| PropsAssembly.AssembleFoldsClass | src/aydin.js:45-62 | after success, an object- or string-valued `class` is gone, and any other `class` is unchanged |
| PropsAssembly.AssembleFoldsClassName | src/aydin.js:64-67 | after success, a truthy `className` is gone, and a falsy one is unchanged |
| PropsAssembly.AssembleWritesClassList | src/aydin.js:43-72 | `classList` becomes the token classes, then the truthy keys of an object `class`, then an array `classList`, then a string `class` split, then `className` split; an empty list writes nothing |
| PropsAssembly.AssembleKeepsOthers | src/aydin.js:30-75 | every other property is left as it was |
| PropsAssembly.AssembleNeutral | src/aydin.js:42-74 | no id, no token classes and no class keys give back the props unchanged |
| PropsAssembly.DuplicateIdCheck | src/aydin.js:31-36 | "Multiple IDs" is thrown exactly when the token has an id and the props have a truthy one, and the object is then untouched |
| PropsAssembly.ExampleIdOnly | src/aydin.js:22 | `("a", [], {})` gives `{id: "a"}` |
| PropsAssembly.ExampleIdAndClass | src/aydin.js:23-24 | `("a", ["X"], {class: "Y"})` gives `{id: "a", classList: ["X", "Y"]}` |
| PropsAssembly.ExampleClassName | src/aydin.js:25-26 | `("", ["X"], {className: "Y"})` gives `{classList: ["X", "Y"]}` |
| PropsAssembly.ExampleClassAndClassName | src/aydin.js:27-28 | `("", ["X"], {class: "Z", className: "Y"})` gives `{classList: ["X", "Z", "Y"]}` |
| PropsAssembly.ReuseAsWritten | src/aydin.js:147-148 | as written, assembling the same props object twice for a token with an id throws "Multiple IDs" the second time |
| PropsAssembly.AssemblePropsCopy | src/aydin.js:147-148 | corrected: assembling a fresh copy fails exactly as the original would and otherwise gives the assembled state, without touching the caller's object |
| PropsAssembly.ReuseCopied | src/aydin.js:147-148 | with the copy, two calls give the same props |
| Engine.ElementParts | src/aydin.js:129-134 | an element is exactly its tag, then its props when the second slot is an object, then its children |
| Engine.Traverse | src/aydin.js:103-127 | a traversal fails only with a `TypeError`, "Multiple IDs", or the model's fuel running out |
| Engine.TraverseElement | src/aydin.js:129-148 | the same, for an element or special tag |
| Engine.TraverseNode | src/aydin.js:150-162 | the same, for a component or an element with its props assembled |
| Engine.TraverseAll | src/aydin.js:155-159 | on success the children give one effect each, and the only errors are traversal errors |
| Engine.TraverseAllAt | src/aydin.js:155-159 | the children succeed exactly when each child's own traversal at `path + [j]` does; the effect at `j` is then that child's result, and the calls are each child's calls in index order |
| Engine.TraverseAllFirstError | src/aydin.js:155-159 | on an error there is a first failing child: every earlier child succeeded, the error is that child's, and the calls stop after that child's calls |
| Engine.CollectsChildren | src/aydin.js:155-159 | the same, from the first child: the collected effects are the children's results in order |
| Engine.FinalizerGetsChildren | src/aydin.js:154-160 | an element whose visit gives a finalizer is visited, then its children in order, then finished; it succeeds exactly when every child does, and the finalizer receives the children's results |
| Engine.ReduceGetsChildren | src/aydin.js:113-127 | a fragment's children are traversed in order at `path + [j]`, then reduced; it succeeds exactly when every child does, and `reduce` receives the children's results |
| Engine.VisitPathsAppend | src/aydin.js:103-163 | the visit paths of two call runs, one after the other, are the paths of each in turn |
| Engine.VisitOrder | src/aydin.js:103-163 | the paths of the `visit` calls strictly ascend in pre-order, so no node is visited twice, and all lie under the starting path |
| Engine.VisitOrderElement | src/aydin.js:129-148 | the same, for an element |
| Engine.VisitOrderNode | src/aydin.js:150-162 | the same, for a node: the element comes before its children, and a component keeps its own path |
| Engine.VisitOrderAll | src/aydin.js:155-159 | children are visited in index order, each within its own subtree |
| Engine.MoreFuel | src/aydin.js:103-163 | a traversal that does not run out of fuel gives the same result and the same calls with any larger bound, so fuel only stands in for the call stack |
| Engine.RenderMoreFuel | src/aydin.js:165-177 | the same, for a whole render |
| Engine.ExpandUnused | src/aydin.js:103-163 | replacing the driver's `expand` changes neither the result nor the calls of a traversal |
| Engine.ExpandUnusedElement | src/aydin.js:129-148 | the same, for an element |
| Engine.ExpandUnusedNode | src/aydin.js:150-162 | the same, for a node |
| Engine.ExpandUnusedAll | src/aydin.js:155-159 | the same, for the children |
| Engine.SpecialTagIsLeaf | src/aydin.js:136-141 | a special tag is visited once at its path, with null props and its node kind, and its children are never traversed |
| Engine.PlainVisitIsLeaf | src/aydin.js:154-162 | a visit that returns no finalizer is the result, and no child is traversed |
| Engine.ComponentSamePath | src/aydin.js:150-152 | a component is called with the assembled props and the children, and its output is traversed at the component's own path |
| Engine.RenderChecks | src/aydin.js:165-177 | an invalid driver, then an invalid expression, is rejected before any call; otherwise the render is the traversal from `[0]`, which never raises these two errors and visits only under `[0]` |
| Mvu.FoldSnoc | src/aydin-plugin-mvu.js:31-34 | one more message is one more application of `update` |
| Mvu.FoldAppend | src/aydin-plugin-mvu.js:31-34 | dispatching two batches in turn leaves the same model as dispatching them as one |
| Mvu.AddExample | src/aydin-plugin-mvu.js:31-34 | with an adding `update`, messages 1, 2 and 3 take the model from 0 to 6 |
| Mvu.BaseExpand | src/aydin-plugin-mvu.js:14-16 | `baseExpand` runs the bottom template's body with the props and children it is given |
| Mvu.ConnectedExpand | src/aydin-plugin-mvu.js:60-63 | a connected template sees its getter's view of the model in place of its props, and the whole model when no getter was given |
| Mvu.UnconnectedExpand | src/aydin-plugin-mvu.js:64 | any other template goes to the inner driver's `expand`, or else is called with its own props |
| Mvu.MvuMake | src/aydin-plugin-mvu.js:43-73 | the inner driver is built with `intercept` as its notify, a failure to build propagates, and the decorated driver keeps `visit`, `reduce` and `isSpecialTag` and replaces `expand` |
| Mvu.MvuTransparent | src/aydin-plugin-mvu.js:58-72 | a traversal with the decorated driver makes the same calls and gives the same result as with the inner driver |
| Mvu.Plugin.constructor | src/aydin-plugin-mvu.js:18-21 | the initial model is what `update()` gives |
| Mvu.Plugin.Dispatch | src/aydin-plugin-mvu.js:23-39 | the model becomes the left fold of `update` over the messages, and the result is true exactly when the model changed |
| Mvu.Plugin.Intercept | src/aydin-plugin-mvu.js:45-56 | a missing-handler event dispatches `data.value` and asks for a re-render exactly when the model changed, or throws on `undefined`/`null` data; any other event is forwarded with its data, and the model is untouched |
| Mvu.Plugin.DriverFactory | src/aydin-plugin-mvu.js:41-79 | `driver(next)` is a factory of one parameter whose drivers are `MvuMake` over the current model |
| TestUtils.IdentityVisit | src/testUtils.js:11-21 | an element visit gives a finalizer over the tag and props, and a text visit gives the text |
| TestUtils.IdentityRejectsArrays | src/testUtils.js:10-22 | as written, the identity driver fails on every array with a `TypeError`, and it fails with nothing else |
| TestUtils.IdentityRenderFails | src/testUtils.js:10-22 | as written, rendering `["div"]` with it fails with a `TypeError` before any visit |
| TestUtils.IdentityRoundTrip | src/testUtils.js:10-22 | corrected: with the optional members defaulted, the identity driver gives back every normal expression exactly |
| TestUtils.IdentityRoundTripElement | src/testUtils.js:13-17 | the same, for an element |
| TestUtils.IdentityRoundTripAll | src/testUtils.js:15-17 | the same, for the children |
| TestUtils.NonReactive | src/testUtils.js:24-32 | `nonReactive(next)` takes no parameters and builds `next` with a notify that does nothing |
| TestUtils.NonReactiveRender | src/testUtils.js:24-32 | rendering through it is the traversal of the driver `next` builds silenced |
| TestUtils.Tracable | src/testUtils.js:34-37 | `tracable(next)` takes one parameter and passes its notify on to `next` |
| TestUtils.Pad4 | src/testUtils.js:44 | `padStart(4, "0")` gives at least four characters, ending with the number and padded with zeros |
| TestUtils.EntriesNumbered | src/testUtils.js:40-53 | only element and text visits are logged, in call order, each numbered by the length of the trace before it |
| TestUtils.TextsAt | src/testUtils.js:40-53 | one line per logged visit, in order, each the line of its own visit |
| TestUtils.TextsAppend | src/testUtils.js:40-53 | the lines of two runs of visits are the lines of each in turn |
| TestUtils.EntriesAppend | src/testUtils.js:40-53 | logging two runs of calls numbers the second run on from where the first stopped |
| TestUtils.TraceFromAppend | src/testUtils.js:40-53 | so the trace of a whole traversal is the traces of its parts, numbered consecutively |
| TestUtils.Tracer.Visit | src/testUtils.js:40-54 | pushes the line for an element or text visit and nothing for any other, and returns what the inner `visit` returns |
| TestUtils.Range | src/testUtils.js:64-73 | `range(count, step = 1)` has `count` elements, none when `count` is not positive, and element `i` is `i * step` |
| TestUtils.RangeExamples | src/testUtils.js:60-62 | `range(5)`, `range(5, 2)` and `range(0)` give the documented lists |
| TestUtils.LeadingSpaces | src/testUtils.js:222 | counts exactly the leading white space |
| TestUtils.TrailingSpaces | src/testUtils.js:222 | finds exactly where the trailing white space begins |
| TestUtils.Trim | src/testUtils.js:222 | `trim` leaves a contiguous part of the string and cuts off only white space |
| TestUtils.TrimBare | src/testUtils.js:222 | what `trim` leaves neither begins nor ends with white space |
| TestUtils.TrimIdempotent | src/testUtils.js:222 | trimming twice is trimming once |
| TestUtils.TrimExact | src/testUtils.js:222 | conversely, white space around a text with no white space at its ends is exactly what `trim` removes |
| TestUtils.HtmlAppend | src/testUtils.js:221-223 | `html` of two lists of lines is the `html` of each, concatenated |
| TestUtils.HtmlExample | src/testUtils.js:217-219 | the documented example gives `"<i>text<b>bold</b> .</i>"` |
| ShallowTree.BoldCalls | src/aydin.js:129-162 | a driver that walks elements is asked about `b`, visits it with empty props, visits `Bold!` as text at `[0,2,0]`, then finishes the element |
| ShallowTree.BoldTrace | src/aydin-dom.spec.js:131-132 | traced after three lines, the `<b>` element at `[0,2]` logs lines 0003 and 0004 of the example exactly |

## Left out

- `Engine.Traverse`: it and `Engine.Render` model the corrected traversal of the first row of "## Findings", which assembles a copy of each element's props. In the source, two elements that share one props object under tokens with ids (`["a#x", p]` and `["b#y", p]`), or one expression rendered twice, throw "Multiple IDs"; the model succeeds.
- Component bodies, `update` and the getters given to `connect` are total functions. A callback that throws, or an `update` whose result is not an array, so that reading its `[0]` throws or gives something other than a first component, is not modelled.
- The traversal takes a `fuel` bound on nested component expansion. `OutOfFuel` stands for the stack overflow of an endless chain of components, and `Engine.MoreFuel` shows that a larger bound changes nothing else.
- Numbers are integers. `NaN`, fractions and floating point are not modelled. For example, adding `undefined` to a number gives `NaN` in JavaScript, while `Mvu.Add` gives `undefined`.
- Objects are compared by value. `dispatch` reports a change with `!==`, which compares objects by identity. So an `update` that returns a fresh but equal object counts as "changed" in JavaScript and as "unchanged" here.
- `Object.keys` lists integer-like keys first, in numeric order. Props here keep plain insertion order.
- `String(f)` of a function is its source text. The model shows it as `"function"`.
- `Engine.TraverseNode`: a driver's `visit` that gives back a plain value holding a template (`Plain(Fn(t))`) has it returned as a plain result. The source calls any function `visit` returns as a finalizer; in the model only a `Finalizer` effect is one.
- A finalizer inside a `reduce`d effect list has no value of its own, and shows as `undefined`.
- `TestUtils.IdentityVisit`: the source's `Object.keys(props)` on the `null` props of a special-tag visit throws. The model gives the finalizer as for empty props instead. The default `isSpecialTag` marks nothing special, so this path is reachable only when a driver with its own `isSpecialTag` marks a tag special and uses the identity `visit`.
- `makeRoot`, `serialize` and `simulate` of testUtils.js are not modelled. They are a fake DOM and event plumbing around the core.
- `Mvu.Fold`: `update` returns a pair, and the model keeps only its first component. The initial model is `update(undefined, undefined)`.
- `Mvu.Plugin.DriverFactory`: the source's `expand` reads the model at the moment it is called. The model's driver is a value that captures the model when the factory is evaluated. It must be rebuilt after a dispatch to see the new model.
- The plugin's `driver(next).dispatch` property is `Mvu.Plugin.Dispatch` on the plugin object.
- Signal names are strings in the source. The model has a constructor for each of `CORE_RERENDER` and `DOMDRIVER_MISSING_HANDLER`, and `OtherSignal(name)` keeps every other name, so distinct names stay distinct.
- A driver's functions are pure here. The effects a driver performs, such as DOM writes or the console, appear only as the ordered list of calls the traversal makes. `Engine.Run` records that list.
- `isSpecialTag`'s result is a pair of a boolean and a node kind. The source reads `[0]` of any value, and tests its truthiness.
- `tracable`'s trace buffer is shared by reference with the caller. Here it is a `Tracer` object, and the engine's pure traversal is related to it through `TestUtils.TraceFrom` and `TestUtils.TraceFromAppend`.
- `ShallowTree.BoldTrace`: of the shallow-tree trace example of the DOM tests, only the two lines of the `<b>` element are proved (`ShallowTree.BoldTrace`). The five lines of the enclosing `div` are not.

## Findings

| source | as written | input that shows it | evidently intended | confidence | as-written member | corrected member |
|---|---|---|---|---|---|---|
| src/aydin.js:147-148 | `traverse` hands the expression's own props object to `assembleProps`, which writes the token id and the class list into it and deletes `class`/`className` | rendering `["div#a", {}]` twice: the second render finds `id: "a"` from the first and throws "Multiple IDs" | assemble a copy, so an expression can be rendered again | high; not executed | PropsAssembly.ReuseAsWritten | PropsAssembly.AssemblePropsCopy |
| src/aydin.js:136 | `traverse` calls `driver.isSpecialTag` on every element and `driver.reduce` on every fragment, though drivers such as `identityDriver` (src/testUtils.js:10-22) define neither | `render(identityDriver, ["div"])` throws a `TypeError` at the first element | treat both as optional: nothing special, and a fragment's effects as a list | medium; not executed | TestUtils.IdentityRenderFails | TestUtils.IdentityRoundTrip |
