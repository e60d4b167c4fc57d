# ts2c: lowering of `Array.prototype.unshift` to C

This project models the rule the ts2c transpiler uses to turn a TypeScript call
`arr.unshift(a1, ..., an)` on a growable array into C. The rule has three parts:

- **The resolver** (`ArrayUnshiftResolver`) decides whether a call is such an
  `unshift`. It also gives constant metadata: the result type, whether the
  result needs disposal, the temporary-name hint and the escape node.
- **The template object** (`CArrayUnshift`) is built against a scope. It renders
  the receiver once and builds one `CUnshiftValue` per argument. It notes whether
  the call is a whole expression statement. When the call's value is used, it
  declares one number temporary in the scope. In both cases it sets the
  compilation unit's `array` and `array_insert` header flags.
- **The two code templates** expand to an ordered list of hoisted C statements
  and an inline part. In statement form, the `ARRAY_INSERT(arr, 0, v);` lines
  are inlined and nothing is hoisted. In value form, the same lines and
  `tmp = arr->size;` are hoisted, and the inline part is `tmp`.

Modules, leaves first:

- `Wrappers` (wrappers.dfy) holds `Option`, which stands for `null` and `undefined`.
- `Types` (types.dfy) holds the inferred C types.
- `Ast` (ast.dfy) holds the call node, its callee and parent kind, and the type helper's answers.
- `Program` (program.dfy) holds the `Scope` and `Root` classes: the declared variables and the header flags.
- `CTarget` (ctarget.dfy) holds the emitted C statements, their text, and an abstract meaning for them.
  The meaning is a state mapping each array reference to its contents and each number variable to its value.
- `ArrayUnshift` (unshift.dfy) holds the resolver, the template constructor and the template expansion.
- `ArrayUnshiftEffect` (unshift_effect.dfy) holds what the emitted C does when it runs.

The run-time effect is derived, not promised by the source file. Each
`ARRAY_INSERT(arr, 0, v)` puts `v` in front, so running the emitted statements
leaves the receiver holding the arguments in reverse order, then its old
contents. The value form yields the old size plus the number of arguments.
Both forms change the arrays in the same way. `Array.prototype.unshift` keeps
the arguments in their given order (section 23.1.3 of ECMA-262), so the model
does not claim equivalence with it. See "## Findings".

## Model

| member | source | states |
|---|---|---|
| ArrayUnshift.NonPropertyCalleeNeverMatches | src/standard/array/unshift.ts:13-14 | a call whose callee is not a property access is never matched |
| ArrayUnshift.MatchesNodeExactly | src/standard/array/unshift.ts:12-18 | a call matches if and only if its callee is a property named `unshift` on a receiver whose inferred type is an array type with `isDynamicArray` set |
| ArrayUnshift.OnlyDynamicArraysMatch | src/standard/array/unshift.ts:16-17 | receivers typed as numbers, strings or fixed-size arrays never match |
| ArrayUnshift.ResolverMetadata | src/standard/array/unshift.ts:19-33 | the return type is always the number type; no disposal is needed; there is no temp-var name; for a property-access callee the escape node is the receiver expression |
| ArrayUnshift.NewCArrayUnshift | src/standard/array/unshift.ts:53-65 | with the receiver and argument emitters taken as pure, so that only the constructor's own statements (lines 58-64) change the scope and root: one `CUnshiftValue` per argument, in argument order, all on the same rendered receiver; statement form iff the parent is an expression statement; in that form the temp name stays empty and the scope's variables are unchanged; otherwise exactly one number variable named by the temp name is appended and the earlier entries are kept; variable names stay distinct; the header flags become the old ones plus `array` and `array_insert`, and no other flag changes |
| ArrayUnshift.Statements | src/standard/array/unshift.ts:69-72 | the list of unshift values expands to one insert per value, in order, each at index 0 into that value's receiver |
| ArrayUnshift.Expand | src/standard/array/unshift.ts:36-47 | statement form: nothing hoisted and one inline statement per argument; value form: one hoisted statement per argument plus a last one that stores the receiver's size in the temporary, and the temporary is the inline value; when all values share the receiver, statement k in either form inserts argument k at index 0 of that receiver |
| ArrayUnshift.ExpandTextForms | src/standard/array/unshift.ts:36-47 | as text: statement form hoists nothing and inlines the lines `ARRAY_INSERT(<receiver>, 0, <value>);`; value form hoists the same lines then `<temp> = <receiver>->size;` and inlines exactly the temp name |
| Program.AppendFreshName | src/standard/array/unshift.ts:60-61 | appending a declaration under a name not yet in the scope keeps all names distinct and adds exactly that name |
| ArrayUnshiftEffect.UnshiftEffect | src/standard/array/unshift.ts:36-47 | running the expansion on a state that knows the receiver: the receiver becomes the reversed arguments followed by its old contents; the value form stores and yields old size plus argument count; the statement form changes no number variable |
| ArrayUnshiftEffect.StatementAndValueFormsAgree | src/standard/array/unshift.ts:36-47 | the statement form and the value form of one call change every array identically; only the value form yields a value, the new size |
| ArrayUnshiftEffect.ReversedAt | src/standard/array/unshift.ts:57 | in the resulting front part, position k holds argument n-1-k, so the last argument comes first |
| ArrayUnshiftEffect.AsWrittenReversesArguments | src/standard/array/unshift.ts:57 | the lowered `[3, 4].unshift(1, 2)` leaves `[2, 1, 3, 4]`, and not `[1, 2, 3, 4]` |

## Left out

- The TypeScript compiler API (`ts.SyntaxKind`, `getText`, `call.parent`) is not modelled. A call arrives as a `CallExpression` value with its callee, its arguments and its parent's kind.
- `TypeHelper.getCType` is not modelled: type inference is external. Its answers are a given map, and a missing entry stands for `null`.
- `createTemplate` (src/standard/array/unshift.ts:22-24) only calls the constructor, so `NewCArrayUnshift` models both.
- `CArrayUnshift` is a value here, because its fields are assigned only while it is constructed. The constructor is the method `NewCArrayUnshift`, which changes the scope and the root.
- NewCArrayUnshift: the naming scheme of `addNewTemporaryVariable` is not part of this model. The temp name it returns for the hint `arr_size` is a parameter, required to be fresh in the scope when the call's value is used.
- `CElementAccess` and `CodeTemplateFactory.createForNode` are not modelled. They render the receiver and the arguments, and are given as pure functions from expressions to text; any statements they would hoist themselves are not modelled, and neither are the variables and header flags they would add to the scope and root themselves.
- NewCArrayUnshift: its frame describes only the constructor's own statements (src/standard/array/unshift.ts:58-64). An argument that is itself a call lowered by a template, such as the inner call of `a.unshift(b.unshift(1))`, would declare its own temporary and set flags before the outer constructor runs. So "exactly one variable appended" and "no other flag changes" leave out what the emitters add.
- The `@StandardCallResolver` registry, the `@CodeTemplate` decorator and the template mini-language parser are not modelled. Only the concrete expansion of the two templates is. Queuing the hoisted statements in the scope is the template engine's job, so `Expand` returns them.
- The body of the `ARRAY_INSERT` macro is not modelled. It is taken to insert one element at an index. Capacity growth and memory are not modelled.
- Argument values are not evaluated. The abstract C state stores each argument's text as the inserted element, and argument evaluation has no side effects.
- Whitespace and indentation of the template output are not modelled.
- The receiver is not evaluated. The emitted C repeats the receiver's text once per argument and once more for `->size`. The model looks that text up as a fixed reference, so a receiver whose text has side effects is not modelled. StatementAndValueFormsAgree relies on this.
- Integer width is not modelled. In C, `->size` and the number temporary are bounded integers, while the model's sizes are unbounded. UnshiftEffect: the yielded "old size plus argument count" ignores overflow.
- GetEscapeNode: for a callee that is not a property access, the source's unchecked cast reads the callee's `.expression`. That is modelled as the child expression, or None where the node has none.

## Findings

| source | as written | input that shows it | evidently intended | confidence | as-written member | corrected member |
|---|---|---|---|---|---|---|
| src/standard/array/unshift.ts:57 | each argument, in order, becomes `ARRAY_INSERT(arr, 0, v)`, so later arguments end up further in front | `[3, 4].unshift(1, 2)` leaves `[2, 1, 3, 4]` | `[1, 2, 3, 4]`: the arguments in their given order ahead of the old contents, as section 23.1.3 of ECMA-262 specifies for `Array.prototype.unshift` | high; not executed | ArrayUnshiftEffect.AsWrittenReversesArguments | ArrayUnshiftEffect.InOrderUnshiftEffect |

The corrected template `ArrayUnshiftEffect.ExpandInOrder` inserts argument k at index k.
`InOrderUnshiftEffect` proves it leaves the arguments in order ahead of the old contents, with the same size.
The translator itself is still modelled as written, because `Expand` describes what ts2c emits.
