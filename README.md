# function-timer in Dafny

function-timer times Rust functions. The attribute `#[time("metric")]` can be put on a
free function or on an `impl` block. The procedural macro in `function-timer-macro`
rewrites every body it covers. The new body first constructs a `FunctionTimer` guard
and then runs the original body as a nested block. When the guard goes out of scope,
its `Drop` records one histogram observation through the `metrics` crate. The
observation carries the metric name, the elapsed time and the tag `function`. When
the attribute is on an `impl` block whose self type is a path, it also carries the
tag `struct`, the path's last segment.

The project models both halves:

- `syntax.dfy` (module `Syntax`): the part of Rust's syntax tree the macro reads and
  builds. This covers attributes, paths, the guard's expressions and statements,
  blocks, `fn` items, `impl` blocks and their items. Parts the macro never looks at
  are kept as opaque token lists.
- `expansion.dfy` (module `Expansion`): what the macro produces, as pure functions.
  It also holds the lemmas about the produced code: which attributes are kept, the
  shape of the guarded block, the folds, argument parsing and routing on `impl`.
  Routing (`ParseImplOrFn`) works on the parsed item. An item with an outer
  attribute, `default` or `unsafe` before `impl` does not start with the `impl`
  token, so it goes to the function parser and fails there.
- `macro.dfy` (module `Macro`): the macro as it runs. `MetricName` is a class whose
  `FoldItemImpl` overwrites the owner name and walks the items with a loop. Every
  method is proved equal to its function in `Expansion`.
- `timer.dfy` (module `Timer`): the `FunctionTimer` guard as a class. It uses an
  abstract monotonic `Clock` and a `Recorder` that keeps a ghost log of
  observations. `Drop` may run once (the `released` flag) and appends exactly one
  observation.
- `execution.dfy` (module `Execution`): what the generated code does when it runs.
  A body that starts with the guard adds exactly one observation, whatever way it
  exits. That observation comes after the ones the body records itself, for
  instance through nested or recursive instrumented calls. This connects the
  syntax the macro builds to the runtime guard.
- `resolution.dfy` (module `Resolution`): the precedence rules that the crate
  documentation and the tests describe, kept separate. They cover a method's own
  directive against the inherited one, `disable`, the identifier form, and
  rejection of `disable` on an `impl` block. The module also compares these rules
  with the macro as written.
- `wrappers.dfy` (module `Wrappers`): `Option` and `Result`.

### The macro source and its tests disagree

The macro source in `function-timer-macro/src/lib.rs` is an earlier version than the
crate documentation (`function-timer/src/lib.rs:6-12`) and the tests. Its argument
parser accepts only one string literal (line 61), so `#[time(disable)]` and
`#[time(METRIC_NAME)]` are parse errors. Inside an `impl` block it removes every
method-level `time` attribute. It then instruments every method under the block's
metric name, with the `struct` tag when the block's self type is a path (lines
77-80, 102-104). The tests
`test_time_struct.rs:16,59-60`, `test_time_disable.rs:15,41` and
`test_time_ident.rs:12,17` expect the later behaviour.

`Expansion`, `Macro` and `Execution` follow the code. `Resolution` states the later
behaviour and is not used by them. Four lemmas compare the two versions.
`Resolution.ParsersAgreeOnLiterals` shows that both parsers read a string literal
the same way. `Resolution.ParsersDisagreeOnIdentifiers` shows that only the later
parser accepts an identifier. `Resolution.FoldAgreesWhenInherited` shows the folds
agree on methods with no `time` attribute of their own, in an `impl` block whose
self type is a non-empty path. `Resolution.FoldIgnoresOwnDirective` gives a
concrete method on which they differ. `Resolution.FoldUntaggedOnOtherSelfType`
shows they also differ on an inherited method when the self type is not a path,
such as `&Test`: the macro adds no `struct` tag there.

## Model

| member | source | states |
|---|---|---|
| `Expansion.RemoveTimeAttributes` | function-timer-macro/src/lib.rs:19-26 | the result keeps the input's order, drops every attribute whose path ends in `time`, and keeps every other attribute as often as it occurs |
| `Expansion.RemoveTimeAttributesKeepsPlainLists` | function-timer-macro/src/lib.rs:19-26 | a list with no `time` attribute comes back unchanged |
| `Expansion.RemoveTimeAttributesIdempotent` | function-timer-macro/src/lib.rs:19-26 | removing `time` attributes twice is the same as removing them once |
| `Expansion.GuardedBlock` | function-timer-macro/src/lib.rs:28-56 | the instrumented block has exactly two statements; the first builds the guard from the metric name, the owner name and the function name, and the second is the original block, unchanged, as a nested block |
| `Expansion.GuardedBlockInjective` | function-timer-macro/src/lib.rs:31-42 | the guarded block determines the metric name, the owner name (`Some` or `None`), the function name and the body it was built from |
| `Expansion.FoldedMethod` | function-timer-macro/src/lib.rs:71-84 | a folded method keeps its signature, visibility and defaultness, loses its `time` attributes, and gets a guard named after its own identifier around its original body |
| `Expansion.FoldedFn` | function-timer-macro/src/lib.rs:86-98 | a folded free function keeps its attributes, visibility and signature; only its body changes, to a guard named after its identifier around the original body |
| `Expansion.ImplStructName` | function-timer-macro/src/lib.rs:102-104 | a path self type sets the owner name to its last segment (none for an empty path); any other self type leaves the earlier owner name as it was |
| `Expansion.FoldedImpl` | function-timer-macro/src/lib.rs:99-114 | folding an `impl` block changes only its items; it keeps their number and order, leaves non-method items unchanged, and replaces each method by `FoldedMethod` under the block's metric name and the owner name of `ImplStructName` |
| `Expansion.FoldedImplShape` | function-timer-macro/src/lib.rs:99-114 | folding an `impl` block keeps every field except the items; it keeps the number and order of items, leaves non-method items unchanged, and instruments every method under the block's metric name and owner name, keeping its signature, visibility and defaultness |
| `Expansion.ParseMetricName` | function-timer-macro/src/lib.rs:59-67 | the argument is accepted exactly when it is one string literal, whose value becomes the metric name; an identifier such as `disable` is refused |
| `Expansion.ParseImplOrFn` | function-timer-macro/src/lib.rs:122-131 | an item whose first token is `impl` is routed to the `impl` fold; a function is routed to the function fold; anything else is refused |
| `Expansion.Expand` | function-timer-macro/src/lib.rs:138-153 | expansion succeeds exactly when the argument parses and the item is routed; an argument error is reported first, then a routing error; a success is a function exactly when the input was one, and never an unparsed item |
| `Expansion.ExpandFreeFunction` | function-timer-macro/src/lib.rs:139-147 | a free function under `#[time("m")]` is instrumented under `m` and its own identifier with no owner name; its attributes, visibility, signature and body are kept |
| `Expansion.ExpandImplBlock` | function-timer-macro/src/lib.rs:99-104 | each method of an `impl` block is instrumented under the block's literal and the method's identifier; the owner name is present exactly when the self type is a non-empty path, and then it is the path's last segment |
| `Expansion.StructTagOnlyThroughImpl` | function-timer-macro/src/lib.rs:139-152 | a successful expansion gives a function exactly when the input was a function, and that function's guard has no owner name; an `impl` output comes only from an input starting with `impl` |
| `Expansion.TraitImplExample` | function-timer/tests/test_time_struct.rs:36-43 | under `#[time("trait_metric")]`, `impl MyTrait for Test` tags `trait_function` with owner `Test` and leaves the associated type as it is |
| `Macro.MetricName.constructor` | function-timer-macro/src/lib.rs:63-66 | a parsed argument starts with no owner name |
| `Macro.MetricName.BlockFrom` | function-timer-macro/src/lib.rs:28-56 | building the block statement by statement gives exactly `GuardedBlock` of the current metric name and owner name |
| `Macro.MetricName.FoldImplItemMethod` | function-timer-macro/src/lib.rs:71-84 | the method fold gives exactly `FoldedMethod` |
| `Macro.MetricName.FoldItemFn` | function-timer-macro/src/lib.rs:86-98 | the function fold gives exactly `FoldedFn` |
| `Macro.MetricName.FoldItemImpl` | function-timer-macro/src/lib.rs:99-114 | the owner name becomes the last segment of a path self type and is otherwise unchanged; the loop over the items gives exactly `FoldedImpl` |
| `Macro.Time` | function-timer-macro/src/lib.rs:138-153 | the attribute macro parses the argument, routes the item and folds it, giving exactly `Expand` of its inputs, errors included |
| `Timer.LabelsFor` | function-timer/src/lib.rs:160-163 | with an owner name the tags are `struct` then `function`; without one the only tag is `function`; looking up each key gives back the owner name and the function name |
| `Timer.LabelsForInjective` | function-timer/src/lib.rs:160-163 | two guards with the same tags have the same owner name and function name |
| `Timer.Elapsed` | function-timer/src/lib.rs:159 | the elapsed time added to the start gives the current reading; a reading earlier than the start gives zero |
| `Timer.FunctionTimer.constructor` | function-timer/src/lib.rs:142-153 | `new` stores the three names unchanged, records the current clock reading as the start, and the guard is not yet released |
| `Timer.FunctionTimer.Drop` | function-timer/src/lib.rs:156-165 | `drop` appends exactly one observation, named after the metric, timed from construction until now, with the tags of `LabelsFor`, and marks the guard released so it cannot run again |
| `Timer.RunGuarded` | function-timer/tests/test_time_struct.rs:92-116 | an invocation with a guard appends the observations the body records itself and then exactly one more, the guard's, whose duration is the body's running time; this holds for a normal return, an early return or a propagated error, the body's exit is passed through unchanged, and the clock moves by the body's running time |
| `Execution.RunBlock` | function-timer-macro/src/lib.rs:34-50 | running a body that starts with the guard statement adds, after what the body records itself, the one observation that guard describes; a body without one adds only what the body records |
| `Execution.CallTimedFunction` | function-timer/tests/test_time_function.rs:32-55 | calling a free function expanded by `#[time("m")]` records, after what its body records itself, one observation named `m`, tagged only `function` = its identifier, timed as the body; the clock moves by the body's running time |
| `Execution.CallTimedMethod` | function-timer/tests/test_time_struct.rs:65-90 | calling a method of an `impl` block expanded by `#[time("m")]` records, after what its body records itself, one observation named `m`, tagged with `LabelsFor` of the owner name of `ImplStructName` and the method's identifier, so `struct` = the last segment of the self type when that is a path (no `struct` tag for `&Test` or a tuple) and then `function`; the clock moves by the body's running time |
| `Resolution.ParseDirective` | function-timer/tests/test_time_ident.rs:6-21 | (later behaviour) an argument is accepted exactly when it is one string literal or one identifier; `disable` is the only form that means disabled; a literal is read as that literal and any other identifier as a reference to the constant of that name; every other shape is refused with `InvalidMetricNameExpression` |
| `Resolution.ResolveMethod` | function-timer/src/lib.rs:6-10 | (later behaviour) a method's own directive decides as for a free function; with none, no block directive means no guard, a block `disable` is an error, a block literal `v` gives `v` with the owner tag, and a block constant gives its value with the owner tag when it is bound and an error otherwise; only an inherited decision carries the owner tag, which is then the block's owner type; every error other than a block `disable` is `InvalidMetricNameExpression` |
| `Resolution.ResolveFree` | function-timer/tests/test_time_ident.rs:11-20 | (later behaviour) a callable's own directive: none or `disable` means no guard, a literal `v` gives `v` with no owner tag, and a constant gives its bound value with no owner tag, or `InvalidMetricNameExpression` when it is unbound |
| `Resolution.ResolveCollection` | function-timer/src/lib.rs:6-12 | (later behaviour) the block resolves exactly when it is not marked `disable` and every method resolves; each method then gets, in order, the decision `ResolveMethod` gives it; `disable` on the block is refused, and otherwise a failure carries the error of the first method that fails |
| `Resolution.ResolveMembers` | function-timer/src/lib.rs:6-12 | (later behaviour) the methods of a block are resolved in order, one decision per method; the walk fails exactly when some method fails, and with the error of the first method that fails |
| `Resolution.Inject` | function-timer-macro/src/lib.rs:28-56 | (later behaviour) a suppressed callable keeps its body unchanged; an emitted one gets the guard for its decision around its original body |
| `Resolution.OwnDirectiveOverrides` | function-timer/tests/test_time_struct.rs:45-63 | (later behaviour) a method's own directive decides alone; the block's directive and owner name make no difference, exactly as for a free function |
| `Resolution.OwnerTagIffInherited` | function-timer/src/lib.rs:6-9 | (later behaviour) a decision carries an owner tag exactly when the method has no directive and the block's is named; the tag is then the block's owner type |
| `Resolution.SuppressionLeavesBody` | function-timer/tests/test_time_disable.rs:9-45 | (later behaviour) a method with no directive under an unannotated block, or with its own `disable`, resolves to suppression and keeps its body as written |
| `Resolution.CollectionDisableRejected` | function-timer/tests/test_time_fail.rs:7-11 | (later behaviour) `disable` on a whole `impl` block fails, whatever its methods are |
| `Resolution.ConstantActsAsLiteral` | function-timer/tests/test_time_ident.rs:6-63 | (later behaviour) an identifier bound to a string constant behaves as that literal, on a method and on a block |
| `Resolution.UnboundConstantRejected` | function-timer/tests/test_time_ident.rs:6-7 | (later behaviour) an identifier must name a `static` or `const` string; one that names no string constant is an error and never a silent suppression |
| `Resolution.DocumentedBlockExample` | function-timer/src/lib.rs:82-99 | (later behaviour) in `impl Test` under `my_metric`, `impl_function` uses its own `override_my_metric` with no tag, while `impl_fail_function` and `static_function` inherit `my_metric` with tag `Test` |
| `Resolution.DisableExample` | function-timer/tests/test_time_disable.rs:9-19 | (later behaviour) in `impl Test` under `my_metric`, `test` inherits with tag `Test` and `disable`, marked `#[time(disable)]`, is suppressed |
| `Resolution.ParsersAgreeOnLiterals` | function-timer-macro/src/lib.rs:59-67 | every argument the code's parser accepts is read by the later parser as the same literal |
| `Resolution.ParsersDisagreeOnIdentifiers` | function-timer-macro/src/lib.rs:59-67 | an identifier argument (`disable`, a constant's name) is refused by the code's parser and accepted by the later one |
| `Resolution.FoldAgreesWhenInherited` | function-timer-macro/src/lib.rs:99-114 | for a method with no `time` attribute, of an `impl` block whose self type is a non-empty path, the code's `impl` fold gives exactly the body the later rules ask for, owner tag included |
| `Resolution.FoldUntaggedOnOtherSelfType` | function-timer-macro/src/lib.rs:102-104 | for an inherited method of an `impl` block whose self type is not a path (`impl MyTrait for &Test`), the code's fold gives a guard with no owner name, while the later rules tag it with the owner type |
| `Resolution.FoldIgnoresOwnDirective` | function-timer-macro/src/lib.rs:71-84 | with its own `#[time("other_metric")]` inside `#[time("my_metric")] impl Test`, the code instruments `static_function` under `my_metric` with tag `Test`, while the later rules ask for `other_metric` with no tag |

## Left out

- `syn`, `quote` and `proc_macro::TokenStream` are not modelled. Tokens and items arrive as the datatypes of `Syntax`, and the output tree is not printed back to tokens.
- `syn::parse2(...).expect` (function-timer-macro/src/lib.rs:43) only re-parses a statement the macro wrote itself. The model builds that statement directly and leaves out the failure branch.
- Parse errors are modelled as the values of `ParseError`, not as compile-error token streams.
- The `metrics` crate and its recorders are modelled as `Recorder`, a ghost log of `(name, duration, labels)`. Histogram buckets, export and failing recorders are not modelled.
- `std::time::Instant` is modelled as a `Clock` of natural-number ticks. Durations are whole ticks, not `Duration` or `f64` seconds. `Elapsed` saturates at zero, as `Instant::elapsed` does.
- Rust's automatic drop at scope exit is modelled by `RunGuarded`, which drops the guard after the body on every exit. Panics and unwinding are not modelled separately.
- Async functions are not modelled (function-timer/tests/test_async_function.rs). Their suspension and cancellation belong to the executor.
- Concurrent invocations are not modelled. Each guard is owned by one invocation and shares no state.
- The `trybuild` fixtures of function-timer/tests/test_time_fail.rs (`tests/fail/fail.rs` and `tests/fail/fail_disable_struct.rs`) are not part of this model, so what "wrong token" rejects is unknown. Only the rejection of `disable` on a block, which the crate documentation also states, is modelled, in `Resolution`. `Resolution.UnboundConstantRejected` rests on the identifier form naming a `static` or `const` string, not on that fixture.
- The examples and the Prometheus exporter (function-timer/examples, function-timer/tests/test_time.rs) are not modelled. They are demonstration and I/O.
- The syn `Fold` trait's other default methods are not modelled. The macro calls `fold_item_fn` and `fold_item_impl` directly, and nested items are never visited.
- `Resolution` takes each method's own directive as data (`MethodDecl.own`). The later macro's reading of directives from method attributes is not part of function-timer-macro/src/lib.rs.
