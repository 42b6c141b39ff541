# Option value state machine (YetAnotherConfigLib `OptionImpl`)

This project models one configurable option of the YetAnotherConfigLib
configuration UI library, `OptionImpl<T>`, together with its builder
`OptionImpl.BuilderImpl<T>`, and proves properties of the model in Dafny.

An option keeps two values: the *pending* value being edited and the value
persisted through its `Binding`. The option is *clean* when the two are
equal and *dirty* (`changed()`) otherwise. `requestSet` is the single
mutation entry point. It stores the new pending value, then runs every
change listener in registration order. `applyValue` is the only operation
that writes to the binding. The builder gathers tooltip sources, flags,
listeners and the required controller factory and binding. `build()`
rejects three bad configurations. It then composes the tooltip getter and,
for an *instant* option, adds an auto-apply listener. The option's
constructor appends a tooltip-refresh listener and requests the binding's
value once.

Files:

- `wrappers.dfy`: `Option` and `Result`.
- `tooltips.dfy`: tooltip sources and the composed tooltip text.
  - `JoinLines` is the reference definition. `SplitLines` is its inverse.
  - `ConcatenateTooltip` is the loop of the composed getter.
- `option_spec.dfy`: a pure snapshot `State` of an option and one function
  per operation. The lemmas state what the option promises.
- `option_impl.dfy`: the classes `Binding`, `OptionImpl` and `BuilderImpl`.
  - Every `OptionImpl` method ensures that `Snapshot()` afterwards is the
    matching `OptionSpec` function of `old(Snapshot())`.
  - Three small client methods walk through an option's life.

Listeners are modelled as a datatype of the three kinds the code uses.
`TooltipRefresh` is installed by the constructor. `InstantApply` is added by
`build()` for an instant option. `User(id)` is a caller's listener, and its
only effect in the model is being logged. A ghost `trace` records every
listener invocation with the value it was passed. That trace is how
"exactly once, in order, with the new value" is stated.

`build()` puts `"\n"` between every consecutive pair of tooltip entries,
empty ones included (`OptionImpl.java:269-274`). `SplitJoinLines` shows
that empty entries survive the join.

## Model

| member | source | states |
|---|---|---|
| `Tooltips.ConcatenateTooltip` | src/client/java/dev/isxander/yacl/impl/OptionImpl.java:267-278 | The composed getter's loop yields exactly `JoinLines` of the sources' entries for the value, in order, with a separator before every entry but the first |
| `Tooltips.JoinLinesSnoc` | src/client/java/dev/isxander/yacl/impl/OptionImpl.java:270-275 | Appending one more entry to a non-empty tooltip adds exactly one `"\n"` and then the entry |
| `Tooltips.SplitJoinLines` | src/client/java/dev/isxander/yacl/impl/OptionImpl.java:267-278 | Round trip: when no entry contains `"\n"`, splitting the joined tooltip at `"\n"` gives back exactly the entries, empty ones included |
| `Tooltips.NoSourcesRenderEmpty` | src/client/java/dev/isxander/yacl/impl/OptionImpl.java:268-277 | No tooltip sources give the empty text |
| `Tooltips.LiteralTooltipIgnoresValue` | src/client/java/dev/isxander/yacl/impl/OptionImpl.java:187-193 | A tooltip made only of literal sources renders the same for every value |
| `OptionSpec.ApplyValue` | src/client/java/dev/isxander/yacl/impl/OptionImpl.java:117-124 | Returns true exactly when the option was dirty; afterwards it is clean; only the persisted value may change, and on false nothing changes |
| `OptionSpec.ValidateBuild` | src/client/java/dev/isxander/yacl/impl/OptionImpl.java:262-265 | Build succeeds iff a controller and a binding are set and instant is not combined with flags; a missing controller is reported first, then a missing binding, then instant with flags |
| `OptionSpec.NotifyAllEffect` | src/client/java/dev/isxander/yacl/impl/OptionImpl.java:114 | Running a listener list passes every listener the current pending value, once each and in list order. Only three things change: the binding (when auto-apply is in the list), the tooltip (when the refresher is in the list) and the log |
| `OptionSpec.RequestSetEffect` | src/client/java/dev/isxander/yacl/impl/OptionImpl.java:111-115 | `requestSet(v)`: pending becomes v before any listener runs; each listener is invoked exactly once, in order, with v; nothing else changes apart from the listeners' effects |
| `OptionSpec.RequestSetChanged` | src/client/java/dev/isxander/yacl/impl/OptionImpl.java:101-115 | After `requestSet(v)` the pending value is v, and the option is dirty iff v differs from the persisted value and no auto-apply listener ran |
| `OptionSpec.ConstructedIsClean` | src/client/java/dev/isxander/yacl/impl/OptionImpl.java:49-58 | Right after construction: pending equals the binding's value and the binding is unchanged, even with auto-apply. The option is clean, the refresher is the last listener, the tooltip is rendered from the value, and every listener ran once in order |
| `OptionSpec.ForgetPendingValueCleans` | src/client/java/dev/isxander/yacl/impl/OptionImpl.java:126-129 | After `forgetPendingValue` the pending value equals the untouched persisted value and the option is clean |
| `OptionSpec.RequestSetDefaultEffect` | src/client/java/dev/isxander/yacl/impl/OptionImpl.java:131-139 | After `requestSetDefault` the pending value is the binding's default, `isPendingValueDefault` holds, and the option is dirty iff the default differs from the persisted value and it is not instant |
| `OptionSpec.InstantApplyKeepsClean` | src/client/java/dev/isxander/yacl/impl/OptionImpl.java:280-282 | With the auto-apply listener installed, every `requestSet(v)` persists v and leaves the option clean |
| `OptionSpec.TooltipFollowsPending` | src/client/java/dev/isxander/yacl/impl/OptionImpl.java:57 | With the refresher installed, the tooltip after `requestSet(v)` is rendered from v |
| `OptionSpec.AddedListenerRunsLast` | src/client/java/dev/isxander/yacl/impl/OptionImpl.java:141-144 | A listener added with `addListener` is notified after all earlier listeners on the next `requestSet` |
| `OptionSpec.SetAvailableAddListenerQuiet` | src/client/java/dev/isxander/yacl/impl/OptionImpl.java:86-89 | `setAvailable` and `addListener` run no listener and leave the pending value and the clean/dirty state alone; `addListener` keeps the earlier listeners as a prefix |
| `OptionSpec.InvariantPreserved` | src/client/java/dev/isxander/yacl/impl/OptionImpl.java:111-144 | The object invariant is kept by every operation: the tooltip reflects the pending value, and an instant option is clean. The one exception is adding the auto-apply listener to a dirty option |
| `OptionSpec.InstantListenerOrder` | src/client/java/dev/isxander/yacl/impl/OptionImpl.java:280-284 | A freshly built instant option's listeners are the builder's listeners, then auto-apply, then the tooltip refresher. The first `requestSet` runs them in that order with the binding's value, and the option is clean afterwards |
| `Impl.OptionImpl.constructor` | src/client/java/dev/isxander/yacl/impl/OptionImpl.java:39-59 | The constructor stores the fields and makes the controller once. It appends the refresher and requests the binding's value. Its final state is `Construct`: clean, binding untouched, invariant established |
| `Impl.OptionImpl.Changed` | src/client/java/dev/isxander/yacl/impl/OptionImpl.java:101-104 | `changed()` agrees with the abstract dirtiness of the state |
| `Impl.OptionImpl.IsPendingValueDefault` | src/client/java/dev/isxander/yacl/impl/OptionImpl.java:136-139 | `isPendingValueDefault()` agrees with the abstract state: pending equals the binding's default |
| `Impl.OptionImpl.SetAvailable` | src/client/java/dev/isxander/yacl/impl/OptionImpl.java:86-89 | Only `available` changes; the invariant is kept |
| `Impl.OptionImpl.AddListener` | src/client/java/dev/isxander/yacl/impl/OptionImpl.java:141-144 | Only appends the listener at the end of the list; nothing runs |
| `Impl.OptionImpl.Fire` | src/client/java/dev/isxander/yacl/impl/OptionImpl.java:57 | One listener invocation: logged with its argument. The refresher recomputes the tooltip from the argument and auto-apply calls `applyValue` |
| `Impl.OptionImpl.RequestSet` | src/client/java/dev/isxander/yacl/impl/OptionImpl.java:111-115 | The new state is `OptionSpec.RequestSet` of the old one: pending set, then every listener run in order. It also states the dirtiness, the binding value and that the invariant holds once the refresher is installed |
| `Impl.OptionImpl.ApplyValue` | src/client/java/dev/isxander/yacl/impl/OptionImpl.java:117-124 | Returns whether the option was dirty and writes the pending value to the binding only then; afterwards it is clean |
| `Impl.OptionImpl.ForgetPendingValue` | src/client/java/dev/isxander/yacl/impl/OptionImpl.java:126-129 | Requests the binding's value: pending equals the unchanged persisted value, clean |
| `Impl.OptionImpl.RequestSetDefault` | src/client/java/dev/isxander/yacl/impl/OptionImpl.java:131-134 | Requests the binding's default: pending is the default, and the dirtiness and binding value are stated |
| `Impl.BuilderImpl.constructor` | src/client/java/dev/isxander/yacl/impl/OptionImpl.java:147-168 | A fresh builder has the placeholder name, no tooltip sources, no controller, no binding, available, not instant, no flags and no listeners |
| `Impl.BuilderImpl.SetName` | src/client/java/dev/isxander/yacl/impl/OptionImpl.java:170-176 | Replaces the name |
| `Impl.BuilderImpl.AddTooltipGetters` | src/client/java/dev/isxander/yacl/impl/OptionImpl.java:178-185 | Appends one value-dependent source per getter, in order, after the existing ones |
| `Impl.BuilderImpl.AddTooltipTexts` | src/client/java/dev/isxander/yacl/impl/OptionImpl.java:187-193 | Appends one literal source per text, in order, after the existing ones |
| `Impl.BuilderImpl.SetController` | src/client/java/dev/isxander/yacl/impl/OptionImpl.java:195-201 | Records the controller factory |
| `Impl.BuilderImpl.SetBinding` | src/client/java/dev/isxander/yacl/impl/OptionImpl.java:203-209 | Records the binding |
| `Impl.BuilderImpl.SetGenericBinding` | src/client/java/dev/isxander/yacl/impl/OptionImpl.java:211-219 | Records a fresh binding with the given default and current value |
| `Impl.BuilderImpl.SetAvailable` | src/client/java/dev/isxander/yacl/impl/OptionImpl.java:221-225 | Records availability |
| `Impl.BuilderImpl.AddFlags` | src/client/java/dev/isxander/yacl/impl/OptionImpl.java:227-241 | The flag set becomes the old set united with the given flags (duplicates collapse) |
| `Impl.BuilderImpl.SetInstant` | src/client/java/dev/isxander/yacl/impl/OptionImpl.java:243-247 | Records the instant switch |
| `Impl.BuilderImpl.AddListeners` | src/client/java/dev/isxander/yacl/impl/OptionImpl.java:249-259 | Appends listeners in order after the existing ones |
| `Impl.BuilderImpl.Build` | src/client/java/dev/isxander/yacl/impl/OptionImpl.java:261-285 | Fails with the first broken rule and then changes nothing: the builder's listeners and the binding's value stay as they were. Otherwise the builder's own list gains auto-apply when instant. The result is a fresh option with the accumulated flags, name, binding and controller, listeners builder + auto-apply + refresher, and the constructed clean state |

## Left out

- `typeClass` (the `Class<T>` token) is not modelled: Dafny's type parameter `T` plays its part. `ImmutableSet` is a Dafny `set`.
- Text styling is not modelled. Display text is a plain string, and the placeholder name is not red.
- The controller factory is an opaque token. The controller it "makes" is `Controller(factory)`. The factory's access to the partly built option is not modelled.
- `Binding` is an object with a mutable value and a fixed default. `Binding.generic` is not part of this model. `SetGenericBinding` takes the storage's current value in place of a getter and setter.
- `Validate.notNull` on setter arguments is not modelled: Dafny references and values cannot be null.
- The builder setters return the builder for chaining. The model's setters return nothing.
- `AddFlags` models both `flag(OptionFlag...)` and `flags(Collection)`, and `AddListeners` models both `listener` and `listeners`: each pair does the same append.
- User listeners only log their invocation. A listener that changes the option, calls `requestSet` re-entrantly, writes the binding or throws is not modelled.
- Read-only accessors (`name()`, `tooltip()`, `controller()`, `binding()`, `available()`, `flags()`, `pendingValue()`) are the class's fields.
- The option's state is correct only if no other code writes its binding's storage. Writes from outside are not modelled.
- Concurrency is not modelled; the code is single-threaded UI code.
- Impl.BuilderImpl.Build: gives the option a copy of the builder's tooltip sources. In the code the composed tooltip getter keeps reading the builder's own list (`OptionImpl.java:150`, `:270`). So a tooltip source added to the builder after `build()` shows up in the option's tooltip at its next `requestSet`, and the model does not capture that sharing.
- Impl.OptionImpl.AddListener: keeps the object invariant for every listener except auto-apply added to a dirty option. Adding auto-apply to a dirty option would leave an instant option dirty, and `OptionImpl.java` never does this: its only `addListener` call (:57) adds the refresher.
