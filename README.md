# RunOnce: a lifecycle-scoped run-once registry, in Dafny

RunOnce runs a piece of work at most once per tag for as long as a *context*
lives. A process-wide table maps each bound context, by identity, to a
run-once handle. The handle keeps the set of tags it has already run. Each
context owns a *binder* with a single listener slot. When a handle is created,
the registry puts a cleanup in that slot. When the context fires the binder's
destroy notification, the cleanup drops the context's table entry and then
detaches itself. The next lookup therefore builds a new handle with an empty
tag set. A destroyed context gets a shared empty handle that never runs
anything.

The project has three modules:

- `RunOnce` (`runonce.dfy`) models `RunOnce.java`.
  - `Registry` is the static part: the table, the shared empty handle, `From`,
    and `Cleanup`, which is the body of the listener that `From` installs.
  - `Handle` is a `RunOnce` instance: its `hasRun` tag set and the `Run` method.
  - `Binder` is the binder with its `Option<object>` listener slot: `Some(c)` is
    "the cleanup for context `c`".
  - `Context` is what the registry sees of a context: its identity plus the
    answers of `getRunOnceBinder()` and `isDestroy()`.
- `Main` (`main.dfy`) models `Main.java`.
  - `TestContext` has a `const` binder, fixed at construction, so every
    `GetRunOnceBinder()` returns the same binder. It also has the destroy flag
    and `TriggerDestroy` and `Reset`.
  - `RunOnceFor` is the `runOnce` helper. What the runnable would print is
    reported as the list of tags that executed.
  - `Scenario` is the body of `main`, lines 8-36, checked against the printed
    trace. It is split into one method per stretch between lifecycle calls.
- `ContextLife` (`contextlife.dfy`) describes one test context with plain values.
  - A `Life` records the destroy flag and the context's table entry, if any,
    with that entry's tags.
  - `Step` and `Replay` describe the three calls and their printed output.
  - The lemmas about runs, destroys and resets are proved by induction over
    call sequences.
  - `TestContext.View` ties a context on the heap to its `Life`. Every
    `TestContext` method and `RunOnceFor` promise to advance it by `Step`, as
    long as `TestContext.Coupled` held before the call. `Coupled` says the
    binder's slot holds this context's cleanup exactly when the table has an
    entry for it, and a destroyed context has no entry. Each of those methods
    preserves `Coupled`.

Points where the code's behaviour is easy to misread:

- The tag set lives in the handle.
- `notifyDestroy` only fires the listener. The comment on the `Context`
  interface (`RunOnce.java:117`) says the run count is cleared on
  destroy; the code achieves this only by dropping the table entry, so the
  next lookup builds a handle with an empty tag set.
- A missing context raises `NullPointerException("context cannot be null")`.
- `Main.java` names the binder class `RunOnce.DefaultBinder` and the destroy
  query `isRunOnceContextDestroy`. `RunOnce.java` calls them `Binder` and
  `isDestroy`. Each pair is treated as one thing.
- Distinct table entries hold distinct handles, because every entry is a
  fresh handle (`RunOnce.java:44`); `Registry.Valid` keeps this, so a run
  under one context never touches another context's tags.

## Model

| member | source | states |
|---|---|---|
| `RunOnce.Registry.constructor` | src/com/legendmohe/RunOnce.java:16 | the table starts empty and the shared handle is the no-op variant |
| `RunOnce.Registry.From` | src/com/legendmohe/RunOnce.java:24-48 | in every case the result is one of four outcomes and nothing else changes. No context: NullPointerException, and neither the table nor any binder changes. A destroyed context: the shared empty handle, with the table and the binder unchanged. One already bound: its registered handle, with nothing changed. Otherwise: a fresh non-empty handle with an empty tag set, kept on the context's binder, added as the only new table entry, and the binder's listener set to this context's cleanup |
| `RunOnce.Registry.Cleanup` | src/com/legendmohe/RunOnce.java:38-42 | the listener body removes exactly that context's entry and empties the binder's listener slot |
| `RunOnce.Binder.constructor` | src/com/legendmohe/RunOnce.java:93 | a new binder has no listener |
| `RunOnce.Binder.SetListener` | src/com/legendmohe/RunOnce.java:95-97 | the slot holds exactly the given listener |
| `RunOnce.Binder.NotifyDestroy` | src/com/legendmohe/RunOnce.java:99-103 | with cleanup for `c` attached, removes exactly `c` from the table. With no listener, the table is unchanged. Either way the slot is empty afterwards, so a second notification is a no-op |
| `RunOnce.Handle.constructor` | src/com/legendmohe/RunOnce.java:62-69 | a new handle keeps the given binder, has run no tag and is not the empty variant |
| `RunOnce.Handle.Empty` | src/com/legendmohe/RunOnce.java:53-58 | the shared handle holds no binder and is the no-op variant |
| `RunOnce.Handle.Run` | src/com/legendmohe/RunOnce.java:77-84 | on a real handle the tag is recorded. The runnable executes exactly when one is given and the tag was not already recorded, so a missing runnable still uses up the tag. On the empty handle nothing executes and nothing is recorded, for every tag |
| `Main.TestContext.constructor` | src/com/legendmohe/Main.java:71-73 | a new context holds a fresh binder with no listener and is live |
| `Main.TestContext.TriggerDestroy` | src/com/legendmohe/Main.java:75-78 | the context reports destroyed and its binder has no listener. The table loses the entry the listener cleaned up, and only that entry. When coupled, the context's life advances by a destroy step: destroyed, with no entry |
| `Main.TestContext.Reset` | src/com/legendmohe/Main.java:90-93 | the context reports live and its binder has no listener. The table loses at most the entry the listener cleaned up, so after a destroy the table is untouched. When coupled, the context's life advances by a reset step: live, with no entry |
| `Main.RunOnceFor` | src/com/legendmohe/Main.java:56-63 | on a destroyed context nothing prints and nothing changes. On a bound context the tag is recorded in its handle, and it prints exactly when it is new. On an unbound live context, a fresh entry is bound with the tag recorded, only that entry is added, the listener becomes its cleanup, and the tag prints. Every other context keeps its entry, the same handle and the same tags. When coupled, the life and the printed output follow a run step |
| `Main.NewContextRuns` | src/com/legendmohe/Main.java:12-13 | two runs of "abc" on a new context print "abc" once |
| `Main.ResetContextRuns` | src/com/legendmohe/Main.java:19 | after a reset, "abc" prints again |
| `Main.DestroyedContextRuns` | src/com/legendmohe/Main.java:25-26 | after a destroy, runs of "abc" and "bcd" print nothing and leave the context destroyed with no entry |
| `Main.ReusedContextRuns` | src/com/legendmohe/Main.java:33-36 | after the second reset, "abc", "bcd", "abc", "bcd" print "abc" then "bcd" |
| `Main.TwoContextsRunIndependently` | src/com/legendmohe/RunOnce.java:32-46 | the same tag under two contexts prints once for each context, and again under either prints nothing |
| `Main.Scenario` | src/com/legendmohe/Main.java:8-36 | the whole demonstration, from an empty table, prints exactly "abc", "abc", "abc", "bcd" |
| `ContextLife.ReplayConsistent` | src/com/legendmohe/RunOnce.java:29-31 | over any sequence of calls, a destroyed context never holds a table entry |
| `ContextLife.DestroyedRunsNothing` | src/com/legendmohe/RunOnce.java:29-31 | on a destroyed context, any sequence of runs executes nothing and changes nothing |
| `ContextLife.LiveRunsEachTagOnce` | src/com/legendmohe/RunOnce.java:77-84 | on a live context, a sequence of runs prints no tag twice. A tag prints exactly when it was run and was not already recorded |
| `ContextLife.LiveRunsRecordAll` | src/com/legendmohe/RunOnce.java:32-46 | on a live context, a non-empty sequence of runs leaves it bound, with its entry holding the old tags plus every tag run |
| `ContextLife.DestroyThenRuns` | src/com/legendmohe/Main.java:75-78 | after a destroy, from any state, later runs print nothing and the context stays destroyed with no entry |
| `ContextLife.ResetThenRuns` | src/com/legendmohe/Main.java:90-93 | after a reset, from any state, each tag run afterwards prints exactly once. No tag recorded before the reset suppresses it |
| `ContextLife.DestroyThenResetPrintsNothing` | src/com/legendmohe/Main.java:22-29 | a destroy, then any runs, then a reset prints nothing and ends live with no entry (the end state alone follows from the reset) |

## Left out

- Concurrency is not modelled: the `synchronized` on `from`, the thread safety of `ConcurrentHashMap`, the unused `CopyOnWriteArraySet` import, and the race between `containsKey` and `put` in `run`. Everything is single-threaded.
- The process-wide static table becomes an explicit `Registry` object that callers pass along, because Dafny has no mutable static state. The scenario starts from a new registry, which is the table as it is at process start.
- The listener object becomes the context key in the binder's slot. The binder it clears is the one it sits on, which is the binder the Java closure captured.
- Runnable bodies and `System.out.println` output are not modelled. A runnable is present or absent (a `bool`), and the helper's printing is reported as the list of tags that executed. Any other output is omitted.
- Exceptions thrown from inside a runnable are not modelled.
- Tags and binders are never null in this model. In the source, `run(null, r)` on a real handle throws `NullPointerException`, because `ConcurrentHashMap.containsKey(null)` throws (`RunOnce.java:62`, `78`), while the empty handle ignores it (`RunOnce.java:55-57`). A context whose `getRunOnceBinder()` returns null makes `from` throw at `RunOnce.java:36`, but only when the context is live and not yet bound. The model's non-null `string` and `Binder` types exclude both failures.
- `LifeCycleWrapper`, `testLifeCycle`, and the `provideKey`/`provideContext` key indirection are left out. They depend on a `RunOnce.ContextProvider` overload of `from` and on a `LifeCycle` class. Neither is part of this model.
- Garbage collection and weak references are not modelled. Releasing a context means only that its table entry is removed.
- `TestContext.GetRunOnceBinder` and `TestContext.IsRunOnceContextDestroy` are plain getters without contracts. The binder is a `const`, so it is fixed at construction.
- Main.TestContext.TriggerDestroy: the `ContextLife` view is promised only from states where `Coupled` holds. The direct effects on the table and the listener are promised in every state.
- Main.TestContext.Reset: the `ContextLife` view is promised only from states where `Coupled` holds. The direct effects on the table and the listener are promised in every state.
- Main.RunOnceFor: the `ContextLife` view is promised only from states where `Coupled` holds. That rules out another context sharing this context's binder, which the test context never does. The direct effects are promised in every state.
