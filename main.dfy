/**
 * The demonstration program: a test context whose destroy flag and binder it
 * owns, a helper that runs a tag once on it, and the scenario of the program's
 * entry point, checked against the tags that print.
 */
module Main {
  import opened RunOnce
  import ContextLife

  /** A context with one binder, fixed when the context is built. */
  class TestContext {
    const binder: Binder
    var isDestroy: bool

    constructor ()
      ensures fresh(binder) && binder.listener == None && !isDestroy
    {
      binder := new Binder();
      isDestroy := false;
    }

    function GetRunOnceBinder(): Binder
    {
      binder
    }

    function IsRunOnceContextDestroy(): bool
      reads this
    {
      isDestroy
    }

    /** This context as the registry sees it. */
    function AsContext(): Context
      reads this
    {
      Context(this, GetRunOnceBinder(), IsRunOnceContextDestroy())
    }

    /**
     * The binder's listener is the cleanup for this context exactly when the
     * table has an entry for it, and a destroyed context has no entry.
     */
    ghost predicate Coupled(registry: Registry)
      reads this, binder, registry
    {
      && registry.Valid()
      && binder.listener == (if this in registry.table then Some(this as object) else None)
      && (isDestroy ==> this !in registry.table)
    }

    /** The context's observable life: its flag and its entry's tags. */
    ghost function View(registry: Registry): ContextLife.Life
      reads this, registry, registry.table.Values
    {
      ContextLife.Life(isDestroy, if this in registry.table then Some(registry.table[this].hasRun) else None)
    }

    /** Marks the context destroyed, then fires its binder's listener. */
    method TriggerDestroy(registry: Registry)
      requires registry.Valid()
      modifies this, binder, registry
      ensures registry.Valid()
      ensures isDestroy && binder.listener == None
      ensures registry.table ==
        if old(binder.listener).Some? then old(registry.table) - {old(binder.listener).value}
        else old(registry.table)
      ensures old(Coupled(registry)) ==>
        && Coupled(registry)
        && View(registry) == ContextLife.Step(old(View(registry)), ContextLife.TriggerDestroy).life
    {
      isDestroy := true;
      binder.NotifyDestroy(registry);
    }

    /** Fires the binder's listener, then marks the context live again. */
    method Reset(registry: Registry)
      requires registry.Valid()
      modifies this, binder, registry
      ensures registry.Valid()
      ensures !isDestroy && binder.listener == None
      ensures registry.table ==
        if old(binder.listener).Some? then old(registry.table) - {old(binder.listener).value}
        else old(registry.table)
      ensures old(Coupled(registry)) ==>
        && Coupled(registry)
        && View(registry) == ContextLife.Step(old(View(registry)), ContextLife.Reset).life
    {
      binder.NotifyDestroy(registry);
      isDestroy := false;
    }
  }

  /**
   * Obtains the context's handle and runs, under `tag`, a runnable that prints
   * the tag; `printed` is what it printed.
   */
  method RunOnceFor(tag: string, context: TestContext, registry: Registry) returns (printed: seq<string>)
    requires registry.Valid()
    modifies registry, context.binder, if context in registry.table then {registry.table[context]} else {}
    ensures registry.Valid()
    ensures old(context.isDestroy) ==>
      && printed == []
      && registry.table == old(registry.table)
      && unchanged(context.binder)
      && (context in registry.table ==> unchanged(registry.table[context]))
    ensures !old(context.isDestroy) && context in old(registry.table) ==>
      && registry.table == old(registry.table)
      && unchanged(context.binder)
      && registry.table[context].hasRun == old(registry.table[context].hasRun) + {tag}
      && printed == if tag in old(registry.table[context].hasRun) then [] else [tag]
    ensures !old(context.isDestroy) && context !in old(registry.table) ==>
      && context in registry.table
      && fresh(registry.table[context])
      && registry.table == old(registry.table)[context := registry.table[context]]
      && registry.table[context].hasRun == {tag}
      && context.binder.listener == Some(context as object)
      && printed == [tag]
    ensures forall c :: c in old(registry.table) && c != context ==>
      && c in registry.table
      && registry.table[c] == old(registry.table[c])
      && registry.table[c].hasRun == old(registry.table[c].hasRun)
    ensures old(context.Coupled(registry)) ==>
      && context.Coupled(registry)
      && context.View(registry) == ContextLife.Step(old(context.View(registry)), ContextLife.Run(tag)).life
      && printed == ContextLife.Step(old(context.View(registry)), ContextLife.Run(tag)).out
  {
    var r := registry.From(Some(context.AsContext()));
    var executed := r.value.Run(tag, true);
    printed := if executed then [tag] else [];
  }

  /** A live context without an entry: the state every phase of the demonstration starts from. */
  ghost predicate Unbound(context: TestContext, registry: Registry, destroyed: bool)
    reads context, context.binder, registry, registry.table.Values
  {
    context.Coupled(registry) && context.View(registry) == ContextLife.Life(destroyed, None)
  }

  /** Lines 12-13: a new context prints "abc" once for two runs. */
  method NewContextRuns(context: TestContext, registry: Registry) returns (trace: seq<string>)
    requires Unbound(context, registry, false)
    modifies registry, context.binder
    ensures context.Coupled(registry) && !context.isDestroy
    ensures trace == ["abc"]
  {
    trace := RunOnceFor("abc", context, registry);
    var printed := RunOnceFor("abc", context, registry);
    trace := trace + printed;
  }

  /** Line 19: after a reset "abc" prints again. */
  method ResetContextRuns(context: TestContext, registry: Registry) returns (trace: seq<string>)
    requires Unbound(context, registry, false)
    modifies registry, context.binder
    ensures context.Coupled(registry) && !context.isDestroy
    ensures trace == ["abc"]
  {
    trace := RunOnceFor("abc", context, registry);
  }

  /** Lines 25-26: a destroyed context prints nothing. */
  method DestroyedContextRuns(context: TestContext, registry: Registry) returns (trace: seq<string>)
    requires Unbound(context, registry, true)
    modifies registry, context.binder
    ensures Unbound(context, registry, true)
    ensures trace == []
  {
    trace := RunOnceFor("abc", context, registry);
    var printed := RunOnceFor("bcd", context, registry);
    trace := trace + printed;
  }

  /** Lines 33-36: after another reset "abc" and "bcd" print once each. */
  method ReusedContextRuns(context: TestContext, registry: Registry) returns (trace: seq<string>)
    requires Unbound(context, registry, false)
    modifies registry, context.binder
    ensures context.Coupled(registry) && !context.isDestroy
    ensures trace == ["abc", "bcd"]
  {
    trace := RunOnceFor("abc", context, registry);
    var printed := RunOnceFor("bcd", context, registry);
    trace := trace + printed;
    printed := RunOnceFor("abc", context, registry);
    trace := trace + printed;
    printed := RunOnceFor("bcd", context, registry);
    trace := trace + printed;
  }

  /**
   * Tags are scoped to their context: the same tag prints once under each of
   * two contexts, and running it again under either prints nothing.
   */
  method TwoContextsRunIndependently() returns (trace: seq<string>)
    ensures trace == ["x", "x"]
  {
    var registry := new Registry();
    var first := new TestContext();
    var second := new TestContext();
    trace := RunOnceFor("x", first, registry);
    var printed := RunOnceFor("x", second, registry);
    trace := trace + printed;
    printed := RunOnceFor("x", first, registry);
    trace := trace + printed;
    printed := RunOnceFor("x", second, registry);
    trace := trace + printed;
  }

  /**
   * The entry point's demonstration, with the process-wide table as it is at
   * start: the tags that print are "abc", "abc", "abc", "bcd", in that order.
   */
  method Scenario() returns (trace: seq<string>)
    ensures trace == ["abc", "abc", "abc", "bcd"]
  {
    var registry := new Registry();
    var context := new TestContext();
    trace := NewContextRuns(context, registry);

    context.Reset(registry);
    var printed := ResetContextRuns(context, registry);
    trace := trace + printed;

    context.TriggerDestroy(registry);
    printed := DestroyedContextRuns(context, registry);
    trace := trace + printed;

    context.Reset(registry);
    printed := ReusedContextRuns(context, registry);
    trace := trace + printed;
  }
}
