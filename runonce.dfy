/**
 * The run-once registry: a process-wide table from live contexts to their
 * run-once handles, the per-handle set of tags that have run, and the
 * single-slot destroy listener on each context's binder.
 */
module RunOnce {

  datatype Option<+T> = None | Some(value: T)

  /** The only error `From` raises: it was given no context. */
  datatype Error = NullPointerException(message: string)

  datatype Result<+T> = Success(value: T) | Failure(error: Error)

  /**
   * What the registry sees of a context: its identity (the table key, compared
   * by reference) and the answers of its two interface methods,
   * `getRunOnceBinder()` and `isDestroy()`.
   */
  datatype Context = Context(key: object, binder: Binder, destroyed: bool)

  /**
   * The destroy-notification channel of one context. Its single listener slot
   * holds either nothing or the registry's cleanup for one context key.
   */
  class Binder {
    var listener: Option<object>

    constructor ()
      ensures listener == None
    {
      listener := None;
    }

    method SetListener(l: Option<object>)
      modifies this
      ensures listener == l
    {
      listener := l;
    }

    /**
     * Fires the attached cleanup, if any. The cleanup drops its context from
     * the table and detaches itself, so a second notification does nothing.
     */
    method NotifyDestroy(registry: Registry)
      requires registry.Valid()
      modifies this, registry
      ensures registry.Valid()
      ensures listener == None
      ensures registry.table ==
        if old(listener).Some? then old(registry.table) - {old(listener).value}
        else old(registry.table)
    {
      if listener.Some? {
        registry.Cleanup(listener.value, this);
      }
    }
  }

  /**
   * A run-once handle: the tags that have run through it (a tag is present in
   * the source's map exactly when it maps to true) and the binder it keeps a
   * reference to. The shared empty handle ignores every request.
   */
  class Handle {
    var hasRun: set<string>
    const binder: Binder?
    const isEmpty: bool

    constructor (binder: Binder?)
      ensures this.binder == binder && !isEmpty && hasRun == {}
    {
      this.binder := binder;
      isEmpty := false;
      hasRun := {};
    }

    /** The shared no-op handle, built once with no binder. */
    constructor Empty()
      ensures binder == null && isEmpty && hasRun == {}
    {
      binder := null;
      isEmpty := true;
      hasRun := {};
    }

    /**
     * Runs the runnable (when there is one) the first time `tag` is seen by
     * this handle; `executed` says whether it ran. A missing runnable still
     * records the tag. The empty handle never runs and records nothing.
     */
    method Run(tag: string, runnable: bool) returns (executed: bool)
      modifies if isEmpty then {} else {this}
      ensures isEmpty ==> !executed && hasRun == old(hasRun)
      ensures !isEmpty ==> hasRun == old(hasRun) + {tag}
      ensures !isEmpty ==> (executed <==> runnable && tag !in old(hasRun))
    {
      executed := false;
      if !isEmpty && tag !in hasRun {
        hasRun := hasRun + {tag};
        executed := runnable;
      }
    }
  }

  /** The process-wide table of bound contexts and the shared empty handle. */
  class Registry {
    var table: map<object, Handle>
    const emptyHandle: Handle

    /**
     * Every entry is a real handle of its own, since each one was built fresh
     * on binding; the shared handle is the no-op variant.
     */
    ghost predicate Valid()
      reads this
    {
      && emptyHandle.isEmpty
      && (forall c :: c in table ==> !table[c].isEmpty)
      && (forall c, d :: c in table && d in table && c != d ==> table[c] != table[d])
    }

    /** The table as it is at process start: empty. */
    constructor ()
      ensures Valid() && table == map[] && fresh(emptyHandle)
    {
      table := map[];
      emptyHandle := new Handle.Empty();
    }

    /**
     * Returns the handle for `context`: an error when there is none, the
     * shared empty handle when it is destroyed, the registered handle when it
     * is bound, and otherwise a fresh handle that is registered together with
     * the cleanup listener on the context's binder.
     */
    method From(context: Option<Context>) returns (r: Result<Handle>)
      requires Valid()
      modifies this, if context.Some? then {context.value.binder} else {}
      ensures Valid()
      ensures context.None? ==>
        && r == Failure(NullPointerException("context cannot be null"))
        && table == old(table)
      ensures context.Some? ==> r.Success?
      ensures context.Some? && context.value.destroyed ==>
        && r == Success(emptyHandle)
        && table == old(table)
        && unchanged(context.value.binder)
      ensures context.Some? && !context.value.destroyed && context.value.key in old(table) ==>
        && r == Success(old(table)[context.value.key])
        && table == old(table)
        && unchanged(context.value.binder)
      ensures context.Some? && !context.value.destroyed && context.value.key !in old(table) ==>
        && fresh(r.value)
        && !r.value.isEmpty
        && r.value.hasRun == {}
        && r.value.binder == context.value.binder
        && table == old(table)[context.value.key := r.value]
        && context.value.binder.listener == Some(context.value.key)
    {
      if context.None? {
        return Failure(NullPointerException("context cannot be null"));
      }
      var c := context.value;
      if c.destroyed {
        return Success(emptyHandle);
      }
      if c.key in table {
        return Success(table[c.key]);
      }
      c.binder.SetListener(Some(c.key));
      var h := new Handle(c.binder);
      table := table[c.key := h];
      return Success(h);
    }

    /** The cleanup listener of `context`, attached to `binder` by `From`. */
    method Cleanup(context: object, binder: Binder)
      requires Valid()
      modifies this, binder
      ensures Valid()
      ensures table == old(table) - {context}
      ensures binder.listener == None
    {
      table := table - {context};
      binder.SetListener(None);
    }
  }
}
