/**
 * The observable life of one test context, stated on values: whether it is
 * destroyed, and whether the registry holds an entry for it together with the
 * tags that entry's handle has run. The three calls a test context offers
 * (run once with a tag, trigger destroy, reset) are steps on that value, and
 * each step reports the tags whose runnable executed.
 */
module ContextLife {
  import opened RunOnce

  /** `entry` is `None` when the table has no entry for the context. */
  datatype Life = Life(destroyed: bool, entry: Option<set<string>>)

  datatype Event = Run(tag: string) | TriggerDestroy | Reset

  /** The state after some calls, and the tags that executed, in order. */
  datatype After = After(life: Life, out: seq<string>)

  /** A new context: live and not yet in the table. */
  function Initial(): Life
  {
    Life(false, None)
  }

  /** The tags already run for the context; none when it has no entry. */
  function Recorded(l: Life): set<string>
  {
    if l.entry.Some? then l.entry.value else {}
  }

  /** A destroyed context never has a table entry. */
  ghost predicate Consistent(l: Life)
  {
    l.destroyed ==> l.entry.None?
  }

  /**
   * One call. A run on a destroyed context goes to the empty handle; on a live
   * one it binds the context if needed and executes unless the tag was seen.
   * Both destroy and reset fire the cleanup, which drops the entry; they
   * differ only in the destroyed flag they leave behind.
   */
  function Step(l: Life, e: Event): After
  {
    match e
    case Run(t) =>
      if l.destroyed then After(l, [])
      else After(Life(false, Some(Recorded(l) + {t})), if t in Recorded(l) then [] else [t])
    case TriggerDestroy => After(Life(true, None), [])
    case Reset => After(Life(false, None), [])
  }

  /** A sequence of calls, the executed tags concatenated in call order. */
  function Replay(l: Life, es: seq<Event>): After
    decreases |es|
  {
    if es == [] then After(l, [])
    else
      var first := Step(l, es[0]);
      var rest := Replay(first.life, es[1..]);
      After(rest.life, first.out + rest.out)
  }

  /** Run calls, one per tag. */
  function Runs(tags: seq<string>): seq<Event>
  {
    if tags == [] then [] else [Run(tags[0])] + Runs(tags[1..])
  }

  predicate Distinct(s: seq<string>)
  {
    forall i, j :: 0 <= i < j < |s| ==> s[i] != s[j]
  }

  /** Every sequence of calls keeps a destroyed context out of the table. */
  lemma {:induction false} ReplayConsistent(l: Life, es: seq<Event>)
    requires Consistent(l)
    ensures Consistent(Replay(l, es).life)
    decreases |es|
  {
    if es != [] {
      ReplayConsistent(Step(l, es[0]).life, es[1..]);
    }
  }

  /** Calls in sequence: replaying `a + b` is replaying `a`, then `b`. */
  lemma {:induction false} ReplayAppend(l: Life, a: seq<Event>, b: seq<Event>)
    ensures Replay(l, a + b) ==
      After(Replay(Replay(l, a).life, b).life, Replay(l, a).out + Replay(Replay(l, a).life, b).out)
    decreases |a|
  {
    if a == [] {
      assert a + b == b;
    } else {
      var first := Step(l, a[0]);
      assert (a + b)[0] == a[0];
      assert (a + b)[1..] == a[1..] + b;
      ReplayAppend(first.life, a[1..], b);
    }
  }

  /** On a destroyed context no run executes anything or changes anything. */
  lemma {:induction false} DestroyedRunsNothing(l: Life, tags: seq<string>)
    requires l.destroyed
    ensures Replay(l, Runs(tags)) == After(l, [])
  {
    if tags != [] {
      assert Runs(tags)[0] == Run(tags[0]);
      assert Runs(tags)[1..] == Runs(tags[1..]);
      DestroyedRunsNothing(l, tags[1..]);
    }
  }

  /** The first of a sequence of runs is a single step. */
  lemma RunsUnfold(l: Life, tags: seq<string>)
    requires tags != []
    ensures var first := Step(l, Run(tags[0]));
      var rest := Replay(first.life, Runs(tags[1..]));
      Replay(l, Runs(tags)) == After(rest.life, first.out + rest.out)
  {
  }

  lemma DistinctPrepend(out: seq<string>, rest: seq<string>)
    requires Distinct(rest)
    requires |out| <= 1 && forall t :: t in out ==> t !in rest
    ensures Distinct(out + rest)
  {
    var all := out + rest;
    forall i, j | 0 <= i < j < |all| ensures all[i] != all[j] {
      if i < |out| {
        assert all[i] in out && all[j] == rest[j - |out|];
      } else {
        assert all[i] == rest[i - |out|] && all[j] == rest[j - |out|];
      }
    }
  }

  /**
   * On a live context, a run of tags executes each tag not already recorded
   * exactly once, and nothing else.
   */
  lemma {:induction false} LiveRunsEachTagOnce(l: Life, tags: seq<string>)
    requires !l.destroyed
    ensures var a := Replay(l, Runs(tags));
      && Distinct(a.out)
      && (forall t :: t in a.out <==> t in tags && t !in Recorded(l))
    decreases |tags|
  {
    if tags != [] {
      RunsUnfold(l, tags);
      var first := Step(l, Run(tags[0]));
      LiveRunsEachTagOnce(first.life, tags[1..]);
      var rest := Replay(first.life, Runs(tags[1..]));
      assert Recorded(first.life) == Recorded(l) + {tags[0]};
      assert forall t :: t in tags <==> t == tags[0] || t in tags[1..];
      DistinctPrepend(first.out, rest.out);
    }
  }

  /**
   * On a live context, after a non-empty run of tags the context is bound
   * and its entry has recorded every tag it was given, besides the old ones.
   */
  lemma {:induction false} LiveRunsRecordAll(l: Life, tags: seq<string>)
    requires !l.destroyed
    ensures var a := Replay(l, Runs(tags));
      && (tags == [] ==> a.life == l)
      && (tags != [] ==> a.life == Life(false, Some(Recorded(l) + set t | t in tags)))
    decreases |tags|
  {
    if tags != [] {
      RunsUnfold(l, tags);
      var first := Step(l, Run(tags[0]));
      LiveRunsRecordAll(first.life, tags[1..]);
      if tags[1..] == [] {
        assert (set t | t in tags) == {tags[0]};
      } else {
        assert Recorded(first.life) == Recorded(l) + {tags[0]};
        assert (set t | t in tags) == {tags[0]} + set t | t in tags[1..];
        assert Recorded(l) + (set t | t in tags)
          == Recorded(first.life) + set t | t in tags[1..];
      }
    }
  }

  /** After a destroy, every later run executes nothing, for every tag. */
  lemma {:induction false} DestroyThenRuns(l: Life, tags: seq<string>)
    ensures Replay(l, [TriggerDestroy] + Runs(tags)) == After(Life(true, None), [])
  {
    assert ([TriggerDestroy] + Runs(tags))[1..] == Runs(tags);
    DestroyedRunsNothing(Life(true, None), tags);
  }

  /**
   * After a reset, from any state, the tags run afterwards each execute
   * exactly once: the old recorded tags are forgotten.
   */
  lemma {:induction false} ResetThenRuns(l: Life, tags: seq<string>)
    ensures var a := Replay(l, [Reset] + Runs(tags));
      && Distinct(a.out)
      && (forall t :: t in a.out <==> t in tags)
  {
    assert ([Reset] + Runs(tags))[1..] == Runs(tags);
    LiveRunsEachTagOnce(Life(false, None), tags);
  }

  /**
   * Runs between a destroy and the following reset print nothing. (The state
   * after the reset is live with no entry after any calls at all, since a
   * reset does not look at the state it starts from; the point here is the
   * empty output.)
   */
  lemma {:induction false} DestroyThenResetPrintsNothing(l: Life, tags: seq<string>)
    ensures Replay(l, [TriggerDestroy] + Runs(tags) + [Reset]) == After(Life(false, None), [])
  {
    DestroyThenRuns(l, tags);
    ReplayAppend(l, [TriggerDestroy] + Runs(tags), [Reset]);
  }
}
