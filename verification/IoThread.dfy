/** What each thread does to the context's stacks and lists, in place, between one step of another and the next. */
module IoThread {
  import opened QueueLines
  import opened LinkedNode
  import opened Machine = IoContext

  class IoContext {
    // The stacks that any thread pushes onto, newest first.
    var tasks: seq<TaskId>
    var cancels: seq<WaitId>
    // The thread's own: the tasks it took, oldest first, and its two lists.
    var drained: seq<TaskId>
    var registered: seq<WaitId>
    var cancelled: seq<WaitId>

    // The machine all this is part of.
    ghost var context: Context

    ghost predicate Valid()
      reads this
    {
      && Inv(context)
      && context.tasks == tasks && context.cancels == cancels && context.drained == drained
      && context.registered == registered && context.cancelled == cancelled
    }

    constructor ()
      ensures Valid() && context == Initial
    {
      tasks, cancels, drained, registered, cancelled := [], [], [], [], [];
      context := Initial;
      new;
      InitInv();
    }

    /** A task is handed over, and the thread woken unless an earlier push has seen to it. */
    method Submit(task: TaskId) returns (wake: bool)
      requires Valid() && task !in context.pushed
      modifies `tasks, `context
      ensures Valid() && context == Next(old(context), Step.Submit(task))
      ensures wake <==> Next(old(context), Step.Submit(task)).taskWakers > old(context).taskWakers
    {
      wake := tasks == [];
      tasks := [task] + tasks;
      StepKeeps(context, Step.Submit(task));
      context := Next(context, Step.Submit(task));
    }

    /** A stop callback pushes its wait, and wakes the thread likewise. */
    method Cancel(wait: WaitId) returns (wake: bool)
      requires Valid() && wait in context.armed
      modifies `cancels, `context
      ensures Valid() && context == Next(old(context), Step.Fire(wait))
      ensures wake <==> wait in context.cancelWakers
    {
      wake := cancels == [];
      cancels := [wait] + cancels;
      assert WaitOk(context, wait);
      StepKeeps(context, Step.Fire(wait));
      context := Next(context, Step.Fire(wait));
    }

    /** Takes every task pushed, to be run in the order they were. */
    method TakeTasks()
      requires Valid() && context.place == Place.Draining
      modifies `tasks, `drained, `context
      ensures Valid() && context == Next(old(context), Step.Drain)
    {
      assert drained == [];
      ghost var stack := tasks;
      var pushed := tasks;
      tasks, drained := [], [];
      ghost var taken := 0;
      while pushed != []
        invariant taken <= |stack| && pushed == stack[taken..]
        invariant drained == OldestFirst(stack[..taken])
        decreases |pushed|
        modifies `drained
      {
        OneMoreTaken(stack, taken);
        drained := [pushed[0]] + drained;
        pushed, taken := pushed[1..], taken + 1;
      }
      assert stack[..taken] == stack;
      StepKeeps(context, Step.Drain);
      context := Next(context, Step.Drain);
    }

    /** Runs the oldest task taken; the start of a wait arms its stop, or, stopped already, completes it. */
    method RunTask(stopRequested: bool) returns (task: TaskId)
      requires Valid() && context.place == Place.Running && drained != []
      modifies `drained, `context
      ensures Valid() && context == Next(old(context), Step.RunTask(stopRequested))
      ensures task !in old(context).executed && context.executed == old(context).executed + [task]
    {
      NotRunYet(context);
      task, drained := drained[0], drained[1..];
      StepKeeps(context, Step.RunTask(stopRequested));
      context := Next(context, Step.RunTask(stopRequested));
    }

    /** Has the poller wait on the handle of `wait`, or, if it cannot, goes on to finish it. */
    method BeginWait(wait: WaitId, added: bool)
      requires Valid() && context.place == Place.Adding(wait)
      modifies `registered, `context
      ensures Valid() && context == Next(old(context), Step.Register(added))
    {
      if added {
        registered := registered + [wait];
      }
      StepKeeps(context, Step.Register(added));
      context := Next(context, Step.Register(added));
    }

    /** Moves each wait whose cancellation was pushed, one by one, from whichever list it is in to those to be stopped. */
    method MoveCancels()
      requires ListsOk(context)
      requires context.cancels == cancels && context.registered == registered && context.cancelled == cancelled
      modifies `cancels, `registered, `cancelled
      ensures cancels == Machine.TakeCancels(context).cancels
      ensures registered == Machine.TakeCancels(context).registered
      ensures cancelled == Machine.TakeCancels(context).cancelled
    {
      ghost var all := cancels;
      var rest := cancels;
      cancels := [];
      ghost var moved := 0;
      NothingGone(registered);
      NothingGone(cancelled);
      while rest != []
        invariant moved <= |all| && rest == all[moved..]
        invariant registered == Minus(context.registered, all[..moved])
        invariant cancelled == Minus(context.cancelled, all[..moved]) + all[..moved]
        decreases |rest|
        modifies `registered, `cancelled
      {
        var wait := rest[0];
        MovesOne(context, all, moved);
        registered, cancelled := Without(registered, wait), Without(cancelled, wait);
        cancelled := cancelled + [wait];
        rest, moved := rest[1..], moved + 1;
      }
      assert all[..moved] == all;
    }

    /** Takes the cancellations pushed: on each pass, or as a wait is finished. */
    method TakeCancels()
      requires Valid() && (context.place.Taking? || context.place.Sweeping?)
      modifies `cancels, `registered, `cancelled, `context
      ensures Valid()
      ensures context == Next(old(context), if old(context).place.Taking? then Step.Take else Step.Sweep)
      ensures cancels == [] && forall w :: w in old(cancels) ==> w in cancelled && w !in registered
    {
      MoveCancels();
      ghost var step := if context.place.Taking? then Step.Take else Step.Sweep;
      StepKeeps(context, step);
      context := Next(context, step);
    }

    /** The last of finishing a wait: by now in no stack, it leaves its list, and completes. */
    method Complete(wait: WaitId)
      requires Valid() && context.place.Completing? && context.place.wait == wait
      modifies `registered, `cancelled, `context
      ensures Valid() && context == Next(old(context), Step.Finish)
      ensures context.completed[wait] == 1 && wait !in cancels && wait !in registered && wait !in cancelled
    {
      hide Inv;
      CompletesOne(context, wait);
      registered, cancelled := Without(registered, wait), Without(cancelled, wait);
      context := Next(context, Step.Finish);
    }
  }

  lemma OneMoreTaken(stack: seq<TaskId>, taken: nat)
    requires taken < |stack|
    ensures OldestFirst(stack[..taken + 1]) == [stack[taken]] + OldestFirst(stack[..taken])
    ensures stack[taken..][0] == stack[taken] && stack[taken..][1..] == stack[taken + 1..]
  {
  }

  lemma {:induction false} NothingGone(s: seq<WaitId>)
    ensures Minus(s, []) == s
  {
    if s != [] {
      NothingGone(s[..|s| - 1]);
    }
  }

  /** Of a list of distinct waits, taking out one is taking out the first such. */
  lemma MinusOne(s: seq<WaitId>, w: WaitId)
    requires Distinct(s)
    ensures Minus(s, [w]) == Without(s, w)
  {
    NothingGone(s);
    OneMoreGone(s, [], w);
    assert [] + [w] == [w];
  }

  lemma {:induction false} WithoutFromBack(front: seq<WaitId>, back: seq<WaitId>, w: WaitId)
    requires w !in back
    ensures Without(front + back, w) == Without(front, w) + back
  {
    if front == [] {
      assert front + back == back;
    } else if front[0] == w {
      assert (front + back)[1..] == front[1..] + back;
    } else {
      assert (front + back)[1..] == front[1..] + back;
      WithoutFromBack(front[1..], back, w);
    }
  }

  /** What the machine does as it completes a wait, which by then is nowhere. */
  lemma CompletesOne(c: Context, w: WaitId)
    requires Inv(c) && c.place.Completing? && c.place.wait == w
    ensures var d := Next(c, Step.Finish);
      && Inv(d) && d.tasks == c.tasks && d.cancels == c.cancels && d.drained == c.drained
      && d.registered == Without(c.registered, w) && d.cancelled == Without(c.cancelled, w)
      && d.completed[w] == 1 && w !in d.cancels && w !in d.registered && w !in d.cancelled
  {
    StepKeeps(c, Step.Finish);
    MinusOne(c.registered, w);
    MinusOne(c.cancelled, w);
    var d := Next(c, Step.Finish);
    assert WaitOk(c, w) && WaitOk(d, w);
  }

  /** Moving one more of the waits taken, whichever list it is in. */
  lemma MovesOne(c: Context, all: seq<WaitId>, moved: nat)
    requires ListsOk(c) && Distinct(all) && moved < |all|
    ensures Minus(c.registered, all[..moved + 1]) == Without(Minus(c.registered, all[..moved]), all[moved])
    ensures Minus(c.cancelled, all[..moved + 1]) + all[..moved + 1]
      == Without(Minus(c.cancelled, all[..moved]) + all[..moved], all[moved]) + [all[moved]]
  {
    var w := all[moved];
    assert all[..moved + 1] == all[..moved] + [w];
    OneMoreGone(c.registered, all[..moved], w);
    OneMoreGone(c.cancelled, all[..moved], w);
    WithoutFromBack(Minus(c.cancelled, all[..moved]), all[..moved], w);
  }

  /** Taking out one more is taking out the rest, and then it. */
  lemma {:induction false} OneMoreGone(s: seq<WaitId>, gone: seq<WaitId>, w: WaitId)
    requires Distinct(s)
    ensures Minus(s, gone + [w]) == Without(Minus(s, gone), w)
  {
    if s != [] {
      var front, last := s[..|s| - 1], s[|s| - 1];
      OneMoreGone(front, gone, w);
      if last in gone {
      } else if last == w {
        assert w !in Minus(front, gone);
        WithoutSplits(Minus(front, gone), w, []);
        assert Minus(front, gone) + [w] + [] == Minus(s, gone);
      } else {
        WithoutFromBack(Minus(front, gone), [last], w);
      }
    }
  }
}
