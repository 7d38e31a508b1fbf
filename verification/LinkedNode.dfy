/** Intrusive lists: rings of nodes linked both ways, and stacks linked one way. */
module LinkedNode {
  import opened QueueLines

  /** A link in a ring. One node of a ring, holding nothing, is where its list begins and ends. */
  class Node {
    var prev: Node
    var next: Node

    constructor ()
      ensures Ring([this]) && Alone()
    {
      prev, next := this, this;
    }

    /** In a ring with nobody else. */
    predicate Alone()
      reads this
    {
      next == this
    }
  }

  ghost function After(ring: seq<Node>, i: nat): Node
    requires i < |ring|
  {
    if i + 1 < |ring| then ring[i + 1] else ring[0]
  }

  ghost function Before(ring: seq<Node>, i: nat): Node
    requires i < |ring|
  {
    if i > 0 then ring[i - 1] else ring[|ring| - 1]
  }

  /** The nodes link to each other in this order, and round again, both ways. */
  ghost predicate Ring(ring: seq<Node>)
    reads ring
  {
    && ring != [] && Distinct(ring)
    && forall i {:trigger ring[i].next} {:trigger ring[i].prev} :: 0 <= i < |ring| ==>
         ring[i].next == After(ring, i) && ring[i].prev == Before(ring, i)
  }

  lemma AloneIsRing(node: Node, ring: seq<Node>)
    requires Ring(ring) && node in ring && node.Alone()
    ensures ring == [node]
  {
    var i :| 0 <= i < |ring| && ring[i] == node;
    assert ring[i].next == After(ring, i);
    assert |ring| == 1;
  }

  /** Links `node`, which is alone, just before `position`, the `k`th of its ring; before the head is at the end. */
  method InsertBefore(position: Node, node: Node, ghost ring: seq<Node>, ghost k: nat)
    requires Ring(ring) && k < |ring| && ring[k] == position
    requires node !in ring && node.next == node && node.prev == node
    modifies node, position, position.prev
    ensures Ring(ring[..k] + [node] + ring[k..])
  {
    assert position.prev == ring[k].prev == Before(ring, k);
    ghost var p := if k > 0 then k - 1 else |ring| - 1;
    assert ring[p].next == After(ring, p);
    node.prev := position.prev;
    node.next := position;
    position.prev.next := node;
    position.prev := node;
    ghost var longer := ring[..k] + [node] + ring[k..];
    InsertedDistinct(ring, k, node);
    forall i | 0 <= i < |longer| ensures longer[i].next == After(longer, i) && longer[i].prev == Before(longer, i) {
      if i != k {
        var j := if i < k then i else i - 1;
        assert longer[i] == ring[j];
        assert old(ring[j].next) == After(ring, j) && old(ring[j].prev) == Before(ring, j);
      }
    }
  }

  lemma InsertedDistinct(ring: seq<Node>, k: nat, node: Node)
    requires Distinct(ring) && k <= |ring| && node !in ring
    ensures Distinct(ring[..k] + [node] + ring[k..])
  {
    assert ring == ring[..k] + ring[k..];
    DistinctParts(ring[..k], ring[k..]);
    DistinctJoin(ring[..k], [node]);
    DistinctJoin(ring[..k] + [node], ring[k..]);
  }

  /** Takes the `k`th node out of its ring, leaving it alone. */
  method Remove(node: Node, ghost ring: seq<Node>, ghost k: nat)
    requires Ring(ring) && k < |ring| && ring[k] == node
    modifies node, node.prev, node.next
    ensures node.next == node && node.prev == node && Ring([node])
    ensures |ring| > 1 ==> Ring(ring[..k] + ring[k + 1..])
  {
    assert ring[k].next == After(ring, k) && ring[k].prev == Before(ring, k);
    node.prev.next := node.next;
    node.next.prev := node.prev;
    node.prev := node;
    node.next := node;
    ghost var shorter := ring[..k] + ring[k + 1..];
    RemovedDistinct(ring, k);
    forall i | 0 <= i < |shorter| ensures shorter[i].next == After(shorter, i) && shorter[i].prev == Before(shorter, i) {
      var j := if i < k then i else i + 1;
      assert shorter[i] == ring[j];
      assert old(ring[j].next) == After(ring, j) && old(ring[j].prev) == Before(ring, j);
    }
  }

  lemma RemovedDistinct(ring: seq<Node>, k: nat)
    requires Distinct(ring) && k < |ring|
    ensures Distinct(ring[..k] + ring[k + 1..]) && ring[k] !in ring[..k] + ring[k + 1..]
  {
    assert ring == ring[..k] + [ring[k]] + ring[k + 1..];
    DistinctParts(ring[..k] + [ring[k]], ring[k + 1..]);
    DistinctParts(ring[..k], [ring[k]]);
    DistinctJoin(ring[..k], ring[k + 1..]);
  }

  // ---- Stacks ----------------------------------------------------------------------------------

  class Task {
    var next: Task?
  }

  function Below(stack: seq<Task>, i: nat): Task? {
    if i + 1 < |stack| then stack[i + 1] else null
  }

  /** `head` leads through the tasks of `stack`, newest first. */
  ghost predicate Linked(head: Task?, stack: seq<Task>)
    reads stack
  {
    && head == (if stack == [] then null else stack[0])
    && forall i {:trigger stack[i].next} :: 0 <= i < |stack| ==> stack[i].next == Below(stack, i)
  }

  /** The stack in the order it was pushed. */
  function OldestFirst<T>(stack: seq<T>): (r: seq<T>)
    ensures |r| == |stack| && forall i :: 0 <= i < |r| ==> r[i] == stack[|stack| - 1 - i]
  {
    if stack == [] then [] else OldestFirst(stack[1..]) + [stack[0]]
  }

  /** Reverses a stack in place, so its tasks run in the order they were pushed. */
  method Reverse(head: Task?, ghost stack: seq<Task>) returns (tasks: Task?)
    requires Linked(head, stack) && Distinct(stack)
    modifies stack
    ensures Linked(tasks, OldestFirst(stack))
  {
    tasks := null;
    var pushed := head;
    ghost var done: seq<Task> := [];
    ghost var rest: seq<Task> := stack;
    while pushed != null
      invariant OldestFirst(stack) == OldestFirst(rest) + done
      invariant Distinct(rest + done) && forall t :: t in rest + done ==> t in stack
      invariant Linked(pushed, rest) && Linked(tasks, done)
      decreases |rest|
    {
      var task := pushed;
      assert task == rest[0] && rest[0].next == Below(rest, 0);
      ghost var left: seq<Task>, moved: seq<Task> := rest[1..], [task] + done;
      MovedDistinct(rest, done);
      DistinctParts(left, moved);
      assert forall i {:trigger left[i].next} :: 0 <= i < |left| ==> left[i] != task && left[i].next == Below(left, i) by {
        forall i | 0 <= i < |left| ensures left[i] != task && left[i].next == Below(left, i) {
          assert rest[i + 1].next == Below(rest, i + 1);
          assert task in moved;
        }
      }
      assert forall i {:trigger done[i].next} :: 0 <= i < |done| ==> done[i] != task by {
        DistinctParts([task], done);
      }
      hide Distinct;
      assert task in rest + done;
      pushed := task.next;
      task.next := tasks;
      tasks := task;
      forall i | 0 <= i < |moved| ensures moved[i].next == Below(moved, i) {
        if i > 0 {
          assert done[i - 1].next == Below(done, i - 1);
        }
      }
      done := moved;
      rest := left;
    }
  }

  lemma MovedDistinct(rest: seq<Task>, done: seq<Task>)
    requires rest != [] && Distinct(rest + done)
    ensures Distinct(rest[1..] + ([rest[0]] + done))
    ensures forall t :: t in rest[1..] + ([rest[0]] + done) ==> t in rest + done
  {
    DistinctParts(rest, done);
    assert rest == [rest[0]] + rest[1..];
    DistinctParts([rest[0]], rest[1..]);
    DistinctJoin([rest[0]], done);
    DistinctJoin(rest[1..], [rest[0]] + done);
  }
}
