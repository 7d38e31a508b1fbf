/** The queue's lines, linked through its waiters, and the tickets they wait under. */
module BuildQueue {
  import opened Wrappers
  import opened QueueLines

  /** By what a waiter is found for promotion, before it gets in line or while it is in one. */
  class QueueTicket {
    var promoted: bool
    var waiter: Waiter?

    constructor ()
      ensures !promoted && waiter == null
    {
      promoted, waiter := false, null;
    }
  }

  class Waiter {
    const ticket: QueueTicket?
    var next: Waiter?

    constructor (ticket: QueueTicket?)
      ensures this.ticket == ticket
    {
      this.ticket, next := ticket, null;
    }
  }

  /** A line of waiters as a chain of `next` links from the one served first. */
  class Waiters {
    var first: Waiter?
    var last: Waiter?
    ghost var line: seq<Waiter>

    ghost predicate Valid()
      reads this, line
    {
      && Distinct(line)
      && first == (if line == [] then null else line[0])
      && last == (if line == [] then null else line[|line| - 1])
      && forall i {:trigger line[i].next} :: 0 <= i < |line| ==> line[i].next == After(line, i)
    }

    static ghost function After(line: seq<Waiter>, i: nat): Waiter? {
      if i + 1 < |line| then line[i + 1] else null
    }

    constructor ()
      ensures Valid() && line == [] && fresh(this)
    {
      first, last, line := null, null, [];
    }

    method Push(waiter: Waiter)
      requires Valid() && waiter !in line
      modifies this, waiter, line
      ensures Valid() && line == old(line) + [waiter]
    {
      waiter.next := null;
      if last == null {
        first := waiter;
      } else {
        last.next := waiter;
      }
      last := waiter;
      DistinctJoin(line, [waiter]);
      line := line + [waiter];
    }

    method Pop() returns (waiter: Waiter?)
      requires Valid()
      modifies this
      ensures Valid()
      ensures old(line) == [] ==> waiter == null && line == []
      ensures old(line) != [] ==> waiter == old(line)[0] && line == old(line)[1..]
    {
      waiter := first;
      if waiter != null {
        assert line[0].next == After(line, 0);
        first := waiter.next;
        if first == null {
          last := null;
        }
        ghost var rest := line[1..];
        assert line == [line[0]] + rest;
        DistinctParts([line[0]], rest);
        forall i | 0 <= i < |rest| ensures rest[i].next == After(rest, i) {
          assert line[i + 1].next == After(line, i + 1);
        }
        line := rest;
      }
    }

    /** Takes `waiter` out of the line, if it is in it, and says whether it was. */
    method Remove(waiter: Waiter) returns (removed: bool)
      requires Valid()
      modifies this, line
      ensures Valid() && removed == (waiter in old(line)) && line == Without(old(line), waiter)
    {
      hide Distinct;
      var previous: Waiter? := null;
      var it := first;
      ghost var i := 0;
      while it != null && it != waiter
        modifies {}
        invariant i <= |line| && it == (if i < |line| then line[i] else null)
        invariant previous == (if i > 0 then line[i - 1] else null)
        invariant waiter !in line[..i]
        decreases |line| - i
      {
        assert line[i].next == After(line, i);
        previous := it;
        it := it.next;
        i := i + 1;
      }
      if it == null {
        assert line[..i] == line;
        return false;
      }
      assert line == line[..i] + [waiter] + line[i + 1..];
      WithoutSplits(line[..i], waiter, line[i + 1..]);
      WithoutDistinct(line, waiter);
      LinkPast(previous, it, i);
      return true;
    }

    /** Links what comes before the waiter `it`, at `i`, to what comes after. */
    method LinkPast(previous: Waiter?, it: Waiter, ghost i: nat)
      requires Valid() && i < |line| && it == line[i] && previous == (if i > 0 then line[i - 1] else null)
      requires Distinct(line[..i] + line[i + 1..])
      modifies this, line
      ensures Valid() && line == old(line[..i] + line[i + 1..])
    {
      ghost var was := line;
      assert it.next == After(was, i);
      assert i > 0 ==> forall k :: 0 <= k < |was| && k != i - 1 ==> was[k] != previous;
      hide Distinct;
      line := was[..i] + was[i + 1..];
      if previous == null {
        first := it.next;
      } else {
        previous.next := it.next;
      }
      if last == it {
        last := previous;
      }
      forall k | 0 <= k < |line| ensures line[k].next == After(line, k) {
        var j := if k < i then k else k + 1;
        assert line[k] == was[j];
        assert old(was[j].next) == After(was, j);
      }
    }
  }

  /** No waiter is in both lines. */
  ghost predicate Apart(a: seq<Waiter>, b: seq<Waiter>) {
    (forall i {:trigger a[i]} :: 0 <= i < |a| ==> a[i] !in b) && (forall i {:trigger b[i]} :: 0 <= i < |b| ==> b[i] !in a)
  }

  lemma LinesApart(l: Lines<Waiter>)
    requires Distinct(l.All())
    ensures Distinct(l.reacquiring) && Distinct(l.promoted) && Distinct(l.waiting)
    ensures Apart(l.reacquiring, l.promoted) && Apart(l.reacquiring, l.waiting) && Apart(l.promoted, l.waiting)
  {
    LinesDistinct(l);
  }

  lemma NotIn(l: Lines<Waiter>, w: Waiter)
    requires w !in l.All()
    ensures w !in l.reacquiring && w !in l.promoted && w !in l.waiting
  {
  }

  lemma RemoveOrderly(l: Lines<Waiter>, w: Waiter, m: Lines<Waiter>)
    requires l.Orderly() && m.free == l.free
    requires m.reacquiring == l.reacquiring || m.reacquiring == Without(l.reacquiring, w)
    requires m.promoted == l.promoted || m.promoted == Without(l.promoted, w)
    requires m.waiting == l.waiting || m.waiting == Without(l.waiting, w)
    ensures m.Orderly()
  {
    LinesDistinct(l);
    WithoutDistinct(l.reacquiring, w);
    WithoutDistinct(l.promoted, w);
    WithoutDistinct(l.waiting, w);
    hide Distinct;
    LinesJoin(m);
  }

  // ---- Tickets ---------------------------------------------------------------------------------

  /** Each ticket's waiter, while that is in line. */
  type Places = map<QueueTicket, Waiter?>

  /** A ticket has a place exactly while its waiter is in line. */
  ghost predicate Placed(places: Places, promoted: seq<Waiter>, waiting: seq<Waiter>) {
    && (forall w :: w in promoted ==> HasPlace(places, w) && w.ticket != null)
    && (forall w :: w in waiting ==> HasPlace(places, w))
    && (forall t :: t in places && places[t] != null ==> places[t].ticket == t && (places[t] in promoted || places[t] in waiting))
  }

  ghost predicate HasPlace(places: Places, w: Waiter) {
    w.ticket != null ==> w.ticket in places && places[w.ticket] == w
  }

  function Taken(places: Places, w: Waiter): Places {
    if w.ticket == null then places else places[w.ticket := w]
  }

  function LeftBy(places: Places, w: Waiter): Places {
    if w.ticket == null then places else places[w.ticket := null]
  }

  lemma PlaceTaken(places: Places, promoted: seq<Waiter>, waiting: seq<Waiter>, w: Waiter)
    requires Placed(places, promoted, waiting) && w !in promoted && w !in waiting
    requires w.ticket != null ==> w.ticket in places && places[w.ticket] == null
    ensures w.ticket != null ==> Placed(Taken(places, w), promoted + [w], waiting)
    ensures Placed(Taken(places, w), promoted, waiting + [w])
  {
  }

  /** `m` holds what `l` does, but for `w`. */
  ghost predicate Less(l: seq<Waiter>, w: Waiter, m: seq<Waiter>) {
    && (forall v :: v in m ==> v in l && v != w)
    && (forall v :: v in l && v != w ==> v in m)
  }

  lemma WithoutLess(l: seq<Waiter>, w: Waiter)
    requires Distinct(l)
    ensures Less(l, w, Without(l, w)) && (w !in l ==> Without(l, w) == l)
  {
    WithoutDistinct(l, w);
  }

  lemma PlacePromoted(places: Places, promoted: seq<Waiter>, waiting: seq<Waiter>, w: Waiter, fewer: seq<Waiter>)
    requires Placed(places, promoted, waiting) && w in waiting && w.ticket != null && Less(waiting, w, fewer)
    ensures Placed(places, promoted + [w], fewer)
    ensures forall t :: t in places && places[t] != null && t != w.ticket ==>
      (places[t] in promoted <==> places[t] in promoted + [w])
    ensures w.ticket in places && places[w.ticket] == w && w in promoted + [w]
  {
  }

  lemma PromotedAlready(l: Lines<Waiter>, places: Places, ticket: QueueTicket)
    requires l.Orderly() && Placed(places, l.promoted, l.waiting) && ticket in places
    requires places[ticket] != null ==> places[ticket] in l.promoted
    ensures places[ticket] != null ==> l.Promote(places[ticket]) == l
  {
    LinesDistinct(l);
  }

  lemma NotYetPromoted(l: Lines<Waiter>, places: Places, ticket: QueueTicket)
    requires l.Orderly() && Placed(places, l.promoted, l.waiting) && ticket in places
    requires places[ticket] != null && places[ticket] !in l.promoted
    ensures places[ticket] in l.waiting && places[ticket] !in l.reacquiring && l.free == 0 && places[ticket].ticket == ticket
  {
    LinesDistinct(l);
    assert places[ticket] in l.All();
  }

  lemma HeirIs(l: Lines<Waiter>)
    ensures l.Heir() == if l.reacquiring != [] then Some(l.reacquiring[0]) else if l.promoted != [] then Some(l.promoted[0])
      else if l.waiting != [] then Some(l.waiting[0]) else None
  {
  }

  lemma TailLess(l: seq<Waiter>)
    requires Distinct(l)
    ensures l != [] ==> Less(l, l[0], l[1..]) && l[0] in l
  {
    if l != [] {
      assert l == [l[0]] + l[1..];
      DistinctParts([l[0]], l[1..]);
    }
  }

  /** What is so of every place but that of `w`, once `w` has left for `promoted2` and `waiting2`. */
  ghost predicate OthersStay(places: Places, w: Waiter, promoted: seq<Waiter>, promoted2: seq<Waiter>) {
    && LeftBy(places, w).Keys == places.Keys
    && (w.ticket != null ==> w.ticket in places && LeftBy(places, w)[w.ticket] == null)
    && forall t :: t in places && t != w.ticket ==>
         LeftBy(places, w)[t] == places[t] && (places[t] != null ==> (places[t] in promoted <==> places[t] in promoted2))
  }

  lemma PlaceLeft(places: Places, promoted: seq<Waiter>, waiting: seq<Waiter>, w: Waiter,
                  promoted2: seq<Waiter>, waiting2: seq<Waiter>)
    requires Placed(places, promoted, waiting) && Apart(promoted, waiting)
    requires w in promoted || w in waiting
    requires if w in promoted then Less(promoted, w, promoted2) && waiting2 == waiting
             else promoted2 == promoted && Less(waiting, w, waiting2)
    ensures Placed(LeftBy(places, w), promoted2, waiting2) && OthersStay(places, w, promoted, promoted2)
  {
    assert w in promoted ==> w !in waiting;
  }

  /** The slots left, and the three lines of those who want one. */
  class BuildQueue {
    var free: nat
    const reacquiring: Waiters
    const promoted: Waiters
    const waiting: Waiters
    ghost var places: Places

    /** The sequences the lines stand for. */
    ghost function Abs(): Lines<Waiter>
      reads this, reacquiring, promoted, waiting
    {
      Lines(free, reacquiring.line, promoted.line, waiting.line)
    }

    ghost predicate Linked()
      reads reacquiring, promoted, waiting, reacquiring.line, promoted.line, waiting.line
    {
      && reacquiring != promoted && reacquiring != waiting && promoted != waiting
      && reacquiring.Valid() && promoted.Valid() && waiting.Valid()
    }

    /** A ticket points at its waiter exactly while that is in line, in the promoted line if the ticket is promoted. */
    ghost predicate Ticketed()
      reads this, promoted, waiting, places.Keys
    {
      && Placed(places, promoted.line, waiting.line)
      && (forall t :: t in places ==> t.waiter == places[t])
      && (forall t :: t in places && places[t] != null ==> (t.promoted <==> places[t] in promoted.line))
    }

    ghost predicate Valid()
      reads this, reacquiring, promoted, waiting, reacquiring.line, promoted.line, waiting.line, places.Keys
    {
      Linked() && Abs().Orderly() && Ticketed()
    }

    constructor (concurrency: nat)
      ensures Valid() && Abs() == Lines(concurrency, [], [], []) && places == map[]
    {
      free := concurrency;
      reacquiring := new Waiters();
      promoted := new Waiters();
      waiting := new Waiters();
      places := map[];
    }

    /** A ticket that nothing waits under yet is known. */
    ghost method Admit(ticket: QueueTicket)
      requires Valid() && ticket !in places && ticket.waiter == null
      modifies `places
      ensures Valid() && places == old(places)[ticket := null] && Abs() == old(Abs())
    {
      places := places[ticket := null];
    }

    method TryTake() returns (taken: bool)
      requires Valid()
      modifies `free
      ensures Valid() && taken == (old(free) > 0) && Abs() == if taken then old(Abs()).TakeFree() else old(Abs())
    {
      if free == 0 {
        return false;
      }
      free := free - 1;
      return true;
    }

    /** A waiter joins the line for its kind. */
    method Enqueue(waiter: Waiter, reacquire: bool)
      requires Valid() && free == 0 && waiter !in Abs().All()
      requires !reacquire && waiter.ticket != null ==> waiter.ticket in places && places[waiter.ticket] == null
      modifies this, reacquiring, promoted, waiting, reacquiring.line, promoted.line, waiting.line, places.Keys, waiter
      ensures Valid() && places == if reacquire then old(places) else Taken(old(places), waiter)
      ensures Abs() == old(Abs().Enqueue(waiter, reacquire, waiter.ticket != null && waiter.ticket.promoted))
    {
      hide Linked, Lines.Orderly, Placed;
      if reacquire {
        PushReacquiring(waiter);
      } else if waiter.ticket != null && waiter.ticket.promoted {
        PushPromoted(waiter);
      } else {
        PushWaiting(waiter);
      }
    }

    method PushReacquiring(waiter: Waiter)
      requires Valid() && free == 0 && waiter !in Abs().All()
      modifies reacquiring, reacquiring.line, waiter
      ensures Valid() && Abs() == old(Abs()).Enqueue(waiter, true, false)
    {
      ghost var lines := Abs();
      EnqueueOrderly(lines, waiter, true, false);
      LinesApart(lines);
      NotIn(lines, waiter);
      hide Distinct, Waiters.Valid, Lines.Orderly, Lines.All, Placed;
      reacquiring.Push(waiter);
    }

    method LinkPromoted(waiter: Waiter)
      requires Linked() && Abs().Orderly() && free == 0 && waiter !in Abs().All()
      modifies promoted, promoted.line, waiter
      ensures Linked() && Abs().Orderly() && Abs() == old(Abs()).Enqueue(waiter, false, true)
    {
      ghost var lines := Abs();
      EnqueueOrderly(lines, waiter, false, true);
      LinesApart(lines);
      NotIn(lines, waiter);
      hide Distinct, Waiters.Valid, Lines.Orderly, Lines.All;
      promoted.Push(waiter);
    }

    method PushPromoted(waiter: Waiter)
      requires Valid() && free == 0 && waiter !in Abs().All()
      requires waiter.ticket in places && places[waiter.ticket] == null && waiter.ticket.promoted
      modifies `places, promoted, promoted.line, waiter, waiter.ticket
      ensures Valid() && Abs() == old(Abs()).Enqueue(waiter, false, true) && places == Taken(old(places), waiter)
    {
      NotIn(Abs(), waiter);
      PlaceTaken(places, promoted.line, waiting.line, waiter);
      hide Distinct, Linked, Lines.Orderly, Lines.All, Placed;
      Arrive(waiter);
      LinkPromoted(waiter);
    }

    method LinkWaiting(waiter: Waiter)
      requires Linked() && Abs().Orderly() && free == 0 && waiter !in Abs().All()
      modifies waiting, waiting.line, waiter
      ensures Linked() && Abs().Orderly() && Abs() == old(Abs()).Enqueue(waiter, false, false)
    {
      ghost var lines := Abs();
      EnqueueOrderly(lines, waiter, false, false);
      LinesApart(lines);
      NotIn(lines, waiter);
      hide Distinct, Waiters.Valid, Lines.Orderly, Lines.All;
      waiting.Push(waiter);
    }

    method PushWaiting(waiter: Waiter)
      requires Valid() && free == 0 && waiter !in Abs().All()
      requires waiter.ticket != null ==> waiter.ticket in places && places[waiter.ticket] == null && !waiter.ticket.promoted
      modifies `places, waiting, waiting.line, waiter, waiter.ticket
      ensures Valid() && Abs() == old(Abs()).Enqueue(waiter, false, false) && places == Taken(old(places), waiter)
    {
      NotIn(Abs(), waiter);
      PlaceTaken(places, promoted.line, waiting.line, waiter);
      hide Distinct, Linked, Lines.Orderly, Lines.All, Placed;
      Arrive(waiter);
      LinkWaiting(waiter);
    }

    /** From here on the ticket leads to its waiter, which is about to get in line. */
    method Arrive(waiter: Waiter)
      requires Linked() && Abs().Orderly() && (waiter.ticket != null ==> waiter.ticket in places)
      requires forall t :: t in places ==> t.waiter == places[t]
      modifies `places, waiter.ticket
      ensures Linked() && Abs().Orderly() && Abs() == old(Abs()) && places == Taken(old(places), waiter)
      ensures forall t :: t in places ==> t.waiter == places[t] && t.promoted == old(t.promoted)
    {
      hide Distinct, Lines.Orderly, Lines.All, Waiters.Valid;
      if waiter.ticket != null {
        waiter.ticket.waiter := waiter;
      }
      places := Taken(places, waiter);
    }

    /** A waiter gives up its place, unless a slot has reached it already. */
    method Dequeue(waiter: Waiter, reacquire: bool) returns (removed: bool)
      requires Valid() && (waiter.ticket != null ==> waiter.ticket in places)
      modifies this, reacquiring, promoted, waiting, reacquiring.line, promoted.line, waiting.line, waiter.ticket
      ensures Valid() && places == if removed && !reacquire then LeftBy(old(places), waiter) else old(places)
      ensures removed <==> waiter in old(if reacquire then reacquiring.line else promoted.line + waiting.line)
      ensures Abs() == if removed then old(Abs()).Dequeue(waiter, reacquire) else old(Abs())
    {
      hide Linked, Ticketed, Distinct, Lines.Orderly;
      if reacquire {
        removed := RemoveReacquiring(waiter);
      } else {
        removed := RemovePromoted(waiter);
        if !removed {
          removed := RemoveWaiting(waiter);
        }
      }
    }

    method RemoveReacquiring(waiter: Waiter) returns (removed: bool)
      requires Valid()
      modifies reacquiring, reacquiring.line
      ensures Valid() && removed == (waiter in old(reacquiring.line))
      ensures Abs() == old(Abs()).(reacquiring := Without(old(reacquiring.line), waiter))
    {
      ghost var lines := Abs();
      LinesApart(lines);
      RemoveOrderly(lines, waiter, lines.(reacquiring := Without(lines.reacquiring, waiter)));
      hide Distinct, Waiters.Valid, Lines.Orderly, Lines.All, Placed;
      removed := reacquiring.Remove(waiter);
    }

    method UnlinkPromoted(waiter: Waiter) returns (removed: bool)
      requires Linked() && Abs().Orderly()
      modifies promoted, promoted.line
      ensures Linked() && Abs().Orderly() && removed == (waiter in old(promoted.line))
      ensures Abs() == old(Abs()).(promoted := Without(old(promoted.line), waiter))
    {
      ghost var lines := Abs();
      LinesApart(lines);
      RemoveOrderly(lines, waiter, lines.(promoted := Without(lines.promoted, waiter)));
      hide Distinct, Waiters.Valid, Lines.Orderly, Lines.All, Without;
      removed := promoted.Remove(waiter);
    }

    method RemovePromoted(waiter: Waiter) returns (removed: bool)
      requires Valid() && (waiter.ticket != null ==> waiter.ticket in places)
      modifies `places, promoted, promoted.line, waiter.ticket
      ensures Valid() && removed == (waiter in old(promoted.line))
      ensures places == if removed then LeftBy(old(places), waiter) else old(places)
      ensures Abs() == old(Abs()).(promoted := Without(old(promoted.line), waiter))
    {
      LinesApart(Abs());
      WithoutLess(promoted.line, waiter);
      hide Distinct, Linked, Lines.Orderly, Lines.All, Placed, Less, Without, Apart, LeftBy, OthersStay;
      removed := UnlinkPromoted(waiter);
      if removed {
        PlaceLeft(places, old(promoted.line), waiting.line, waiter, promoted.line, waiting.line);
        Leave(waiter, old(promoted.line));
      }
    }

    method UnlinkWaiting(waiter: Waiter) returns (removed: bool)
      requires Linked() && Abs().Orderly()
      modifies waiting, waiting.line
      ensures Linked() && Abs().Orderly() && removed == (waiter in old(waiting.line))
      ensures Abs() == old(Abs()).(waiting := Without(old(waiting.line), waiter))
    {
      ghost var lines := Abs();
      LinesApart(lines);
      RemoveOrderly(lines, waiter, lines.(waiting := Without(lines.waiting, waiter)));
      hide Distinct, Waiters.Valid, Lines.Orderly, Lines.All, Without;
      removed := waiting.Remove(waiter);
    }

    method RemoveWaiting(waiter: Waiter) returns (removed: bool)
      requires Valid() && (waiter.ticket != null ==> waiter.ticket in places)
      modifies `places, waiting, waiting.line, waiter.ticket
      ensures Valid() && removed == (waiter in old(waiting.line))
      ensures places == if removed then LeftBy(old(places), waiter) else old(places)
      ensures Abs() == old(Abs()).(waiting := Without(old(waiting.line), waiter))
    {
      LinesApart(Abs());
      WithoutLess(waiting.line, waiter);
      hide Distinct, Linked, Lines.Orderly, Lines.All, Placed, Less, Without, Apart, LeftBy;
      removed := UnlinkWaiting(waiter);
      if !removed {
        assert waiting.line == old(waiting.line);
        return;
      }
      LeaveWaiting(waiter, old(waiting.line));
    }

    /** A slot goes to the oldest taking one back; if there is none to the oldest promoted, then to the oldest, and else it is free. */
    method Release() returns (heir: Waiter?)
      requires Valid()
      modifies this, reacquiring, promoted, waiting, places.Keys
      ensures Valid() && Abs() == old(Abs()).Release()
      ensures old(Abs()).Heir() == if heir == null then None else Some(heir)
      ensures places == if heir != null && old(reacquiring.line) == [] then LeftBy(old(places), heir) else old(places)
    {
      HeirIs(Abs());
      hide Distinct, Lines.Orderly, Lines.All, Lines.Heir, Ticketed, LeftBy, Linked;
      heir := PopReacquiring();
      if heir == null {
        heir := PopPromoted();
        if heir == null {
          heir := PopWaiting();
          if heir == null {
            FreeOne();
          }
        }
      }
    }

    method FreeOne()
      requires Valid() && reacquiring.line == promoted.line == waiting.line == []
      modifies `free
      ensures Valid() && Abs() == old(Abs()).(free := old(free) + 1) && places == old(places)
    {
      assert Abs().All() == [];
      hide Linked, Ticketed, Distinct;
      free := free + 1;
    }

    method PopReacquiring() returns (heir: Waiter?)
      requires Valid()
      modifies reacquiring
      ensures Valid() && heir == (if old(reacquiring.line) == [] then null else old(reacquiring.line)[0])
      ensures Abs() == if heir == null then old(Abs()) else old(Abs()).(reacquiring := old(reacquiring.line)[1..])
    {
      ReleaseOrderly(Abs());
      hide Distinct, Waiters.Valid, Lines.Orderly, Lines.All, Placed;
      heir := reacquiring.Pop();
    }

    method PopPromoted() returns (heir: Waiter?)
      requires Valid() && reacquiring.line == []
      modifies `places, promoted, places.Keys
      ensures Valid() && heir == (if old(promoted.line) == [] then null else old(promoted.line)[0])
      ensures Abs() == if heir == null then old(Abs()) else old(Abs()).(promoted := old(promoted.line)[1..])
      ensures places == if heir == null then old(places) else LeftBy(old(places), heir)
    {
      LinesApart(Abs());
      TailLess(promoted.line);
      hide Distinct, Linked, Lines.Orderly, Lines.All, Placed, Less, Apart, LeftBy;
      heir := UnlinkFirstPromoted();
      if heir != null {
        PlaceLeft(places, old(promoted.line), waiting.line, heir, promoted.line, waiting.line);
        Leave(heir, old(promoted.line));
      }
    }

    method UnlinkFirstPromoted() returns (heir: Waiter?)
      requires Linked() && Abs().Orderly() && reacquiring.line == []
      modifies promoted
      ensures Linked() && Abs().Orderly() && heir == (if old(promoted.line) == [] then null else old(promoted.line)[0])
      ensures Abs() == if heir == null then old(Abs()) else old(Abs()).(promoted := old(promoted.line)[1..])
    {
      ReleaseOrderly(Abs());
      hide Distinct, Waiters.Valid, Lines.Orderly, Lines.All;
      heir := promoted.Pop();
    }

    method PopWaiting() returns (heir: Waiter?)
      requires Valid() && reacquiring.line == promoted.line == []
      modifies `places, waiting, places.Keys
      ensures Valid() && heir == (if old(waiting.line) == [] then null else old(waiting.line)[0])
      ensures Abs() == if heir == null then old(Abs()) else old(Abs()).(waiting := old(waiting.line)[1..])
      ensures places == if heir == null then old(places) else LeftBy(old(places), heir)
    {
      LinesApart(Abs());
      TailLess(waiting.line);
      hide Distinct, Linked, Lines.Orderly, Lines.All, Placed, Less, Apart, LeftBy;
      heir := UnlinkFirstWaiting();
      if heir != null {
        PlaceLeft(places, promoted.line, old(waiting.line), heir, promoted.line, waiting.line);
        Leave(heir, promoted.line);
      }
    }

    method UnlinkFirstWaiting() returns (heir: Waiter?)
      requires Linked() && Abs().Orderly() && reacquiring.line == promoted.line == []
      modifies waiting
      ensures Linked() && Abs().Orderly() && heir == (if old(waiting.line) == [] then null else old(waiting.line)[0])
      ensures Abs() == if heir == null then old(Abs()) else old(Abs()).(waiting := old(waiting.line)[1..])
    {
      ReleaseOrderly(Abs());
      hide Distinct, Waiters.Valid, Lines.Orderly, Lines.All;
      heir := waiting.Pop();
    }

    /** Moves whatever waits under a ticket, or will, ahead of all that was not promoted. */
    method Promote(ticket: QueueTicket)
      requires Valid() && ticket in places
      modifies this, promoted, promoted.line, waiting, waiting.line, places.Keys
      ensures Valid() && places == old(places) && ticket.promoted
      ensures Abs() == if old(places)[ticket] == null then old(Abs()) else old(Abs()).Promote(old(places)[ticket])
    {
      hide Linked, Distinct, Lines.Orderly, Less;
      if ticket.promoted {
        PromotedAlready(Abs(), places, ticket);
        return;
      }
      var waiter := ticket.waiter;
      if waiter == null {
        SetPromoted(ticket);
      } else {
        NotYetPromoted(Abs(), places, ticket);
        MoveToPromoted(ticket, waiter);
      }
    }

    method SetPromoted(ticket: QueueTicket)
      requires Valid() && ticket in places && places[ticket] == null
      modifies ticket
      ensures Valid() && Abs() == old(Abs()) && ticket.promoted
    {
      hide Waiters.Valid, Distinct, Lines.Orderly, Placed;
      ticket.promoted := true;
    }

    method MoveToPromoted(ticket: QueueTicket, waiter: Waiter)
      requires Valid() && ticket in places && places[ticket] == waiter && waiter in waiting.line && free == 0
      requires waiter !in promoted.line && waiter !in reacquiring.line
      modifies promoted, promoted.line, waiting, waiting.line, ticket
      ensures Valid() && Abs() == old(Abs()).Promote(waiter) && ticket.promoted
    {
      LinesApart(Abs());
      WithoutLess(waiting.line, waiter);
      PlacePromoted(places, promoted.line, waiting.line, waiter, Without(waiting.line, waiter));
      hide Distinct, Lines.Orderly, Placed, Less, Apart, Linked;
      MarkPromoted(ticket);
      var _ := UnlinkWaiting(waiter);
      LinkPromoted(waiter);
    }

    method MarkPromoted(ticket: QueueTicket)
      requires Linked() && Abs().Orderly()
      modifies ticket
      ensures Linked() && Abs().Orderly() && Abs() == old(Abs()) && ticket.promoted && ticket.waiter == old(ticket.waiter)
    {
      hide Waiters.Valid, Distinct, Lines.Orderly;
      ticket.promoted := true;
    }

    method LeaveWaiting(waiter: Waiter, ghost before: seq<Waiter>)
      requires Linked() && Abs().Orderly()
      requires Placed(places, promoted.line, before) && Apart(promoted.line, before) && waiter in before
      requires Less(before, waiter, waiting.line)
      requires forall t :: t in places ==> t.waiter == places[t]
      requires forall t :: t in places && places[t] != null ==> (t.promoted <==> places[t] in promoted.line)
      modifies `places, waiter.ticket
      ensures Valid() && places == LeftBy(old(places), waiter) && Abs() == old(Abs())
    {
      assert waiter !in promoted.line;
      hide Distinct, Linked, Lines.Orderly, Lines.All, Placed, Less, Apart, LeftBy, OthersStay;
      PlaceLeft(places, promoted.line, before, waiter, promoted.line, waiting.line);
      Leave(waiter, promoted.line);
    }

    /** Notes that a waiter has left its line, as it has already. */
    method Leave(waiter: Waiter, ghost before: seq<Waiter>)
      requires Linked() && Abs().Orderly()
      requires Placed(LeftBy(places, waiter), promoted.line, waiting.line) && OthersStay(places, waiter, before, promoted.line)
      requires forall t :: t in places ==> t.waiter == places[t]
      requires forall t :: t in places && places[t] != null ==> (t.promoted <==> places[t] in before)
      modifies `places, waiter.ticket
      ensures Valid() && places == LeftBy(old(places), waiter) && Abs() == old(Abs())
    {
      hide Distinct, Lines.Orderly, Lines.All, Placed, Less, Without, Apart, LeftBy, Waiters.Valid;
      LeftLine(waiter);
      places := LeftBy(places, waiter);
    }

    /** From here on the ticket leads to nobody. */
    static method LeftLine(waiter: Waiter)
      modifies waiter.ticket
      ensures waiter.ticket != null ==> waiter.ticket.waiter == null && waiter.ticket.promoted == old(waiter.ticket.promoted)
    {
      if waiter.ticket != null {
        waiter.ticket.waiter := null;
      }
    }
  }
}
