/**
 No container change is lost or duplicated by the event handler.
 */
module EventConservation {
  import opened Basics
  import opened EventTypes
  import opened EventMachine
  import opened EventSafety

  /** How often c occurs in a sequence of changes, in the batches, in the lists, in hand. */
  function Occurs(s: seq<ContainerChange>, c: ContainerChange): nat { multiset(s)[c] }

  ghost function Batched(m: map<string, seq<ContainerChange>>, c: ContainerChange): nat {
    if m == map[] then 0 else
      var a :| a in m;
      Occurs(m[a], c) + Batched(m - {a}, c)
  }

  function Waiting(events: seq<Event>, c: ContainerChange): nat {
    if events == [] then 0
    else (if events[0].sent then 0 else Occurs(events[0].Carried(), c)) + Waiting(events[1..], c)
  }

  function Queued(lists: seq<EventList>, c: ContainerChange): nat {
    if lists == [] then 0 else Waiting(lists[0].events, c) + Queued(lists[1..], c)
  }

  function InHand(h: Handler, c: ContainerChange): nat {
    if h.held.Some? then Occurs(h.held.value.1.Carried(), c) else 0
  }

  function Settled(log: Log, c: ContainerChange): nat {
    log.delivered[c] + log.unreported[c] + log.redundant[c] + log.rejected[c]
  }

  /** Every accepted occurrence of c is in exactly one place. */
  ghost predicate Conserved(w: World, c: ContainerChange) {
    w.log.accepted[c] == Batched(w.h.batches, c) + InHand(w.h, c) + Queued(w.h.lists, c) + Settled(w.log, c)
  }

  lemma OccursConcat(s: seq<ContainerChange>, t: seq<ContainerChange>, c: ContainerChange)
    ensures Occurs(s + t, c) == Occurs(s, c) + Occurs(t, c)
  {
  }

  lemma {:induction false} BatchedTake(m: map<string, seq<ContainerChange>>, a: string, c: ContainerChange)
    requires a in m
    ensures Batched(m, c) == Occurs(m[a], c) + Batched(m - {a}, c)
    decreases |m|
  {
    var b :| b in m && Batched(m, c) == Occurs(m[b], c) + Batched(m - {b}, c);
    if b != a {
      BatchedTake(m - {b}, a, c);
      BatchedTake(m - {a}, b, c);
      assert m - {a} - {b} == m - {b} - {a};
    }
  }

  lemma {:induction false} QueuedSet(lists: seq<EventList>, l: nat, x: EventList, c: ContainerChange)
    requires l < |lists|
    ensures Queued(lists[l := x], c) == Queued(lists, c) - Waiting(lists[l].events, c) + Waiting(x.events, c)
  {
    if l == 0 {
      assert lists[l := x][1..] == lists[1..];
    } else {
      assert lists[l := x][1..] == lists[1..][l - 1 := x];
      QueuedSet(lists[1..], l - 1, x, c);
    }
  }

  lemma {:induction false} QueuedGrow(lists: seq<EventList>, x: EventList, c: ContainerChange)
    ensures Queued(lists + [x], c) == Queued(lists, c) + Waiting(x.events, c)
  {
    if lists == [] {
      assert lists + [x] == [x];
    } else {
      assert (lists + [x])[1..] == lists[1..] + [x];
      QueuedGrow(lists[1..], x, c);
    }
  }

  lemma {:induction false} WaitingGrow(events: seq<Event>, e: Event, c: ContainerChange)
    requires !e.sent
    ensures Waiting(events + [e], c) == Waiting(events, c) + Occurs(e.Carried(), c)
  {
    if events == [] {
      assert events + [e] == [e];
    } else {
      assert (events + [e])[1..] == events[1..] + [e];
      WaitingGrow(events[1..], e, c);
    }
  }

  lemma ConservedStep(w: World, s: Step, c: ContainerChange)
    requires Safe(w) && Conserved(w, c) && Enabled(w, s)
    ensures Conserved(Next(w, s), c)
  {
    match s
    case AddContainer(d) => ConservedAdd(w, d, c);
    case Flush(t) => ConservedFlush(w, t, c);
    case Push => ConservedPush(w, c);
    case Attempt(l, expired) => ConservedAttempt(w, l, Decide(w, l, expired), c);
    case Answer(l, reply) => ConservedAnswer(w, l, reply, c);
    case MarkRead(l) => QueuedSet(w.h.lists, l, Next(w, s).h.lists[l], c);
    case MarkWrite(l) => QueuedSet(w.h.lists, l, Next(w, s).h.lists[l], c);
    case FinishSend(l) => assert ListAt(w, l); QueuedDrop(w.h, l, c);
    case RemoveEntry(a) =>
    case SetKnown(r, status) =>
  }

  lemma ConservedAdd(w: World, d: ContainerChange, c: ContainerChange)
    requires Conserved(w, c)
    ensures Conserved(DoAddContainer(w, d), c)
  {
    var m := w.h.batches;
    var m' := DoAddContainer(w, d).h.batches;
    OccursConcat(Batch(w.h, d.arn), [d], c);
    BatchedTake(m', d.arn, c);
    assert m' - {d.arn} == m - {d.arn};
    if d.arn in m { BatchedTake(m, d.arn, c); } else { assert m - {d.arn} == m; }
  }

  lemma ConservedFlush(w: World, t: TaskChange, c: ContainerChange)
    requires Conserved(w, c) && w.h.held.None?
    ensures Conserved(DoFlush(w, t), c)
  {
    var m := w.h.batches;
    OccursConcat(t.containers, Batch(w.h, t.arn), c);
    if t.arn in m { BatchedTake(m, t.arn, c); } else { assert m - {t.arn} == m; }
    QueuedGrow(w.h.lists, EventList(t.arn, [], false, Idle), c);
  }

  lemma ConservedPush(w: World, c: ContainerChange)
    requires Safe(w) && Conserved(w, c) && Enabled(w, Push)
    ensures Conserved(DoPush(w), c)
  {
    var (l, e) := w.h.held.value;
    QueuedSet(w.h.lists, l, DoPush(w).h.lists[l], c);
    WaitingGrow(w.h.lists[l].events, e, c);
  }

  lemma QueuedDrop(h: Handler, l: nat, c: ContainerChange)
    requires l < |h.lists| && h.lists[l].events != []
    ensures var e := h.lists[l].events[0];
            Queued(DropHead(h, l).lists, c) == Queued(h.lists, c) - (if e.sent then 0 else Occurs(e.Carried(), c))
    ensures Queued(Settle(DropHead(h, l), l).lists, c) == Queued(DropHead(h, l).lists, c)
  {
    var g := DropHead(h, l);
    QueuedSet(h.lists, l, g.lists[l], c);
    QueuedSet(g.lists, l, Settle(g, l).lists[l], c);
    assert g.lists[l := g.lists[l]] == g.lists;
  }

  lemma ConservedAttempt(w: World, l: nat, d: Option<Kind>, c: ContainerChange)
    requires Safe(w) && Conserved(w, c) && Enabled(w, Attempt(l, false))
    ensures Conserved(DoAttempt(w, l, d), c)
  {
    assert ListAt(w, l);
    if w.h.lists[l].events != [] && d.None? {
      QueuedDrop(w.h, l, c);
    } else {
      QueuedSet(w.h.lists, l, DoAttempt(w, l, d).h.lists[l], c);
    }
  }

  lemma ConservedAnswer(w: World, l: nat, reply: Reply, c: ContainerChange)
    requires Safe(w) && Conserved(w, c) && Enabled(w, Answer(l, reply))
    ensures Conserved(DoAnswer(w, l, reply), c)
  {
    assert ListAt(w, l);
    var x := w.h.lists[l];
    var y := DoAnswer(w, l, reply).h.lists[l];
    if reply == InvalidParameter {
      QueuedDrop(w.h, l, c);
    } else {
      QueuedSet(w.h.lists, l, y, c);
      assert y.events[1..] == x.events[1..];
      PayloadIsCarried(x.events[0]);
    }
  }
}
