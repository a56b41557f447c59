/** The bounded queue between producers and the worker, and the capacity counter beside it. */
module EventQueue {
  import opened Events
  import opened Pipeline

  /** What front_ordinal returns for an empty queue: the largest 64-bit number. */
  const NO_ORDINAL: nat := 0xFFFF_FFFF_FFFF_FFFF

  /** What other threads do while the worker waits. */
  datatype Arrival = Pushed(event: Event) | Kicked

  /** The queue after these arrivals; a push that finds it full is refused. */
  function Arrived(events: seq<Event>, capacity: nat, arrivals: seq<Arrival>): seq<Event> {
    if arrivals == [] then events
    else
      var before := Arrived(events, capacity, arrivals[..|arrivals| - 1]);
      var last := arrivals[|arrivals| - 1];
      if last.Pushed? && |before| < capacity then before + [last.event] else before
  }

  lemma ArrivedNext(events: seq<Event>, capacity: nat, arrivals: seq<Arrival>, n: nat)
    requires n < |arrivals|
    ensures var before := Arrived(events, capacity, arrivals[..n]);
            Arrived(events, capacity, arrivals[..n + 1])
            == if arrivals[n].Pushed? && |before| < capacity then before + [arrivals[n].event] else before
    ensures Kicked in arrivals[..n + 1] <==> Kicked in arrivals[..n] || arrivals[n].Kicked?
  {
    assert arrivals[..n + 1][..n] == arrivals[..n];
    assert arrivals[..n + 1] == arrivals[..n] + [arrivals[n]];
  }

  class Queue {
    const capacity: nat
    const threshold: nat
    var events: seq<Event>
    var kicked: bool

    constructor (capacity: nat, threshold: nat)
      ensures this.capacity == capacity && this.threshold == threshold && events == [] && !kicked && Valid()
    {
      this.capacity, this.threshold, events, kicked := capacity, threshold, [], false;
    }

    ghost predicate Valid()
      reads this
    {
      |events| <= capacity
    }

    /** The worker need not wait. */
    predicate Ready()
      reads this
    {
      |events| >= threshold || kicked
    }

    method Full() returns (full: bool)
      requires Valid()
      ensures full <==> |events| == capacity
    {
      full := |events| >= capacity;
    }

    method HasRoomFor(count: nat) returns (room: bool)
      requires Valid()
      ensures room <==> |events| + count <= capacity
    {
      var used := if |events| < capacity then |events| else capacity;
      room := capacity - used >= count;
    }

    /** Refuses the newest when full; otherwise it goes to the back. */
    method TryPush(e: Event) returns (ok: bool)
      requires Valid()
      modifies this`events
      ensures Valid()
      ensures ok <==> |old(events)| < capacity
      ensures events == if ok then old(events) + [e] else old(events)
      ensures old(Ready()) ==> Ready()
    {
      if |events| >= capacity { return false; }
      events := events + [e];
      ok := true;
    }

    /** At most `barrier` can be asked of a queue in ordinal order without looking further. */
    method FrontOrdinal() returns (ordinal: nat)
      ensures ordinal == if events == [] then NO_ORDINAL else events[0].ordinal
      ensures Ascending(events) && ordinal < NO_ORDINAL ==> forall e :: e in events ==> ordinal <= e.ordinal
    {
      if events == [] { return NO_ORDINAL; }
      ordinal := events[0].ordinal;
    }

    /** The first moment the queue was ready: after so many of these arrivals, or after all. */
    ghost predicate Woke(events: seq<Event>, kicked: bool, arrivals: seq<Arrival>, waited: nat)
      requires waited <= |arrivals|
    {
      && (|events| >= threshold || kicked ==> waited == 0)
      && (waited < |arrivals| ==>
            kicked || |Arrived(events, capacity, arrivals[..waited])| >= threshold || Kicked in arrivals[..waited])
      && forall i :: 0 <= i < waited ==>
           |Arrived(events, capacity, arrivals[..i])| < threshold && Kicked !in arrivals[..i]
    }

    method Wait(arrivals: seq<Arrival>) returns (waited: nat)
      requires Valid()
      modifies this
      ensures Valid() && waited <= |arrivals| && Woke(old(events), old(kicked), arrivals, waited)
      ensures events == Arrived(old(events), capacity, arrivals[..waited])
    {
      waited := 0;
      while waited < |arrivals| && !Ready()
        invariant Valid() && waited <= |arrivals|
        invariant events == Arrived(old(events), capacity, arrivals[..waited])
        invariant kicked <==> old(kicked) || Kicked in arrivals[..waited]
        invariant waited > 0 ==> !old(Ready())
        invariant forall i :: 0 <= i < waited ==>
                    |Arrived(old(events), capacity, arrivals[..i])| < threshold && Kicked !in arrivals[..i]
      {
        ArrivedNext(old(events), capacity, arrivals, waited);
        match arrivals[waited] {
          case Pushed(e) => var _ := TryPush(e);
          case Kicked => Kick();
        }
        waited := waited + 1;
      }
    }

    /** Waits until a batch is there or the queue is kicked, while `arrivals` happen, or until they
        are over and the timeout fires; `waited` of them have happened then. The oldest `max`
        events, or all there are, come out in order. */
    method PopWait(max: nat, arrivals: seq<Arrival>) returns (out: seq<Event>, waited: nat)
      requires Valid()
      modifies this
      ensures Valid() && !kicked && waited <= |arrivals|
      ensures Woke(old(events), old(kicked), arrivals, waited) && (old(Ready()) ==> waited == 0)
      ensures out + events == Arrived(old(events), capacity, arrivals[..waited])
      ensures |out| == Min(max, |Arrived(old(events), capacity, arrivals[..waited])|)
    {
      waited := Wait(arrivals);
      ghost var there := events;
      kicked := false;
      out := [];
      while events != [] && |out| < max
        invariant out + events == there && |out| <= max && !kicked
        decreases |events|
      {
        out, events := out + [events[0]], events[1..];
      }
    }

    /** The worker's present or next wait is over, and the queue is as it was. */
    method Kick()
      modifies this`kicked
      ensures Ready() && kicked
    {
      kicked := true;
    }

    method Clear() returns (dropped: nat)
      modifies this`events
      ensures events == [] && dropped == |old(events)|
    {
      dropped := |events|;
      events := [];
    }
  }

  class Counter {
    var outstanding: nat

    constructor ()
      ensures outstanding == 0
    {
      outstanding := 0;
    }

    /** release_outstanding: the compare-exchange loop. `others` are the values other threads
        store between a load and the exchange that then fails. */
    method ReleaseOutstanding(n: nat, others: seq<nat>)
      modifies this
      ensures outstanding == Release(if others == [] then old(outstanding) else others[|others| - 1], n)
    {
      var cur, i := outstanding, 0;
      while true
        invariant i <= |others| && outstanding == cur
        invariant cur == if i == 0 then old(outstanding) else others[i - 1]
        decreases |others| - i
      {
        var next := if cur > n then cur - n else 0;
        if i == |others| {
          outstanding := next;
          return;
        }
        outstanding := others[i];
        cur, i := outstanding, i + 1;
      }
    }
  }
}
