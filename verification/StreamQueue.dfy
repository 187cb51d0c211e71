/** The state that the producers and consumers of a bounded stream queue share, and what each
    critical section does to it once its wait is over. */
module StreamQueue {
  import opened Wrappers

  datatype Error = StreamQueueClosed | Raised(code: int)

  datatype State<Event> = State(events: seq<Event>, capacity: nat, closed: bool, failed: Option<Error>)
  {
    predicate Open() {
      !closed && failed.None?
    }

    /** The predicates that the two condition variables wait for. */
    predicate MayPush() {
      !Open() || |events| < capacity
    }

    predicate MayNext() {
      !Open() || events != []
    }
  }

  datatype PushResult = Accepted | Rejected(error: Error)

  datatype NextResult<Event> = Delivered(event: Event) | EndOfStream | Broken(error: Error)

  function PushSection<Event>(s: State<Event>, e: Event): (State<Event>, PushResult)
    requires s.MayPush()
  {
    if s.failed.Some? then (s, Rejected(s.failed.value))
    else if s.closed then (s, Rejected(StreamQueueClosed))
    else (s.(events := s.events + [e]), Accepted)
  }

  /** Buffered events win over a failure, and a failure wins over the end of the stream. */
  function NextSection<Event>(s: State<Event>): (State<Event>, NextResult<Event>)
    requires s.MayNext()
  {
    if s.events != [] then (s.(events := s.events[1..]), Delivered(s.events[0]))
    else if s.failed.Some? then (s, Broken(s.failed.value))
    else (s, EndOfStream)
  }

  function CloseSection<Event>(s: State<Event>): State<Event> {
    s.(closed := true)
  }

  function FailSection<Event>(s: State<Event>, error: Option<Error>): State<Event> {
    s.(failed := Some(error.GetOr(StreamQueueClosed)))
  }

  /** The queue object. Each method is the part of the original that runs with the mutex held,
      after the wait has returned; `StreamProtocol` interleaves them. */
  class BoundedStreamQueue<Event> {
    const capacity: nat
    var events: seq<Event>
    var closed: bool
    var failed: Option<Error>
    ghost var accepted: seq<Event>
    ghost var delivered: seq<Event>

    ghost predicate Valid()
      reads this
    {
      && capacity >= 1
      && |events| <= capacity
      && accepted == delivered + events
    }

    ghost function View(): State<Event>
      reads this
    {
      State(events, capacity, closed, failed)
    }

    constructor (requested: nat)
      ensures Valid() && View() == State([], if requested == 0 then 1 else requested, false, None)
      ensures accepted == delivered == []
    {
      capacity := if requested == 0 then 1 else requested;
      events, closed, failed := [], false, None;
      accepted, delivered := [], [];
    }

    method Push(e: Event) returns (r: PushResult)
      requires Valid() && View().MayPush()
      modifies this
      ensures Valid() && (View(), r) == PushSection(old(View()), e)
      ensures delivered == old(delivered)
      ensures accepted == if r.Accepted? then old(accepted) + [e] else old(accepted)
      ensures r.Rejected? ==> View() == old(View()) && !View().Open()
      ensures r == if old(failed).Some? then Rejected(old(failed).value)
                   else if old(closed) then Rejected(StreamQueueClosed) else Accepted
      ensures r.Accepted? ==> events == old(events) + [e] && failed == old(failed) && closed == old(closed)
    {
      if failed.Some? {
        return Rejected(failed.value);
      }
      if closed {
        return Rejected(StreamQueueClosed);
      }
      events, accepted := events + [e], accepted + [e];
      r := Accepted;
    }

    method Next() returns (r: NextResult<Event>)
      requires Valid() && View().MayNext()
      modifies this
      ensures Valid() && (View(), r) == NextSection(old(View()))
      ensures accepted == old(accepted)
      ensures delivered == if r.Delivered? then old(delivered) + [r.event] else old(delivered)
      ensures !r.Delivered? ==> View() == old(View()) && delivered == accepted
      ensures r == if old(events) != [] then Delivered(old(events)[0])
                   else if old(failed).Some? then Broken(old(failed).value) else EndOfStream
      ensures r.Delivered? ==> events == old(events)[1..] && failed == old(failed) && closed == old(closed)
    {
      if events != [] {
        r := Delivered(events[0]);
        delivered := delivered + [events[0]];
        events := events[1..];
        return;
      }
      if failed.Some? {
        return Broken(failed.value);
      }
      r := EndOfStream;
    }

    method Close()
      requires Valid()
      modifies this`closed
      ensures Valid() && View() == CloseSection(old(View())) && closed
    {
      closed := true;
    }

    method Fail(error: Option<Error>)
      requires Valid()
      modifies this`failed
      ensures Valid() && View() == FailSection(old(View()), error)
      ensures failed == Some(match error case Some(given) => given case None => StreamQueueClosed)
    {
      failed := if error.Some? then error else Some(StreamQueueClosed);
    }
  }
}
