/** The fan-out publisher (internal/publishers/multi_publisher.go) and the
    message sinks it forwards to. A sink records what it is handed; the
    network and file sinks behind the `MessagePublisher` interface are not
    part of this model. */
module Publishers {

  /** One published message: the topic suffix and the payload. */
  datatype Message = Message(topicSuffix: string, payload: string)

  /** `n` copies of `m`. */
  function Repeat(m: Message, n: nat): (ms: seq<Message>)
    ensures |ms| == n && forall k | 0 <= k < n :: ms[k] == m
  {
    if n == 0 then [] else Repeat(m, n - 1) + [m]
  }

  /** A `MessagePublisher`: the messages it received, in order, and how many
      times it was closed. */
  class Sink {
    var received: seq<Message>
    var closes: nat

    constructor ()
      ensures received == [] && closes == 0
    {
      received := [];
      closes := 0;
    }

    method Publish(topicSuffix: string, payload: string)
      modifies this
      ensures received == old(received) + [Message(topicSuffix, payload)]
      ensures closes == old(closes)
    {
      received := received + [Message(topicSuffix, payload)];
    }

    method Close()
      modifies this
      ensures closes == old(closes) + 1
      ensures received == old(received)
    {
      closes := closes + 1;
    }
  }

  /** `MultiPublisher`: best-effort delivery to every publisher in the list. */
  class MultiPublisher {
    const publishers: seq<Sink>

    constructor (publishers: seq<Sink>)
      ensures this.publishers == publishers
    {
      this.publishers := publishers;
    }

    /** Every publisher receives the message once per place it holds in the
        list, after what it had received before; nothing is closed. */
    method Publish(topicSuffix: string, payload: string)
      modifies publishers
      ensures forall s | s in publishers ::
        s.received == old(s.received) + Repeat(Message(topicSuffix, payload), multiset(publishers)[s])
      ensures forall s | s in publishers :: s.closes == old(s.closes)
    {
      ghost var m := Message(topicSuffix, payload);
      for i := 0 to |publishers|
        invariant forall s | s in publishers ::
          s.received == old(s.received) + Repeat(m, multiset(publishers[..i])[s])
        invariant forall s | s in publishers :: s.closes == old(s.closes)
      {
        assert publishers[..i + 1] == publishers[..i] + [publishers[i]];
        publishers[i].Publish(topicSuffix, payload);
      }
      assert publishers[..|publishers|] == publishers;
    }

    /** Every publisher is closed once per place it holds in the list. */
    method Close()
      modifies publishers
      ensures forall s | s in publishers :: s.closes == old(s.closes) + multiset(publishers)[s]
      ensures forall s | s in publishers :: s.received == old(s.received)
    {
      for i := 0 to |publishers|
        invariant forall s | s in publishers :: s.closes == old(s.closes) + multiset(publishers[..i])[s]
        invariant forall s | s in publishers :: s.received == old(s.received)
      {
        assert publishers[..i + 1] == publishers[..i] + [publishers[i]];
        publishers[i].Close();
      }
      assert publishers[..|publishers|] == publishers;
    }
  }

  predicate Distinct(publishers: seq<Sink>)
  {
    forall i, j | 0 <= i < j < |publishers| :: publishers[i] != publishers[j]
  }

  /** In a list without repeats every sink holds exactly one place. */
  lemma {:induction false} DistinctOccurrences(publishers: seq<Sink>, s: Sink)
    requires Distinct(publishers)
    ensures multiset(publishers)[s] == if s in publishers then 1 else 0
    decreases |publishers|
  {
    if publishers != [] {
      var n := |publishers| - 1;
      var init := publishers[..n];
      assert publishers == init + [publishers[n]];
      DistinctOccurrences(init, s);
      if s == publishers[n] {
        assert forall k | 0 <= k < n :: init[k] != s;
      }
    }
  }

  /** So with no repeats, `Publish` hands every sink exactly the one message. */
  lemma DistinctOnce(publishers: seq<Sink>, s: Sink, m: Message)
    requires Distinct(publishers) && s in publishers
    ensures Repeat(m, multiset(publishers)[s]) == [m]
  {
    DistinctOccurrences(publishers, s);
  }
}
