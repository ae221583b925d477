/**
 * Properties of the consumer protocol that relate several calls, and the scenarios of the
 * consumer's test suite stated over the model.
 */
module ProtocolProperties {
  import opened Wrappers
  import opened Messages
  import opened Broker
  import opened Protocol

  /**
   * Successive receiveNoWait calls hand out the payloads waiting on the queue in order, each
   * exactly once, and leave the rest waiting.
   */
  lemma {:induction false} DrainDeliversInOrder(s: State, q: string, n: nat)
    requires n <= |Pending(s, q)|
    ensures var (rs, t) := DrainNoWait(s, q, n);
      |rs| == n &&
      (forall i :: 0 <= i < n ==> rs[i] == Decoded(Pending(s, q)[i])) &&
      Pending(t, q) == Pending(s, q)[n..] &&
      t.arrivals == s.arrivals
    decreases n
  {
    if n > 0 {
      var o := ReceiveNoWait(s, q);
      DrainDeliversInOrder(o.next, q, n - 1);
      assert Pending(o.next, q) == Pending(s, q)[1..];
    }
  }

  /**
   * A message rejected with requeue goes behind everything already waiting on the queue: the
   * waiting payloads are handed out first, then the requeued message itself.
   */
  lemma RequeueGoesBehindWaiting(s: State, queue: Destination, m: Message)
    ensures var t := Reject(s, queue, m, true);
      var k := |Pending(s, queue.name)|;
      var (rs, _) := DrainNoWait(t, queue.name, k + 1);
      |rs| == k + 1 &&
      (forall i :: 0 <= i < k ==> rs[i] == Decoded(Pending(s, queue.name)[i])) &&
      rs[k] == Ok(Some(m))
  {
    var t := Reject(s, queue, m, true);
    var k := |Pending(s, queue.name)|;
    DrainDeliversInOrder(t, queue.name, k + 1);
    assert Pending(t, queue.name)[k] == Encode(m);
  }

  /** The message of the test scenarios: body 'aBody', no properties, no headers. */
  function ABody(): Message
  {
    Message("aBody", map[], map[])
  }

  /** receive(2000) on an empty queue: one blocking pop of 2 seconds on ['aQueue'], then null. */
  lemma ReceiveTwoSecondsFromEmptyQueue(s: State)
    requires Pending(s, "aQueue") == []
    requires s.arrivals == [] || s.arrivals[0] == None
    ensures var o := Receive(s, "aQueue", 2000);
      o.calls == [BlockingPopCall(["aQueue"], 2)] && o.result == Ok(None)
  {
  }

  /** receive(2000) with a message waiting: one blocking pop of 2 seconds, body 'aBody'. */
  lemma ReceiveTwoSecondsFromFilledQueue(s: State)
    requires Pending(s, "aQueue") == [Encode(ABody())]
    ensures var o := Receive(s, "aQueue", 2000);
      o.calls == [BlockingPopCall(["aQueue"], 2)] && o.result == Ok(Some(ABody())) &&
      Pending(o.next, "aQueue") == []
  {
  }

  /**
   * receive(0) where the first two waits time out and a message arrives during the third:
   * exactly three blocking pops of 5 seconds on ['aQueue'], and the message has body 'aBody'.
   */
  lemma ReceiveZeroPollsUntilThirdWait(s: State)
    requires Pending(s, "aQueue") == []
    requires s.arrivals == [None, None, Some(RawResult("aQueue", Encode(ABody())))]
    ensures EmptyPolls(s, "aQueue") == Some(2)
    ensures var o := Receive(s, "aQueue", 0);
      o.calls == Repeat(BlockingPopCall(["aQueue"], 5), 3) && o.result == Ok(Some(ABody()))
  {
    assert FirstArrivalFor(s.arrivals, "aQueue") == Some(2) by {
      assert FirstArrivalFor(s.arrivals[2..], "aQueue") == Some(0);
      assert s.arrivals[1..][1..] == s.arrivals[2..];
    }
    PollUntilMessageDelivers(s, "aQueue");
  }

  /** receiveNoWait on an empty queue: one non-blocking pop of 'aQueue', then null. */
  lemma ReceiveNoWaitFromEmptyQueue(s: State)
    requires Pending(s, "aQueue") == []
    ensures var o := ReceiveNoWait(s, "aQueue");
      o.calls == [NonBlockingPopCall("aQueue")] && o.result == Ok(None) && o.next == s
  {
  }

  /**
   * receiveNoWait with a message waiting: one non-blocking pop, body 'aBody', and the message
   * is gone from the queue, so a second receiveNoWait does not hand it out again.
   */
  lemma ReceiveNoWaitFromFilledQueue(s: State)
    requires Pending(s, "aQueue") == [Encode(ABody())]
    ensures var o := ReceiveNoWait(s, "aQueue");
      o.calls == [NonBlockingPopCall("aQueue")] && o.result == Ok(Some(ABody())) &&
      ReceiveNoWait(o.next, "aQueue").result == Ok(None)
  {
  }
}
