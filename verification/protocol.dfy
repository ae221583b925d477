/**
 * The consumer's receive / acknowledge / reject protocol as functions of the broker state.
 * Each function gives what the operation returns, the broker state after it and the requests
 * it makes to the broker, in order. The RedisConsumer class is proved against these.
 */
module Protocol {
  import opened Wrappers
  import opened Messages
  import opened Broker

  /** Length in seconds of each blocking pop while waiting without a time limit. */
  const PollSeconds := 5

  const MillisPerSecond := 1000

  /** What receive and receiveNoWait hand to the caller: a message, nothing, or an error. */
  type Received = Result<Option<Message>, Error>

  datatype Outcome = Outcome(result: Received, next: State, calls: seq<Call>)

  /** A positive timeout in milliseconds, rounded up to whole seconds (so never 0). */
  function WholeSeconds(timeoutMs: int): (seconds: int)
    requires timeoutMs > 0
    ensures 1 <= seconds
    ensures (seconds - 1) * MillisPerSecond < timeoutMs <= seconds * MillisPerSecond
  {
    (timeoutMs + MillisPerSecond - 1) / MillisPerSecond
  }

  /** A dequeued payload handed to the caller: the message it decodes to, or the decoding error. */
  function Decoded(p: Payload): (r: Received)
    ensures r != Ok(None)
    ensures r.Ok? ==> Encode(r.value.value) == p
    ensures r.Err? <==> p.Unparsable?
    ensures r.Err? ==> r.error == MalformedEnvelope
  {
    match Decode(p)
    case Ok(m) => Ok(Some(m))
    case Err(e) => Err(e)
  }

  /** The answer of a pop handed to the caller: null when the pop brought nothing. */
  function Deliver(raw: Option<RawResult>): (r: Received)
    ensures r == Ok(None) <==> raw.None?
    ensures raw.Some? ==> r == Decoded(raw.value.payload)
  {
    match raw
    case None => Ok(None)
    case Some(x) => Decoded(x.payload)
  }

  /** One blocking pop on the consumer's queue, bounded to `seconds`. */
  function Poll(s: State, q: string, seconds: int): (o: Outcome)
    ensures o.calls == [BlockingPopCall([q], seconds)]
    ensures Pending(s, q) != [] ==> o.result == Decoded(Pending(s, q)[0]) && o.next == Take(s, q)
    ensures Pending(s, q) == [] ==>
      o.result == (if s.arrivals != [] && DeliversTo(s.arrivals[0], q)
                   then Decoded(s.arrivals[0].value.payload) else Ok(None)) &&
      Pending(o.next, q) == [] &&
      o.next.arrivals == (if s.arrivals == [] then [] else s.arrivals[1..])
  {
    var p := BlockingPopStep(s, [q]);
    Outcome(Deliver(p.result), p.next, [BlockingPopCall([q], seconds)])
  }

  predicate DeliversTo(a: Option<RawResult>, q: string)
  {
    a.Some? && a.value.queue == q
  }

  /** The first wait, if any, during which another client pushes onto list `q`. */
  function FirstArrivalFor(arrivals: seq<Option<RawResult>>, q: string): (r: Option<nat>)
    ensures r.Some? ==> r.value < |arrivals| && DeliversTo(arrivals[r.value], q)
    ensures r.Some? ==> forall j :: 0 <= j < r.value ==> !DeliversTo(arrivals[j], q)
    ensures r.None? ==> forall j :: 0 <= j < |arrivals| ==> !DeliversTo(arrivals[j], q)
  {
    if arrivals == [] then None
    else if DeliversTo(arrivals[0], q) then Some(0)
    else match FirstArrivalFor(arrivals[1..], q)
      case None => None
      case Some(i) => Some(i + 1)
  }

  /**
   * How many blocking pops on `q` come back empty before one brings a payload, or None when
   * no payload ever comes (then waiting without a time limit never ends).
   */
  function EmptyPolls(s: State, q: string): Option<nat>
  {
    if Pending(s, q) != [] then Some(0) else FirstArrivalFor(s.arrivals, q)
  }

  /** The payload that the first successful blocking pop on `q` brings. */
  function NextPayload(s: State, q: string): Payload
    requires EmptyPolls(s, q).Some?
  {
    if Pending(s, q) != [] then Pending(s, q)[0]
    else s.arrivals[EmptyPolls(s, q).value].value.payload
  }

  /** A blocking pop that comes back empty brings the next payload for `q` one wait closer. */
  lemma EmptyPollProgress(s: State, q: string)
    requires EmptyPolls(s, q).Some?
    requires BlockingPopStep(s, [q]).result.None?
    ensures var t := BlockingPopStep(s, [q]).next;
      EmptyPolls(t, q).Some? && EmptyPolls(t, q).value + 1 == EmptyPolls(s, q).value &&
      Pending(t, q) == [] && t.arrivals == s.arrivals[1..] &&
      NextPayload(t, q) == NextPayload(s, q)
  {
  }

  /**
   * Waiting without a time limit: blocking pops of PollSeconds each, repeated until one
   * brings a payload.
   */
  function PollUntilMessage(s: State, q: string): (o: Outcome)
    requires EmptyPolls(s, q).Some?
    ensures o.result != Ok(None)
    ensures o.calls != [] && o.calls[0] == BlockingPopCall([q], PollSeconds)
    decreases EmptyPolls(s, q).value
  {
    var p := BlockingPopStep(s, [q]);
    if p.result.Some? then
      Outcome(Deliver(p.result), p.next, [BlockingPopCall([q], PollSeconds)])
    else
      EmptyPollProgress(s, q);
      var rest := PollUntilMessage(p.next, q);
      Outcome(rest.result, rest.next, [BlockingPopCall([q], PollSeconds)] + rest.calls)
  }

  /**
   * Waiting without a time limit makes exactly one blocking pop of PollSeconds per empty wait
   * plus the one that succeeds, hands back the payload that first comes for `q`, and takes it
   * off the broker.
   */
  lemma {:induction false} PollUntilMessageDelivers(s: State, q: string)
    requires EmptyPolls(s, q).Some?
    ensures var o := PollUntilMessage(s, q);
      o.calls == Repeat(BlockingPopCall([q], PollSeconds), EmptyPolls(s, q).value + 1) &&
      o.result == Decoded(NextPayload(s, q)) &&
      (Pending(s, q) != [] ==> o.next == Take(s, q)) &&
      (Pending(s, q) == [] ==>
        Pending(o.next, q) == [] && o.next.arrivals == s.arrivals[EmptyPolls(s, q).value + 1..])
    decreases EmptyPolls(s, q).value
  {
    var p := BlockingPopStep(s, [q]);
    if p.result.None? {
      EmptyPollProgress(s, q);
      PollUntilMessageDelivers(p.next, q);
    }
  }

  /**
   * `whole` is what waiting from some earlier state gives, `done` the blocking pops made since
   * then, and waiting from `s` finishes the job.
   */
  ghost predicate WaitingFrom(whole: Outcome, done: seq<Call>, s: State, q: string)
  {
    EmptyPolls(s, q).Some? &&
    var left := PollUntilMessage(s, q);
    whole == Outcome(left.result, left.next, done + left.calls)
  }

  /** A blocking pop that comes back empty leaves the rest of the wait still to do. */
  lemma WaitingAfterEmptyPoll(whole: Outcome, done: seq<Call>, s: State, q: string)
    requires WaitingFrom(whole, done, s, q)
    requires BlockingPopStep(s, [q]).result.None?
    ensures var t := BlockingPopStep(s, [q]).next;
      WaitingFrom(whole, done + [BlockingPopCall([q], PollSeconds)], t, q) &&
      EmptyPolls(t, q).value < EmptyPolls(s, q).value
  {
  }

  /** A blocking pop that brings a payload ends the wait. */
  lemma WaitingEndsWithPayload(whole: Outcome, done: seq<Call>, s: State, q: string)
    requires WaitingFrom(whole, done, s, q)
    requires BlockingPopStep(s, [q]).result.Some?
    ensures var p := BlockingPopStep(s, [q]);
      whole == Outcome(Deliver(p.result), p.next, done + [BlockingPopCall([q], PollSeconds)])
  {
  }

  /**
   * receive(timeoutMs): a negative timeout is refused before the broker is asked; a positive one
   * is one blocking pop of the timeout in whole seconds; 0 waits until a payload comes.
   */
  function Receive(s: State, q: string, timeoutMs: int): (o: Outcome)
    requires timeoutMs == 0 ==> EmptyPolls(s, q).Some?
    ensures timeoutMs < 0 ==> o == Outcome(Err(InvalidArgument), s, [])
    ensures timeoutMs > 0 ==> o.calls == [BlockingPopCall([q], WholeSeconds(timeoutMs))]
    ensures timeoutMs > 0 && EmptyPolls(s, q) != Some(0) ==> o.result == Ok(None)
    ensures timeoutMs > 0 && EmptyPolls(s, q) == Some(0) ==> o.result == Decoded(NextPayload(s, q))
    ensures timeoutMs > 0 && Pending(s, q) != [] ==> o.next == Take(s, q)
    ensures timeoutMs > 0 && Pending(s, q) == [] ==>
      Pending(o.next, q) == [] && o.next.arrivals == (if s.arrivals == [] then [] else s.arrivals[1..])
    ensures timeoutMs == 0 ==> |o.calls| >= 1 && o.result != Ok(None)
    ensures forall c :: c in o.calls ==> c.BlockingPopCall? && c.names == [q] && c.timeoutSeconds >= 1
  {
    if timeoutMs < 0 then Outcome(Err(InvalidArgument), s, [])
    else if timeoutMs == 0 then PollUntilMessageDelivers(s, q); PollUntilMessage(s, q)
    else Poll(s, q, WholeSeconds(timeoutMs))
  }

  /** receiveNoWait: one non-blocking pop of the consumer's queue. */
  function ReceiveNoWait(s: State, q: string): (o: Outcome)
    ensures o.calls == [NonBlockingPopCall(q)]
    ensures o.result == Ok(None) <==> Pending(s, q) == []
    ensures Pending(s, q) == [] ==> o.next == s
    ensures Pending(s, q) != [] ==> o.result == Decoded(Pending(s, q)[0]) && o.next == Take(s, q)
  {
    var p := NonBlockingPopStep(s, q);
    Outcome(Deliver(p.result), p.next, [NonBlockingPopCall(q)])
  }

  /** reject(message, requeue): the broker state afterwards. */
  function Reject(s: State, queue: Destination, message: Message, requeue: bool): (t: State)
    ensures !requeue ==> t == s
    ensures requeue ==> Pending(t, queue.name) == Pending(s, queue.name) + [Encode(message)]
    ensures forall other :: other != queue.name ==> Pending(t, other) == Pending(s, other)
    ensures t.arrivals == s.arrivals
  {
    if requeue then PushStep(s, queue.name, Encode(message)) else s
  }

  /** What `n` receiveNoWait calls in a row return, and the state after them. */
  function DrainNoWait(s: State, q: string, n: nat): (seq<Received>, State)
    decreases n
  {
    if n == 0 then ([], s)
    else
      var o := ReceiveNoWait(s, q);
      var (rest, t) := DrainNoWait(o.next, q, n - 1);
      ([o.result] + rest, t)
  }
}
