/**
 * The list broker the consumer talks to (the Redis capability): named lists of payloads,
 * a blocking pop over several lists, a non-blocking pop and a push.
 *
 * Time is not modelled. What other clients push while a blocking pop waits is given up front
 * as `arrivals`, one entry per wait, the way a test scripts the answers of a mocked broker.
 */
module Broker {
  import opened Wrappers
  import opened Messages

  /** What a successful pop hands back: the list it came from and the payload (RedisResult). */
  datatype RawResult = RawResult(queue: string, payload: Payload)

  /** One request to the broker, as recorded in its call log. */
  datatype Call =
    | BlockingPopCall(names: seq<string>, timeoutSeconds: int)
    | NonBlockingPopCall(name: string)
    | PushCall(name: string, payload: Payload)

  /**
   * The broker's state. `lists[n]` holds the payloads waiting on list `n`, the next one to be
   * popped first. Each entry of `arrivals` describes one blocking wait that finds every list
   * it waits on empty: None means the wait times out with nothing pushed, Some(r) means another
   * client pushes `r.payload` onto list `r.queue` during that wait.
   */
  datatype State = State(lists: map<string, seq<Payload>>, arrivals: seq<Option<RawResult>>)

  /** The result of a pop and the state after it. */
  datatype Popped = Popped(result: Option<RawResult>, next: State)

  /** The payloads waiting on list `name`; a list that was never written is empty. */
  function Pending(s: State, name: string): seq<Payload>
  {
    if name in s.lists then s.lists[name] else []
  }

  /** The position in `names` of the first list that has a payload waiting, if any. */
  function FirstNonEmpty(s: State, names: seq<string>): (r: Option<nat>)
    ensures r.Some? ==> r.value < |names| && Pending(s, names[r.value]) != []
    ensures r.Some? ==> forall j :: 0 <= j < r.value ==> Pending(s, names[j]) == []
    ensures r.None? ==> forall j :: 0 <= j < |names| ==> Pending(s, names[j]) == []
  {
    if names == [] then None
    else if Pending(s, names[0]) != [] then Some(0)
    else match FirstNonEmpty(s, names[1..])
      case None => None
      case Some(i) => Some(i + 1)
  }

  /** Removes the next payload of a non-empty list. */
  function Take(s: State, name: string): (t: State)
    requires Pending(s, name) != []
    ensures [Pending(s, name)[0]] + Pending(t, name) == Pending(s, name)
    ensures forall other :: other != name ==> Pending(t, other) == Pending(s, other)
    ensures t.arrivals == s.arrivals
  {
    s.(lists := s.lists[name := Pending(s, name)[1..]])
  }

  /** Appends a payload to a list; it is popped after everything already waiting there. */
  function PushStep(s: State, name: string, payload: Payload): (t: State)
    ensures Pending(t, name) == Pending(s, name) + [payload]
    ensures forall other :: other != name ==> Pending(t, other) == Pending(s, other)
    ensures t.arrivals == s.arrivals
  {
    s.(lists := s.lists[name := Pending(s, name) + [payload]])
  }

  /**
   * Blocking pop (BRPOP) over `names`: the next payload of the first non-empty list, or, when
   * all of them are empty, whatever the next wait brings. A payload pushed during the wait onto
   * a list that is not waited on stays on that list, and the wait times out.
   */
  function BlockingPopStep(s: State, names: seq<string>): (p: Popped)
    ensures p.result.Some? ==> p.result.value.queue in names
    ensures FirstNonEmpty(s, names).Some? ==>
      var n := names[FirstNonEmpty(s, names).value];
      p.result == Some(RawResult(n, Pending(s, n)[0])) && p.next == Take(s, n)
    ensures FirstNonEmpty(s, names).None? ==>
      (s.arrivals == [] ==> p == Popped(None, s)) &&
      (forall n :: n in names ==> Pending(p.next, n) == [])
    ensures FirstNonEmpty(s, names).None? && s.arrivals != [] ==>
      var a := s.arrivals[0];
      var caught := a.Some? && a.value.queue in names;
      p.result == (if caught then a else None) &&
      p.next.arrivals == s.arrivals[1..] &&
      forall n :: Pending(p.next, n) ==
        if a.Some? && !caught && n == a.value.queue then Pending(s, n) + [a.value.payload]
        else Pending(s, n)
  {
    match FirstNonEmpty(s, names)
    case Some(i) =>
      Popped(Some(RawResult(names[i], Pending(s, names[i])[0])), Take(s, names[i]))
    case None =>
      if s.arrivals == [] then Popped(None, s)
      else
        var rest := s.(arrivals := s.arrivals[1..]);
        match s.arrivals[0]
        case None => Popped(None, rest)
        case Some(r) =>
          if r.queue in names then Popped(Some(r), rest)
          else Popped(None, PushStep(rest, r.queue, r.payload))
  }

  /** Non-blocking pop (RPOP) of one list: its next payload, or nothing when it is empty. */
  function NonBlockingPopStep(s: State, name: string): (p: Popped)
    ensures p.result.None? <==> Pending(s, name) == []
    ensures p.result.None? ==> p.next == s
    ensures p.result.Some? ==>
      p.result.value == RawResult(name, Pending(s, name)[0]) && p.next == Take(s, name)
  {
    if Pending(s, name) == [] then Popped(None, s)
    else Popped(Some(RawResult(name, Pending(s, name)[0])), Take(s, name))
  }

  /** The broker connection, with a log of every request made to it. */
  class Redis {
    var lists: map<string, seq<Payload>>
    var arrivals: seq<Option<RawResult>>
    var log: seq<Call>

    function Snapshot(): State
      reads this
    {
      State(lists, arrivals)
    }

    constructor (lists: map<string, seq<Payload>>, arrivals: seq<Option<RawResult>>)
      ensures Snapshot() == State(lists, arrivals) && log == []
    {
      this.lists := lists;
      this.arrivals := arrivals;
      log := [];
    }

    method Brpop(names: seq<string>, timeoutSeconds: int) returns (r: Option<RawResult>)
      modifies this
      ensures Popped(r, Snapshot()) == BlockingPopStep(old(Snapshot()), names)
      ensures log == old(log) + [BlockingPopCall(names, timeoutSeconds)]
    {
      var p := BlockingPopStep(Snapshot(), names);
      r, lists, arrivals := p.result, p.next.lists, p.next.arrivals;
      log := log + [BlockingPopCall(names, timeoutSeconds)];
    }

    method Rpop(name: string) returns (r: Option<RawResult>)
      modifies this
      ensures Popped(r, Snapshot()) == NonBlockingPopStep(old(Snapshot()), name)
      ensures log == old(log) + [NonBlockingPopCall(name)]
    {
      var p := NonBlockingPopStep(Snapshot(), name);
      r, lists, arrivals := p.result, p.next.lists, p.next.arrivals;
      log := log + [NonBlockingPopCall(name)];
    }

    method Push(name: string, payload: Payload)
      modifies this
      ensures Snapshot() == PushStep(old(Snapshot()), name, payload)
      ensures log == old(log) + [PushCall(name, payload)]
    {
      lists := PushStep(Snapshot(), name, payload).lists;
      log := log + [PushCall(name, payload)];
    }
  }
}
