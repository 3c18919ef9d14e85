/**
 * A bounded window of prioritised messages (agent/sliding_window.go, with the
 * priorities of agent/message_priority.go). Adding to a full window first
 * evicts one message of the numerically smallest priority, searching from
 * `PriorityLow` down: system messages (priority 0) go first.
 */
module SlidingWindow {
  import opened Wrappers
  import Ollama

  const PrioritySystem: int := 0
  const PriorityCritical: int := 1
  const PriorityNormal: int := 2
  const PriorityLow: int := 3

  /** Priorities are plain integers; the four constants above are the named ones. */
  datatype PrioritizedMessage = PrioritizedMessage(message: Ollama.Message, priority: int)

  /** The priority the eviction looks for: the smallest priority present, or `PriorityLow` if that is smaller. */
  function LowestPriority(ms: seq<PrioritizedMessage>): (r: int)
    ensures r <= PriorityLow
    ensures forall i :: 0 <= i < |ms| ==> r <= ms[i].priority
    ensures r == PriorityLow || exists i :: 0 <= i < |ms| && ms[i].priority == r
  {
    if ms == [] then PriorityLow
    else
      var lowest := LowestPriority(ms[..|ms| - 1]);
      if ms[|ms| - 1].priority < lowest then ms[|ms| - 1].priority else lowest
  }

  /** The first index holding priority `p`. */
  function FirstWithPriority(ms: seq<PrioritizedMessage>, p: int): (r: Option<nat>)
    ensures r.None? <==> forall i :: 0 <= i < |ms| ==> ms[i].priority != p
    ensures r.Some? ==> r.value < |ms| && ms[r.value].priority == p &&
                        forall j :: 0 <= j < r.value ==> ms[j].priority != p
  {
    if ms == [] then None
    else if ms[0].priority == p then Some(0)
    else match FirstWithPriority(ms[1..], p)
      case None => None
      case Some(k) => Some(k + 1)
  }

  /** What `removeLowestPriority` leaves: the window without the first message of the lowest priority. */
  function RemoveLowest(ms: seq<PrioritizedMessage>): (r: seq<PrioritizedMessage>)
    ensures |ms| - 1 <= |r| <= |ms|
    ensures multiset(r) <= multiset(ms)
  {
    match FirstWithPriority(ms, LowestPriority(ms))
    case None => ms
    case Some(i) =>
      assert ms == ms[..i] + [ms[i]] + ms[i + 1..];
      ms[..i] + ms[i + 1..]
  }

  /** The window after `Add`: evict when full, then the new message goes last. */
  function Added(ms: seq<PrioritizedMessage>, maxMessages: int, message: PrioritizedMessage)
    : (r: seq<PrioritizedMessage>)
    ensures |r| >= 1 && r[|r| - 1] == message
    ensures |ms| < maxMessages ==> r == ms + [message]
    ensures |r| <= |ms| + 1
    ensures multiset(r) <= multiset(ms) + multiset{message}
  {
    (if |ms| >= maxMessages then RemoveLowest(ms) else ms) + [message]
  }

  /**
   * Eviction removes nothing exactly when no priority is at most
   * `PriorityLow`; otherwise it removes one message, the first of a priority
   * no other message undercuts, and keeps the others in order.
   */
  lemma RemoveLowestShape(ms: seq<PrioritizedMessage>)
    ensures RemoveLowest(ms) == ms <==> forall i :: 0 <= i < |ms| ==> ms[i].priority > PriorityLow
    ensures RemoveLowest(ms) != ms ==>
              exists i :: 0 <= i < |ms| && RemoveLowest(ms) == ms[..i] + ms[i + 1..] &&
                (forall j :: 0 <= j < |ms| ==> ms[i].priority <= ms[j].priority) &&
                (forall j :: 0 <= j < i ==> ms[j].priority != ms[i].priority)
  {
    var p := LowestPriority(ms);
    match FirstWithPriority(ms, p)
    case None =>
    case Some(i) =>
      assert |ms[..i] + ms[i + 1..]| == |ms| - 1;
      assert ms[i].priority <= PriorityLow;
  }

  /** A system message, when the window holds one and every priority is a named one, is the one evicted. */
  lemma SystemEvictedFirst(ms: seq<PrioritizedMessage>, k: nat)
    requires forall i :: 0 <= i < |ms| ==> PrioritySystem <= ms[i].priority
    requires k < |ms| && ms[k].priority == PrioritySystem
    requires forall j :: 0 <= j < k ==> ms[j].priority != PrioritySystem
    ensures RemoveLowest(ms) == ms[..k] + ms[k + 1..]
  {
    assert LowestPriority(ms) == PrioritySystem;
  }

  class SlidingWindow {
    const maxMessages: int
    var messages: seq<PrioritizedMessage>

    constructor (maxMessages: int)
      ensures this.maxMessages == maxMessages && messages == []
    {
      this.maxMessages := maxMessages;
      messages := [];
    }

    /** `Add`: evict first when the window is full, then place the new message last. */
    method Add(message: PrioritizedMessage)
      modifies this
      ensures messages == Added(old(messages), maxMessages, message)
    {
      if |messages| >= maxMessages {
        RemoveLowestPriority();
      }
      messages := messages + [message];
    }

    /** `removeLowestPriority`: find the lowest priority, then splice out its first message. */
    method RemoveLowestPriority()
      modifies this
      ensures messages == RemoveLowest(old(messages))
    {
      var lowestPriority := PriorityLow;
      var i := 0;
      while i < |messages|
        invariant 0 <= i <= |messages|
        invariant lowestPriority == LowestPriority(messages[..i])
      {
        assert messages[..i + 1][..i] == messages[..i];
        if messages[i].priority < lowestPriority {
          lowestPriority := messages[i].priority;
        }
        i := i + 1;
      }
      assert messages[..|messages|] == messages;
      i := 0;
      while i < |messages|
        invariant 0 <= i <= |messages|
        invariant forall j :: 0 <= j < i ==> messages[j].priority != lowestPriority
        invariant messages == old(messages)
      {
        if messages[i].priority == lowestPriority {
          messages := messages[..i] + messages[i + 1..];
          return;
        }
        i := i + 1;
      }
    }
  }

  /**
   * The new message is always last; below the bound nothing is evicted;
   * with room for at least one message and priorities no greater than
   * `PriorityLow`, the window stays within its bound.
   */
  lemma AddedBound(ms: seq<PrioritizedMessage>, maxMessages: int, message: PrioritizedMessage)
    ensures var r := Added(ms, maxMessages, message);
            && r[|r| - 1] == message
            && (|ms| < maxMessages ==> r == ms + [message])
            && ((&& maxMessages >= 1
                 && |ms| <= maxMessages
                 && forall i :: 0 <= i < |ms| ==> ms[i].priority <= PriorityLow)
                ==> |r| <= maxMessages)
  {
    RemoveLowestShape(ms);
  }
}
