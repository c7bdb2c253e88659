/** The serialized core of the reactive state-machine engine.

    The engine owns one current state and reduces every event that reaches
    its merge point, one at a time, in arrival order. Once the events have
    been merged into a single sequence, what the engine computes is a left
    fold of the reducer over that sequence; every intermediate state is
    published to the subscribers, starting with the initial one. */
module Engine {

  /** The state after the engine has reduced `events`, first to last, starting from `s`. */
  function Run<S, E>(reduce: (S, E) -> S, s: S, events: seq<E>): S
    decreases |events|
  {
    if events == [] then s
    else Run(reduce, reduce(s, events[0]), events[1..])
  }

  /** The last event is reduced last, against the state that all earlier
      events produced: the engine never lets a later event overtake an earlier one. */
  lemma {:induction false} RunSnoc<S, E>(reduce: (S, E) -> S, s: S, events: seq<E>, e: E)
    ensures Run(reduce, s, events + [e]) == reduce(Run(reduce, s, events), e)
    decreases |events|
  {
    if events == [] {
      assert events + [e] == [e];
    } else {
      assert (events + [e])[1..] == events[1..] + [e];
      RunSnoc(reduce, reduce(s, events[0]), events[1..], e);
    }
  }

  /** The sequence of states the engine publishes: the initial state on
      subscription, then one state per reduced event. */
  function Trace<S, E>(reduce: (S, E) -> S, s: S, events: seq<E>): (states: seq<S>)
    ensures |states| == |events| + 1
    ensures states[0] == s
    ensures forall i :: 0 <= i < |events| ==> states[i + 1] == reduce(states[i], events[i])
    ensures states[|events|] == Run(reduce, s, events)
    decreases |events|
  {
    if events == [] then [s]
    else [s] + Trace(reduce, reduce(s, events[0]), events[1..])
  }

  /** Feeding two batches of events one after the other is the same as feeding
      their concatenation: the engine has no memory besides the current state. */
  lemma {:induction false} RunAppend<S, E>(reduce: (S, E) -> S, s: S, first: seq<E>, second: seq<E>)
    ensures Run(reduce, s, first + second) == Run(reduce, Run(reduce, s, first), second)
    decreases |first|
  {
    if first == [] {
      assert first + second == second;
    } else {
      assert (first + second)[1..] == first[1..] + second;
      RunAppend(reduce, reduce(s, first[0]), first[1..], second);
    }
  }

  /** A state that every event leaves unchanged is never left. */
  lemma {:induction false} RunFixpoint<S, E>(reduce: (S, E) -> S, s: S, events: seq<E>)
    requires forall e :: reduce(s, e) == s
    ensures Run(reduce, s, events) == s
    decreases |events|
  {
    if events != [] {
      RunFixpoint(reduce, s, events[1..]);
    }
  }

  /** A property that holds initially and that every single reduction keeps
      holds after any sequence of events. */
  lemma {:induction false} RunPreserves<S, E>(reduce: (S, E) -> S, inv: S -> bool, s: S, events: seq<E>)
    requires inv(s)
    requires forall t, e :: inv(t) ==> inv(reduce(t, e))
    ensures inv(Run(reduce, s, events))
    decreases |events|
  {
    if events != [] {
      RunPreserves(reduce, inv, reduce(s, events[0]), events[1..]);
    }
  }
}
