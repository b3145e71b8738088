/** The object in its main loop goes through exactly the states of module LifecycleRuns. */
module BackendRuns {
  import opened Lifecycle
  import opened LifecycleSafety
  import opened LifecycleRuns
  import opened LifecycleTheorems
  import opened Backend

  /**
    The backend after it handled the events.  Every theorem about reached states
    is about this object, and at each of its moments nothing freed is reached.
   */
  method Serve(events: seq<Event>) returns (backend: WebAuthBackend, ghost moments: seq<State>)
    ensures backend.Valid() && backend.View() == Reached(events)
    ensures Idle(InitialState()) && moments == Moments(InitialState(), events) && AllSafe(moments)
  {
    hide Idle, Reached, Dispatch, Inside, Safe, InRange, WebAuthBackend.Valid, WebAuthBackend.View, WebAuthBackend.Objects;
    backend := new WebAuthBackend();
    moments := [];
    StartsReached();
    assert events[..0] == [] && events[0..] == events;
    var i := 0;
    while i < |events|
      invariant 0 <= i <= |events|
      invariant backend.Valid() && fresh(backend) && fresh(backend.Objects())
      invariant backend.View() == Reached(events[..i])
      invariant Moments(InitialState(), events) == moments + Moments(Reached(events[..i]), events[i..])
    {
      ReachedInRange(events[..i]);
      ReachedNext(events[..i], events[i]);
      MomentsNext(Reached(events[..i]), events[i..]);
      assert events[i..][1..] == events[i + 1..];
      assert events[..i] + [events[i]] == events[..i + 1];
      moments := moments + [backend.View()];
      ghost var inside := backend.Dispatch(events[i]);
      moments := moments + inside;
      i := i + 1;
    }
    assert events[..i] == events && events[i..] == [];
    moments := moments + [backend.View()];
    EveryRunIsSafe(events);
  }

  lemma StartsReached()
    ensures Reached([]) == InitialState()
  {}

  lemma ReachedInRange(events: seq<Event>)
    ensures InRange(Reached(events))
  {}

  lemma MomentsNext(s: State, events: seq<Event>)
    requires Idle(s) && events != []
    ensures InRange(s) && Idle(Dispatch(s, events[0]))
    ensures Moments(s, events) == [s] + Inside(s, events[0]) + Moments(Dispatch(s, events[0]), events[1..])
  {
    hide Dispatch, Inside;
    DispatchSafe(s, events[0]);
  }
}
