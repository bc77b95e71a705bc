/**
 * The global subscription store: the polls the UI has joined and whether
 * the socket is up. Each action replaces the store state through `set`
 * with a copy of the set plus or minus one id.
 */
module PollStore {

  datatype StoreState = StoreState(connectedPolls: set<string>, isConnected: bool)

  /** The store starts with no polls and disconnected. */
  const InitialState := StoreState({}, false)

  /** The state `joinPoll(id)` sets: `id` is now connected, every other poll and the flag as before. */
  function Joined(s: StoreState, id: string): (r: StoreState)
    ensures id in r.connectedPolls
    ensures forall p | p != id :: p in r.connectedPolls <==> p in s.connectedPolls
    ensures r.isConnected == s.isConnected
  {
    s.(connectedPolls := s.connectedPolls + {id})
  }

  /** The state `leavePoll(id)` sets: `id` is gone, every other poll and the flag as before. */
  function Left(s: StoreState, id: string): (r: StoreState)
    ensures id !in r.connectedPolls
    ensures forall p | p != id :: p in r.connectedPolls <==> p in s.connectedPolls
    ensures r.isConnected == s.isConnected
  {
    s.(connectedPolls := s.connectedPolls - {id})
  }

  /** The state `setConnected(b)` sets: only the flag changes. */
  function WithConnected(s: StoreState, b: bool): (r: StoreState)
    ensures r.isConnected == b && r.connectedPolls == s.connectedPolls
  {
    s.(isConnected := b)
  }

  /** Joining twice is joining once. */
  lemma JoinIdempotent(s: StoreState, id: string)
    ensures Joined(Joined(s, id), id) == Joined(s, id)
  {
  }

  /** Joining a poll that was not connected and leaving it again restores the state. */
  lemma JoinThenLeave(s: StoreState, id: string)
    requires id !in s.connectedPolls
    ensures Left(Joined(s, id), id) == s
  {
    assert Left(Joined(s, id), id).connectedPolls == s.connectedPolls;
  }

  /** The store object; each action replaces its state. */
  class PollStore {
    var state: StoreState

    constructor ()
      ensures state == InitialState
    {
      state := InitialState;
    }

    method JoinPoll(id: string)
      modifies this
      ensures state == Joined(old(state), id)
    {
      state := Joined(state, id);
    }

    method LeavePoll(id: string)
      modifies this
      ensures state == Left(old(state), id)
    {
      state := Left(state, id);
    }

    method SetConnected(connected: bool)
      modifies this
      ensures state == WithConnected(old(state), connected)
    {
      state := WithConnected(state, connected);
    }
  }
}
