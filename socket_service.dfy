/**
 * The realtime connection manager: one transport connection, the polls the
 * application wants to observe (`pendingPolls`) and those the server has
 * confirmed (`joinedPolls`). The transport is reduced to its connected flag
 * and the log of `join_poll`/`leave_poll` messages emitted on it.
 */
module SocketService {
  import opened Optional

  /** Client-to-server messages: `join_poll(pollId)` and `leave_poll(pollId)`. */
  datatype Message = JoinRequest(pollId: string) | LeaveNotice(pollId: string)

  /** A transport connection: which one it is and whether it is up. */
  datatype Sock = Sock(id: nat, connected: bool)

  predicate NoDuplicates(s: seq<string>) {
    forall i, j | 0 <= i < j < |s| :: s[i] != s[j]
  }

  /** `set.add(x)` on an insertion-ordered set held as a sequence. */
  function Add(s: seq<string>, x: string): (r: seq<string>)
    ensures forall y :: y in r <==> y in s || y == x
    ensures NoDuplicates(s) ==> NoDuplicates(r)
    ensures |s| <= |r| <= |s| + 1 && r[..|s|] == s
  {
    if x in s then s else s + [x]
  }

  /** `set.delete(x)` on an insertion-ordered set held as a sequence: the others keep their order. */
  function Remove(s: seq<string>, x: string): (r: seq<string>)
    ensures forall y :: y in r <==> y in s && y != x
    ensures NoDuplicates(s) ==> NoDuplicates(r)
    ensures x !in s ==> r == s
  {
    if s == [] then []
    else if s[0] == x then Remove(s[1..], x)
    else
      var rest := Remove(s[1..], x);
      assert NoDuplicates(s) ==> s[0] !in s[1..] && NoDuplicates(s[1..]);
      assert NoDuplicates(s) ==> NoDuplicates([s[0]] + rest) by {
        if NoDuplicates(s) {
          forall i, j | 0 <= i < j < |[s[0]] + rest| ensures ([s[0]] + rest)[i] != ([s[0]] + rest)[j] {
            if i == 0 {
              assert ([s[0]] + rest)[j] == rest[j - 1];
              assert rest[j - 1] in rest;
            }
          }
        }
      }
      [s[0]] + rest
  }

  /** One `join_poll` per id, in order. */
  function Joins(ids: seq<string>): (r: seq<Message>)
    ensures |r| == |ids|
    ensures forall i | 0 <= i < |ids| :: r[i] == JoinRequest(ids[i])
  {
    if ids == [] then [] else [JoinRequest(ids[0])] + Joins(ids[1..])
  }

  /** Replaying a duplicate-free pending list emits exactly one join per pending id and nothing else. */
  lemma {:induction false} JoinsOncePerId(ids: seq<string>, id: string)
    requires NoDuplicates(ids)
    ensures multiset(Joins(ids))[JoinRequest(id)] == if id in ids then 1 else 0
    ensures forall m | m in Joins(ids) :: m.JoinRequest?
  {
    if ids != [] {
      JoinsOncePerId(ids[1..], id);
      assert Joins(ids) == [JoinRequest(ids[0])] + Joins(ids[1..]);
      assert id in ids <==> id == ids[0] || id in ids[1..];
      assert id == ids[0] ==> id !in ids[1..];
    }
  }

  class SocketService {
    /** The current transport connection, if any. */
    var socket: Option<Sock>
    /** Set by the connection's `connect` handler, cleared by its `disconnect` handler. */
    var isConnected: bool
    /** Polls the application wants to observe, in insertion order. */
    var pendingPolls: seq<string>
    /** Polls the server has confirmed with `joined_poll`. */
    var joinedPolls: set<string>
    /** Every message emitted on any connection, oldest first. */
    var emitted: seq<Message>
    /** How many connections have been opened; the next one gets this number. */
    var openCount: nat

    ghost predicate Valid()
      reads this
    {
      && NoDuplicates(pendingPolls)
      && (isConnected <==> socket.Some? && socket.value.connected)
      && (socket.Some? ==> socket.value.id < openCount)
    }

    /** The service starts with no connection and nothing to observe. */
    constructor ()
      ensures Valid()
      ensures socket == None && !isConnected && pendingPolls == [] && joinedPolls == {}
      ensures emitted == [] && openCount == 0
    {
      socket := None;
      isConnected := false;
      pendingPolls := [];
      joinedPolls := {};
      emitted := [];
      openCount := 0;
    }

    /** Whether the connection is usable: the handler flag and the transport's own state. */
    function IsSocketConnected(): (b: bool)
      reads this
      requires Valid()
      ensures b <==> isConnected
      ensures b ==> socket.Some?
    {
      isConnected && socket.Some? && socket.value.connected
    }

    /**
     * `connect()`: returns the live connection when there is one; otherwise
     * opens a new, not yet connected one (replacing a dropped one).
     */
    method Connect() returns (s: Sock)
      requires Valid()
      modifies this
      ensures Valid()
      ensures old(IsSocketConnected()) ==> s == old(socket).value && socket == old(socket) && openCount == old(openCount)
      ensures !old(IsSocketConnected()) ==>
        s == Sock(old(openCount), false) && socket == Some(s) && openCount == old(openCount) + 1
      ensures isConnected == old(isConnected) && pendingPolls == old(pendingPolls)
      ensures joinedPolls == old(joinedPolls) && emitted == old(emitted)
    {
      if socket.Some? && socket.value.connected {
        return socket.value;
      }
      s := Sock(openCount, false);
      socket := Some(s);
      openCount := openCount + 1;
    }

    /** `rejoinAllPolls`: one `join_poll` per pending id, in insertion order, while connected. */
    method RejoinAllPolls()
      requires Valid()
      modifies this`emitted
      ensures IsSocketConnected() ==> emitted == old(emitted) + Joins(pendingPolls)
      ensures !IsSocketConnected() ==> emitted == old(emitted)
    {
      var pollsToJoin := pendingPolls;
      var i := 0;
      while i < |pollsToJoin|
        invariant 0 <= i <= |pollsToJoin|
        invariant emitted == old(emitted) + (if IsSocketConnected() then Joins(pollsToJoin[..i]) else [])
      {
        if socket.Some? && socket.value.connected {
          assert Joins(pollsToJoin[..i + 1]) == Joins(pollsToJoin[..i]) + [JoinRequest(pollsToJoin[i])];
          emitted := emitted + [JoinRequest(pollsToJoin[i])];
        }
        i := i + 1;
      }
      assert pollsToJoin[..i] == pollsToJoin;
    }

    /**
     * The transport comes up (first connection or reconnection) and the
     * `connect` handler runs: the flag is set and every pending poll is
     * joined again. Neither set changes.
     */
    method OnConnect()
      requires Valid() && socket.Some?
      modifies this
      ensures Valid()
      ensures socket == Some(old(socket).value.(connected := true)) && isConnected
      ensures emitted == old(emitted) + Joins(pendingPolls)
      ensures pendingPolls == old(pendingPolls) && joinedPolls == old(joinedPolls) && openCount == old(openCount)
    {
      socket := Some(socket.value.(connected := true));
      isConnected := true;
      RejoinAllPolls();
    }

    /**
     * The transport drops and the `disconnect` handler runs: the flag is
     * cleared and both sets are kept, so the pending polls are replayed on
     * the next `OnConnect`.
     */
    method OnDisconnect()
      requires Valid() && socket.Some?
      modifies this
      ensures Valid()
      ensures socket == Some(old(socket).value.(connected := false)) && !isConnected
      ensures pendingPolls == old(pendingPolls) && joinedPolls == old(joinedPolls)
      ensures emitted == old(emitted) && openCount == old(openCount)
    {
      socket := Some(socket.value.(connected := false));
      isConnected := false;
    }

    /** `disconnect()`: closes the connection and forgets every subscription; a no-op without one. */
    method Disconnect()
      requires Valid()
      modifies this
      ensures Valid()
      ensures old(socket).None? ==>
        socket == None && !isConnected && pendingPolls == old(pendingPolls) && joinedPolls == old(joinedPolls)
      ensures old(socket).Some? ==> socket == None && !isConnected && pendingPolls == [] && joinedPolls == {}
      ensures emitted == old(emitted) && openCount == old(openCount)
    {
      if socket.Some? {
        socket := None;
        isConnected := false;
        joinedPolls := {};
        pendingPolls := [];
      }
    }

    /**
     * `joinPoll(id)`: nothing when the server already confirmed `id`;
     * otherwise `id` becomes pending, a connection is opened if there is
     * none, and one `join_poll` is emitted when the connection is up.
     */
    method JoinPoll(id: string)
      requires Valid()
      modifies this
      ensures Valid()
      ensures id in old(joinedPolls) ==>
        socket == old(socket) && isConnected == old(isConnected) && pendingPolls == old(pendingPolls)
        && emitted == old(emitted) && openCount == old(openCount)
      ensures id !in old(joinedPolls) ==>
        && pendingPolls == Add(old(pendingPolls), id)
        && emitted == old(emitted) + (if old(IsSocketConnected()) then [JoinRequest(id)] else [])
        && (old(socket).None? ==> socket == Some(Sock(old(openCount), false)) && openCount == old(openCount) + 1)
        && (old(socket).Some? ==> socket == old(socket) && openCount == old(openCount))
        && isConnected == old(isConnected)
      ensures joinedPolls == old(joinedPolls)
    {
      if id in joinedPolls {
        return;
      }
      pendingPolls := Add(pendingPolls, id);
      if socket.None? {
        var _ := Connect();
      }
      if socket.Some? && socket.value.connected {
        emitted := emitted + [JoinRequest(id)];
      }
    }

    /**
     * `leavePoll(id, removeFromPending)`: `id` is no longer joined, no
     * longer pending unless the caller asks to keep it, and one `leave_poll`
     * is emitted when the connection is up.
     */
    method LeavePoll(id: string, removeFromPending: bool := true)
      requires Valid()
      modifies this
      ensures Valid()
      ensures pendingPolls == if removeFromPending then Remove(old(pendingPolls), id) else old(pendingPolls)
      ensures joinedPolls == old(joinedPolls) - {id}
      ensures emitted == old(emitted) + (if old(IsSocketConnected()) then [LeaveNotice(id)] else [])
      ensures socket == old(socket) && isConnected == old(isConnected) && openCount == old(openCount)
    {
      if removeFromPending {
        pendingPolls := Remove(pendingPolls, id);
      }
      joinedPolls := joinedPolls - {id};
      if socket.Some? && socket.value.connected {
        emitted := emitted + [LeaveNotice(id)];
      }
    }

    /** The `joined_poll` handler: the server confirmed `id`; it stays pending for replay. */
    method OnJoinedPoll(id: string)
      requires Valid()
      modifies this
      ensures Valid()
      ensures joinedPolls == old(joinedPolls) + {id}
      ensures pendingPolls == old(pendingPolls) && socket == old(socket) && isConnected == old(isConnected)
      ensures emitted == old(emitted) && openCount == old(openCount)
    {
      joinedPolls := joinedPolls + {id};
    }
  }

  /**
   * Subscribing, losing the connection and getting it back: the
   * reconnection replays exactly one `join_poll` for the poll, and the poll
   * is joined once the server confirms it.
   */
  method SubscribeAcrossReconnect(id: string) returns (firstJoin: seq<Message>, replayed: seq<Message>, joined: bool)
    ensures firstJoin == [JoinRequest(id)]
    ensures replayed == [JoinRequest(id)]
    ensures joined
  {
    var service := new SocketService();
    var _ := service.Connect();
    service.OnConnect();
    var mark := |service.emitted|;
    service.JoinPoll(id);
    firstJoin := service.emitted[mark..];
    service.OnDisconnect();
    mark := |service.emitted|;
    service.OnConnect();
    replayed := service.emitted[mark..];
    service.OnJoinedPoll(id);
    joined := id in service.joinedPolls && id in service.pendingPolls && service.IsSocketConnected();
  }
}
