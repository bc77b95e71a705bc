/**
 * The socket context provider: React state mirroring the subscriptions
 * (`connectedPolls`) and the connection flag, with `joinPoll`/`leavePoll`
 * delegating to the connection manager.
 */
module SocketProvider {
  import opened Optional
  import opened SocketService

  /** What the context hands to its consumers. */
  datatype ContextValue = ContextValue(connectedPolls: set<string>, isConnected: bool)

  const MissingProviderError := "useSocket must be used within a SocketProvider"

  /** `useSocket()`: the context value, or the error thrown outside a provider. */
  function UseSocket(context: Option<ContextValue>): (r: Result<ContextValue, string>)
    ensures r.Err? <==> context.None?
    ensures r.Err? ==> r.error == MissingProviderError
    ensures r.Ok? ==> r.value == context.value
  {
    if context.None? then Err(MissingProviderError) else Ok(context.value)
  }

  class SocketProvider {
    const service: SocketService
    var connectedPolls: set<string>
    var isConnected: bool

    ghost predicate Valid()
      reads this, service
    {
      service.Valid()
    }

    /** The value the provider renders into the context. */
    function Value(): ContextValue
      reads this
    {
      ContextValue(connectedPolls, isConnected)
    }

    /** Mounting: empty state, and the mount effect opens the shared connection. */
    constructor (service: SocketService)
      requires service.Valid()
      modifies service
      ensures Valid() && this.service == service
      ensures connectedPolls == {} && !isConnected
      ensures service.pendingPolls == old(service.pendingPolls) && service.joinedPolls == old(service.joinedPolls)
      ensures service.emitted == old(service.emitted)
      ensures service.socket.Some?
      ensures old(service.socket).Some? && old(service.socket).value.connected ==> service.socket == old(service.socket)
      ensures !(old(service.socket).Some? && old(service.socket).value.connected) ==>
        service.socket == Some(Sock(old(service.openCount), false))
    {
      this.service := service;
      connectedPolls := {};
      isConnected := false;
      new;
      var _ := service.Connect();
    }

    /** The transport comes up: the manager's handler replays the pending joins, then the provider's sets the flag. */
    method TransportConnected()
      requires Valid() && service.socket.Some?
      modifies this, service
      ensures Valid()
      ensures isConnected && connectedPolls == old(connectedPolls)
      ensures service.isConnected && service.emitted == old(service.emitted) + Joins(service.pendingPolls)
      ensures service.pendingPolls == old(service.pendingPolls) && service.joinedPolls == old(service.joinedPolls)
    {
      service.OnConnect();
      isConnected := true;
    }

    /** The transport drops: both handlers clear their flags; the subscriptions stay. */
    method TransportDisconnected()
      requires Valid() && service.socket.Some?
      modifies this, service
      ensures Valid()
      ensures !isConnected && connectedPolls == old(connectedPolls)
      ensures !service.isConnected && service.emitted == old(service.emitted)
      ensures service.pendingPolls == old(service.pendingPolls) && service.joinedPolls == old(service.joinedPolls)
    {
      service.OnDisconnect();
      isConnected := false;
    }

    /**
     * `joinPoll(id)`: the manager's `joinPoll` runs, and `id` is added to
     * `connectedPolls` even when the manager did nothing because the
     * server had already confirmed it.
     */
    method JoinPoll(id: string)
      requires Valid()
      modifies this, service
      ensures Valid()
      ensures connectedPolls == old(connectedPolls) + {id} && isConnected == old(isConnected)
      ensures service.joinedPolls == old(service.joinedPolls)
      ensures id in old(service.joinedPolls) ==>
        service.pendingPolls == old(service.pendingPolls) && service.emitted == old(service.emitted)
      ensures id !in old(service.joinedPolls) ==>
        service.pendingPolls == Add(old(service.pendingPolls), id)
        && service.emitted == old(service.emitted) + (if old(service.IsSocketConnected()) then [JoinRequest(id)] else [])
    {
      service.JoinPoll(id);
      connectedPolls := connectedPolls + {id};
    }

    /** `leavePoll(id)`: the manager forgets `id` and tells the server; `id` leaves `connectedPolls`. */
    method LeavePoll(id: string)
      requires Valid()
      modifies this, service
      ensures Valid()
      ensures connectedPolls == old(connectedPolls) - {id} && isConnected == old(isConnected)
      ensures service.pendingPolls == Remove(old(service.pendingPolls), id)
      ensures service.joinedPolls == old(service.joinedPolls) - {id}
      ensures service.emitted == old(service.emitted) + (if old(service.IsSocketConnected()) then [LeaveNotice(id)] else [])
    {
      service.LeavePoll(id);
      connectedPolls := connectedPolls - {id};
    }

    /** `setConnected(b)`: only the flag changes. */
    method SetConnected(connected: bool)
      modifies this
      ensures isConnected == connected && connectedPolls == old(connectedPolls)
    {
      isConnected := connected;
    }
  }
}
