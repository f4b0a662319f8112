/**
 * The realtime server: a process-wide singleton created once, a registry of which rooms each connected
 * socket has joined, and the two emit helpers that deliver to the members of one room.
 */
module Realtime {
  import opened Wrappers
  import opened Text

  type SocketId = string
  type Room = string

  const AdminRoom: Room := "admin"

  /** The room of one order: `order-${orderId}`; an absent id renders as "undefined". */
  function OrderRoom(orderId: Option<string>): (r: Room)
    ensures StartsWith(r, "order-") && r != AdminRoom
  {
    "order-" + JsText(orderId)
  }

  /** One event handed to the transport, with the sockets it reaches. */
  datatype Delivery = Delivery(event: string, recipients: set<SocketId>)

  class SocketServer {
    /** Whether the module-level `io` has been assigned. */
    var initialized: bool
    /** The connected sockets and the rooms each has joined. */
    var rooms: map<SocketId, set<Room>>

    constructor ()
      ensures !initialized && rooms == map[]
    {
      initialized := false;
      rooms := map[];
    }

    /**
     * `initializeSocket(server)`: an existing instance is returned as it is; otherwise the server is
     * created when `created` holds, and a failed creation yields null (false) without throwing.
     */
    method Initialize(created: bool) returns (instance: bool)
      modifies this
      ensures old(initialized) ==> instance && initialized
      ensures !old(initialized) ==> instance == created && initialized == created
      ensures rooms == old(rooms)
    {
      if initialized {
        return true;
      }
      if created {
        initialized := true;
        return true;
      }
      return false;
    }

    /** A client connects: it is registered with no rooms joined. */
    method Connect(s: SocketId)
      requires initialized && s !in rooms
      modifies this
      ensures rooms == old(rooms)[s := {}] && initialized
    {
      rooms := rooms[s := {}];
    }

    /** `join-admin`: the socket joins "admin" whatever token it presents, and is acknowledged. */
    method JoinAdmin(s: SocketId, token: Option<string>) returns (ack: bool)
      requires initialized && s in rooms
      modifies this
      ensures ack
      ensures rooms == old(rooms)[s := old(rooms)[s] + {AdminRoom}] && initialized
    {
      rooms := rooms[s := rooms[s] + {AdminRoom}];
      ack := true;
    }

    /** `join-order`: the socket joins exactly the room of that order. */
    method JoinOrder(s: SocketId, orderId: Option<string>)
      requires initialized && s in rooms
      modifies this
      ensures rooms == old(rooms)[s := old(rooms)[s] + {OrderRoom(orderId)}] && initialized
    {
      rooms := rooms[s := rooms[s] + {OrderRoom(orderId)}];
    }

    /** `leave-order`: the socket leaves exactly the room of that order. */
    method LeaveOrder(s: SocketId, orderId: Option<string>)
      requires initialized && s in rooms
      modifies this
      ensures rooms == old(rooms)[s := old(rooms)[s] - {OrderRoom(orderId)}] && initialized
    {
      rooms := rooms[s := rooms[s] - {OrderRoom(orderId)}];
    }

    /** A client disconnects and leaves every room. */
    method Disconnect(s: SocketId)
      modifies this
      ensures rooms == old(rooms) - {s} && initialized == old(initialized)
    {
      rooms := rooms - {s};
    }

    function Members(room: Room): set<SocketId>
      reads this
    {
      set s | s in rooms && room in rooms[s]
    }

    /** `emitOrderUpdate(order)`: "order-update" to the order's room, or nothing before initialisation. */
    function EmitOrderUpdate(orderId: Option<string>): (r: seq<Delivery>)
      reads this
      ensures |r| <= 1
      ensures r != [] ==> r[0].event == "order-update" && forall s :: s in r[0].recipients ==> s in rooms && OrderRoom(orderId) in rooms[s]
    {
      if initialized then [Delivery("order-update", Members(OrderRoom(orderId)))] else []
    }

    /** `emitDashboardUpdate()`: "dashboard-update" to the admin room, or nothing before initialisation. */
    function EmitDashboardUpdate(): (r: seq<Delivery>)
      reads this
      ensures |r| <= 1
      ensures r != [] ==> r[0].event == "dashboard-update" && forall s :: s in r[0].recipients ==> s in rooms && AdminRoom in rooms[s]
    {
      if initialized then [Delivery("dashboard-update", Members(AdminRoom))] else []
    }

    /** `io.emit(event, ...)`: every connected socket, whatever its rooms. */
    function Broadcast(event: string): (r: seq<Delivery>)
      reads this
      ensures |r| <= 1
      ensures r != [] ==> r[0].event == event && r[0].recipients == rooms.Keys
    {
      if initialized then [Delivery(event, rooms.Keys)] else []
    }
  }

  /** An order update reaches a socket only through the order's room, so an admin-only socket gets nothing. */
  lemma OrderUpdateSkipsAdminOnly(srv: SocketServer, orderId: Option<string>, s: SocketId)
    requires s in srv.rooms && srv.rooms[s] == {AdminRoom}
    ensures forall d :: d in srv.EmitOrderUpdate(orderId) ==> s !in d.recipients
  {
  }

  /** Emitting before initialisation delivers nothing, whichever helper is used. */
  lemma EmitBeforeInitIsNoOp(srv: SocketServer, orderId: Option<string>, event: string)
    requires !srv.initialized
    ensures srv.EmitOrderUpdate(orderId) == [] && srv.EmitDashboardUpdate() == [] && srv.Broadcast(event) == []
  {
  }

  /** Every socket that has joined an order's room receives that order's update once the server is up. */
  lemma OrderUpdateReachesMembers(srv: SocketServer, orderId: Option<string>, s: SocketId)
    requires srv.initialized && s in srv.rooms && OrderRoom(orderId) in srv.rooms[s]
    ensures s in srv.EmitOrderUpdate(orderId)[0].recipients
  {
  }
}
