/** The client around one connection at a time: which connection a call takes, what a frame does, and
    how a connection is torn down. */
module Client {
  import opened Wrappers
  import opened EntityKeys
  import opened CacheModel
  import opened Lifecycle
  import opened Projection
  import opened RpcBroker
  import Objects = ObjectClient

  /** One gateway connection: its broker, its context, its socket and its reader. */
  class Connection {
    const broker: Broker<Projection.Result>
    var cancelled: bool
    var open: bool
    var reading: bool

    constructor ()
      ensures fresh(broker) && broker.Valid() && !broker.closed && broker.pending == map[]
      ensures !cancelled && open && reading
    {
      broker := new Broker<Projection.Result>();
      cancelled, open, reading := false, true, true;
    }
  }

  datatype Frame =
    | ResultFrame(id: nat, result: Projection.Result)
    | UpdateFrame(update: Update)
    | EmptyFrame

  datatype Route = Through(conn: Connection) | Refused(error: string)

  const ERR_NOT_CONNECTED := "osmose client is not connected"
  const ERR_NOT_READY := "osmose client is not ready"

  /** The gate after the end of a connection is reported: a closing client stays so. */
  function Reported(g: Gate): Gate
    requires g.closes != []
  {
    if g.state == Closing then g else SetState(g, Disconnected)
  }

  /** So the end of a connection leaves the client Disconnected with an open ready channel, a new one unless
      it was Disconnected before, and every earlier channel closed; or closing, with nothing changed. */
  lemma ReportedResets(g: Gate)
    requires GateOk(g)
    ensures var r := Reported(g);
      if g.state == Closing then r == g && r.closes[|r.closes| - 1] == 1
      else
        && r.state == Disconnected && r.closes[|r.closes| - 1] == 0
        && |r.closes| == |g.closes| + (if g.state == Disconnected then 0 else 1)
        && forall i :: 0 <= i < |r.closes| - 1 ==> r.closes[i] == 1
  {
    SetStateIsExact(g, Disconnected);
  }

  class Client {
    const objects: Objects.ObjectClient
    const gate: StateGate
    const flags: RunFlags
    var active: Connection?

    ghost predicate Valid()
      reads this, objects, objects.cache, objects.flights.Values, gate, gate.made
    {
      objects.Valid() && gate.Valid()
    }

    constructor (objects: Objects.ObjectClient)
      requires objects.Valid()
      ensures Valid() && this.objects == objects && fresh(gate) && fresh(flags) && active == null
      ensures gate.Model() == Gate(Disconnected, [0])
    {
      this.objects := objects;
      gate := new StateGate();
      flags := new RunFlags();
      active := null;
    }

    /** The connection a call is sent on: only handshake requests go out before the client is ready,
        and none while it is closing or has no connection. */
    method Choose(handshake: bool) returns (route: Route)
      ensures route.Through? <==>
        && active != null && !flags.closed
        && (gate.state == Ready || (handshake && gate.state in {Initializing, Authenticating}))
      ensures route.Through? ==> route.conn == active
      ensures route.Refused? ==>
        route.error ==
        if gate.state == Closing || flags.closed then ERR_CLOSED
        else if gate.state in {Disconnected, Connecting} then ERR_NOT_CONNECTED
        else if gate.state != Ready && !handshake then ERR_NOT_READY
        else ERR_NOT_CONNECTED
    {
      var state := gate.state;
      if state == Closing || flags.closed {
        return Route.Refused(ERR_CLOSED);
      }
      if state == Disconnected || state == Connecting {
        return Route.Refused(ERR_NOT_CONNECTED);
      }
      if state != Ready && !handshake {
        return Route.Refused(ERR_NOT_READY);
      }
      if active == null {
        return Route.Refused(ERR_NOT_CONNECTED);
      }
      return Route.Through(active);
    }

    /** One frame, handled by the reader before it takes the next: a result goes to the connection's own
        broker and never to the cache, an update goes to the cache and never to a broker. */
    method HandleFrame(e: Connection, frame: Frame, now: nat)
      requires Valid() && e.broker.Valid()
      modifies e.broker, e.broker.pending.Values, objects.cache
      ensures objects.cache.Valid() && e.broker.Valid() && e.broker.closed == old(e.broker.closed)
      ensures objects.cache.Model() ==
        if frame.UpdateFrame? then Act(old(objects.cache.Model()), Change(ApplyUpdate(frame.update)), now)
        else old(objects.cache.Model())
      ensures e.broker.pending ==
        if frame.ResultFrame? then old(e.broker.pending) - {frame.id} else old(e.broker.pending)
      ensures forall c :: c in old(e.broker.pending).Values ==>
        c.done == if frame.ResultFrame? && frame.id in old(e.broker.pending) && c == old(e.broker.pending)[frame.id]
                  then [Outcome.Result(frame.result)] else []
    {
      match frame
      case ResultFrame(id, result) => var _ := e.broker.Resolve(id, result);
      case UpdateFrame(update) => objects.Update(update, now);
      case EmptyFrame =>
    }

    /** Cancels a connection, fails its pending calls, closes its socket and waits for its reader. */
    method Disconnect(e: Connection)
      requires e.broker.Valid()
      modifies e, e.broker, e.broker.pending.Values
      ensures e.cancelled && !e.open && !e.reading
      ensures e.broker.Valid() && e.broker.closed && e.broker.pending == map[]
      ensures forall c :: c in old(e.broker.pending).Values ==> c.done == [Error(ERR_DISCONNECTED)]
    {
      e.cancelled := true;
      e.broker.FailAll(Some(ERR_DISCONNECTED));
      e.open := false;
      e.reading := false;
    }

    /** Reports the end of a connection, unless the client is closing. */
    method Report()
      requires gate.Valid()
      modifies gate, gate.ready
      ensures gate.Valid() && gate.Model() == Reported(old(gate.Model()))
      ensures gate.state == if old(gate.state) == Closing then Closing else Disconnected
    {
      if gate.state != Closing {
        gate.Set(Disconnected);
      }
    }

    /** Clears the cache, gives up the connection and reports its end. */
    method Forget(e: Connection, now: nat)
      requires Valid()
      modifies this`active, objects.cache, gate, gate.ready
      ensures objects.cache.Valid() && forall kind: Kind :: kind < KINDS ==> objects.cache.Model().lists[kind] == []
      ensures objects.cache.Model().revision == old(objects.cache.Model()).revision + 1
      ensures active == if old(active) == e then null else old(active)
      ensures gate.Valid() && gate.Model() == Reported(old(gate.Model()))
      ensures gate.state == if old(gate.state) == Closing then Closing else Disconnected
    {
      ghost var before := gate.Model();
      objects.ClearCache(now);
      assert gate.Valid() && gate.Model() == before;
      if active == e {
        active := null;
      }
      Report();
    }

    /** Teardown, in order: cancel, fail every pending call, close the socket, wait for the reader, clear
        the cache, give up the connection, and report it unless the client is closing. */
    method CleanupActive(e: Connection, now: nat)
      requires Valid() && e.broker.Valid()
      modifies this`active, e, e.broker, e.broker.pending.Values, objects.cache, gate, gate.ready
      ensures e.cancelled && !e.open && !e.reading
      ensures e.broker.closed && e.broker.pending == map[]
      ensures forall c :: c in old(e.broker.pending).Values ==> c.done == [Error(ERR_DISCONNECTED)]
      ensures objects.cache.Valid() && forall kind: Kind :: kind < KINDS ==> objects.cache.Model().lists[kind] == []
      ensures objects.cache.Model().revision == old(objects.cache.Model()).revision + 1
      ensures active == if old(active) == e then null else old(active)
      ensures gate.Valid() && gate.Model() == Reported(old(gate.Model()))
      ensures gate.state == if old(gate.state) == Closing then Closing else Disconnected
    {
      ghost var before := gate.Model();
      ghost var revision := objects.cache.Model().revision;
      Disconnect(e);
      assert Valid() && gate.Model() == before && objects.cache.Model().revision == revision;
      Forget(e, now);
    }
  }
}
