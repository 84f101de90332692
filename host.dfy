/**
 * The host process's WebSocket hub: the `serverStatus` map and the
 * `uiClients` set that its event handlers update in place, and the
 * `clientId` each agent connection's handlers share. Each handler method
 * is proved to perform exactly one `HubSpec.Step`.
 */
module Host {
  import opened Wrappers
  import opened Seqs
  import JsMap
  import opened HubSpec
  import HubProperties

  class Hub {
    /** Agent name to the last message that agent sent, in insertion order. */
    var serverStatus: JsMap.Entries<Name, Doc>
    /** The observer connections, in the order they joined. */
    var uiClients: seq<ConnId>
    /** Each observer socket's `readyState`, maintained by the WebSocket layer. */
    var readyState: map<ConnId, ReadyState>
    /** What has been sent to each observer, oldest first. */
    var outbox: map<ConnId, seq<Payload>>
    /** Each live agent connection's remembered `clientId`. */
    var clientId: map<ConnId, Name>
    /** The id the next connection receives. */
    var nextConn: ConnId
    /** An exception escaped a handler and ended the process. */
    var crashed: bool

    function State(): HubState
      reads this
    {
      HubState(serverStatus, uiClients, readyState, outbox, clientId, nextConn, crashed)
    }

    ghost predicate Valid()
      reads this
    {
      Inv(State())
    }

    constructor ()
      ensures Valid() && State() == Initial
    {
      serverStatus, uiClients, readyState, outbox, clientId, nextConn := [], [], map[], map[], map[], 0;
      crashed := false;
    }

    /** `broadcastToUI()`: serialise the values once, then send to each observer that is OPEN. */
    method BroadcastToUI()
      requires Valid()
      modifies this
      ensures Valid() && State() == Broadcast(old(State()))
    {
      var jsonData := Serialize(JsMap.Values(serverStatus));
      ghost var before := outbox;
      var i := 0;
      while i < |uiClients|
        invariant 0 <= i <= |uiClients|
        invariant outbox.Keys == before.Keys
        invariant outbox == Deliver(before, uiClients[..i], readyState, jsonData)
        invariant State() == old(State()).(outbox := outbox)
      {
        var client := uiClients[i];
        assert uiClients[..i + 1][..i] == uiClients[..i];
        if OpenIn(readyState, client) {
          outbox := outbox[client := outbox[client] + [jsonData]];
        }
        i := i + 1;
      }
      assert uiClients[..i] == uiClients;
      HubProperties.BroadcastSpec(old(State()));
    }

    /**
     * The `connection` handler: parse the URL (a rejected URL throws,
     * uncaught), then classify by the `type` query parameter; an observer
     * joins `uiClients` and is sent the current values at once, an agent
     * starts with `clientId = null`. Returns the new connection's role, or
     * `None` when the handler threw.
     */
    method OnConnection(url: RequestUrl) returns (conn: ConnId, role: Option<Role>)
      requires Valid() && !crashed
      modifies this
      ensures Valid() && State() == Step(old(State()), Connection(url))
      ensures conn == old(nextConn)
      ensures role == if url.MalformedUrl? then None else Some(Classify(url.typeParam))
    {
      HubProperties.StepPreservesInv(State(), Connection(url));
      conn := nextConn;
      if url.MalformedUrl? {
        crashed := true;
        role := None;
        return;
      }
      nextConn := nextConn + 1;
      role := Some(Classify(url.typeParam));
      if role == Some(Observer) {
        uiClients := uiClients + [conn];
        readyState := readyState[conn := Open];
        outbox := outbox[conn := [Serialize(JsMap.Values(serverStatus))]];
      } else {
        clientId := clientId[conn := Null];
      }
    }

    /**
     * An agent's `message` handler: on a parsed message remember its `name`,
     * then, if the log line completes, store the message under that name
     * and broadcast. If parsing, reading `name` or
     * the log line throws, the error is only logged.
     */
    method OnAgentMessage(conn: ConnId, message: Incoming)
      requires Valid() && conn in clientId && !crashed
      modifies this
      ensures Valid() && State() == Step(old(State()), AgentMessage(conn, message))
    {
      match message
      case Parsed(data) =>
        HubProperties.StepPreservesInv(State(), AgentMessage(conn, message));
        clientId := clientId[conn := data.name];
        if Logged(data) {
          serverStatus := JsMap.Put(serverStatus, data.name, data);
          BroadcastToUI();
        }
      case Unparsable =>
      case ParsedNull =>
    }

    /**
     * An agent's `close` handler: the log line converts `clientId` to a
     * string, outside any `try`, so a name that does not convert ends the
     * process. Otherwise, if `clientId` is truthy, delete that entry and
     * broadcast. The connection's handlers never run again.
     */
    method OnAgentClose(conn: ConnId)
      requires Valid() && conn in clientId && !crashed
      modifies this
      ensures Valid() && State() == Step(old(State()), AgentClose(conn))
    {
      var id := clientId[conn];
      if !Printable(id) {
        crashed := true;
        return;
      }
      clientId := clientId - {conn};
      if Truthy(id) {
        JsMap.RemoveKeys(serverStatus, id);
        WithoutSpec(JsMap.Keys(serverStatus), id);
        serverStatus := JsMap.Remove(serverStatus, id);
        BroadcastToUI();
      }
    }

    /** The WebSocket layer moves an observer socket out of OPEN before its `close` event. */
    method OnObserverClosing(conn: ConnId)
      requires Valid() && conn in uiClients && !crashed
      modifies this
      ensures Valid() && State() == Step(old(State()), ObserverClosing(conn))
    {
      readyState := readyState[conn := Closing];
    }

    /** An observer's `close` handler: `uiClients.delete(ws)`. */
    method OnObserverClose(conn: ConnId)
      requires Valid() && conn in uiClients && !crashed
      modifies this
      ensures Valid() && State() == Step(old(State()), ObserverClose(conn))
    {
      HubProperties.StepPreservesInv(State(), ObserverClose(conn));
      uiClients := Without(uiClients, conn);
      readyState := readyState[conn := Closed];
    }
  }
}
