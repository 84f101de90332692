/**
 * The host's connection registry and broadcast logic as a state machine.
 *
 * Node runs each WebSocket event handler to completion, so every handler is
 * one atomic `Step`. The state holds the `serverStatus` map (agent name to
 * the last message that agent sent, in insertion order), the `uiClients` set
 * of observer connections with their `readyState`, the `clientId` each live
 * agent connection remembers, and, per observer, the payloads sent to it.
 */
module HubSpec {
  import opened Wrappers
  import opened Seqs
  import JsMap

  /** Identity of one WebSocket connection, assigned in order of arrival. */
  type ConnId = nat

  /**
   * What `data.name` reads on a parsed message. JSON can give any of these;
   * a missing field reads as `undefined`. `Obj` stands for an object or
   * array, compared by reference as `Map` keys are; `text` is what
   * converting it to a string yields, or `None` when the conversion throws.
   * It throws for an object with an own `toString` key (a JSON value is
   * never callable, and the inherited `valueOf` gives back the object) and
   * for an array holding such an object.
   */
  datatype Name = Undefined | Null | Bool(b: bool) | Num(x: real) | Str(s: string) | Obj(ref: nat, text: Option<string>)

  /** Whether the template literals of the two agent log lines can turn `n` into text. */
  predicate Printable(n: Name) {
    match n
    case Obj(_, text) => text.Some?
    case _ => true
  }

  /**
   * The first substitution directive in a `console.log` format string that
   * takes an argument, as Node's `util.format` scans it: `%` followed by one
   * of `s j d O o i f c` takes the next argument, and any other character
   * after `%` (including a second `%`, the escape) is passed over.
   */
  function FirstDirective(f: string): Option<char> {
    if |f| < 2 then None
    else if f[0] == '%' then
      if f[1] in "sjdOoifc" then Some(f[1]) else FirstDirective(f[2..])
    else FirstDirective(f[1..])
  }

  /**
   * The directive that the log line `Message from ${clientId}:` applies to
   * `data`. Only the name's text can hold a `%`; the text of `undefined`,
   * `null`, a boolean or a number never does.
   */
  function NameDirective(n: Name): Option<char> {
    match n
    case Str(s) => FirstDirective(s + ":")
    case Obj(_, Some(t)) => FirstDirective(t + ":")
    case _ => None
  }

  /** JavaScript truthiness, as `if (clientId)` tests it. */
  predicate Truthy(n: Name) {
    match n
    case Undefined => false
    case Null => false
    case Bool(b) => b
    case Num(x) => x != 0.0
    case Str(s) => s != ""
    case Obj(_, _) => true
  }

  /**
   * A parsed agent message: its `name` field, whether it has an own
   * `toString` key (so that converting it to a string or a number throws),
   * and the value itself, kept opaque.
   */
  datatype Doc = Doc(name: Name, ownToString: bool, json: string)

  /**
   * Whether `console.log(`Message from ${clientId}:`, data)` completes: the
   * name converts to a string, and no `%d`, `%i` or `%f` directive in it
   * converts a message that has its own `toString` to a number. (A `%s`
   * directive inspects an object whose `toString` is not a function rather
   * than converting it, so it never throws here.)
   */
  predicate Logged(d: Doc) {
    && Printable(d.name)
    && !(d.ownToString && NameDirective(d.name) in {Some('d'), Some('i'), Some('f')})
  }

  /**
   * The outcome of `JSON.parse(message)` followed by reading `data.name`:
   * the parse throws, the text parses to `null` (so reading `name` throws),
   * or a value is obtained.
   */
  datatype Incoming = Unparsable | ParsedNull | Parsed(doc: Doc)

  /** `JSON.stringify` of an array of stored messages, as one opaque payload. */
  datatype Payload = JsonArray(records: seq<Doc>)

  function Serialize(records: seq<Doc>): Payload {
    JsonArray(records)
  }

  /**
   * The outcome of `new URL` on the request target, resolved against the
   * `Host` header: the parser rejects the URL (a `Host` header holding a
   * space, say, or a malformed request target), or it yields the `type`
   * query parameter, if any.
   */
  datatype RequestUrl = MalformedUrl | Query(typeParam: Option<string>)

  /** The two kinds of connection. */
  datatype Role = Observer | Agent

  /** A connection is an observer exactly when its `type` query parameter is `"ui"`. */
  function Classify(typeParam: Option<string>): Role {
    if typeParam == Some("ui") then Observer else Agent
  }

  /** The `readyState` of a server-side socket; it starts `Open`. */
  datatype ReadyState = Open | Closing | Closed

  datatype HubState = HubState(
    serverStatus: JsMap.Entries<Name, Doc>,
    uiClients: seq<ConnId>,
    readyState: map<ConnId, ReadyState>,
    outbox: map<ConnId, seq<Payload>>,
    clientId: map<ConnId, Name>,
    nextConn: ConnId,
    crashed: bool)

  /** The hub at start-up: no agents, no observers, nothing sent. */
  const Initial := HubState([], [], map[], map[], map[], 0, false)

  /**
   * The events the hub reacts to: a new connection with its request URL,
   * a message or close on an agent connection, a close on an observer
   * connection, and an observer socket leaving the OPEN state before its
   * close event fires.
   */
  datatype Event =
    | Connection(url: RequestUrl)
    | AgentMessage(conn: ConnId, message: Incoming)
    | AgentClose(conn: ConnId)
    | ObserverClosing(conn: ConnId)
    | ObserverClose(conn: ConnId)

  /**
   * The well-formedness of the hub: one entry per name, every name
   * printable (only such names get past the log line), each observer once,
   * every observer with a ready state and an outbox, every connection id
   * already issued, and agent connections distinct from observers.
   */
  ghost predicate Inv(s: HubState) {
    && JsMap.NoDuplicateKeys(s.serverStatus)
    && (forall k :: k in JsMap.Keys(s.serverStatus) ==> Printable(k))
    && Distinct(s.uiClients)
    && (forall c :: c in s.uiClients ==> c in s.readyState && c in s.outbox)
    && (forall c :: c in s.outbox ==> c < s.nextConn)
    && (forall c :: c in s.clientId ==> c < s.nextConn && c !in s.outbox)
  }

  /**
   * The handlers of a connection run only while it is registered in its
   * role, and no handler runs once an uncaught exception has ended the
   * process.
   */
  predicate Enabled(s: HubState, e: Event) {
    !s.crashed &&
    match e
    case Connection(_) => true
    case AgentMessage(c, _) => c in s.clientId
    case AgentClose(c) => c in s.clientId
    case ObserverClosing(c) => c in s.uiClients
    case ObserverClose(c) => c in s.uiClients
  }

  /** `client.readyState === WebSocket.OPEN`, over a map of ready states. */
  predicate OpenIn(readyState: map<ConnId, ReadyState>, c: ConnId) {
    c in readyState && readyState[c] == Open
  }

  predicate IsOpen(s: HubState, c: ConnId) {
    OpenIn(s.readyState, c)
  }

  /** The payload every broadcast and every observer greeting carries. */
  function Snapshot(s: HubState): Payload {
    Serialize(JsMap.Values(s.serverStatus))
  }

  /** Sending `p` to each of `clients`, in order, that is OPEN. */
  function Deliver(outbox: map<ConnId, seq<Payload>>, clients: seq<ConnId>,
                   readyState: map<ConnId, ReadyState>, p: Payload): map<ConnId, seq<Payload>>
  {
    if clients == [] then outbox
    else
      var sent := Deliver(outbox, clients[..|clients| - 1], readyState, p);
      var c := clients[|clients| - 1];
      if OpenIn(readyState, c) && c in sent then sent[c := sent[c] + [p]]
      else sent
  }

  /** `broadcastToUI()`: the current snapshot to every open observer. */
  function Broadcast(s: HubState): HubState {
    s.(outbox := Deliver(s.outbox, s.uiClients, s.readyState, Snapshot(s)))
  }

  /**
   * One event handler run to completion. An exception that escapes a
   * handler ends the process: the state becomes `crashed` and its other
   * fields are no longer meaningful.
   */
  function Step(s: HubState, e: Event): HubState
    requires Enabled(s, e)
  {
    match e
    case Connection(MalformedUrl) =>
      s.(crashed := true)
    case Connection(Query(t)) =>
      var c := s.nextConn;
      if Classify(t) == Observer then
        s.(uiClients := s.uiClients + [c],
           readyState := s.readyState[c := Open],
           outbox := s.outbox[c := [Snapshot(s)]],
           nextConn := c + 1)
      else
        s.(clientId := s.clientId[c := Null], nextConn := c + 1)
    case AgentMessage(c, m) =>
      if !m.Parsed? then
        s
      else if !Logged(m.doc) then
        // `clientId` is already set when the log line throws; the catch swallows it
        s.(clientId := s.clientId[c := m.doc.name])
      else
        Broadcast(s.(clientId := s.clientId[c := m.doc.name],
                     serverStatus := JsMap.Put(s.serverStatus, m.doc.name, m.doc)))
    case AgentClose(c) =>
      var id := s.clientId[c];
      var gone := s.(clientId := s.clientId - {c});
      if !Printable(id) then s.(crashed := true)  // the log line throws outside any `try`
      else if Truthy(id) then Broadcast(gone.(serverStatus := JsMap.Remove(s.serverStatus, id)))
      else gone
    case ObserverClosing(c) =>
      s.(readyState := s.readyState[c := Closing])
    case ObserverClose(c) =>
      s.(uiClients := Without(s.uiClients, c), readyState := s.readyState[c := Closed])
  }

  /** A run of messages on agent connection `c`. */
  function AgentMessages(s: HubState, c: ConnId, ms: seq<Incoming>): (t: HubState)
    requires c in s.clientId && !s.crashed
    ensures c in t.clientId && !t.crashed
    decreases |ms|
  {
    if ms == [] then s
    else AgentMessages(Step(s, AgentMessage(c, ms[0])), c, ms[1..])
  }

  /** The `name` of the last message in `ms` that parsed, or `before` if none did. */
  function LastName(before: Name, ms: seq<Incoming>): Name {
    if ms == [] then before
    else if ms[|ms| - 1].Parsed? then ms[|ms| - 1].doc.name
    else LastName(before, ms[..|ms| - 1])
  }
}
