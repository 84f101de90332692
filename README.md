# Fleet-status hub: connection registry and broadcast

This project models the WebSocket hub of the host process (`src/host.js`).
Agents connect, send status messages, and the hub keeps the last message of
each agent name in `serverStatus`, a JavaScript `Map`. Observers ("UI
clients") connect with `?type=ui`, join the `uiClients` set, and receive the
whole list of stored messages: once when they connect and again after every
change to the map.

The hub is a sequential state machine. Node runs each event handler to
completion, so each handler is one atomic step:

- `HubSpec` defines the state (`HubState`), the events (`Event`) and one
  handler run (`Step`). It also defines what `broadcastToUI` sends
  (`Broadcast`, `Deliver`), how a connection is classified (`Classify`) and
  JavaScript truthiness of the remembered `clientId` (`Truthy`).
- `HubProperties` proves what the handlers guarantee about `Step`.
- `Host.Hub` is the imperative hub. It is a class whose fields the handler
  methods update in place. `BroadcastToUI` has the `forEach` loop. Each
  method is proved to perform exactly the `Step` of its event.
- `JsMap` models the `Map` semantics the hub relies on. Entries keep
  insertion order. `set` on an existing key overwrites in place and `set` on
  a new key appends. `delete` removes the entry. `values()` follows entry
  order. `Seqs` models the `Set` of observers as a duplicate-free sequence in
  insertion order, which is the `forEach` order.

Abstractions:

- URL parsing becomes `RequestUrl`. The parser either rejects the URL
  (`MalformedUrl`), whether for its `Host` header or its request target, or
  yields the `type` query value, an `Option<string>`.
- `JSON.parse` plus the read of `data.name` becomes `Incoming`. It is either
  a throw (`Unparsable`), a `null` document whose `name` read throws
  (`ParsedNull`), or a document with its `name`.
- `name` may be any JSON value or `undefined` (`Name`). So a nameless
  message is visible: it is stored under `undefined` and cannot be evicted.
- An object-valued `name` carries the text that converting it to a string
  yields, or none when the conversion throws (`Printable`). Conversion fails
  for an object with its own `toString` key, such as `{"toString":0}`, and
  for an array holding such an object. The two agent log lines
  (src/host.js:53, 67) perform this conversion.
- A message records whether it has its own `toString` key. The log line at
  src/host.js:53 passes the message as a second argument, so its first
  argument is a format string. A `%d`, `%i` or `%f` directive in the
  name's text converts the message to a number, and that conversion throws
  for such a message (`FirstDirective`, `NameDirective`, `Logged`). A `%s`
  directive inspects an object whose `toString` is not a function instead
  of converting it, so it does not throw.
- `JSON.stringify` of the value array is the opaque `Payload`.
- Each observer's `outbox` records what `send` put on that socket.
- A socket's `readyState` is set by the WebSocket layer. The event
  `ObserverClosing` represents an observer that has left OPEN but has not
  yet fired `close`.
- An exception that escapes a handler ends the process. The state then has
  `crashed` set and no further handler runs.

Behaviour of src/host.js that the model keeps:

- Closing an agent deletes its entry and then broadcasts. Nothing is
  broadcast before the delete (src/host.js:68-71).
- A parsed message is stored under its `name` unless the log call at
  src/host.js:53 throws. A message without `name` is stored under
  `undefined` (src/host.js:52-56).
- Observers that are not OPEN are skipped and stay in the set
  (src/host.js:22-26).
- A message whose `name` does not convert to a string still sets
  `clientId`. The log line then throws inside the `try`, so nothing is
  stored or sent (src/host.js:52-53, 61-63). The same happens when the name
  holds a directive such as `%d` and the message has its own `toString`
  key, as in `{"name":"%d","toString":0}`.
- Closing a connection whose `clientId` does not convert to a string
  throws from the log line outside any `try`, which ends the process
  (src/host.js:67).
- A request URL the parser rejects throws before the connection is
  classified, also uncaught (src/host.js:31).

## Model

| member | source | states |
|---|---|---|
| `HubSpec.Step` | src/host.js:29-73 | one handler run to completion for each event: connection, agent message, agent close, observer close, and an observer leaving OPEN |
| `HubSpec.Classify` | src/host.js:33 | a connection is an observer exactly when its `type` query value is `"ui"` |
| `HubSpec.Truthy` | src/host.js:68 | JavaScript truthiness of a remembered `clientId` |
| `HubSpec.Printable` | src/host.js:53 | whether the log line's template literal can convert a name to a string |
| `HubSpec.FirstDirective` | src/host.js:53 | the first directive of a `console.log` format string that takes an argument, scanned as Node does (`%%` and unknown directives pass over) |
| `HubSpec.NameDirective` | src/host.js:53 | the directive that the name's text puts into the log line `Message from ${clientId}:` |
| `HubSpec.Logged` | src/host.js:53 | the log line completes: the name converts to a string, and no `%d`/`%i`/`%f` directive converts a message with its own `toString` to a number; `%s` never throws |
| `HubSpec.Deliver` | src/host.js:22-26 | sending one payload to each client of the list, in order, that is OPEN |
| `HubSpec.Broadcast` | src/host.js:20-27 | `broadcastToUI`: the serialised values, in insertion order, sent to the observers |
| `HubSpec.Snapshot` | src/host.js:21 | the payload is the stored messages serialised in the map's insertion order; the greeting at src/host.js:38 sends the same payload |
| `HubSpec.OpenIn` | src/host.js:23 | a socket is sent to exactly when its ready state is OPEN |
| `HubSpec.IsOpen` | src/host.js:23 | the same OPEN test, applied to the hub's own ready states |
| `JsMap.Put` | src/host.js:56 | `serverStatus.set(clientId, data)` |
| `JsMap.Remove` | src/host.js:69 | `serverStatus.delete(clientId)` |
| `JsMap.Values` | src/host.js:21 | `Array.from(serverStatus.values())` |
| `Seqs.Without` | src/host.js:42 | `uiClients.delete(ws)` |
| `JsMap.PutGet` | src/host.js:56 | after `set(name, data)`, `get(name)` is `data` and every other key reads as before |
| `JsMap.PutKeys` | src/host.js:56 | `set` keeps an existing key in its position and appends a new key at the end |
| `JsMap.PutInPlace` | src/host.js:56 | on a key already present, `set` overwrites exactly that entry in place |
| `JsMap.PutAppends` | src/host.js:56 | on a new key, `set` appends exactly one entry |
| `JsMap.PutNoDuplicates` | src/host.js:56 | `set` never creates a second entry for a name |
| `JsMap.RemoveGet` | src/host.js:69 | after `delete(id)`, `get(id)` misses and every other key reads as before |
| `JsMap.RemoveKeys` | src/host.js:69 | `delete` removes exactly that key, keeps the other keys in order and keeps them distinct |
| `JsMap.RemoveKeepsOthers` | src/host.js:69 | `delete(id)` keeps every key other than `id` |
| `JsMap.RemoveAbsent` | src/host.js:69 | deleting a missing key changes nothing |
| `JsMap.GetFound` | src/host.js:56 | a name is found by `get` exactly when it is one of the keys |
| `JsMap.ValuesInKeyOrder` | src/host.js:21 | the i-th value broadcast is the stored message of the i-th key in insertion order |
| `Seqs.WithoutSpec` | src/host.js:42 | `uiClients.delete(ws)` removes exactly `ws`, keeps the other members and keeps them distinct |
| `HubSpec.AgentMessages` | src/host.js:49-64 | a run of messages on an agent connection never unregisters that connection |
| `HubProperties.DeliverSpec` | src/host.js:22-26 | sending to a duplicate-free client list appends the payload once to each OPEN client and leaves every other outbox unchanged |
| `HubProperties.BroadcastSpec` | src/host.js:20-27 | a broadcast sends the serialisation of all current values, in insertion order, once to every OPEN observer; non-open observers get nothing and stay in the set; nothing else changes |
| `HubProperties.StepPreservesInv` | src/host.js:29-74 | every handler keeps one entry per name, each observer in the set once, and agent and observer connections apart |
| `HubProperties.ConnectionClassified` | src/host.js:31-47 | a rejected request URL crashes the process; otherwise `type == "ui"` joins the observer set OPEN and sends it exactly the current snapshot, and any other value, or none, gives an agent connection with `clientId == null`; the registry is untouched |
| `HubProperties.ParsedMessage` | src/host.js:49-63 | a parsed message always makes its `name` the `clientId`; if the log line completes, it replaces its name's entry wholesale (position kept, or appended if new), leaves other entries unchanged, duplicates no name, and triggers exactly one broadcast of the new snapshot; if the log line throws, the throw is swallowed and nothing is stored or sent |
| `HubProperties.FailedMessage` | src/host.js:49-63 | a message that fails to parse, or whose `name` read throws, changes nothing: no registry change, no `clientId` change, no broadcast |
| `HubProperties.FailedMessagesChangeNothing` | src/host.js:49-63 | any run of such failed messages leaves the hub as it was |
| `HubProperties.AgentClosed` | src/host.js:66-73 | an unprintable `clientId` crashes the process and changes nothing else; otherwise a truthy `clientId` has exactly that entry deleted, followed by one broadcast, and a falsy one leaves the registry and every outbox unchanged |
| `HubProperties.ObserverClosed` | src/host.js:40-43 | closing an observer removes only it from the set; registry, agents and outboxes are untouched |
| `HubProperties.ClosingObserverGetsNothing` | src/host.js:23-25 | an observer that has left OPEN stays in the set but receives nothing from the next broadcast |
| `HubProperties.AgentMessagesSnoc` | src/host.js:49-64 | one more message on a connection is one more handler step |
| `HubProperties.ClientIdIsLastName` | src/host.js:47-52 | a connection's `clientId` is the `name` of its most recent parsed message, or `null` if none parsed |
| `HubProperties.ReportedNamesRegistered` | src/host.js:52-56 | every name a connection reported in a message whose log line completed has an entry after its messages |
| `HubProperties.UnprintableNameNeverStored` | src/host.js:52-56 | a reported name that does not convert to a string never has an entry |
| `HubProperties.UnprintableNameCrashesOnClose` | src/host.js:52-67 | a message such as `{"name":{"toString":0}}` stores and sends nothing but becomes `clientId`, and the next close of that connection crashes the process |
| `HubProperties.AgentMessagesPreserveInv` | src/host.js:49-64 | a run of messages keeps the hub well formed |
| `HubProperties.EarlierNamesSurviveClose` | src/host.js:52-69 | on close, every entry stored under an earlier name the connection reported (in a message whose log line completed) survives |
| `HubProperties.LastNameEvictedOnClose` | src/host.js:52-69 | on close with a truthy last name, the process crashes exactly when that name is unprintable; otherwise the entry under it is gone |
| `HubProperties.FormatDirectiveInName` | src/host.js:52-63 | `{"name":"%d","toString":0}` becomes `clientId` but is neither stored nor sent; the same message named `"%%d"` or `"%s"` is stored and broadcast |
| `HubProperties.NamelessReportOutlivesConnection` | src/host.js:52-69 | a message without `name` is stored under `undefined`, and closing its connection deletes nothing |
| `Host.Hub.constructor` | src/host.js:15-18 | the hub starts with an empty map, no observers and no agents |
| `Host.Hub.BroadcastToUI` | src/host.js:20-27 | the `forEach` loop performs exactly `Broadcast`: one send of the snapshot to each OPEN observer |
| `Host.Hub.OnConnection` | src/host.js:29-47 | performs exactly the `Connection` step: crash on a rejected URL, otherwise classify; returns the new connection and its role, or no role after a crash |
| `Host.Hub.OnAgentMessage` | src/host.js:49-64 | performs exactly the `AgentMessage` step: nothing if parsing or reading `name` throws; otherwise set `clientId`, then, if the log line completes, `set` the map and broadcast |
| `Host.Hub.OnAgentClose` | src/host.js:66-73 | performs exactly the `AgentClose` step: crash on an unprintable `clientId`, delete and broadcast under a truthy one, otherwise nothing |
| `Host.Hub.OnObserverClosing` | src/host.js:23 | the socket's `readyState` leaves OPEN; nothing else changes |
| `Host.Hub.OnObserverClose` | src/host.js:40-43 | performs exactly the `ObserverClose` step: `uiClients.delete(ws)` |

## Left out

- HTTP server, Express static serving, `listen`, the port and console output (src/host.js:1-13, 81-85). These are I/O plumbing. The two agent log lines are kept for the conversions they perform, which can throw.
- The `error` handler (src/host.js:76-78): it only logs.
- The `ws` library, URL parsing, `JSON.parse` and `JSON.stringify` are abstracted to `RequestUrl`, `Incoming` and the opaque `Payload`. A `send` that throws is not modelled.
- `Name`: numbers are reals, so `Infinity` and `-Infinity` are not representable. `JSON.parse` yields them for out-of-range literals such as `1e999`, and they are truthy and printable. Object-valued names are compared by a reference number; that each parse yields a fresh object is not enforced.
- After a crash the other fields of the state keep their last values but mean nothing, because the process is gone.
- Events on a connection are accepted only while the connection is registered in its role. The WebSocket layer fires no handler for an unknown or closed socket.
- Agent connections' `readyState` is not tracked; the hub never reads it.
- src/client.js, public/script.js and the plugins are not part of this model. They are timers, sockets, DOM rendering and external process calls.
- Concurrency beyond handler atomicity: Node runs one handler at a time.
