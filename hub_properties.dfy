/** What the host's handlers guarantee, proved about `HubSpec.Step`. */
module HubProperties {
  import opened Wrappers
  import opened Seqs
  import JsMap
  import opened HubSpec

  /** `t`'s outboxes are `s`'s with `p` sent once to each observer of `s` that is OPEN. */
  ghost predicate SentOnceToOpen(s: HubState, t: HubState, p: Payload) {
    && t.outbox.Keys == s.outbox.Keys
    && forall c :: c in s.outbox ==>
         t.outbox[c] == if c in s.uiClients && IsOpen(s, c) then s.outbox[c] + [p] else s.outbox[c]
  }

  /** Delivery appends `p` once to each distinct OPEN client and leaves every other outbox alone. */
  lemma {:induction false} DeliverSpec(outbox: map<ConnId, seq<Payload>>, clients: seq<ConnId>,
                                       readyState: map<ConnId, ReadyState>, p: Payload)
    requires Distinct(clients)
    requires forall c :: c in clients ==> c in outbox
    ensures Deliver(outbox, clients, readyState, p).Keys == outbox.Keys
    ensures forall c :: c in outbox ==>
              Deliver(outbox, clients, readyState, p)[c]
              == if c in clients && c in readyState && readyState[c] == Open then outbox[c] + [p] else outbox[c]
  {
    if clients != [] {
      var front := clients[..|clients| - 1];
      var last := clients[|clients| - 1];
      assert clients == front + [last];
      assert Distinct(front);
      assert last !in front;
      DeliverSpec(outbox, front, readyState, p);
    }
  }

  /** `broadcastToUI` sends the current snapshot once to every OPEN observer and changes nothing else. */
  lemma BroadcastSpec(s: HubState)
    requires Inv(s)
    ensures SentOnceToOpen(s, Broadcast(s), Snapshot(s))
    ensures Broadcast(s) == s.(outbox := Broadcast(s).outbox)
    ensures Inv(Broadcast(s))
  {
    DeliverSpec(s.outbox, s.uiClients, s.readyState, Snapshot(s));
  }

  /** Every handler keeps the hub well formed. */
  lemma StepPreservesInv(s: HubState, e: Event)
    requires Inv(s) && Enabled(s, e)
    ensures Inv(Step(s, e))
  {
    match e
    case Connection(MalformedUrl) =>
    case Connection(Query(t)) =>
      if Classify(t) == Observer {
        assert s.nextConn !in s.uiClients;
      }
    case AgentMessage(c, m) =>
      if m.Parsed? && Logged(m.doc) {
        JsMap.PutNoDuplicates(s.serverStatus, m.doc.name, m.doc);
        JsMap.PutKeys(s.serverStatus, m.doc.name, m.doc);
        BroadcastSpec(s.(clientId := s.clientId[c := m.doc.name],
                         serverStatus := JsMap.Put(s.serverStatus, m.doc.name, m.doc)));
      }
    case AgentClose(c) =>
      var id := s.clientId[c];
      if Printable(id) && Truthy(id) {
        JsMap.RemoveKeys(s.serverStatus, id);
        WithoutSpec(JsMap.Keys(s.serverStatus), id);
        BroadcastSpec(s.(clientId := s.clientId - {c}, serverStatus := JsMap.Remove(s.serverStatus, id)));
      }
    case ObserverClosing(c) =>
    case ObserverClose(c) =>
      WithoutSpec(s.uiClients, c);
  }

  /**
   * A connection whose `type` is `"ui"` joins the observers, is OPEN and is
   * sent exactly one payload, the current snapshot; any other value, or none,
   * makes it an agent connection whose `clientId` starts as `null`. The new
   * id was never issued before, and the registry is untouched. A request
   * URL the parser rejects throws before any of this, uncaught.
   */
  lemma ConnectionClassified(s: HubState, url: RequestUrl)
    requires Inv(s) && !s.crashed
    ensures url.MalformedUrl? ==> Step(s, Connection(url)) == s.(crashed := true)
    ensures url.Query? ==>
      var t := url.typeParam; var r := Step(s, Connection(url)); var c := s.nextConn;
      && !r.crashed
      && c !in s.uiClients && c !in s.outbox && c !in s.clientId
      && r.serverStatus == s.serverStatus
      && r.nextConn == c + 1
      && (t == Some("ui") ==>
            && r.uiClients == s.uiClients + [c]
            && r.readyState == s.readyState[c := Open]
            && r.outbox == s.outbox[c := [Serialize(JsMap.Values(s.serverStatus))]]
            && r.clientId == s.clientId)
      && (t != Some("ui") ==>
            && r.uiClients == s.uiClients
            && r.readyState == s.readyState
            && r.outbox == s.outbox
            && r.clientId == s.clientId[c := Null])
  {
  }

  /**
   * A parsed agent message always becomes the connection's `clientId`. If
   * the log line then completes, the message replaces the entry for its name
   * wholesale, keeps that entry's position (or appends it for a new name),
   * leaves every other name's entry alone, never duplicates a name, and is
   * followed by exactly one broadcast of the new snapshot. If the log line
   * throws, the error is swallowed: nothing is stored and nothing is sent.
   */
  lemma ParsedMessage(s: HubState, c: ConnId, d: Doc)
    requires Inv(s) && c in s.clientId && !s.crashed
    ensures var t := Step(s, AgentMessage(c, Parsed(d)));
      && !t.crashed
      && t.clientId == s.clientId[c := d.name]
      && t.uiClients == s.uiClients && t.readyState == s.readyState && t.nextConn == s.nextConn
      && JsMap.NoDuplicateKeys(t.serverStatus)
      && (!Logged(d) ==> t.serverStatus == s.serverStatus && t.outbox == s.outbox)
      && (Logged(d) ==>
            && JsMap.Get(t.serverStatus, d.name) == Some(d)
            && (forall k :: k != d.name ==> JsMap.Get(t.serverStatus, k) == JsMap.Get(s.serverStatus, k))
            && JsMap.Keys(t.serverStatus)
               == (if d.name in JsMap.Keys(s.serverStatus) then JsMap.Keys(s.serverStatus)
                   else JsMap.Keys(s.serverStatus) + [d.name])
            && SentOnceToOpen(s, t, Snapshot(t)))
  {
    if !Logged(d) {
      return;
    }
    var mid := s.(clientId := s.clientId[c := d.name],
                  serverStatus := JsMap.Put(s.serverStatus, d.name, d));
    forall k ensures JsMap.Get(mid.serverStatus, k) == if k == d.name then Some(d) else JsMap.Get(s.serverStatus, k) {
      JsMap.PutGet(s.serverStatus, d.name, d, k);
    }
    JsMap.PutKeys(s.serverStatus, d.name, d);
    StepPreservesInv(s, AgentMessage(c, Parsed(d)));
    BroadcastSpec(mid);
  }

  /** A message that fails to parse, or whose `name` cannot be read, changes nothing and sends nothing. */
  lemma FailedMessage(s: HubState, c: ConnId, m: Incoming)
    requires c in s.clientId && !s.crashed && !m.Parsed?
    ensures Step(s, AgentMessage(c, m)) == s
  {
  }

  /** However many failed messages arrive on a connection, the hub is as before. */
  lemma {:induction false} FailedMessagesChangeNothing(s: HubState, c: ConnId, ms: seq<Incoming>)
    requires c in s.clientId && !s.crashed
    requires forall i :: 0 <= i < |ms| ==> !ms[i].Parsed?
    ensures AgentMessages(s, c, ms) == s
  {
    if ms != [] {
      FailedMessagesChangeNothing(s, c, ms[1..]);
    }
  }

  /**
   * Closing an agent connection whose `clientId` does not convert to a
   * string throws from the log line, uncaught, and ends the process.
   * Otherwise the connection is forgotten. If its `clientId` is truthy,
   * exactly that entry is deleted (the others keep their values and order)
   * and one broadcast of the new snapshot follows; if it is null, empty,
   * undefined or otherwise falsy, the registry is unchanged and nothing is
   * sent.
   */
  lemma AgentClosed(s: HubState, c: ConnId)
    requires Inv(s) && c in s.clientId && !s.crashed
    ensures var t := Step(s, AgentClose(c)); var id := s.clientId[c];
      !Printable(id) ==> t == s.(crashed := true)
    ensures var t := Step(s, AgentClose(c)); var id := s.clientId[c];
      Printable(id) ==>
      && !t.crashed
      && t.clientId == s.clientId - {c}
      && t.uiClients == s.uiClients && t.readyState == s.readyState && t.nextConn == s.nextConn
      && (Truthy(id) ==>
            && JsMap.Get(t.serverStatus, id) == None
            && (forall k :: k != id ==> JsMap.Get(t.serverStatus, k) == JsMap.Get(s.serverStatus, k))
            && JsMap.Keys(t.serverStatus) == Without(JsMap.Keys(s.serverStatus), id)
            && SentOnceToOpen(s, t, Snapshot(t)))
      && (!Truthy(id) ==> t.serverStatus == s.serverStatus && t.outbox == s.outbox)
  {
    var id := s.clientId[c];
    if Printable(id) && Truthy(id) {
      var mid := s.(clientId := s.clientId - {c}, serverStatus := JsMap.Remove(s.serverStatus, id));
      forall k ensures JsMap.Get(mid.serverStatus, k) == if k == id then None else JsMap.Get(s.serverStatus, k) {
        JsMap.RemoveGet(s.serverStatus, id, k);
      }
      JsMap.RemoveKeys(s.serverStatus, id);
      WithoutSpec(JsMap.Keys(s.serverStatus), id);
      BroadcastSpec(mid);
    }
  }

  /** Closing an observer removes only that observer; the registry, the agents and all outboxes are untouched. */
  lemma ObserverClosed(s: HubState, c: ConnId)
    requires Inv(s) && c in s.uiClients && !s.crashed
    ensures var t := Step(s, ObserverClose(c));
      && t.uiClients == Without(s.uiClients, c)
      && (forall o :: o in t.uiClients <==> o in s.uiClients && o != c)
      && Distinct(t.uiClients)
      && t.readyState == s.readyState[c := Closed]
      && t.serverStatus == s.serverStatus && t.clientId == s.clientId && t.outbox == s.outbox
      && t.nextConn == s.nextConn && !t.crashed
  {
    WithoutSpec(s.uiClients, c);
  }

  /**
   * An observer that has left the OPEN state stays in the set but receives
   * nothing from later broadcasts until its close event removes it.
   */
  lemma ClosingObserverGetsNothing(s: HubState, c: ConnId, a: ConnId, d: Doc)
    requires Inv(s) && c in s.uiClients && a in s.clientId && !s.crashed
    ensures var t := Step(s, ObserverClosing(c)); var u := Step(t, AgentMessage(a, Parsed(d)));
      && c in u.uiClients
      && c in u.outbox && u.outbox[c] == s.outbox[c]
  {
    var t := Step(s, ObserverClosing(c));
    StepPreservesInv(s, ObserverClosing(c));
    ParsedMessage(t, a, d);
  }

  /** Running one more message is one more step. */
  lemma {:induction false} AgentMessagesSnoc(s: HubState, c: ConnId, ms: seq<Incoming>, m: Incoming)
    requires c in s.clientId && !s.crashed
    ensures AgentMessages(s, c, ms + [m]) == Step(AgentMessages(s, c, ms), AgentMessage(c, m))
    decreases |ms|
  {
    if ms != [] {
      assert (ms + [m])[1..] == ms[1..] + [m];
      AgentMessagesSnoc(Step(s, AgentMessage(c, ms[0])), c, ms[1..], m);
    }
  }

  /** A connection's `clientId` is the `name` of its most recent message that parsed. */
  lemma {:induction false} ClientIdIsLastName(s: HubState, c: ConnId, ms: seq<Incoming>)
    requires c in s.clientId && !s.crashed
    ensures AgentMessages(s, c, ms).clientId[c] == LastName(s.clientId[c], ms)
  {
    if ms != [] {
      var front := ms[..|ms| - 1];
      assert ms == front + [ms[|ms| - 1]];
      AgentMessagesSnoc(s, c, front, ms[|ms| - 1]);
      ClientIdIsLastName(s, c, front);
    }
  }

  /**
   * Every name a connection reported in a message whose log line completed
   * is in the registry after its run of messages.
   */
  lemma {:induction false} ReportedNamesRegistered(s: HubState, c: ConnId, ms: seq<Incoming>, i: nat)
    requires c in s.clientId && !s.crashed
    requires i < |ms| && ms[i].Parsed?
    ensures Logged(ms[i].doc) ==> ms[i].doc.name in JsMap.Keys(AgentMessages(s, c, ms).serverStatus)
  {
    var front := ms[..|ms| - 1];
    var m := ms[|ms| - 1];
    assert ms == front + [m];
    AgentMessagesSnoc(s, c, front, m);
    var before := AgentMessages(s, c, front);
    if i < |front| {
      ReportedNamesRegistered(s, c, front, i);
      if m.Parsed? && Logged(m.doc) {
        JsMap.PutKeys(before.serverStatus, m.doc.name, m.doc);
      }
    } else {
      JsMap.PutKeys(before.serverStatus, m.doc.name, m.doc);
    }
  }

  /** A run of messages keeps the hub well formed. */
  lemma {:induction false} AgentMessagesPreserveInv(s: HubState, c: ConnId, ms: seq<Incoming>)
    requires Inv(s) && c in s.clientId && !s.crashed
    ensures Inv(AgentMessages(s, c, ms))
    decreases |ms|
  {
    if ms != [] {
      StepPreservesInv(s, AgentMessage(c, ms[0]));
      AgentMessagesPreserveInv(Step(s, AgentMessage(c, ms[0])), c, ms[1..]);
    }
  }

  /**
   * Eviction is keyed by the last name only: when the connection closes, an
   * entry stored under any earlier name it reported survives.
   */
  lemma EarlierNamesSurviveClose(s: HubState, c: ConnId, ms: seq<Incoming>, i: nat)
    requires Inv(s) && c in s.clientId && !s.crashed
    requires i < |ms| && ms[i].Parsed? && ms[i].doc.name != LastName(s.clientId[c], ms)
    ensures Logged(ms[i].doc) ==>
      ms[i].doc.name in JsMap.Keys(Step(AgentMessages(s, c, ms), AgentClose(c)).serverStatus)
  {
    var r := AgentMessages(s, c, ms);
    ClientIdIsLastName(s, c, ms);
    ReportedNamesRegistered(s, c, ms, i);
    if Printable(r.clientId[c]) && Truthy(r.clientId[c]) && Logged(ms[i].doc) {
      JsMap.RemoveKeepsOthers(r.serverStatus, r.clientId[c], ms[i].doc.name);
    }
  }

  /**
   * When the connection closes, the process crashes exactly if its last name
   * does not convert to a string; otherwise the entry under that name is gone
   * if the name is truthy.
   */
  lemma LastNameEvictedOnClose(s: HubState, c: ConnId, ms: seq<Incoming>)
    requires Inv(s) && c in s.clientId && !s.crashed
    requires Truthy(LastName(s.clientId[c], ms))
    ensures var t := Step(AgentMessages(s, c, ms), AgentClose(c)); var last := LastName(s.clientId[c], ms);
      && (t.crashed <==> !Printable(last))
      && (Printable(last) ==> JsMap.Get(t.serverStatus, last) == None)
  {
    var r := AgentMessages(s, c, ms);
    ClientIdIsLastName(s, c, ms);
    AgentMessagesPreserveInv(s, c, ms);
    AgentClosed(r, c);
  }

  /**
   * A message without a `name` is stored under `undefined` and resets the
   * connection's `clientId` to `undefined`, so closing that connection
   * deletes nothing: the entry outlives the connection.
   */
  lemma NamelessReportOutlivesConnection(s: HubState, c: ConnId, d: Doc)
    requires Inv(s) && c in s.clientId && !s.crashed
    requires d.name == Undefined
    ensures var t := Step(Step(s, AgentMessage(c, Parsed(d))), AgentClose(c));
      && JsMap.Get(t.serverStatus, Undefined) == Some(d)
      && c !in t.clientId
  {
    ParsedMessage(s, c, d);
    StepPreservesInv(s, AgentMessage(c, Parsed(d)));
  }

  /**
   * A name that does not convert to a string is never stored: reported on a
   * connection, it is absent from the registry after the run of messages.
   */
  lemma UnprintableNameNeverStored(s: HubState, c: ConnId, ms: seq<Incoming>, i: nat)
    requires Inv(s) && c in s.clientId && !s.crashed
    requires i < |ms| && ms[i].Parsed? && !Printable(ms[i].doc.name)
    ensures ms[i].doc.name !in JsMap.Keys(AgentMessages(s, c, ms).serverStatus)
  {
    AgentMessagesPreserveInv(s, c, ms);
  }

  /**
   * A message whose `name` does not convert to a string (such as
   * `{"name":{"toString":0}}`) stores and sends nothing, yet becomes the
   * connection's `clientId`; the next close of that connection then ends
   * the process instead of deleting anything.
   */
  lemma UnprintableNameCrashesOnClose(s: HubState, c: ConnId, d: Doc)
    requires Inv(s) && c in s.clientId && !s.crashed
    requires !Printable(d.name)
    ensures var t := Step(s, AgentMessage(c, Parsed(d)));
      && t.serverStatus == s.serverStatus && t.outbox == s.outbox
      && t.clientId[c] == d.name
      && Step(t, AgentClose(c)) == t.(crashed := true)
  {
    ParsedMessage(s, c, d);
  }

  /**
   * The log line `Message from ${clientId}:` is a format string. A name such
   * as `"%d"` makes it convert the message itself to a number, which throws
   * when the message has its own `toString` key: `{"name":"%d","toString":0}`
   * becomes the `clientId` but is neither stored nor sent. The escaped
   * `"%%d"` takes no argument, and `"%s"` inspects a message whose `toString`
   * is not a function instead of converting it, so the same message under
   * either name is stored and broadcast.
   */
  lemma FormatDirectiveInName(s: HubState, c: ConnId, json: string)
    requires Inv(s) && c in s.clientId && !s.crashed
    ensures var d := Doc(Str("%d"), true, json); var t := Step(s, AgentMessage(c, Parsed(d)));
      && t.clientId[c] == Str("%d")
      && t.serverStatus == s.serverStatus && t.outbox == s.outbox
    ensures var d := Doc(Str("%%d"), true, json); var t := Step(s, AgentMessage(c, Parsed(d)));
      JsMap.Get(t.serverStatus, Str("%%d")) == Some(d)
    ensures var d := Doc(Str("%s"), true, json); var t := Step(s, AgentMessage(c, Parsed(d)));
      && JsMap.Get(t.serverStatus, Str("%s")) == Some(d)
      && SentOnceToOpen(s, t, Snapshot(t))
  {
    var bad := Doc(Str("%d"), true, json);
    assert "%d" + ":" == "%d:";
    assert FirstDirective("%d:") == Some('d');
    ParsedMessage(s, c, bad);
    var escaped := Doc(Str("%%d"), true, json);
    assert "%%d" + ":" == "%%d:";
    assert FirstDirective("%%d:") == None by {
      assert "%%d:"[2..] == "d:";
      assert FirstDirective("d:") == FirstDirective(":");
    }
    ParsedMessage(s, c, escaped);
    var inspected := Doc(Str("%s"), true, json);
    assert "%s" + ":" == "%s:";
    assert FirstDirective("%s:") == Some('s');
    ParsedMessage(s, c, inspected);
  }
}
