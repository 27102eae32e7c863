/**
 * The relay of proxy.py (class WebSocketProxy): one browser slot, a set of
 * client connections and a running flag, driven by connection events.
 *
 * Connections are abstract ids and payloads are opaque strings. Each event
 * is handled atomically by `Step`, which returns the new registry and the
 * set of actions (sends and closes) the relay issues while handling it.
 * The outbox is a set because the source iterates a Python set, whose order
 * is unspecified; `Step` is proved to address each connection at most once.
 */
module Relay {
  import opened Wrappers

  type Id = nat

  /** Texts of the two envelopes the relay synthesizes itself. */
  const ConnectedNotice: string := "Connected to proxy server"
  const BrowserGoneNotice: string := "Browser disconnected"
  const NoBrowserNotice: string := "Browser not connected. Cannot forward message."

  /** What travels on a connection: a forwarded payload, unchanged, or one of the
      relay's own `status` / `error` envelopes. */
  datatype Envelope =
    | Forward(text: string)
    | Status(connected: bool, message: string)
    | Error(message: string)

  /** An action the relay issues on one connection. */
  datatype Action = Send(to: Id, envelope: Envelope) | Close(to: Id)

  /** The registry: `browser_connection`, `client_connections`, `running`. */
  datatype Proxy = Proxy(browser: Option<Id>, clients: set<Id>, running: bool)

  /** The events the relay reacts to. `failed` names the connections whose
      send raises ConnectionClosed during the broadcast this event triggers. */
  datatype Event =
    | Start
    | Connect(id: Id)
    | BrowserMessage(text: string, failed: set<Id>)
    | ClientMessage(sender: Id, text: string)
    | BrowserDisconnect(failed: set<Id>)
    | ClientDisconnect(id: Id)
    | Shutdown

  datatype Transition = Transition(next: Proxy, outbox: set<Action>)

  /** The result of one broadcast: the clients left registered and the sends issued. */
  datatype Fanout = Fanout(remaining: set<Id>, sends: set<Action>)

  /** A freshly constructed proxy, before `start`. */
  const Initial: Proxy := Proxy(None, {}, false)

  predicate Registered(p: Proxy, id: Id) {
    p.browser == Some(id) || id in p.clients
  }

  /** The registry invariant: the browser is never also a client. (There is
      at most one browser by construction: the slot is an Option.) */
  predicate Valid(p: Proxy) {
    p.browser.Some? ==> p.browser.value !in p.clients
  }

  /** Connections are new objects: a connecting id is not already registered. */
  predicate Admissible(p: Proxy, e: Event) {
    e.Connect? ==> !Registered(p, e.id)
  }

  function Recipients(outbox: set<Action>): set<Id> {
    set a | a in outbox :: a.to
  }

  /** No connection is addressed twice within one step. */
  predicate OnePerRecipient(outbox: set<Action>) {
    forall a, b | a in outbox && b in outbox && a.to == b.to :: a == b
  }

  /** broadcast_to_clients (proxy.py:127-142) over a snapshot of the client set:
      every client is sent `e`, a failing send does not stop the others, and the
      clients whose send failed are evicted afterwards. */
  function Broadcast(clients: set<Id>, e: Envelope, failed: set<Id>): (f: Fanout)
    ensures Recipients(f.sends) == clients
    ensures forall a | a in f.sends :: a == Send(a.to, e)
    ensures OnePerRecipient(f.sends)
    ensures f.remaining == clients - failed
    ensures clients == {} ==> f == Fanout(clients, {})
  {
    if clients == {} then
      Fanout(clients, {})
    else
      var sends := set c | c in clients :: Send(c, e);
      assert Recipients(sends) == clients by {
        forall c | c in clients ensures c in Recipients(sends) {
          assert Send(c, e) in sends;
        }
      }
      Fanout(clients - failed, sends)
  }

  /** `attempts` sends `e` to each id of `done` exactly once, and to nobody else. */
  predicate SentOnceEach(attempts: seq<Action>, done: set<Id>, e: Envelope) {
    && |attempts| == |done|
    && (forall i | 0 <= i < |attempts| :: attempts[i] == Send(attempts[i].to, e) && attempts[i].to in done)
    && (forall c | c in done :: Send(c, e) in attempts)
    && (forall i, j | 0 <= i < j < |attempts| :: attempts[i].to != attempts[j].to)
  }

  /** Sending to one more, not yet addressed, connection keeps `SentOnceEach`. */
  lemma SentOnceEachExtend(attempts: seq<Action>, done: set<Id>, e: Envelope, c: Id)
    requires SentOnceEach(attempts, done, e)
    requires c !in done
    ensures SentOnceEach(attempts + [Send(c, e)], done + {c}, e)
  {
  }

  /** One turn of the send loop moves `c` from pending to done and records it
      as disconnected iff its send failed. */
  lemma CollectStep(clients: set<Id>, pending: set<Id>, done: set<Id>, failed: set<Id>, disconnected: set<Id>, c: Id)
    requires done + pending == clients && done !! pending && disconnected == done * failed
    requires c in pending
    ensures (done + {c}) + (pending - {c}) == clients && (done + {c}) !! (pending - {c})
    ensures (if c in failed then disconnected + {c} else disconnected) == (done + {c}) * failed
  {
  }

  /** The send loop of proxy.py:133-138: each client of the snapshot is sent
      `e` once, and the clients whose send raised are collected. */
  method SendToEach(clients: set<Id>, e: Envelope, failed: set<Id>)
    returns (attempts: seq<Action>, disconnected: set<Id>)
    ensures SentOnceEach(attempts, clients, e)
    ensures disconnected == clients * failed
  {
    attempts := [];
    disconnected := {};
    var pending := clients;
    var done: set<Id> := {};
    while pending != {}
      invariant done + pending == clients && done !! pending
      invariant disconnected == done * failed
      invariant SentOnceEach(attempts, done, e)
      decreases pending
    {
      var c :| c in pending;
      SentOnceEachExtend(attempts, done, e, c);
      CollectStep(clients, pending, done, failed, disconnected, c);
      attempts := attempts + [Send(c, e)];
      if c in failed {
        disconnected := disconnected + {c};
      }
      done := done + {c};
      pending := pending - {c};
    }
  }

  /** The clean-up loop of proxy.py:141-142: each collected client is removed.
      In this atomic model every one of them is still registered, so Python's
      set.remove never raises here. */
  method RemoveEach(clients: set<Id>, gone: set<Id>) returns (remaining: set<Id>)
    requires gone <= clients
    ensures remaining == clients - gone
    ensures |remaining| == |clients| - |gone|
  {
    remaining := clients;
    var evict := gone;
    while evict != {}
      invariant evict <= gone
      invariant remaining == clients - (gone - evict)
      decreases evict
    {
      var c :| c in evict;
      assert c in remaining;
      remaining := remaining - {c};
      evict := evict - {c};
    }
    assert clients == remaining + gone;
  }

  /** The imperative broadcast of proxy.py:127-142. It issues one send per
      client and leaves the same registry and outbox as `Broadcast`. */
  method BroadcastToClients(clients: set<Id>, e: Envelope, failed: set<Id>)
    returns (attempts: seq<Action>, remaining: set<Id>)
    ensures |attempts| == |clients|
    ensures forall i, j | 0 <= i < j < |attempts| :: attempts[i].to != attempts[j].to
    ensures (set a | a in attempts) == Broadcast(clients, e, failed).sends
    ensures remaining == Broadcast(clients, e, failed).remaining
  {
    if clients == {} {
      return [], clients;
    }
    var disconnected;
    attempts, disconnected := SendToEach(clients, e, failed);
    remaining := RemoveEach(clients, disconnected);
    var sends := Broadcast(clients, e, failed).sends;
    assert sends == set c | c in clients :: Send(c, e);
    assert (set a | a in attempts) == sends;
  }

  /** start (proxy.py:38): the proxy is running; nothing else changes. */
  function OnStart(p: Proxy): (t: Transition)
    ensures t.next.running
    ensures t.next.browser == p.browser && t.next.clients == p.clients
    ensures t.outbox == {}
  {
    Transition(p.(running := true), {})
  }

  /** handle_connection (proxy.py:58-64, 68, 93-104): a connection becomes the
      browser iff the browser slot is empty; otherwise it joins the clients and
      is sent one `status` envelope, whose flag is always true because this
      branch is only reached while a browser is held. */
  function OnConnect(p: Proxy, id: Id): (t: Transition)
    ensures p.browser.None? ==> t.next.browser == Some(id) && t.next.clients == p.clients && t.outbox == {}
    ensures p.browser.Some? ==> t.next.browser == p.browser && t.next.clients == p.clients + {id}
    ensures p.browser.Some? ==> t.outbox == {Send(id, Status(true, ConnectedNotice))}
    ensures t.next.running == p.running
  {
    if p.browser.None? then
      Transition(p.(browser := Some(id)), {})
    else
      var q := p.(clients := p.clients + {id});
      Transition(q, {Send(id, Status(q.browser.Some?, ConnectedNotice))})
  }

  /** The browser's receive loop (proxy.py:73-75): each message is broadcast,
      unchanged, to the current clients; the browser itself is not a recipient. */
  function OnBrowserMessage(p: Proxy, text: string, failed: set<Id>): (t: Transition)
    ensures Recipients(t.outbox) == p.clients
    ensures forall a | a in t.outbox :: a == Send(a.to, Forward(text))
    ensures Valid(p) && p.browser.Some? ==> p.browser.value !in Recipients(t.outbox)
    ensures t.next == p.(clients := p.clients - failed)
    ensures p.clients == {} ==> t == Transition(p, {})
  {
    var f := Broadcast(p.clients, Forward(text), failed);
    Transition(p.(clients := f.remaining), f.sends)
  }

  /** A client's receive loop (proxy.py:108-119): the message goes verbatim to
      the browser when one is held; otherwise the sender alone gets one
      `error` envelope. The registry is not changed. */
  function OnClientMessage(p: Proxy, sender: Id, text: string): (t: Transition)
    ensures t.next == p
    ensures |t.outbox| == 1
    ensures p.browser.Some? ==> t.outbox == {Send(p.browser.value, Forward(text))}
    ensures p.browser.None? ==> t.outbox == {Send(sender, Error(NoBrowserNotice))}
  {
    match p.browser
    case Some(b) => Transition(p, {Send(b, Forward(text))})
    case None => Transition(p, {Send(sender, Error(NoBrowserNotice))})
  }

  /** The browser loop's `finally` (proxy.py:78-88): the slot is cleared, then
      every client is sent one `status` envelope saying the browser is gone. */
  function OnBrowserDisconnect(p: Proxy, failed: set<Id>): (t: Transition)
    ensures t.next.browser.None?
    ensures t.next.clients == p.clients - failed
    ensures t.next.running == p.running
    ensures Recipients(t.outbox) == p.clients
    ensures forall a | a in t.outbox :: a == Send(a.to, Status(false, BrowserGoneNotice))
  {
    var f := Broadcast(p.clients, Status(false, BrowserGoneNotice), failed);
    Transition(Proxy(None, f.remaining, p.running), f.sends)
  }

  /** A client loop's `finally` (proxy.py:122-124), corrected: the client is
      discarded from the set, which is a no-op when a broadcast already evicted
      it (see `RemoveAsWritten` for the code as written). */
  function OnClientDisconnect(p: Proxy, id: Id): (t: Transition)
    ensures t.next.clients == p.clients - {id}
    ensures t.next.browser == p.browser && t.next.running == p.running
    ensures t.outbox == {}
  {
    Transition(p.(clients := p.clients - {id}), {})
  }

  /** The close actions shutdown issues: every client, then the browser if held. */
  function CloseAll(p: Proxy): (closes: set<Action>)
    ensures forall a | a in closes :: a.Close?
    ensures forall id :: id in Recipients(closes) <==> Registered(p, id)
  {
    var cs := set c | c in p.clients :: Close(c);
    var all := if p.browser.Some? then cs + {Close(p.browser.value)} else cs;
    assert forall id | Registered(p, id) :: Close(id) in all;
    all
  }

  /** shutdown (proxy.py:144-163): a no-op unless running; otherwise the flag
      drops and every registered connection is closed. Close failures are
      swallowed, so they change nothing here; the registry itself is emptied
      later, by the disconnect events the closes cause. */
  function OnShutdown(p: Proxy): (t: Transition)
    ensures !t.next.running
    ensures t.next.browser == p.browser && t.next.clients == p.clients
    ensures !p.running ==> t.outbox == {}
    ensures forall a | a in t.outbox :: a.Close?
    ensures forall id :: id in Recipients(t.outbox) <==> p.running && Registered(p, id)
  {
    if !p.running then Transition(p, {})
    else Transition(p.(running := false), CloseAll(p))
  }

  /** One atomic step of the relay. */
  function Step(p: Proxy, e: Event): (t: Transition)
    ensures Valid(p) && Admissible(p, e) ==> Valid(t.next)
    ensures OnePerRecipient(t.outbox)
    ensures p.browser.Some? && t.next.browser.Some? ==> t.next.browser == p.browser
    ensures forall c | c in t.next.clients :: c in p.clients || e == Connect(c)
  {
    match e
    case Start => OnStart(p)
    case Connect(id) => OnConnect(p, id)
    case BrowserMessage(text, failed) => OnBrowserMessage(p, text, failed)
    case ClientMessage(sender, text) => OnClientMessage(p, sender, text)
    case BrowserDisconnect(failed) => OnBrowserDisconnect(p, failed)
    case ClientDisconnect(id) => OnClientDisconnect(p, id)
    case Shutdown => OnShutdown(p)
  }

  /** The registry after a sequence of events. */
  function Run(p: Proxy, events: seq<Event>): Proxy
    decreases |events|
  {
    if events == [] then p else Run(Step(p, events[0]).next, events[1..])
  }

  /** The outbox of every step of a sequence of events, in order: outbox `k`
      is what event `k` emits from the registry the earlier events left. Over
      a whole trace, no step addresses a connection twice. */
  function Outboxes(p: Proxy, events: seq<Event>): (r: seq<set<Action>>)
    ensures |r| == |events|
    ensures forall k | 0 <= k < |r| :: r[k] == Step(Run(p, events[..k]), events[k]).outbox
    ensures forall k | 0 <= k < |r| :: OnePerRecipient(r[k])
    decreases |events|
  {
    if events == [] then []
    else
      var q := Step(p, events[0]).next;
      var rest := Outboxes(q, events[1..]);
      var r := [Step(p, events[0]).outbox] + rest;
      assert forall k | 1 <= k < |r| ::
        (r[k] == rest[k - 1] && events[k] == events[1..][k - 1] && Run(p, events[..k]) == Run(q, events[1..][..k - 1])) by {
        forall k | 1 <= k < |r|
          ensures Run(p, events[..k]) == Run(q, events[1..][..k - 1])
        {
          assert events[..k][0] == events[0] && events[..k][1..] == events[1..][..k - 1];
        }
      }
      assert Run(p, events[..0]) == p;
      r
  }

  /** Every connect event of the sequence brings a connection not yet registered. */
  predicate FreshConnects(p: Proxy, events: seq<Event>)
    decreases |events|
  {
    events == [] || (Admissible(p, events[0]) && FreshConnects(Step(p, events[0]).next, events[1..]))
  }

  /** The registry invariant holds after any sequence of events with fresh connects. */
  lemma {:induction false} RunKeepsValid(p: Proxy, events: seq<Event>)
    requires Valid(p)
    requires FreshConnects(p, events)
    ensures Valid(Run(p, events))
    decreases |events|
  {
    if events != [] {
      RunKeepsValid(Step(p, events[0]).next, events[1..]);
    }
  }

  // ---------------------------------------------------------------------------
  // The code as written: proxy.py:124 uses set.remove.

  datatype Fault = KeyError(id: Id)

  /** Python's `set.remove`, as proxy.py:124 calls it: it raises KeyError when
      the element is absent. */
  function RemoveAsWritten(clients: set<Id>, id: Id): (r: Result<set<Id>, Fault>)
    ensures r.Success? <==> id in clients
    ensures r.Success? ==> r.value == clients - {id} && |r.value| == |clients| - 1
    ensures r.Failure? ==> r.error == KeyError(id)
  {
    if id in clients then Success(clients - {id}) else Failure(KeyError(id))
  }

  /** `Step` with the client clean-up as written. */
  function StepAsWritten(p: Proxy, e: Event): (r: Result<Transition, Fault>)
    ensures r.Failure? <==> e.ClientDisconnect? && e.id !in p.clients
    ensures r.Success? ==> r.value == Step(p, e)
  {
    match e
    case ClientDisconnect(id) =>
      (match RemoveAsWritten(p.clients, id)
       case Success(rest) => Success(Transition(p.(clients := rest), {}))
       case Failure(fault) => Failure(fault))
    case _ => Success(Step(p, e))
  }
}
