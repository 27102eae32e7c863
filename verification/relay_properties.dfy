/**
 * Properties of the relay that relate several events or hold of every
 * registry: role assignment, exact fan-out, the no-browser path, browser
 * loss, idempotent shutdown and release, and the removal fault of the code
 * as written.
 */
module RelayProperties {
  import opened Wrappers
  import opened Relay

  /** A new connection becomes the browser iff no browser is held, and a
      client iff one is; it is never both. */
  lemma RoleAssignment(p: Proxy, id: Id)
    requires Valid(p)
    requires !Registered(p, id)
    ensures var q := Step(p, Connect(id)).next;
      && (q.browser == Some(id) <==> p.browser.None?)
      && (id in q.clients <==> p.browser.Some?)
      && Valid(q)
  {
  }

  /** The `status` envelope a new client receives reports the browser held after
      the step; on this path that flag is always true. */
  lemma ClientStatusMatchesBrowser(p: Proxy, id: Id)
    requires p.browser.Some?
    ensures var t := Step(p, Connect(id));
      && Recipients(t.outbox) == {id}
      && forall a | a in t.outbox :: a.Send? && a.envelope.Status? && a.envelope.connected == t.next.browser.Some?
  {
  }

  /** A browser message reaches exactly the clients registered when it is
      handled, verbatim, and never the browser. */
  lemma FanoutReachesExactlyClients(p: Proxy, text: string, failed: set<Id>)
    requires Valid(p)
    ensures var t := Step(p, BrowserMessage(text, failed));
      && (forall id :: Send(id, Forward(text)) in t.outbox <==> id in p.clients)
      && (forall a | a in t.outbox :: a == Send(a.to, Forward(text)))
      && (p.browser.Some? ==> p.browser.value !in Recipients(t.outbox))
  {
  }

  /** A failing send does not stop the broadcast: every client is sent the
      message, and afterwards exactly the failed clients are gone. */
  lemma FailedSendsEvictExactlyThose(p: Proxy, text: string, failed: set<Id>)
    ensures var t := Step(p, BrowserMessage(text, failed));
      forall c | c in p.clients :: c in Recipients(t.outbox) && (c in t.next.clients <==> c !in failed)
  {
  }

  /** Without a browser a client message reaches nobody but its sender, who
      gets exactly one `error` envelope. */
  lemma NoBrowserRepliesOnlyToSender(p: Proxy, sender: Id, text: string)
    requires p.browser.None?
    ensures var t := Step(p, ClientMessage(sender, text));
      && t.next == p
      && Recipients(t.outbox) == {sender}
      && forall a | a in t.outbox :: a == Send(sender, Error(NoBrowserNotice))
  {
  }

  /** With a browser held, a client message goes verbatim to the browser only. */
  lemma ClientMessageReachesBrowser(p: Proxy, sender: Id, text: string)
    requires p.browser.Some?
    ensures var t := Step(p, ClientMessage(sender, text));
      && t.next == p
      && Recipients(t.outbox) == {p.browser.value}
      && forall a | a in t.outbox :: a == Send(p.browser.value, Forward(text))
  {
  }

  /** When the browser goes, every client then registered is sent exactly one
      `status` envelope with `connected` false, and the next new connection
      takes the browser slot rather than any existing client being promoted. */
  lemma BrowserLossThenNextConnectionIsBrowser(p: Proxy, failed: set<Id>, id: Id)
    requires Valid(p)
    requires !Registered(p, id)
    ensures var t := Step(p, BrowserDisconnect(failed));
      && (forall c | c in p.clients :: Send(c, Status(false, BrowserGoneNotice)) in t.outbox)
      && OnePerRecipient(t.outbox)
      && Step(t.next, Connect(id)).next.browser == Some(id)
      && Step(t.next, Connect(id)).next.clients == p.clients - failed
  {
  }

  /** Shutdown twice has the effect of shutdown once. */
  lemma ShutdownIdempotent(p: Proxy)
    ensures var t := Step(p, Shutdown);
      Step(t.next, Shutdown) == Transition(t.next, {})
  {
  }

  /** Releasing a client twice is the same as releasing it once (the corrected
      clean-up of proxy.py:124). */
  lemma ClientReleaseIdempotent(p: Proxy, id: Id)
    ensures var t := Step(p, ClientDisconnect(id));
      Step(t.next, ClientDisconnect(id)) == Transition(t.next, {})
  {
  }

  /** As written, the clean-up of proxy.py:124 faults for any client that a
      failed broadcast send already evicted at proxy.py:142. */
  lemma EvictedClientReleaseFaults(p: Proxy, c: Id, text: string, failed: set<Id>)
    requires c in p.clients && c in failed
    ensures var q := Step(p, BrowserMessage(text, failed)).next;
      StepAsWritten(q, ClientDisconnect(c)) == Failure(KeyError(c))
  {
  }

  /** The concrete trace: browser 0 and client 1 connect, the browser sends
      "x" and the send to 1 fails, then client 1's loop ends. */
  lemma EvictionTraceFaults()
    ensures var q := Run(Initial, [Start, Connect(0), Connect(1), BrowserMessage("x", {1})]);
      q.clients == {} && StepAsWritten(q, ClientDisconnect(1)) == Failure(KeyError(1))
  {
  }

  /** Scenario: A (0) connects first and is the browser, B (1) and C (2) are
      clients; A's message reaches B and C verbatim and nothing goes to A. */
  lemma FanoutScenario(payload: string)
    ensures var p := Run(Initial, [Start, Connect(0), Connect(1), Connect(2)]);
      && p == Proxy(Some(0), {1, 2}, true)
      && Step(p, BrowserMessage(payload, {})).outbox == {Send(1, Forward(payload)), Send(2, Forward(payload))}
  {
  }

  /** Scenario: A (0) browser, B (1) client; A leaves and B is told once; C (2)
      connects and becomes the browser; B's next message reaches C. */
  lemma BrowserReplacementScenario(payload: string)
    ensures var p := Run(Initial, [Start, Connect(0), Connect(1)]);
      var t := Step(p, BrowserDisconnect({}));
      var q := Step(t.next, Connect(2)).next;
      && t.outbox == {Send(1, Status(false, BrowserGoneNotice))}
      && q == Proxy(Some(2), {1}, true)
      && Step(q, ClientMessage(1, payload)).outbox == {Send(2, Forward(payload))}
  {
  }

  /** The first connection after start takes the browser slot, whichever
      program opened it: there is no client without a browser until the
      browser has left. */
  lemma FirstConnectionIsBrowser(id: Id)
    ensures Run(Initial, [Start, Connect(id)]) == Proxy(Some(id), {}, true)
  {
    var es: seq<Event> := [Start, Connect(id)];
    var p1 := Step(Initial, Start).next;
    var p2 := Step(p1, Connect(id)).next;
    assert p2 == Proxy(Some(id), {}, true);
    assert Run(p1, es[1..]) == Run(p2, []);
  }

  /** Scenario: browser 0 leaves while client 1 stays; 1's message then comes
      back to 1 alone as one `error` envelope. */
  lemma NoBrowserScenario(payload: string)
    ensures var p := Run(Initial, [Start, Connect(0), Connect(1), BrowserDisconnect({})]);
      && p == Proxy(None, {1}, true)
      && Step(p, ClientMessage(1, payload)) == Transition(p, {Send(1, Error(NoBrowserNotice))})
  {
  }
}
