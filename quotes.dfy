/**
 * The live-quote side of the stock ticker backend: the registry of open
 * WebSocket connections and the symbols each one follows, the handling of one
 * inbound client message, and one tick of the periodic price push.
 *
 * Connections are opaque ids. The Yahoo Finance lookup is the parameter
 * `fetch`, which either yields a quote or fails; whether sending a message on
 * a connection succeeds is the parameter `sendOk`. A message sent to a client
 * is appended to `outbox`.
 */
module Quotes {
  import opened Common

  type ConnId = nat

  /** A quote as produced by the lookup; the fields beyond the symbol are not modelled. */
  datatype Quote = Quote(symbol: string)

  /** A JSON message pushed to a client. */
  datatype Push = QuotePush(quote: Quote) | ErrorPush(message: string)

  /** A field of an inbound JSON object: missing, a string, or any other JSON value. */
  datatype Field = Absent | Str(text: string) | NonStr

  /** What `json.loads` makes of an inbound text frame. */
  datatype Json = Unparseable | NotObject | Object(action: Field, symbol: Field)

  /** One thing `receive_text` can produce: a text frame, or the client going away. */
  datatype Event = Text(msg: Json) | ClientClosed

  /** How the endpoint loop goes on after one event. */
  datatype Outcome =
    | Continue       // waits for the next frame
    | Escaped        // an exception other than WebSocketDisconnect left the endpoint
    | Disconnected   // WebSocketDisconnect was caught and the connection unregistered

  type Registry = map<ConnId, set<string>>

  // ---------------------------------------------------------------------------
  // Upper-casing (`str.upper` restricted to ASCII)

  function UpperChar(c: char): char
  {
    if 'a' <= c <= 'z' then (c as int - 32) as char else c
  }

  predicate IsUpper(s: string)
  {
    forall i :: 0 <= i < |s| ==> !('a' <= s[i] <= 'z')
  }

  function Upper(s: string): (r: string)
    ensures |r| == |s| && IsUpper(r)
    ensures forall i :: 0 <= i < |s| && 'a' <= s[i] <= 'z' ==> r[i] as int == s[i] as int - 32
    ensures forall i :: 0 <= i < |s| && !('a' <= s[i] <= 'z') ==> r[i] == s[i]
  {
    seq(|s|, i requires 0 <= i < |s| => UpperChar(s[i]))
  }

  /** Upper-casing an upper-case string changes nothing, so `symbol.upper()` twice is once. */
  lemma UpperOfUpper(s: string)
    requires IsUpper(s)
    ensures Upper(s) == s
  {
    assert forall i :: 0 <= i < |s| ==> Upper(s)[i] == s[i];
  }

  lemma UpperIdempotent(s: string)
    ensures Upper(Upper(s)) == Upper(s)
  {
    UpperOfUpper(Upper(s));
  }

  /** "aapl" and "AAPL" name the same subscription. */
  lemma UpperExample()
    ensures Upper("aapl") == "AAPL" && Upper("AAPL") == "AAPL"
  {
    assert Upper("aapl")[0] == 'A' && Upper("aapl")[1] == 'A' && Upper("aapl")[2] == 'P' && Upper("aapl")[3] == 'L';
    UpperOfUpper("AAPL");
  }

  // ---------------------------------------------------------------------------
  // Registry operations as functions on the registry map

  function ConnectSpec(a: Registry, ws: ConnId): (r: Registry)
    ensures r.Keys == a.Keys + {ws} && r[ws] == {}
    ensures forall c :: c in a && c != ws ==> r[c] == a[c]
  {
    a[ws := {}]
  }

  function DisconnectSpec(a: Registry, ws: ConnId): (r: Registry)
    ensures r.Keys == a.Keys - {ws}
    ensures forall c :: c in r ==> r[c] == a[c]
  {
    a - {ws}
  }

  function SubscribeSpec(a: Registry, ws: ConnId, symbol: string): (r: Registry)
    ensures r.Keys == a.Keys
    ensures ws in a ==> r[ws] == a[ws] + {Upper(symbol)}
    ensures forall c :: c in a && c != ws ==> r[c] == a[c]
    ensures ws !in a ==> r == a
  {
    if ws in a then a[ws := a[ws] + {Upper(symbol)}] else a
  }

  function UnsubscribeSpec(a: Registry, ws: ConnId, symbol: string): (r: Registry)
    ensures r.Keys == a.Keys
    ensures ws in a ==> r[ws] == a[ws] - {Upper(symbol)}
    ensures forall c :: c in a && c != ws ==> r[c] == a[c]
    ensures ws !in a ==> r == a
  {
    if ws in a then a[ws := a[ws] - {Upper(symbol)}] else a
  }

  /**
   * Subscribing to a symbol the connection did not follow and then
   * unsubscribing from any spelling of it with the same upper case gives back
   * the registry from before.
   */
  lemma SubscribeThenUnsubscribe(a: Registry, ws: ConnId, s1: string, s2: string)
    requires Upper(s1) == Upper(s2)
    requires ws in a ==> Upper(s1) !in a[ws]
    ensures UnsubscribeSpec(SubscribeSpec(a, ws, s1), ws, s2) == a
  {
    if ws in a {
      var b := UnsubscribeSpec(SubscribeSpec(a, ws, s1), ws, s2);
      assert b[ws] == a[ws];
      assert b.Keys == a.Keys;
      assert forall c :: c in a ==> b[c] == a[c];
    }
  }

  lemma SubscribeAaplUnsubscribeAapl(a: Registry, ws: ConnId)
    requires ws in a ==> "AAPL" !in a[ws]
    ensures UnsubscribeSpec(SubscribeSpec(a, ws, "aapl"), ws, "AAPL") == a
  {
    UpperExample();
    SubscribeThenUnsubscribe(a, ws, "aapl", "AAPL");
  }

  // ---------------------------------------------------------------------------
  // Decoding one inbound event into what the endpoint does with it

  datatype Action =
    | Ignore                    // no matching action, or a subscribe without a symbol
    | Sub(symbol: string)       // subscribe, then push one quote or one error
    | Unsub(symbol: string)     // unsubscribe, push nothing
    | Escape                    // an exception leaves the endpoint
    | Close                     // WebSocketDisconnect: unregister and stop

  function Decode(ev: Event): (r: Action)
    ensures r.Close? <==> ev.ClientClosed?
    ensures r.Sub? ==> r.symbol != [] && IsUpper(r.symbol)
    ensures r.Sub? ==> ev.Text? && ev.msg.Object? && ev.msg.action == Str("subscribe")
    ensures r.Unsub? ==> IsUpper(r.symbol) && ev.Text? && ev.msg.Object? && ev.msg.action == Str("unsubscribe")
    ensures ev.Text? && (ev.msg.Unparseable? || ev.msg.NotObject?) ==> r.Escape?
    ensures (ev.Text? && ev.msg.Object? && ev.msg.action != Str("subscribe") && ev.msg.action != Str("unsubscribe"))
              ==> r.Ignore?
  {
    match ev
    case ClientClosed => Close
    case Text(Unparseable) => Escape
    case Text(NotObject) => Escape
    case Text(Object(action, symbol)) =>
      if action != Str("subscribe") && action != Str("unsubscribe") then Ignore
      else if symbol.NonStr? then Escape
      else
        var s := Upper(if symbol.Str? then symbol.text else "");
        if action == Str("unsubscribe") then Unsub(s)
        else if s == [] then Ignore
        else Sub(s)
  }

  /** A subscribe message with a missing or empty symbol does nothing at all. */
  lemma SubscribeWithoutSymbolIgnored(f: Field)
    requires f == Absent || f == Str("")
    ensures Decode(Text(Object(Str("subscribe"), f))) == Ignore
  {
  }

  /** A subscribe with a non-empty string symbol subscribes to its upper-cased form. */
  lemma SubscribeDecodes(sym: string)
    requires sym != []
    ensures Decode(Text(Object(Str("subscribe"), Str(sym)))) == Sub(Upper(sym))
  {
  }

  /** The one message pushed right after a subscribe. */
  function InitialPush(symbol: string, fetch: string -> Option<Quote>): (p: Push)
    ensures fetch(symbol).Some? <==> p.QuotePush?
    ensures fetch(symbol).Some? ==> p.quote == fetch(symbol).value
    ensures fetch(symbol).None? ==> p.message == "Invalid symbol: " + symbol
  {
    match fetch(symbol)
    case Some(q) => QuotePush(q)
    case None => ErrorPush("Invalid symbol: " + symbol)
  }

  /** The registry after one event. */
  function StepRegistry(a: Registry, ws: ConnId, ev: Event): (r: Registry)
  {
    match Decode(ev)
    case Sub(s) => SubscribeSpec(a, ws, s)
    case Unsub(s) => UnsubscribeSpec(a, ws, s)
    case Close => DisconnectSpec(a, ws)
    case _ => a
  }

  /** An event on one connection never changes any other connection's symbol set. */
  lemma StepKeepsOthers(a: Registry, ws: ConnId, ev: Event, c: ConnId)
    requires c in a && c != ws
    ensures c in StepRegistry(a, ws, ev) && StepRegistry(a, ws, ev)[c] == a[c]
  {
  }

  /** Only a ClientClosed event removes a connection; no event adds one. */
  lemma StepKeys(a: Registry, ws: ConnId, ev: Event)
    ensures StepRegistry(a, ws, ev).Keys == if ev.ClientClosed? then a.Keys - {ws} else a.Keys
  {
  }

  /** What the endpoint sends right after a subscribe, and whether an exception then leaves it. */
  datatype Reply = Reply(sent: seq<(ConnId, Push)>, escaped: bool)

  /**
   * The sends after a subscribe. The lookup and the quote send share one
   * `try`, so a failed lookup or a failed quote send is answered with the
   * "Invalid symbol" error; when that send fails too, the exception leaves the
   * endpoint. `sendOk(ws, p)` says whether sending `p` on `ws` succeeds.
   */
  function SubscribeReply(ws: ConnId, symbol: string, fetch: string -> Option<Quote>,
                          sendOk: (ConnId, Push) -> bool): (r: Reply)
    ensures r.escaped <==> !sendOk(ws, InitialPush(symbol, fetch)) && !sendOk(ws, ErrorPush("Invalid symbol: " + symbol))
    ensures r.escaped ==> r.sent == []
    ensures !r.escaped ==> |r.sent| == 1 && r.sent[0].0 == ws && sendOk(ws, r.sent[0].1)
    ensures r.sent == [(ws, InitialPush(symbol, fetch))] <==> sendOk(ws, InitialPush(symbol, fetch))
    ensures forall p :: p in r.sent ==> p.1 == InitialPush(symbol, fetch) || p.1 == ErrorPush("Invalid symbol: " + symbol)
  {
    var err := ErrorPush("Invalid symbol: " + symbol);
    var fallback := if sendOk(ws, err) then Reply([(ws, err)], false) else Reply([], true);
    match fetch(symbol)
    case Some(q) => if sendOk(ws, QuotePush(q)) then Reply([(ws, QuotePush(q))], false) else fallback
    case None => fallback
  }

  /** How the receive loop goes on after one event. */
  function StepOutcome(ws: ConnId, ev: Event, fetch: string -> Option<Quote>, sendOk: (ConnId, Push) -> bool)
    : (o: Outcome)
    ensures o == Disconnected <==> ev.ClientClosed?
    ensures o == Escaped <==>
      Decode(ev).Escape? || (Decode(ev).Sub? && SubscribeReply(ws, Decode(ev).symbol, fetch, sendOk).escaped)
  {
    match Decode(ev)
    case Close => Disconnected
    case Escape => Escaped
    case Sub(s) => if SubscribeReply(ws, s, fetch, sendOk).escaped then Escaped else Continue
    case _ => Continue
  }

  /** The messages one event sends: only a subscribe sends anything, and only on its own connection. */
  function StepPushes(ws: ConnId, ev: Event, fetch: string -> Option<Quote>, sendOk: (ConnId, Push) -> bool)
    : (r: seq<(ConnId, Push)>)
    ensures |r| <= 1
    ensures forall k :: 0 <= k < |r| ==> r[k].0 == ws
    ensures !Decode(ev).Sub? ==> r == []
  {
    if Decode(ev).Sub? then SubscribeReply(ws, Decode(ev).symbol, fetch, sendOk).sent else []
  }

  /** The state after the endpoint has served a sequence of events. */
  datatype Served = Served(active: Registry, outbox: seq<(ConnId, Push)>, outcome: Outcome, handled: nat)

  /**
   * The receive loop on values: from registry `a` and outbox `out`, with `n`
   * events handled so far, handle `events` in order until one ends the loop.
   */
  function Run(a: Registry, out: seq<(ConnId, Push)>, n: nat, ws: ConnId, events: seq<Event>,
               fetch: string -> Option<Quote>, sendOk: (ConnId, Push) -> bool): (r: Served)
    ensures n <= r.handled <= n + |events|
    ensures r.outcome == Continue ==> r.handled == n + |events|
    ensures r.outcome != Continue ==> n < r.handled
    decreases |events|
  {
    if events == [] then Served(a, out, Continue, n)
    else
      var a' := StepRegistry(a, ws, events[0]);
      var out' := out + StepPushes(ws, events[0], fetch, sendOk);
      var o := StepOutcome(ws, events[0], fetch, sendOk);
      if o == Continue then
        Run(a', out', n + 1, ws, events[1..], fetch, sendOk)
      else Served(a', out', o, n + 1)
  }

  /** The endpoint only appends to the outbox, and only messages on its own connection. */
  lemma {:induction false} RunOnlySendsOnWs(a: Registry, out: seq<(ConnId, Push)>, n: nat, ws: ConnId, events: seq<Event>,
                                            fetch: string -> Option<Quote>, sendOk: (ConnId, Push) -> bool)
    ensures var r := Run(a, out, n, ws, events, fetch, sendOk);
      |out| <= |r.outbox| && r.outbox[..|out|] == out && forall k :: |out| <= k < |r.outbox| ==> r.outbox[k].0 == ws
    decreases |events|
  {
    if events != [] {
      var out' := out + StepPushes(ws, events[0], fetch, sendOk);
      assert out'[..|out|] == out;
      if StepOutcome(ws, events[0], fetch, sendOk) == Continue {
        var r := Run(StepRegistry(a, ws, events[0]), out', n + 1, ws, events[1..], fetch, sendOk);
        RunOnlySendsOnWs(StepRegistry(a, ws, events[0]), out', n + 1, ws, events[1..], fetch, sendOk);
        assert r.outbox[..|out|] == r.outbox[..|out'|][..|out|];
      }
    }
  }

  /** However the endpoint of one connection ends, every other connection keeps its symbols. */
  lemma {:induction false} RunKeepsOthers(a: Registry, out: seq<(ConnId, Push)>, n: nat, ws: ConnId, events: seq<Event>,
                                          fetch: string -> Option<Quote>, sendOk: (ConnId, Push) -> bool, c: ConnId)
    requires c in a && c != ws
    ensures c in Run(a, out, n, ws, events, fetch, sendOk).active
    ensures Run(a, out, n, ws, events, fetch, sendOk).active[c] == a[c]
    decreases |events|
  {
    if events != [] {
      StepKeepsOthers(a, ws, events[0], c);
      var a' := StepRegistry(a, ws, events[0]);
      if StepOutcome(ws, events[0], fetch, sendOk) == Continue {
        RunKeepsOthers(a', out + StepPushes(ws, events[0], fetch, sendOk), n + 1, ws, events[1..], fetch, sendOk, c);
      }
    }
  }

  // ---------------------------------------------------------------------------
  // Tick pushes

  /** The pushes a tick makes for the visited (connection, symbol) pairs, in order. */
  function TickPushes(visited: seq<(ConnId, string)>, fetch: string -> Option<Quote>, sendOk: (ConnId, Push) -> bool)
    : (r: seq<(ConnId, Push)>)
    ensures |r| <= |visited|
  {
    if visited == [] then []
    else
      var last := visited[|visited| - 1];
      var q := fetch(last.1);
      TickPushes(visited[..|visited| - 1], fetch, sendOk)
        + (if q.Some? && sendOk(last.0, QuotePush(q.value)) then [(last.0, QuotePush(q.value))] else [])
  }

  /** Every pushed message of a tick is a quote from the lookup for a visited pair, sent to that pair's connection. */
  lemma {:induction false} TickPushesFromVisited(visited: seq<(ConnId, string)>, fetch: string -> Option<Quote>,
                                                  sendOk: (ConnId, Push) -> bool, k: nat)
    requires k < |TickPushes(visited, fetch, sendOk)|
    ensures var p := TickPushes(visited, fetch, sendOk)[k];
      p.1.QuotePush? && sendOk(p.0, p.1) &&
      exists j :: 0 <= j < |visited| && visited[j].0 == p.0 && fetch(visited[j].1) == Some(p.1.quote)
  {
    var init := visited[..|visited| - 1];
    var last := visited[|visited| - 1];
    if k < |TickPushes(init, fetch, sendOk)| {
      TickPushesFromVisited(init, fetch, sendOk, k);
      var p := TickPushes(visited, fetch, sendOk)[k];
      var j :| 0 <= j < |init| && init[j].0 == p.0 && fetch(init[j].1) == Some(p.1.quote);
      assert visited[j] == init[j];
    } else {
      assert visited[|visited| - 1] == last;
    }
  }

  lemma {:induction false} TickPushesAppend(v: seq<(ConnId, string)>, w: seq<(ConnId, string)>,
                                            fetch: string -> Option<Quote>, sendOk: (ConnId, Push) -> bool)
    ensures TickPushes(v + w, fetch, sendOk) == TickPushes(v, fetch, sendOk) + TickPushes(w, fetch, sendOk)
  {
    if w != [] {
      var w' := w[..|w| - 1];
      assert (v + w)[..|v + w| - 1] == v + w';
      assert (v + w)[|v + w| - 1] == w[|w| - 1];
      TickPushesAppend(v, w', fetch, sendOk);
    } else {
      assert v + w == v;
    }
  }

  /** v holds once each pair of a whose connection is not in todo, and nothing else. */
  ghost predicate CountsPairs(v: seq<(ConnId, string)>, a: Registry, todo: set<ConnId>)
  {
    forall p :: multiset(v)[p] == (if p.0 in a && p.0 !in todo && p.1 in a[p.0] then 1 else 0)
  }

  /** Before any connection is visited, no pair has been. */
  lemma CountsNone(a: Registry)
    ensures CountsPairs([], a, a.Keys)
  {
  }

  /** Once every connection is visited, each pair of the registry has been, once. */
  lemma CountsAll(v: seq<(ConnId, string)>, a: Registry)
    requires CountsPairs(v, a, {})
    ensures forall p :: multiset(v)[p] == if p.0 in a && p.1 in a[p.0] then 1 else 0
  {
    forall p
      ensures multiset(v)[p] == if p.0 in a && p.1 in a[p.0] then 1 else 0
    {
      assert multiset(v)[p] == (if p.0 in a && p.0 !in {} && p.1 in a[p.0] then 1 else 0);
    }
  }

  /** Adding one more connection's pairs to the pairs of the connections already visited. */
  lemma CountStep(v: seq<(ConnId, string)>, part: seq<(ConnId, string)>, a: Registry, todo: set<ConnId>, c: ConnId)
    requires c in a && c in todo
    requires CountsPairs(v, a, todo)
    requires forall p :: multiset(part)[p] == (if p.0 == c && p.1 in a[c] then 1 else 0)
    ensures CountsPairs(v + part, a, todo - {c})
  {
    forall p
      ensures multiset(v + part)[p] == (if p.0 in a && p.0 !in todo - {c} && p.1 in a[p.0] then 1 else 0)
    {
      assert multiset(v + part)[p] == multiset(v)[p] + multiset(part)[p];
    }
  }

  /** Adding one more symbol of connection c to the pairs already visited. */
  lemma PartStep(prev: seq<(ConnId, string)>, c: ConnId, s: string, symbols: set<string>, rest: set<string>)
    requires s in rest && rest <= symbols
    requires forall p :: multiset(prev)[p] == if p.0 == c && p.1 in symbols && p.1 !in rest then 1 else 0
    ensures forall p :: multiset(prev + [(c, s)])[p] == if p.0 == c && p.1 in symbols && p.1 !in rest - {s} then 1 else 0
  {
    forall p
      ensures multiset(prev + [(c, s)])[p] == if p.0 == c && p.1 in symbols && p.1 !in rest - {s} then 1 else 0
    {
      assert multiset(prev + [(c, s)])[p] == multiset(prev)[p] + multiset{(c, s)}[p];
    }
  }

  // ---------------------------------------------------------------------------
  // The connection manager

  class ConnectionManager {
    /** `active_connections`: each live connection and the upper-cased symbols it follows. */
    var active: Registry
    /** Every message sent so far, with the connection it was sent on. */
    var outbox: seq<(ConnId, Push)>

    constructor ()
      ensures active == map[] && outbox == []
    {
      active := map[];
      outbox := [];
    }

    /** Registers (or re-registers) a connection with an empty symbol set. */
    method Connect(ws: ConnId)
      modifies this`active
      ensures active == ConnectSpec(old(active), ws)
    {
      active := active[ws := {}];
    }

    /** Forgets a connection and its symbols; nothing happens for an unknown one. */
    method Disconnect(ws: ConnId)
      modifies this`active
      ensures active == DisconnectSpec(old(active), ws)
    {
      if ws in active {
        active := active - {ws};
      }
    }

    method Subscribe(ws: ConnId, symbol: string)
      modifies this`active
      ensures active == SubscribeSpec(old(active), ws, symbol)
    {
      if ws in active {
        active := active[ws := active[ws] + {Upper(symbol)}];
      }
    }

    method Unsubscribe(ws: ConnId, symbol: string)
      modifies this`active
      ensures active == UnsubscribeSpec(old(active), ws, symbol)
    {
      if ws in active {
        active := active[ws := active[ws] - {Upper(symbol)}];
      }
    }

    method SendUpdate(ws: ConnId, p: Push)
      modifies this`outbox
      ensures outbox == old(outbox) + [(ws, p)]
    {
      outbox := outbox + [(ws, p)];
    }

    /** One pass of the endpoint's receive loop. */
    method HandleEvent(ws: ConnId, ev: Event, fetch: string -> Option<Quote>, sendOk: (ConnId, Push) -> bool)
      returns (o: Outcome)
      modifies this`active, this`outbox
      ensures o == StepOutcome(ws, ev, fetch, sendOk)
      ensures active == StepRegistry(old(active), ws, ev)
      ensures outbox == old(outbox) + StepPushes(ws, ev, fetch, sendOk)
    {
      var action := Decode(ev);
      match action
      case Sub(symbol) =>
        Subscribe(ws, symbol);
        var err := ErrorPush("Invalid symbol: " + symbol);
        var q := fetch(symbol);
        if q.Some? && sendOk(ws, QuotePush(q.value)) {
          SendUpdate(ws, QuotePush(q.value));
          o := Continue;
        } else if sendOk(ws, err) {
          SendUpdate(ws, err);
          o := Continue;
        } else {
          o := Escaped;
        }
      case Unsub(symbol) =>
        Unsubscribe(ws, symbol);
        o := Continue;
      case Ignore =>
        o := Continue;
      case Escape =>
        o := Escaped;
      case Close =>
        Disconnect(ws);
        o := Disconnected;
    }

    /**
     * `websocket_endpoint`: register the connection, then handle events until
     * one ends the loop or the given events run out. An escaping exception
     * leaves the connection registered.
     */
    method Serve(ws: ConnId, events: seq<Event>, fetch: string -> Option<Quote>, sendOk: (ConnId, Push) -> bool)
      returns (o: Outcome, handled: nat)
      modifies this`active, this`outbox
      ensures Served(active, outbox, o, handled) == Run(ConnectSpec(old(active), ws), old(outbox), 0, ws, events, fetch, sendOk)
      ensures o == Continue ==> handled == |events| && ws in active
      ensures o != Continue ==> handled > 0 && o == (if events[handled - 1].ClientClosed? then Disconnected else Escaped)
      ensures o == Disconnected ==> ws !in active
      ensures o == Escaped ==> ws in active
    {
      Connect(ws);
      ghost var target := Run(active, outbox, 0, ws, events, fetch, sendOk);
      assert events[0..] == events;
      o := Continue;
      handled := 0;
      while handled < |events| && o == Continue
        invariant handled <= |events|
        invariant o == Continue ==> Run(active, outbox, handled, ws, events[handled..], fetch, sendOk) == target
        invariant o != Continue ==> Served(active, outbox, o, handled) == target
        invariant o == Continue ==> ws in active
        invariant o != Continue ==> handled > 0 && o == (if events[handled - 1].ClientClosed? then Disconnected else Escaped)
        invariant o == Disconnected ==> ws !in active
        invariant o == Escaped ==> ws in active
      {
        ghost var rest := events[handled..];
        assert rest[0] == events[handled] && rest[1..] == events[handled + 1..];
        o := HandleEvent(ws, events[handled], fetch, sendOk);
        handled := handled + 1;
      }
    }

    /** The inner loop of a tick: fetch and push every symbol of one connection. */
    method TickConnection(c: ConnId, symbols: set<string>, fetch: string -> Option<Quote>, sendOk: (ConnId, Push) -> bool)
      returns (part: seq<(ConnId, string)>)
      modifies this`outbox
      ensures forall p :: multiset(part)[p] == if p.0 == c && p.1 in symbols then 1 else 0
      ensures outbox == old(outbox) + TickPushes(part, fetch, sendOk)
    {
      part := [];
      var rest := symbols;
      while rest != {}
        decreases |rest|
        invariant rest <= symbols
        invariant forall p :: multiset(part)[p] == if p.0 == c && p.1 in symbols && p.1 !in rest then 1 else 0
        invariant outbox == old(outbox) + TickPushes(part, fetch, sendOk)
      {
        var s :| s in rest;
        PartStep(part, c, s, symbols, rest);
        TickPushesAppend(part, [(c, s)], fetch, sendOk);
        assert TickPushes([(c, s)], fetch, sendOk) == TickPushes([], fetch, sendOk) + (if fetch(s).Some? && sendOk(c, QuotePush(fetch(s).value)) then [(c, QuotePush(fetch(s).value))] else []);
        rest := rest - {s};
        part := part + [(c, s)];
        var q := fetch(s);
        if q.Some? && sendOk(c, QuotePush(q.value)) {
          outbox := outbox + [(c, QuotePush(q.value))];
        }
      }
    }

    /**
     * One tick of `price_updater`: walk a snapshot of the registry and, for
     * every (connection, symbol) pair, fetch a quote and push it; a failed
     * fetch or a failed send is swallowed. `visited` lists the pairs in the
     * order they were fetched, one fetch per pair.
     */
    method Tick(fetch: string -> Option<Quote>, sendOk: (ConnId, Push) -> bool) returns (visited: seq<(ConnId, string)>)
      modifies this`outbox
      ensures forall p :: multiset(visited)[p] == if p.0 in active && p.1 in active[p.0] then 1 else 0
      ensures outbox == old(outbox) + TickPushes(visited, fetch, sendOk)
    {
      visited := [];
      ghost var start := outbox;
      var snapshot := active;
      var todo := snapshot.Keys;
      CountsNone(snapshot);
      while todo != {}
        decreases |todo|
        invariant active == snapshot && todo <= snapshot.Keys
        invariant CountsPairs(visited, snapshot, todo)
        invariant outbox == start + TickPushes(visited, fetch, sendOk)
      {
        var c :| c in todo;
        ghost var before := outbox;
        var part := TickConnection(c, snapshot[c], fetch, sendOk);
        TickPushesAppend(visited, part, fetch, sendOk);
        assert outbox == before + TickPushes(part, fetch, sendOk);
        assert outbox == start + TickPushes(visited + part, fetch, sendOk);
        CountStep(visited, part, snapshot, todo, c);
        visited := visited + part;
        todo := todo - {c};
      }
      CountsAll(visited, snapshot);
    }
  }
}
