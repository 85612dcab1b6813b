/** The router: which notification each route sends for a batch of events.
    Sending itself is an opaque `send_message(chat_id, text)` on a Telegram
    notifier; the model records the messages handed to it, in the order the
    router creates them. */
module Routing {
  import opened Wrappers
  import opened Json
  import opened Utils
  import opened Seqs

  /** The notifiers the router is given: only Telegram notifiers send. */
  datatype NotifierKind = Telegram | OtherNotifier

  /** One entry of a route's `deliveries`: `d.get("notifier")`,
      `d.get("chat_id")` and the `template` entry, `None` when the key is
      absent. */
  datatype Delivery = Delivery(notifier: Value, chatId: Value, template: Option<Value>)

  /** A route: `route.get("match", {}).get("poller_name")` and
      `route.get("deliveries", [])`. */
  datatype Route = Route(pollerName: Value, deliveries: seq<Delivery>)

  /** One `send_message(chat_id=..., text=...)` call. */
  datatype Message = Message(chatId: Value, text: Value)

  /** A route applies unless it names a poller (truthily) other than this one. */
  predicate Matches(route: Route, pollerName: string)
  {
    !(Truthy(route.pollerName) && !PyEq(route.pollerName, JStr(pollerName)))
  }

  /** `isinstance(self.notifiers.get(d.get("notifier")), TelegramNotifier)`. */
  predicate SendsTo(notifiers: map<string, NotifierKind>, d: Delivery)
  {
    d.notifier.JStr? && d.notifier.s in notifiers && notifiers[d.notifier.s] == Telegram
  }

  /** `event.get("__template__") or d.get("template", "{__raw__}")`. */
  function TemplateFor(event: Record, d: Delivery): Value
  {
    Or(Get(event, "__template__"), if d.template.Some? then d.template.value else JStr("{__raw__}"))
  }

  /** A truthy `__template__` of the event wins over the delivery's
      template, which wins over the default `{__raw__}`. */
  lemma TemplatePrecedence(event: Record, d: Delivery)
    ensures Truthy(Get(event, "__template__")) ==> TemplateFor(event, d) == event["__template__"]
    ensures !Truthy(Get(event, "__template__")) && d.template.Some? ==> TemplateFor(event, d) == d.template.value
    ensures !Truthy(Get(event, "__template__")) && d.template.None? ==> TemplateFor(event, d) == JStr("{__raw__}")
  {
  }

  /** `render_template(tmpl, format_numbers_in_mapping(event))`. A template
      that is not a string makes `format_map` raise, and the fallback hands
      the template value itself on as the text. */
  function TextFor(event: Record, d: Delivery): Value
  {
    match TemplateFor(event, d)
    case JStr(t) => JStr(RenderTemplate(t, FormattedMapping(event)))
    case v => v
  }

  /** The deliveries that reach a Telegram notifier, in order. */
  function Telegrams(notifiers: map<string, NotifierKind>, ds: seq<Delivery>): (ts: seq<Delivery>)
    ensures |ts| <= |ds|
    ensures forall d :: d in ts <==> d in ds && SendsTo(notifiers, d)
  {
    if ds == [] then []
    else (if SendsTo(notifiers, ds[0]) then [ds[0]] else []) + Telegrams(notifiers, ds[1..])
  }

  /** The inner loop of `deliver` for one event. */
  function EventSends(notifiers: map<string, NotifierKind>, event: Record, ds: seq<Delivery>): seq<Message>
  {
    if ds == [] then []
    else
      (if SendsTo(notifiers, ds[0]) then [Message(ds[0].chatId, TextFor(event, ds[0]))] else [])
      + EventSends(notifiers, event, ds[1..])
  }

  /** The nested loops of `deliver`, events outside and deliveries inside. */
  function BatchSends(notifiers: map<string, NotifierKind>, events: seq<Record>, ds: seq<Delivery>): seq<Message>
  {
    if events == [] then []
    else EventSends(notifiers, events[0], ds) + BatchSends(notifiers, events[1..], ds)
  }

  /** What `deliver(route, poller_name, events)` sends. */
  function RouteSends(notifiers: map<string, NotifierKind>, route: Route, pollerName: string, events: seq<Record>): seq<Message>
  {
    if Matches(route, pollerName) then BatchSends(notifiers, events, route.deliveries) else []
  }

  /** What `deliverers(routes, poller_name, events)` sends: every route's
      messages, route by route. */
  function AllSends(notifiers: map<string, NotifierKind>, routes: seq<Route>, pollerName: string, events: seq<Record>): seq<Message>
  {
    if routes == [] then []
    else RouteSends(notifiers, routes[0], pollerName, events) + AllSends(notifiers, routes[1..], pollerName, events)
  }

  // ---------------------------------------------------------------------
  // What the send lists are
  // ---------------------------------------------------------------------

  /** For one event: one message per Telegram delivery, in delivery order,
      to that delivery's chat. */
  lemma {:induction false} EventSendsPerDelivery(notifiers: map<string, NotifierKind>, event: Record, ds: seq<Delivery>)
    ensures var ts := Telegrams(notifiers, ds);
            var ms := EventSends(notifiers, event, ds);
            && |ms| == |ts|
            && forall j :: 0 <= j < |ts| ==> ms[j] == Message(ts[j].chatId, TextFor(event, ts[j]))
  {
    hide TextFor, SendsTo;
    if ds != [] {
      EventSendsPerDelivery(notifiers, event, ds[1..]);
    }
  }

  /** Where the messages of event `i` start when each event sends `k`. */
  function Offset(i: nat, k: nat): nat
  {
    if i == 0 then 0 else k + Offset(i - 1, k)
  }

  lemma {:induction false} OffsetIsProduct(i: nat, k: nat)
    ensures Offset(i, k) == i * k
  {
    if i > 0 {
      OffsetIsProduct(i - 1, k);
      assert i * k == k + (i - 1) * k;
    }
  }

  lemma {:induction false} OffsetBound(i: nat, n: nat, k: nat, j: nat)
    requires i < n && j < k
    ensures Offset(i, k) + j < Offset(n, k)
    decreases n
  {
    if i < n - 1 {
      OffsetBound(i, n - 1, k, j);
    }
  }

  /** Each event sends through every Telegram delivery. */
  lemma {:induction false} BatchSendsLength(notifiers: map<string, NotifierKind>, events: seq<Record>, ds: seq<Delivery>)
    ensures |BatchSends(notifiers, events, ds)| == Offset(|events|, |Telegrams(notifiers, ds)|)
  {
    if events != [] {
      EventSendsPerDelivery(notifiers, events[0], ds);
      BatchSendsLength(notifiers, events[1..], ds);
    }
  }

  /** Message `Offset(i, |ts|) + j` of `ms` is event `i` sent through
      Telegram delivery `j`. */
  predicate SentAt(events: seq<Record>, ts: seq<Delivery>, ms: seq<Message>, i: nat, j: nat)
    requires i < |events| && j < |ts|
  {
    Offset(i, |ts|) + j < |ms| && ms[Offset(i, |ts|) + j] == Message(ts[j].chatId, TextFor(events[i], ts[j]))
  }

  /** `ms` holds, event by event and within an event delivery by delivery,
      one message per (event, Telegram delivery) pair, and nothing else. */
  predicate SentInOrder(events: seq<Record>, ts: seq<Delivery>, ms: seq<Message>)
  {
    && |ms| == Offset(|events|, |ts|)
    && forall i: nat, j: nat :: i < |events| && j < |ts| ==> SentAt(events, ts, ms, i, j)
  }

  lemma {:induction false} BatchSendsAt(notifiers: map<string, NotifierKind>, events: seq<Record>, ds: seq<Delivery>, i: nat, j: nat)
    requires i < |events| && j < |Telegrams(notifiers, ds)|
    ensures SentAt(events, Telegrams(notifiers, ds), BatchSends(notifiers, events, ds), i, j)
  {
    hide TextFor, SendsTo, EventSends;
    var ts := Telegrams(notifiers, ds);
    var first := EventSends(notifiers, events[0], ds);
    var rest := BatchSends(notifiers, events[1..], ds);
    assert BatchSends(notifiers, events, ds) == first + rest;
    EventSendsPerDelivery(notifiers, events[0], ds);
    if i > 0 {
      BatchSendsAt(notifiers, events[1..], ds, i - 1, j);
      assert events[1..][i - 1] == events[i];
      assert Offset(i, |ts|) + j == |first| + (Offset(i - 1, |ts|) + j);
    }
  }

  /** For a batch: the messages go event by event, and within an event
      delivery by delivery; nothing else is sent. */
  lemma BatchSendsOrder(notifiers: map<string, NotifierKind>, events: seq<Record>, ds: seq<Delivery>)
    ensures SentInOrder(events, Telegrams(notifiers, ds), BatchSends(notifiers, events, ds))
  {
    var ts := Telegrams(notifiers, ds);
    var ms := BatchSends(notifiers, events, ds);
    BatchSendsLength(notifiers, events, ds);
    forall i: nat, j: nat | i < |events| && j < |ts|
      ensures SentAt(events, ts, ms, i, j)
    {
      BatchSendsAt(notifiers, events, ds, i, j);
    }
  }

  /** A route naming another poller sends nothing. */
  lemma RouteMismatchSendsNothing(notifiers: map<string, NotifierKind>, route: Route, pollerName: string, events: seq<Record>)
    requires Truthy(route.pollerName) && !PyEq(route.pollerName, JStr(pollerName))
    ensures RouteSends(notifiers, route, pollerName, events) == []
  {
  }

  /** A route with no (or an empty) poller name applies to every poller,
      and so does one naming this poller. */
  lemma {:induction false} RouteMatchSends(notifiers: map<string, NotifierKind>, route: Route, pollerName: string, events: seq<Record>)
    requires !Truthy(route.pollerName) || route.pollerName == JStr(pollerName)
    ensures RouteSends(notifiers, route, pollerName, events) == BatchSends(notifiers, events, route.deliveries)
  {
    if Truthy(route.pollerName) {
      PyEqReflexive(JStr(pollerName));
    }
  }

  /** Routes are handled one after another: the sends of a concatenation
      of route lists are the concatenation of their sends. */
  lemma {:induction false} AllSendsAppend(notifiers: map<string, NotifierKind>, r1: seq<Route>, r2: seq<Route>, pollerName: string, events: seq<Record>)
    ensures AllSends(notifiers, r1 + r2, pollerName, events)
         == AllSends(notifiers, r1, pollerName, events) + AllSends(notifiers, r2, pollerName, events)
  {
    if r1 == [] {
      assert r1 + r2 == r2;
    } else {
      assert (r1 + r2)[1..] == r1[1..] + r2;
      AllSendsAppend(notifiers, r1[1..], r2, pollerName, events);
    }
  }

  /** With no routes, or no events, nothing is sent. */
  lemma {:induction false} NothingToSend(notifiers: map<string, NotifierKind>, routes: seq<Route>, pollerName: string, events: seq<Record>)
    ensures AllSends(notifiers, [], pollerName, events) == []
    ensures AllSends(notifiers, routes, pollerName, []) == []
  {
    if routes != [] {
      NothingToSend(notifiers, routes[1..], pollerName, events);
    }
  }

  /** A single route sends what that route sends. */
  lemma AllSendsOne(notifiers: map<string, NotifierKind>, route: Route, pollerName: string, events: seq<Record>)
    ensures AllSends(notifiers, [route], pollerName, events) == RouteSends(notifiers, route, pollerName, events)
  {
    assert [route][1..] == [];
  }

  /** The sends of one more event come after those of the events before it. */
  lemma {:induction false} BatchSendsSnoc(notifiers: map<string, NotifierKind>, events: seq<Record>, e: Record, ds: seq<Delivery>)
    ensures BatchSends(notifiers, events + [e], ds) == BatchSends(notifiers, events, ds) + EventSends(notifiers, e, ds)
  {
    if events == [] {
      assert [] + [e] == [e];
      assert [e][1..] == [];
    } else {
      assert (events + [e])[1..] == events[1..] + [e];
      BatchSendsSnoc(notifiers, events[1..], e, ds);
    }
  }

  // ---------------------------------------------------------------------
  // The router
  // ---------------------------------------------------------------------

  /** The notifier side: every message handed over is recorded; whether the
      Telegram API accepted it is not known in advance. */
  class Outbox {
    var sent: seq<Message>

    constructor()
      ensures sent == []
    {
      sent := [];
    }

    method Send(m: Message) returns (accepted: bool)
      modifies this
      ensures sent == old(sent) + [m]
    {
      sent := sent + [m];
      accepted := *;
    }
  }

  class Router {
    const notifiers: map<string, NotifierKind>

    constructor(notifiers: map<string, NotifierKind>)
      ensures this.notifiers == notifiers
    {
      this.notifiers := notifiers;
    }

    /** `deliver`: builds the list of sends, then hands every one to its
        notifier; a failed send is logged, never raised. */
    method Deliver(route: Route, pollerName: string, events: seq<Record>, outbox: Outbox)
      modifies outbox
      ensures outbox.sent == old(outbox.sent) + RouteSends(notifiers, route, pollerName, events)
    {
      if Truthy(route.pollerName) && !PyEq(route.pollerName, JStr(pollerName)) {
        return;
      }
      var tasks := BuildTasks(events, route.deliveries);
      for k := 0 to |tasks|
        invariant outbox.sent == old(outbox.sent) + tasks[..k]
      {
        assert tasks[..k + 1] == tasks[..k] + [tasks[k]];
        var _ := outbox.Send(tasks[k]);
      }
      assert tasks[..|tasks|] == tasks;
    }

    /** The nested loops of `deliver`: for each event, for each delivery
        to a Telegram notifier, one message. */
    method BuildTasks(events: seq<Record>, ds: seq<Delivery>) returns (tasks: seq<Message>)
      ensures tasks == BatchSends(notifiers, events, ds)
    {
      tasks := [];
      for i := 0 to |events|
        invariant tasks == BatchSends(notifiers, events[..i], ds)
      {
        var eventTasks := EventTasks(events[i], ds);
        BatchSendsSnoc(notifiers, events[..i], events[i], ds);
        assert events[..i + 1] == events[..i] + [events[i]];
        tasks := tasks + eventTasks;
      }
      assert events[..|events|] == events;
    }

    /** The inner loop for one event: the numbers of the event formatted,
        the template chosen and rendered, the message addressed. */
    method EventTasks(event: Record, ds: seq<Delivery>) returns (eventTasks: seq<Message>)
      ensures eventTasks == EventSends(notifiers, event, ds)
    {
      hide TextFor, SendsTo;
      eventTasks := [];
      for j := 0 to |ds|
        invariant eventTasks + EventSends(notifiers, event, ds[j..]) == EventSends(notifiers, event, ds)
      {
        ghost var before := eventTasks;
        var d := ds[j];
        ghost var now := if SendsTo(notifiers, d) then [Message(d.chatId, TextFor(event, d))] else [];
        assert ds[j..][0] == d && ds[j..][1..] == ds[j + 1..];
        assert EventSends(notifiers, event, ds[j..]) == now + EventSends(notifiers, event, ds[j + 1..]);
        if SendsTo(notifiers, d) {
          var text := Render(event, d);
          eventTasks := eventTasks + [Message(d.chatId, text)];
        }
        assert eventTasks == before + now;
        AppendAssoc(before, now, EventSends(notifiers, event, ds[j + 1..]));
      }
      assert ds[|ds|..] == [];
    }

    /** The text of one send: the event's numbers formatted, the template
        chosen, and the template rendered over the formatted event. */
    method Render(event: Record, d: Delivery) returns (text: Value)
      ensures text == TextFor(event, d)
    {
      var mapping := FormatNumbersInMapping(event);
      var tmpl := Or(Get(event, "__template__"), if d.template.Some? then d.template.value else JStr("{__raw__}"));
      text := if tmpl.JStr? then JStr(RenderTemplate(tmpl.s, mapping)) else tmpl;
    }

    /** `deliverers`: `deliver` once per route, in route order. */
    method Deliverers(routes: seq<Route>, pollerName: string, events: seq<Record>, outbox: Outbox)
      modifies outbox
      ensures outbox.sent == old(outbox.sent) + AllSends(notifiers, routes, pollerName, events)
    {
      hide AllSends, RouteSends;
      NothingToSend(notifiers, routes, pollerName, events);
      assert routes[..0] == [];
      for r := 0 to |routes|
        invariant outbox.sent == old(outbox.sent) + AllSends(notifiers, routes[..r], pollerName, events)
      {
        AllSendsAppend(notifiers, routes[..r], [routes[r]], pollerName, events);
        AllSendsOne(notifiers, routes[r], pollerName, events);
        assert routes[..r + 1] == routes[..r] + [routes[r]];
        Deliver(routes[r], pollerName, events, outbox);
        AppendAssoc(old(outbox.sent), AllSends(notifiers, routes[..r], pollerName, events),
                    RouteSends(notifiers, routes[r], pollerName, events));
      }
      assert routes[..|routes|] == routes;
    }
  }
}
