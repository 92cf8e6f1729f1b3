/**
 * Outbound notifications: publications on the GraphQL subscription topic and
 * socket.io emissions, recorded in the order the server makes them, and what each
 * kind of listener receives from such a record.
 */
module Notifications {
  import opened Messages

  /** The subscription topic `addMessage` publishes on. */
  const TopicMessageAdded: string := "MESSAGE_ADDED"
  /** The socket event a client sends to submit a message. */
  const EventAddChatMessage: string := "ADD_CHAT_MESSAGE"
  /** The socket event the server sends to announce an accepted message. */
  const EventChatMessageAdded: string := "CHAT_MESSAGE_ADDED"

  /**
   * The inbound submission event differs from the outbound announcement event, and the
   * announcement on sockets uses a different name from the subscription topic.
   */
  lemma EventNamesDistinct()
    ensures EventAddChatMessage != EventChatMessageAdded
    ensures TopicMessageAdded != EventChatMessageAdded
  {
    assert EventAddChatMessage[0] != EventChatMessageAdded[0];
    assert TopicMessageAdded[0] != EventChatMessageAdded[0];
  }

  /** A connected socket.io client, by connection. */
  type ClientId = nat

  datatype Event =
    | Publish(topic: string, payload: Value)                   // pubsub.publish(topic, payload)
    | EmitAll(event: string, payload: Value)                   // io.sockets.emit(event, payload)
    | EmitTo(client: ClientId, event: string, payload: Value)  // client.emit(event, payload)

  /**
   * What `addMessage` sends out for the accepted `message`, in order: one publication on
   * `MESSAGE_ADDED`, then one `CHAT_MESSAGE_ADDED` emission to every socket. Each subscriber
   * and each socket client receives the message exactly once.
   */
  function MutationEvents(message: Value): (events: seq<Event>)
    ensures |events| == 2 && events[0].Publish? && events[1].EmitAll?
    ensures SubscriberFeed(events) == [message]
    ensures forall c :: ClientFeed(events, c) == [message]
  {
    var events := [ Publish(TopicMessageAdded, Obj(map["addedMessage" := message])),
                    EmitAll(EventChatMessageAdded, message) ];
    assert events[..1][..0] == [] && events[..|events| - 1] == events[..1];
    assert SubscriberFeed(events[..1]) == [message];
    assert forall c :: ClientFeed(events[..1], c) == [];
    events
  }

  /**
   * What the `ADD_CHAT_MESSAGE` listener of `client` sends out for the accepted `message`:
   * one emission that only `client` receives, and nothing for subscribers.
   */
  function SocketEvents(client: ClientId, message: Value): (events: seq<Event>)
    ensures |events| == 1 && events[0].EmitTo?
    ensures SubscriberFeed(events) == []
    ensures forall c :: ClientFeed(events, c) == (if c == client then [message] else [])
  {
    var events := [ EmitTo(client, EventChatMessageAdded, message) ];
    assert events[..0] == [];
    events
  }

  /** The messages one event delivers to subscribers of the `addedMessage` subscription. */
  function SubscriberDelivery(e: Event): (delivered: seq<Value>) {
    match e
    case Publish(topic, Obj(fields)) =>
      if topic == TopicMessageAdded && "addedMessage" in fields then [fields["addedMessage"]] else []
    case _ => []
  }

  /** The `CHAT_MESSAGE_ADDED` messages one event delivers to socket client `c`. */
  function ClientDelivery(e: Event, c: ClientId): (delivered: seq<Value>) {
    match e
    case EmitAll(event, payload) => if event == EventChatMessageAdded then [payload] else []
    case EmitTo(d, event, payload) => if d == c && event == EventChatMessageAdded then [payload] else []
    case Publish(_, _) => []
  }

  /** Everything a subscriber receives from a trace, in order. */
  function SubscriberFeed(trace: seq<Event>): (feed: seq<Value>) {
    if trace == [] then [] else SubscriberFeed(trace[..|trace| - 1]) + SubscriberDelivery(trace[|trace| - 1])
  }

  /** Everything socket client `c` receives from a trace, in order. */
  function ClientFeed(trace: seq<Event>, c: ClientId): (feed: seq<Value>) {
    if trace == [] then [] else ClientFeed(trace[..|trace| - 1], c) + ClientDelivery(trace[|trace| - 1], c)
  }

  lemma {:induction false} SubscriberFeedAppend(t: seq<Event>, u: seq<Event>)
    ensures SubscriberFeed(t + u) == SubscriberFeed(t) + SubscriberFeed(u)
  {
    if u == [] {
      assert t + u == t;
    } else {
      var u' := u[..|u| - 1];
      assert (t + u)[..|t + u| - 1] == t + u';
      SubscriberFeedAppend(t, u');
    }
  }

  lemma {:induction false} ClientFeedAppend(t: seq<Event>, u: seq<Event>, c: ClientId)
    ensures ClientFeed(t + u, c) == ClientFeed(t, c) + ClientFeed(u, c)
  {
    if u == [] {
      assert t + u == t;
    } else {
      var u' := u[..|u| - 1];
      assert (t + u)[..|t + u| - 1] == t + u';
      ClientFeedAppend(t, u', c);
    }
  }

  /**
   * A message accepted through `addMessage` reaches every subscriber and every
   * socket client, exactly once each.
   */
  lemma MutationReachesEveryone(trace: seq<Event>, message: Value, c: ClientId)
    ensures SubscriberFeed(trace + MutationEvents(message)) == SubscriberFeed(trace) + [message]
    ensures ClientFeed(trace + MutationEvents(message), c) == ClientFeed(trace, c) + [message]
  {
    var es := MutationEvents(message);
    SubscriberFeedAppend(trace, es);
    ClientFeedAppend(trace, es, c);
  }

  /**
   * A message accepted through the socket listener reaches its sender once, and
   * neither any other socket client nor any subscriber.
   */
  lemma SocketReachesOnlySender(trace: seq<Event>, sender: ClientId, message: Value, c: ClientId)
    ensures SubscriberFeed(trace + SocketEvents(sender, message)) == SubscriberFeed(trace)
    ensures ClientFeed(trace + SocketEvents(sender, message), c)
         == ClientFeed(trace, c) + (if c == sender then [message] else [])
  {
    var es := SocketEvents(sender, message);
    SubscriberFeedAppend(trace, es);
    ClientFeedAppend(trace, es, c);
  }
}
