/**
 * The chat server's state and handlers: the module-level `messages` array, the
 * `messages` query, the `addMessage` mutation and the socket `ADD_CHAT_MESSAGE`
 * listener. Outbound publications and emissions are recorded, in order, in `trace`.
 */
module ChatServer {
  import Decimal
  import opened Messages
  import opened Notifications

  datatype Result<T> = Ok(value: T) | Err(error: Error)

  /** The `AddMessageResponse` the mutation resolves to. */
  datatype AddMessageResponse = AddMessageResponse(success: bool, message: Value)

  class Server {
    /** The message log, in insertion order; only ever pushed to. */
    var messages: seq<Value>
    /** Every notification sent so far, in the order it was sent. */
    ghost var trace: seq<Event>
    /**
     * The process has stopped on an uncaught exception. After that no handler runs
     * and the in-memory log is gone.
     */
    var halted: bool

    ghost predicate Valid()
      reads this
    {
      PositionalIds(messages)
    }

    /** Process start: an empty log, nothing sent. */
    constructor ()
      ensures Valid()
      ensures messages == [] && trace == [] && !halted
    {
      messages := [];
      trace := [];
      halted := false;
    }

    /** `Query.messages`: the whole log, in insertion order; ids in it never repeat. */
    method Messages() returns (log: seq<Value>)
      requires Valid() && !halted
      ensures log == messages
      ensures DistinctIds(log)
    {
      log := messages;
      PositionalIdsAreDistinct(log);
    }

    /**
     * `Mutation.addMessage`: stamp `message` with the next positional id and the
     * clock reading `now`, push it, publish it on `MESSAGE_ADDED`, emit it to every
     * socket, and answer `{success: true, message}`. A missing or null argument
     * throws before anything is stored or sent; GraphQL turns that into an error
     * answer and the server keeps running.
     */
    method AddMessage(message: Value, now: int) returns (r: Result<AddMessageResponse>)
      requires Valid() && !halted
      modifies this
      ensures Valid() && !halted
      ensures r.Err? <==> IsNullish(message)
      ensures r.Err? ==> messages == old(messages) && trace == old(trace)
      ensures r.Ok? ==>
        && r.value.success
        && Some(r.value.message) == Accept(old(messages), message, now)
        && messages == old(messages) + [r.value.message]
        && trace == old(trace) + MutationEvents(r.value.message)
    {
      var stamped := Stamp(message, Decimal.NatToDecimal(|messages|), now);
      if stamped.None? {
        return Err(TypeError);
      }
      AcceptKeepsPositionalIds(messages, message, now);
      messages := messages + [stamped.value];
      trace := trace + MutationEvents(stamped.value);
      r := Ok(AddMessageResponse(true, stamped.value));
    }

    /**
     * The `ADD_CHAT_MESSAGE` listener of socket `client`: stamp and push `message`
     * like the mutation does, then emit `CHAT_MESSAGE_ADDED` to that client only.
     * A null or undefined payload throws before anything is stored or sent; nothing
     * catches it, so the process stops.
     */
    method AddChatMessage(client: ClientId, message: Value, now: int) returns (r: Result<Value>)
      requires Valid() && !halted
      modifies this
      ensures Valid()
      ensures r.Err? <==> IsNullish(message)
      ensures halted <==> r.Err?
      ensures r.Err? ==> messages == old(messages) && trace == old(trace)
      ensures r.Ok? ==>
        && Some(r.value) == Accept(old(messages), message, now)
        && messages == old(messages) + [r.value]
        && trace == old(trace) + SocketEvents(client, r.value)
    {
      var stamped := Stamp(message, Decimal.NatToDecimal(|messages|), now);
      if stamped.None? {
        halted := true;
        return Err(TypeError);
      }
      AcceptKeepsPositionalIds(messages, message, now);
      messages := messages + [stamped.value];
      trace := trace + SocketEvents(client, stamped.value);
      r := Ok(stamped.value);
    }

    /**
     * An event arriving on the socket of `client`: only `ADD_CHAT_MESSAGE` has a
     * listener; any other event, the server's own `CHAT_MESSAGE_ADDED` included, is ignored.
     */
    method OnClientEvent(client: ClientId, event: string, payload: Value, now: int)
      requires Valid() && !halted
      modifies this
      ensures Valid()
      ensures halted <==> event == EventAddChatMessage && IsNullish(payload)
      ensures event == EventChatMessageAdded ==> messages == old(messages) && trace == old(trace)
      ensures event != EventAddChatMessage ==> messages == old(messages) && trace == old(trace)
      ensures event == EventAddChatMessage && IsNullish(payload) ==>
        messages == old(messages) && trace == old(trace)
      ensures event == EventAddChatMessage && !IsNullish(payload) ==>
        && messages == old(messages) + [Accept(old(messages), payload, now).value]
        && trace == old(trace) + SocketEvents(client, Accept(old(messages), payload, now).value)
    {
      EventNamesDistinct();
      if event == EventAddChatMessage {
        var _ := AddChatMessage(client, payload, now);
      }
    }
  }
}
