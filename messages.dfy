/**
 * Messages as the server sees them, and the two fields the server stamps on each one.
 *
 * A submission reaches the server as an arbitrary JavaScript value: the GraphQL
 * layer hands `addMessage` the `message` argument (an input object, or nothing),
 * and socket.io hands the `ADD_CHAT_MESSAGE` listener whatever the client sent.
 */
module Messages {
  import Decimal

  datatype Option<T> = None | Some(value: T)

  /** A JavaScript value; `Obj` is a plain object, its own properties keyed by name. */
  datatype Value =
    | Undefined
    | Null
    | Bool(b: bool)
    | Num(n: int)
    | Str(s: string)
    | Obj(fields: map<string, Value>)

  /** The only failure in the core: assigning a property of `null` or `undefined`. */
  datatype Error = TypeError

  predicate IsNullish(v: Value) {
    v.Undefined? || v.Null?
  }

  /** Reading `v.id`: present only on an object that has that property. */
  function IdOf(v: Value): (id: Option<Value>) {
    if v.Obj? && "id" in v.fields then Some(v.fields["id"]) else None
  }

  /** Reading `v.date`. */
  function DateOf(v: Value): (date: Option<Value>) {
    if v.Obj? && "date" in v.fields then Some(v.fields["date"]) else None
  }

  /**
   * `message.id = id; message.date = date;` in non-strict JavaScript: on an object both
   * properties are (over)written and every other property is kept; on a primitive the
   * assignments are silently dropped; on `null` or `undefined` they throw.
   */
  function Stamp(message: Value, id: string, date: int): (r: Option<Value>)
    ensures r.None? <==> IsNullish(message)
    ensures message.Obj? ==>
      && r.Some? && r.value.Obj?
      && IdOf(r.value) == Some(Str(id))
      && DateOf(r.value) == Some(Num(date))
      && (forall f :: f != "id" && f != "date" ==> (f in r.value.fields <==> f in message.fields))
      && (forall f :: f in message.fields && f != "id" && f != "date" ==> r.value.fields[f] == message.fields[f])
    ensures !message.Obj? && !IsNullish(message) ==> r == Some(message)
  {
    match message
    case Undefined => None
    case Null => None
    case Obj(fields) => Some(Obj(fields["id" := Str(id)]["date" := Num(date)]))
    case _ => Some(message)
  }

  /**
   * The entry `message` becomes when pushed onto `log`: an object's id reads back as
   * the log's length before the push, and its date is the clock reading.
   */
  function Accept(log: seq<Value>, message: Value, now: int): (entry: Option<Value>)
    ensures entry.None? <==> IsNullish(message)
    ensures message.Obj? ==>
      && IdOf(entry.value).Some? && IdOf(entry.value).value.Str?
      && Decimal.Canonical(IdOf(entry.value).value.s)
      && Decimal.DecimalValue(IdOf(entry.value).value.s) == |log|
      && DateOf(entry.value) == Some(Num(now))
  {
    Decimal.DecimalRoundTrip(|log|);
    Stamp(message, Decimal.NatToDecimal(|log|), now)
  }

  /** Every object in the log carries the id of its own position. */
  ghost predicate PositionalIds(log: seq<Value>) {
    forall k :: 0 <= k < |log| && log[k].Obj? ==> IdOf(log[k]) == Some(Str(Decimal.NatToDecimal(k)))
  }

  /** No two entries of the log carry the same id. */
  ghost predicate DistinctIds(log: seq<Value>) {
    forall i, j :: 0 <= i < j < |log| && IdOf(log[i]).Some? ==> IdOf(log[i]) != IdOf(log[j])
  }

  /**
   * Accepting a submission keeps ids positional, whatever id the caller supplied,
   * and stores the server's clock reading as its date.
   */
  lemma AcceptKeepsPositionalIds(log: seq<Value>, message: Value, now: int)
    requires PositionalIds(log)
    requires !IsNullish(message)
    ensures Accept(log, message, now).Some?
    ensures PositionalIds(log + [Accept(log, message, now).value])
    ensures message.Obj? ==> DateOf(Accept(log, message, now).value) == Some(Num(now))
  {
  }

  /** Positional ids are pairwise distinct. */
  lemma PositionalIdsAreDistinct(log: seq<Value>)
    requires PositionalIds(log)
    ensures DistinctIds(log)
  {
    forall i, j | 0 <= i < j < |log| && IdOf(log[i]).Some?
      ensures IdOf(log[i]) != IdOf(log[j])
    {
      if log[j].Obj? {
        Decimal.NatToDecimalInjective(i, j);
      }
    }
  }

  /** The object at position k of the log has id "k", which reads back as k. */
  lemma ObjectLogIds(log: seq<Value>, k: nat)
    requires PositionalIds(log)
    requires k < |log| && log[k].Obj?
    ensures IdOf(log[k]) == Some(Str(Decimal.NatToDecimal(k)))
    ensures Decimal.DecimalValue(IdOf(log[k]).value.s) == k
  {
    Decimal.DecimalRoundTrip(k);
  }
}
