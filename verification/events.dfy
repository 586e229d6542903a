/**
 * The signal bus (flair/inspect/events.py): a `Signal` is a mutable set of
 * callbacks together with the field names of the payload it carries, and the
 * module declares one signal per event flair publishes.
 */
module Events {

  /**
   * A payload value: the source passes Python objects, so nothing ties a value to a declared type.
   * `CData` is the ctypes object a failed memory read returns.
   */
  datatype Value = Str(s: string) | Int(i: int) | Bool(b: bool) | Nothing | CData

  /** The declared type of a field (`name=str`): recorded, never checked. */
  datatype TypeTag = StrType | IntType | BoolType

  type Field = string
  type Schema = map<Field, TypeTag>

  /** The keyword arguments of an `emit` call, in call order (Python makes their names distinct). */
  type Payload = seq<(Field, Value)>

  /** The identity of a connected function (Python compares callables by equality and hash). */
  datatype Callback = Callback(name: string)

  /** One invocation of a subscriber with positional arguments. */
  datatype Call = Call(callee: Callback, args: seq<Value>)

  /** Keyword arguments are unique: no field name occurs twice in one payload. */
  predicate NoDuplicateKeys(p: Payload) {
    forall i, j :: 0 <= i < j < |p| ==> p[i].0 != p[j].0
  }

  function Keys(p: Payload): set<Field> {
    set i | 0 <= i < |p| :: p[i].0
  }

  /** A payload of one keyword argument has exactly that field name. */
  lemma OneFieldKeys(f: Field, v: Value)
    ensures Keys([(f, v)]) == {f}
  {
    assert [(f, v)][0].0 == f;
  }

  /** `payload.values()`, in keyword order. */
  function Values(p: Payload): (r: seq<Value>)
    ensures |r| == |p| && forall i :: 0 <= i < |p| ==> r[i] == p[i].1
  {
    seq(|p|, i requires 0 <= i < |p| => p[i].1)
  }

  /** The check `set(payload) == set(self.payload)`: field names only. */
  predicate Conforms(schema: Schema, p: Payload) {
    Keys(p) == schema.Keys
  }

  function Callees(calls: seq<Call>): set<Callback> {
    set i | 0 <= i < |calls| :: calls[i].callee
  }

  lemma CalleesAppend(calls: seq<Call>, c: Call)
    ensures Callees(calls + [c]) == Callees(calls) + {c.callee}
  {
    var extended := calls + [c];
    assert extended[|calls|] == c;
    assert forall i :: 0 <= i < |calls| ==> extended[i] == calls[i];
  }

  predicate Distinct(calls: seq<Call>) {
    forall i, j :: 0 <= i < j < |calls| ==> calls[i].callee != calls[j].callee
  }

  /** How an `emit` ends: normally, with the ValueError of a bad payload, or with a subscriber's exception. */
  datatype EmitOutcome = Delivered | SchemaMismatch | Raised(culprit: Callback)

  class Signal {
    const schema: Schema
    var subscribers: set<Callback>

    constructor (schema: Schema)
      ensures this.schema == schema && subscribers == {}
    {
      this.schema := schema;
      subscribers := {};
    }

    method Connect(f: Callback)
      modifies this
      ensures subscribers == old(subscribers) + {f}
    {
      subscribers := subscribers + {f};
    }

    /** Removes `f` when it is connected; otherwise does nothing. */
    method Disconnect(f: Callback)
      modifies this
      ensures subscribers == old(subscribers) - {f}
    {
      if f in subscribers {
        subscribers := subscribers - {f};
      }
    }

    method DisconnectAll()
      modifies this
      ensures subscribers == {}
    {
      subscribers := {};
    }

    /**
     * Calls every subscriber once, in the set's (unspecified) iteration order,
     * with the payload values as positional arguments. `raises` is the set of
     * subscribers that raise when called with this payload: the first of them
     * to be called ends the loop and its exception leaves `emit`.
     */
    method Emit(payload: Payload, raises: set<Callback>) returns (outcome: EmitOutcome, calls: seq<Call>)
      requires NoDuplicateKeys(payload)
      ensures outcome == SchemaMismatch <==> !Conforms(schema, payload)
      ensures outcome == SchemaMismatch ==> calls == []
      ensures forall i :: 0 <= i < |calls| ==> calls[i].callee in subscribers && calls[i].args == Values(payload)
      ensures Distinct(calls)
      ensures outcome == Delivered ==> Callees(calls) == subscribers && Callees(calls) !! raises
      ensures outcome.Raised? ==>
        && calls != [] && calls[|calls| - 1].callee == outcome.culprit && outcome.culprit in raises
        && forall i :: 0 <= i < |calls| - 1 ==> calls[i].callee !in raises
    {
      if Keys(payload) != schema.Keys {
        return SchemaMismatch, [];
      }
      var args := Values(payload);
      var remaining := subscribers;
      calls := [];
      while remaining != {}
        invariant Callees(calls) + remaining == subscribers
        invariant Callees(calls) !! remaining
        invariant Callees(calls) !! raises
        invariant Distinct(calls)
        invariant forall i :: 0 <= i < |calls| ==> calls[i].args == args
        decreases remaining
      {
        var f :| f in remaining;
        CalleesAppend(calls, Call(f, args));
        calls := calls + [Call(f, args)];
        if f in raises {
          return Raised(f), calls;
        }
        remaining := remaining - {f};
      }
      outcome := Delivered;
    }
  }

  /** The signal catalogue at the end of events.py. */
  datatype SignalName =
    | CharacterChanged
    | AccountChanged
    | SystemChanged
    | Docked
    | Undocked
    | CreditsChanged
    | MessageSent
    | ChatBoxOpened
    | ChatBoxClosed
    | FreelancerStarted
    | FreelancerStopped
    | SwitchedToForeground
    | SwitchedToBackground

  function SchemaOf(s: SignalName): Schema {
    match s
    case CharacterChanged => map["name" := StrType]
    case AccountChanged => map["account" := StrType]
    case SystemChanged => map["system" := StrType]
    case Docked => map["base" := StrType]
    case CreditsChanged => map["balance" := IntType]
    case MessageSent => map["message" := StrType]
    case ChatBoxClosed => map["message_sent" := BoolType]
    case Undocked | ChatBoxOpened | FreelancerStarted | FreelancerStopped
      | SwitchedToForeground | SwitchedToBackground => map[]
  }

  /** A signal emitted with a payload, as recorded in the event logs of the observer and the chat-box controller. */
  datatype Emission = Emission(signal: SignalName, payload: Payload)

  predicate Accepted(e: Emission) {
    Conforms(SchemaOf(e.signal), e.payload)
  }

  /** The signals declared without fields accept exactly the keyword-free `emit()`. */
  lemma FieldlessSignalsTakeNoPayload(s: SignalName, p: Payload)
    requires s in {Undocked, ChatBoxOpened, FreelancerStarted, FreelancerStopped, SwitchedToForeground, SwitchedToBackground}
    ensures Conforms(SchemaOf(s), p) <==> p == []
  {
    if p != [] {
      assert p[0].0 in Keys(p);
    }
  }

  /** The check looks at field names only: any values under the declared names pass, whatever their type. */
  lemma SchemaIgnoresValueTypes(schema: Schema, p: Payload, q: Payload)
    requires |p| == |q| && forall i :: 0 <= i < |p| ==> p[i].0 == q[i].0
    ensures Conforms(schema, p) <==> Conforms(schema, q)
  {
    assert Keys(p) == Keys(q);
  }
}
