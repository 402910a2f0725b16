/**
 * Identifiers, messages, identifier matching and the message catalog
 * (constructors `New...Message` and payload parsers `Parse...Payload`).
 *
 * Payloads are JSON values. The byte-level JSON text is not modelled:
 * a payload is a `Json` value tree, encoded from the Go records the way
 * their struct tags say (`omitempty`, the embedded `Metadata`) and decoded
 * the way `json.Unmarshal` fills a fresh Go value: missing keys and `null`
 * leave the zero value, a value of the wrong kind is an error.
 */
module Messages {
  import opened Common

  // Identifier types
  const AbilityIdentifierType := "ability"
  const IndexIdentifierType := "index"
  const UIIdentifierType := "ui"
  const WorkerIdentifierType := "worker"

  // Message names
  const CmdAbilityStartMessage := "cmd.ability.start"
  const CmdAbilityStopMessage := "cmd.ability.stop"
  const CmdUIPingMessage := "cmd.ui.ping"
  const CmdWorkerRegisterMessage := "cmd.worker.register"
  const EventAbilityCrashedMessage := "event.ability.crashed"
  const EventAbilityStartedMessage := "event.ability.started"
  const EventAbilityStoppedMessage := "event.ability.stopped"
  const EventUIDisconnectedMessage := "event.ui.disconnected"
  const EventUIWelcomeMessage := "event.ui.welcome"
  const EventWorkerDisconnectedMessage := "event.worker.disconnected"
  const EventWorkerRegisteredMessage := "event.worker.registered"
  const EventWorkerWelcomeMessage := "event.worker.welcome"

  /** A JSON value. */
  datatype Json =
    | JNull
    | JBool(b: bool)
    | JNumber(n: int)
    | JString(s: string)
    | JArray(items: seq<Json>)
    | JObject(fields: map<string, Json>)

  /**
   * An address or an address pattern. `types` is a Go map used as a set:
   * `None` is a nil map, `Some({})` an empty but non-nil one.
   */
  datatype Identifier = Identifier(
    name: Option<string>,
    typ: string,
    types: Option<set<string>>,
    worker: Option<string>)

  /** The message envelope; `payload == None` is an omitted payload. */
  datatype Message = Message(
    from: Identifier,
    name: string,
    payload: Option<Json>,
    to: Option<Identifier>)

  datatype Metadata = Metadata(description: string, name: string)
  datatype Ability = Ability(metadata: Metadata, status: string, uiHomepage: string)
  datatype Worker = Worker(abilities: seq<Ability>, addr: string, name: string)
  datatype WelcomeUI = WelcomeUI(name: string, workers: seq<Worker>)

  /** The payload of a UI registration: the session name and the message names it wants. */
  datatype UI = UI(messageNames: seq<string>, name: string)

  const EmptyIdentifier := Identifier(None, "", None, None)

  // ---------------------------------------------------------------------
  // Identifier matching

  /** The two-sided type check: either side may carry a single type or a type set. */
  predicate TypeMatches(o: Identifier, i: Identifier)
  {
    match (o.types, i.types)
    case (Some(ots), Some(its)) => exists t :: t in its && t in ots
    case (Some(ots), None) => i.typ in ots
    case (None, Some(its)) => o.typ in its
    case (None, None) => o.typ == i.typ
  }

  /** A set `name` (or `worker`) of the filter `o` must be equal to the candidate's. */
  predicate OptionalEquals(o: Option<string>, i: Option<string>)
  {
    o.None? || (i.Some? && o.value == i.value)
  }

  /** `o.match(i)`: does the filter `o` accept the candidate `i`? */
  predicate Match(o: Identifier, i: Identifier)
  {
    TypeMatches(o, i) && OptionalEquals(o.name, i.name) && OptionalEquals(o.worker, i.worker)
  }

  /** Both sides carry type sets: they must share a type. */
  lemma TypeSetsMustIntersect(o: Identifier, i: Identifier)
    requires o.types.Some? && i.types.Some?
    ensures TypeMatches(o, i) <==> o.types.value * i.types.value != {}
  {
    var ots, its := o.types.value, i.types.value;
    if TypeMatches(o, i) {
      var t :| t in its && t in ots;
      assert t in ots * its;
    }
  }

  /** Only the filter carries a type set: the candidate's type must be in it. */
  lemma FilterTypeSetContainsType(o: Identifier, i: Identifier)
    requires o.types.Some? && i.types.None?
    ensures TypeMatches(o, i) <==> i.typ in o.types.value
  {
  }

  /** Only the candidate carries a type set: the filter's type must be in it. */
  lemma CandidateTypeSetContainsType(o: Identifier, i: Identifier)
    requires o.types.None? && i.types.Some?
    ensures TypeMatches(o, i) <==> o.typ in i.types.value
  {
  }

  /** Neither side carries a type set: the types must be equal, the empty type included. */
  lemma SingleTypesMustBeEqual(o: Identifier, i: Identifier)
    requires o.types.None? && i.types.None?
    ensures TypeMatches(o, i) <==> o.typ == i.typ
  {
  }

  /** A set filter name rejects an absent or different candidate name, whatever else agrees. */
  lemma NameMismatchRejects(o: Identifier, i: Identifier)
    requires o.name.Some?
    requires i.name.None? || i.name.value != o.name.value
    ensures !Match(o, i)
  {
  }

  /** A set filter worker rejects an absent or different candidate worker. */
  lemma WorkerMismatchRejects(o: Identifier, i: Identifier)
    requires o.worker.Some?
    requires i.worker.None? || i.worker.value != o.worker.value
    ensures !Match(o, i)
  {
  }

  /** Nil `name` and `worker` filters are wildcards: only the type check remains. */
  lemma UnsetNameAndWorkerAreWildcards(o: Identifier, i: Identifier)
    requires o.name.None? && o.worker.None?
    ensures Match(o, i) <==> TypeMatches(o, i)
  {
  }

  /**
   * The all-unset identifier is not a wildcard: it accepts exactly the
   * candidates whose type is empty or whose type set contains the empty type.
   */
  lemma AllUnsetFilterMatchesOnlyTypeless(i: Identifier)
    ensures Match(EmptyIdentifier, i) <==>
            (if i.types.Some? then "" in i.types.value else i.typ == "")
  {
  }

  /** An identifier with a nil or non-empty type set matches itself. */
  lemma MatchReflexive(o: Identifier)
    requires o.types.None? || o.types.value != {}
    ensures Match(o, o)
  {
  }

  /** A filter with a non-nil but empty type set matches nothing. */
  lemma EmptyTypeSetMatchesNothing(o: Identifier, i: Identifier)
    requires o.types == Some({})
    ensures !Match(o, i)
  {
  }

  // ---------------------------------------------------------------------
  // JSON encoding of the payload records

  /** A string-valued key that `omitempty` drops when the string is empty. */
  function OmitEmptyString(key: string, s: string): map<string, Json>
  {
    if s == "" then map[] else map[key := JString(s)]
  }

  /** A slice-valued key that `omitempty` drops when the slice is empty. */
  function OmitEmptyArray(key: string, items: seq<Json>): map<string, Json>
  {
    if items == [] then map[] else map[key := JArray(items)]
  }

  /** Encodes every element of a slice. */
  function EncodeList<T>(xs: seq<T>, encode: T -> Json): (r: seq<Json>)
    ensures |r| == |xs|
  {
    if xs == [] then [] else [encode(xs[0])] + EncodeList(xs[1..], encode)
  }

  function EncodeString(s: string): Json
  {
    JString(s)
  }

  function EncodeAbility(a: Ability): Json
  {
    JObject(map["description" := JString(a.metadata.description),
                "name" := JString(a.metadata.name),
                "status" := JString(a.status)]
            + OmitEmptyString("ui_homepage", a.uiHomepage))
  }

  function EncodeWorker(w: Worker): Json
  {
    JObject(OmitEmptyArray("abilities", EncodeList(w.abilities, EncodeAbility))
            + OmitEmptyString("addr", w.addr)
            + map["name" := JString(w.name)])
  }

  function EncodeWorkers(ws: seq<Worker>): Json
  {
    JArray(EncodeList(ws, EncodeWorker))
  }

  /** The `astibob.UI` registration payload, under the keys `message_names` and `name`. */
  function EncodeUI(u: UI): Json
  {
    JObject(map["message_names" := JArray(EncodeList(u.messageNames, EncodeString)),
                "name" := JString(u.name)])
  }

  function EncodeWelcomeUI(u: WelcomeUI): Json
  {
    JObject(map["name" := JString(u.name)]
            + OmitEmptyArray("workers", EncodeList(u.workers, EncodeWorker)))
  }

  // ---------------------------------------------------------------------
  // JSON decoding into fresh Go values

  /** Decodes into a string: `null` leaves `""`. */
  function DecodeString(j: Json): Option<string>
  {
    match j
    case JNull => Some("")
    case JString(s) => Some(s)
    case _ => None
  }

  /** Decodes the string field `key` of an object; a missing key leaves `""`. */
  function StringField(fields: map<string, Json>, key: string): Option<string>
  {
    if key in fields then DecodeString(fields[key]) else Some("")
  }

  /** Decodes every element of a JSON array; one bad element fails the whole. */
  function DecodeList<T>(items: seq<Json>, decode: Json -> Option<T>): (r: Option<seq<T>>)
    ensures r.Some? ==> |r.value| == |items|
  {
    if items == [] then Some([])
    else
      var x :- decode(items[0]);
      var rest :- DecodeList(items[1..], decode);
      Some([x] + rest)
  }

  /** Decodes into a slice: `null` leaves a nil slice. */
  function DecodeArray<T>(j: Json, decode: Json -> Option<T>): Option<seq<T>>
  {
    match j
    case JNull => Some([])
    case JArray(items) => DecodeList(items, decode)
    case _ => None
  }

  /** Decodes the slice field `key` of an object; a missing key leaves a nil slice. */
  function ArrayField<T>(fields: map<string, Json>, key: string, decode: Json -> Option<T>): Option<seq<T>>
  {
    if key in fields then DecodeArray(fields[key], decode) else Some([])
  }

  function DecodeAbility(j: Json): Option<Ability>
  {
    match j
    case JNull => Some(Ability(Metadata("", ""), "", ""))
    case JObject(fields) =>
      var description :- StringField(fields, "description");
      var name :- StringField(fields, "name");
      var status :- StringField(fields, "status");
      var uiHomepage :- StringField(fields, "ui_homepage");
      Some(Ability(Metadata(description, name), status, uiHomepage))
    case _ => None
  }

  function DecodeWorker(j: Json): Option<Worker>
  {
    match j
    case JNull => Some(Worker([], "", ""))
    case JObject(fields) =>
      var abilities :- ArrayField(fields, "abilities", DecodeAbility);
      var addr :- StringField(fields, "addr");
      var name :- StringField(fields, "name");
      Some(Worker(abilities, addr, name))
    case _ => None
  }

  function DecodeWelcomeUI(j: Json): Option<WelcomeUI>
  {
    match j
    case JNull => Some(WelcomeUI("", []))
    case JObject(fields) =>
      var name :- StringField(fields, "name");
      var workers :- ArrayField(fields, "workers", DecodeWorker);
      Some(WelcomeUI(name, workers))
    case _ => None
  }

  /** The `astibob.UI` registration payload (keys `name` and `message_names`). */
  function DecodeUI(j: Json): Option<UI>
  {
    match j
    case JNull => Some(UI([], ""))
    case JObject(fields) =>
      var messageNames :- ArrayField(fields, "message_names", DecodeString);
      var name :- StringField(fields, "name");
      Some(UI(messageNames, name))
    case _ => None
  }

  /** The `message` of an `astibob.Error` body; a body that does not decode leaves `""`. */
  function ErrorBodyMessage(body: Option<Json>): (message: string)
    ensures body.None? ==> message == ""
    ensures body.Some? && body.value.JObject? && "message" in body.value.fields && body.value.fields["message"].JString? ==>
              message == body.value.fields["message"].s
    ensures message != "" ==>
              body.Some? && body.value.JObject? && "message" in body.value.fields &&
              body.value.fields["message"] == JString(message)
  {
    match body
    case Some(JObject(fields)) =>
      if "message" in fields && fields["message"].JString? then fields["message"].s else ""
    case _ => ""
  }

  /** `json.Unmarshal(m.Payload, &v)`: an omitted payload is empty input and fails. */
  function Unmarshal<T>(payload: Option<Json>, decode: Json -> Option<T>): (r: Result<T>)
    ensures payload.None? ==> r == Err(UnmarshalingFailed)
    ensures r.Ok? <==> payload.Some? && decode(payload.value).Some?
    ensures r.Ok? ==> r.value == decode(payload.value).value
  {
    match payload
    case None => Err(UnmarshalingFailed)
    case Some(j) =>
      match decode(j)
      case None => Err(UnmarshalingFailed)
      case Some(v) => Ok(v)
  }

  // ---------------------------------------------------------------------
  // Round trips of the codec

  /** Decoding an encoded slice gives the slice back, given a round trip for its elements. */
  lemma {:induction false} ListRoundTrip<T>(xs: seq<T>, encode: T -> Json, decode: Json -> Option<T>)
    requires forall x :: decode(encode(x)) == Some(x)
    ensures DecodeList(EncodeList(xs, encode), decode) == Some(xs)
  {
    if xs != [] {
      ListRoundTrip(xs[1..], encode, decode);
      assert [xs[0]] + xs[1..] == xs;
    }
  }

  /** Decoding an encoded slice field gives the slice back, whether or not `omitempty` dropped it. */
  lemma ArrayFieldRoundTrip<T>(fields: map<string, Json>, key: string, xs: seq<T>,
                               encode: T -> Json, decode: Json -> Option<T>)
    requires forall x :: decode(encode(x)) == Some(x)
    requires xs == [] ==> key !in fields
    requires xs != [] ==> key in fields && fields[key] == JArray(EncodeList(xs, encode))
    ensures ArrayField(fields, key, decode) == Some(xs)
  {
    ListRoundTrip(xs, encode, decode);
  }

  lemma StringRoundTrip()
    ensures forall s :: DecodeString(EncodeString(s)) == Some(s)
  {
  }

  lemma AbilityRoundTrip()
    ensures forall a :: DecodeAbility(EncodeAbility(a)) == Some(a)
  {
  }

  lemma WorkerRoundTrip(w: Worker)
    ensures DecodeWorker(EncodeWorker(w)) == Some(w)
  {
    AbilityRoundTrip();
    var fields := EncodeWorker(w).fields;
    ArrayFieldRoundTrip(fields, "abilities", w.abilities, EncodeAbility, DecodeAbility);
  }

  lemma WorkersRoundTrip(ws: seq<Worker>)
    ensures DecodeArray(EncodeWorkers(ws), DecodeWorker) == Some(ws)
  {
    forall w ensures DecodeWorker(EncodeWorker(w)) == Some(w) {
      WorkerRoundTrip(w);
    }
    ListRoundTrip(ws, EncodeWorker, DecodeWorker);
  }

  lemma WelcomeUIRoundTrip(u: WelcomeUI)
    ensures DecodeWelcomeUI(EncodeWelcomeUI(u)) == Some(u)
  {
    forall w ensures DecodeWorker(EncodeWorker(w)) == Some(w) {
      WorkerRoundTrip(w);
    }
    var fields := EncodeWelcomeUI(u).fields;
    ArrayFieldRoundTrip(fields, "workers", u.workers, EncodeWorker, DecodeWorker);
  }

  // ---------------------------------------------------------------------
  // Constructors and parsers of the catalog

  /** `NewMessage()`: the zero message. */
  function NewMessage(): (m: Message)
    ensures m.from == EmptyIdentifier && m.name == "" && m.payload.None? && m.to.None?
  {
    Message(EmptyIdentifier, "", None, None)
  }

  /** `newMessage(from, to, name)`: an envelope without payload. */
  function NewEnvelope(from: Identifier, to: Option<Identifier>, name: string): (m: Message)
    ensures m.from == from && m.to == to && m.name == name && m.payload.None?
  {
    NewMessage().(from := from, name := name, to := to)
  }

  function ParseCmdWorkerRegisterPayload(m: Message): (r: Result<Worker>)
    ensures m.payload.None? ==> r.Err?
  {
    Unmarshal(m.payload, DecodeWorker)
  }

  function NewCmdWorkerRegisterMessage(from: Identifier, to: Option<Identifier>, w: Worker): (m: Message)
    ensures m.from == from && m.to == to && m.name == CmdWorkerRegisterMessage
    ensures ParseCmdWorkerRegisterPayload(m) == Ok(w)
  {
    WorkerRoundTrip(w);
    NewEnvelope(from, to, CmdWorkerRegisterMessage).(payload := Some(EncodeWorker(w)))
  }

  function NewEventAbilityCrashedMessage(from: Identifier, to: Option<Identifier>): (m: Message)
    ensures m.from == from && m.to == to && m.name == EventAbilityCrashedMessage && m.payload.None?
  {
    NewEnvelope(from, to, EventAbilityCrashedMessage)
  }

  function NewEventAbilityStartedMessage(from: Identifier, to: Option<Identifier>): (m: Message)
    ensures m.from == from && m.to == to && m.name == EventAbilityStartedMessage && m.payload.None?
  {
    NewEnvelope(from, to, EventAbilityStartedMessage)
  }

  function NewEventAbilityStoppedMessage(from: Identifier, to: Option<Identifier>): (m: Message)
    ensures m.from == from && m.to == to && m.name == EventAbilityStoppedMessage && m.payload.None?
  {
    NewEnvelope(from, to, EventAbilityStoppedMessage)
  }

  function ParseEventUIDisconnectedPayload(m: Message): (r: Result<string>)
    ensures m.payload.None? ==> r.Err?
  {
    Unmarshal(m.payload, DecodeString)
  }

  function NewEventUIDisconnectedMessage(from: Identifier, to: Option<Identifier>, name: string): (m: Message)
    ensures m.from == from && m.to == to && m.name == EventUIDisconnectedMessage
    ensures ParseEventUIDisconnectedPayload(m) == Ok(name)
  {
    NewEnvelope(from, to, EventUIDisconnectedMessage).(payload := Some(EncodeString(name)))
  }

  /** The welcome payload decodes back to the session name and the worker list. */
  function NewEventUIWelcomeMessage(from: Identifier, to: Option<Identifier>, name: string, ws: seq<Worker>): (m: Message)
    ensures m.from == from && m.to == to && m.name == EventUIWelcomeMessage
    ensures m.payload.Some? && DecodeWelcomeUI(m.payload.value) == Some(WelcomeUI(name, ws))
  {
    WelcomeUIRoundTrip(WelcomeUI(name, ws));
    NewEnvelope(from, to, EventUIWelcomeMessage).(payload := Some(EncodeWelcomeUI(WelcomeUI(name, ws))))
  }

  function ParseEventWorkerDisconnectedPayload(m: Message): (r: Result<string>)
    ensures m.payload.None? ==> r.Err?
  {
    Unmarshal(m.payload, DecodeString)
  }

  function NewEventWorkerDisconnectedMessage(from: Identifier, to: Option<Identifier>, worker: string): (m: Message)
    ensures m.from == from && m.to == to && m.name == EventWorkerDisconnectedMessage
    ensures ParseEventWorkerDisconnectedPayload(m) == Ok(worker)
  {
    NewEnvelope(from, to, EventWorkerDisconnectedMessage).(payload := Some(EncodeString(worker)))
  }

  function ParseEventWorkerRegisteredPayload(m: Message): (r: Result<Worker>)
    ensures m.payload.None? ==> r.Err?
  {
    Unmarshal(m.payload, DecodeWorker)
  }

  function NewEventWorkerRegisteredMessage(from: Identifier, to: Option<Identifier>, w: Worker): (m: Message)
    ensures m.from == from && m.to == to && m.name == EventWorkerRegisteredMessage
    ensures ParseEventWorkerRegisteredPayload(m) == Ok(w)
  {
    WorkerRoundTrip(w);
    NewEnvelope(from, to, EventWorkerRegisteredMessage).(payload := Some(EncodeWorker(w)))
  }

  function ParseEventWorkerWelcomePayload(m: Message): (r: Result<seq<Worker>>)
    ensures m.payload.None? ==> r.Err?
  {
    Unmarshal(m.payload, j => DecodeArray(j, DecodeWorker))
  }

  function NewEventWorkerWelcomeMessage(from: Identifier, to: Option<Identifier>, ws: seq<Worker>): (m: Message)
    ensures m.from == from && m.to == to && m.name == EventWorkerWelcomeMessage
    ensures ParseEventWorkerWelcomePayload(m) == Ok(ws)
  {
    WorkersRoundTrip(ws);
    NewEnvelope(from, to, EventWorkerWelcomeMessage).(payload := Some(EncodeWorkers(ws)))
  }

  /** The parser of a UI registration payload. */
  function ParseUIRegisterPayload(m: Message): (r: Result<UI>)
    ensures m.payload.None? ==> r.Err?
  {
    Unmarshal(m.payload, DecodeUI)
  }

  /** A UI registration payload parses back to the session name and its message names. */
  lemma UIRegisterRoundTrip(m: Message, u: UI)
    requires m.payload == Some(EncodeUI(u))
    ensures ParseUIRegisterPayload(m) == Ok(u)
  {
    ListRoundTrip(u.messageNames, EncodeString, DecodeString);
  }

  /** The parser of the message-name list carried by the add and delete messages. */
  function ParseUIMessageNamesPayload(m: Message): (r: Result<seq<string>>)
    ensures m.payload.None? ==> r.Err?
  {
    Unmarshal(m.payload, j => DecodeArray(j, DecodeString))
  }

  /** A name list encoded as a JSON array of strings parses back to the same list. */
  lemma UIMessageNamesRoundTrip(m: Message, names: seq<string>)
    requires m.payload == Some(JArray(EncodeList(names, EncodeString)))
    ensures ParseUIMessageNamesPayload(m) == Ok(names)
  {
    ListRoundTrip(names, EncodeString, DecodeString);
  }
}
