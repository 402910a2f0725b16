/**
 * The pure decisions of a Worker's outbound routing: the dispatch
 * conditions registered in `New`, which handlers a message reaches,
 * and how the answer of a sibling Worker is read.
 */
module WorkerRouting {
  import opened Common
  import opened Messages

  /**
   * Names the worker package uses from the `astibob` package that are
   * not defined in message.go. Their values are not known here; the
   * lemmas only use that they are distinct (`WellFormed`).
   */
  datatype Catalog = Catalog(
    runnableIdentifierType: string,
    listenablesRegisterMessage: string,
    runnableDoneMessage: string,
    runnableStartMessage: string,
    runnableStopMessage: string,
    uiMessageNamesAddMessage: string,
    uiMessageNamesDeleteMessage: string,
    workerRegisteredMessage: string,
    workerDisconnectedMessage: string,
    workerWelcomeMessage: string)
  {
    /** The message names that have a name-based handler, in registration order. */
    function HandledNames(): seq<string>
    {
      [listenablesRegisterMessage, runnableDoneMessage, runnableStartMessage, runnableStopMessage,
       uiMessageNamesAddMessage, uiMessageNamesDeleteMessage, workerRegisteredMessage,
       workerDisconnectedMessage, workerWelcomeMessage]
    }

    /** The runnable type is a type of its own and the handled names are pairwise different. */
    predicate WellFormed()
    {
      && runnableIdentifierType != IndexIdentifierType
      && runnableIdentifierType != UIIdentifierType
      && runnableIdentifierType != WorkerIdentifierType
      && Distinct(HandledNames())
    }
  }

  /** The handlers registered by `New`. */
  datatype Handler =
    | RegisterListenables
    | DoneMessage
    | StartRunnableFromMessage
    | StopRunnableFromMessage
    | AddUIMessageNames
    | DeleteUIMessageNames
    | RegisterWorker
    | UnregisterWorker
    | FinishRegistration
    | SendMessageToIndex
    | SendMessageToUI
    | SendMessageToWorker

  /** A dispatch condition: each set field must accept the message, a nil field accepts anything. */
  datatype DispatchConditions = DispatchConditions(
    from: Option<Identifier>,
    name: Option<string>,
    to: Option<Identifier>)

  predicate ConditionsMatch(c: DispatchConditions, m: Message)
  {
    && (c.from.None? || Match(c.from.value, m.from))
    && (c.name.None? || c.name.value == m.name)
    && (c.to.None? || (m.to.Some? && Match(c.to.value, m.to.value)))
  }

  function OnName(name: string): DispatchConditions
  {
    DispatchConditions(None, Some(name), None)
  }

  function OnTo(to: Identifier): DispatchConditions
  {
    DispatchConditions(None, None, Some(to))
  }

  /** `&Identifier{Type: index}` */
  const IndexFilter := Identifier(None, IndexIdentifierType, None, None)
  /** `&Identifier{Type: ui}` */
  const UIFilter := Identifier(None, UIIdentifierType, None, None)

  /** `&Identifier{Types: {runnable, worker}}` */
  function SiblingFilter(c: Catalog): Identifier
  {
    Identifier(None, "", Some({c.runnableIdentifierType, WorkerIdentifierType}), None)
  }

  /** The handler table of `New`, in registration order. */
  function HandlerTable(c: Catalog): seq<(DispatchConditions, Handler)>
  {
    [ (OnName(c.listenablesRegisterMessage), RegisterListenables),
      (OnName(c.runnableDoneMessage), DoneMessage),
      (OnName(c.runnableStartMessage), StartRunnableFromMessage),
      (OnName(c.runnableStopMessage), StopRunnableFromMessage),
      (OnName(c.uiMessageNamesAddMessage), AddUIMessageNames),
      (OnName(c.uiMessageNamesDeleteMessage), DeleteUIMessageNames),
      (OnName(c.workerRegisteredMessage), RegisterWorker),
      (OnName(c.workerDisconnectedMessage), UnregisterWorker),
      (OnName(c.workerWelcomeMessage), FinishRegistration),
      (OnTo(IndexFilter), SendMessageToIndex),
      (OnTo(UIFilter), SendMessageToUI),
      (OnTo(SiblingFilter(c)), SendMessageToWorker) ]
  }

  /** The handlers whose condition accepts `m`, in registration order. */
  function Handlers(table: seq<(DispatchConditions, Handler)>, m: Message): (hs: seq<Handler>)
    ensures forall h :: h in hs <==> exists k :: 0 <= k < |table| && table[k].1 == h && ConditionsMatch(table[k].0, m)
  {
    if table == [] then []
    else
      var rest := Handlers(table[1..], m);
      assert forall k :: 0 < k < |table| ==> table[k] == table[1..][k - 1];
      if ConditionsMatch(table[0].0, m) then [table[0].1] + rest else rest
  }

  /** The three `To` conditions on a concrete target (one without a type set). */
  lemma ToConditionsOnConcreteTarget(c: Catalog, t: Identifier)
    requires c.WellFormed()
    requires t.types.None?
    ensures Match(IndexFilter, t) <==> t.typ == IndexIdentifierType
    ensures Match(UIFilter, t) <==> t.typ == UIIdentifierType
    ensures Match(SiblingFilter(c), t) <==> t.typ == c.runnableIdentifierType || t.typ == WorkerIdentifierType
    ensures Match(IndexFilter, t) ==> !Match(UIFilter, t) && !Match(SiblingFilter(c), t)
    ensures Match(UIFilter, t) ==> !Match(IndexFilter, t) && !Match(SiblingFilter(c), t)
  {
  }

  /** The outbound handlers a concrete target (or none) reaches, chosen by the target's type. */
  function OutboundHandlers(c: Catalog, to: Option<Identifier>): seq<Handler>
  {
    if to.None? then []
    else if to.value.typ == IndexIdentifierType then [SendMessageToIndex]
    else if to.value.typ == UIIdentifierType then [SendMessageToUI]
    else if to.value.typ == c.runnableIdentifierType || to.value.typ == WorkerIdentifierType then [SendMessageToWorker]
    else []
  }

  /** The three `To` entries that close the table reach exactly the outbound handlers of the target. */
  lemma ToEntriesRoute(c: Catalog, m: Message)
    requires c.WellFormed()
    requires m.to.None? || m.to.value.types.None?
    ensures Handlers(HandlerTable(c)[9..], m) == OutboundHandlers(c, m.to)
  {
    var table := HandlerTable(c);
    if m.to.Some? {
      ToConditionsOnConcreteTarget(c, m.to.value);
    }
    HandlersCons(table[9..], m);
    assert table[9..][1..] == table[10..];
    HandlersCons(table[10..], m);
    assert table[10..][1..] == table[11..];
    HandlersCons(table[11..], m);
    assert table[11..][1..] == [];
  }

  /**
   * A message whose name has no handler of its own and whose target is
   * concrete reaches exactly one of the three outbound handlers, chosen by
   * the target's type, or none.
   */
  lemma OutboundRoute(c: Catalog, m: Message)
    requires c.WellFormed()
    requires m.name !in c.HandledNames()
    requires m.to.Some? && m.to.value.types.None?
    ensures Handlers(HandlerTable(c), m) ==
              if m.to.value.typ == IndexIdentifierType then [SendMessageToIndex]
              else if m.to.value.typ == UIIdentifierType then [SendMessageToUI]
              else if m.to.value.typ == c.runnableIdentifierType || m.to.value.typ == WorkerIdentifierType
              then [SendMessageToWorker]
              else []
  {
    var table := HandlerTable(c);
    assert forall k :: 0 <= k < 9 ==> table[k].0 == OnName(c.HandledNames()[k]);
    HandlersSkipUnmatched(table, 9, m);
    ToEntriesRoute(c, m);
  }

  /**
   * The UI message-name add (delete) message reaches its own handler and
   * then the outbound handler its target selects, if any.
   */
  lemma UIMessageNamesRoute(c: Catalog, m: Message)
    requires c.WellFormed()
    requires m.to.None? || m.to.value.types.None?
    requires m.name == c.uiMessageNamesAddMessage || m.name == c.uiMessageNamesDeleteMessage
    ensures Handlers(HandlerTable(c), m) ==
              [if m.name == c.uiMessageNamesAddMessage then AddUIMessageNames else DeleteUIMessageNames]
              + OutboundHandlers(c, m.to)
  {
    var table := HandlerTable(c);
    var names := c.HandledNames();
    assert forall k :: 0 <= k < 9 ==> table[k].0 == OnName(names[k]);
    assert m.name == names[4] || m.name == names[5];
    HandlersSkipUnmatched(table, 4, m);
    HandlersCons(table[4..], m);
    assert table[4..][1..] == table[5..];
    HandlersCons(table[5..], m);
    assert table[5..][1..] == table[6..];
    HandlersSkipUnmatched(table[6..], 3, m);
    assert table[6..][3..] == table[9..];
    ToEntriesRoute(c, m);
  }

  /**
   * The add and delete messages as the Index announces them, addressed to
   * every worker (`To: {Type: worker}`), reach their own handler and then
   * the sibling sender.
   */
  lemma AnnouncedUIMessageNamesRoute(c: Catalog, m: Message)
    requires c.WellFormed()
    requires m.to == Some(Identifier(None, WorkerIdentifierType, None, None))
    requires m.name == c.uiMessageNamesAddMessage || m.name == c.uiMessageNamesDeleteMessage
    ensures Handlers(HandlerTable(c), m) ==
              [if m.name == c.uiMessageNamesAddMessage then AddUIMessageNames else DeleteUIMessageNames,
               SendMessageToWorker]
  {
    UIMessageNamesRoute(c, m);
  }

  /** `Handlers` on a non-empty table: the first entry's handler if it matches, then the rest. */
  lemma HandlersCons(table: seq<(DispatchConditions, Handler)>, m: Message)
    requires table != []
    ensures Handlers(table, m) ==
              (if ConditionsMatch(table[0].0, m) then [table[0].1] else []) + Handlers(table[1..], m)
  {
  }

  /** Leading entries whose conditions reject `m` contribute no handler. */
  lemma {:induction false} HandlersSkipUnmatched(table: seq<(DispatchConditions, Handler)>, n: nat, m: Message)
    requires n <= |table|
    requires forall k :: 0 <= k < n ==> !ConditionsMatch(table[k].0, m)
    ensures Handlers(table, m) == Handlers(table[n..], m)
  {
    if n > 0 {
      assert forall k :: 0 <= k < n - 1 ==> table[1..][k] == table[k + 1];
      HandlersSkipUnmatched(table[1..], n - 1, m);
      assert table[1..][n - 1..] == table[n..];
    }
  }

  // ---------------------------------------------------------------------
  // Requests to sibling workers

  /** The outcome of one request, as the HTTP client reports it. */
  datatype Response =
    | RequestNotCreated(reason: string)       // http.NewRequest failed
    | TransportFailed(reason: string)         // the client's Do failed
    | Answered(statusCode: int, body: Option<Json>)

  /** A request sent to a sibling worker. */
  datatype Request = Request(verb: string, url: string, body: Message)

  /** The messages endpoint of a sibling worker at `addr`. */
  function MessagesURL(addr: string): string
  {
    addr + "/api/messages"
  }

  /** `sendRequestToWorker`: the error of a request, `None` when it succeeded. */
  function RequestError(resp: Response): (err: Option<Error>)
    ensures err.None? <==> resp.Answered? && resp.statusCode == 200
    ensures resp.Answered? && resp.statusCode != 200 ==>
              err.Some? && (err.value.ResponseErrorMessage? || err.value.ResponseStatusCode?)
  {
    match resp
    case RequestNotCreated(reason) => Some(CreatingRequestFailed(reason))
    case TransportFailed(reason) => Some(SendingRequestFailed(reason))
    case Answered(code, body) =>
      if code != 200 then
        var message := ErrorBodyMessage(body);
        if message != "" then Some(ResponseErrorMessage(message)) else Some(ResponseStatusCode(code))
      else None
  }

  /**
   * A failed answer reports the `message` of an object body when it is a
   * non-empty string, whatever other keys the body has, and the status
   * code otherwise: no body, a body that is not an object, or an object
   * without a non-empty string `message`.
   */
  lemma FailedAnswerReportsBodyOrStatus(code: int, fields: map<string, Json>)
    requires code != 200
    ensures "message" in fields && fields["message"].JString? && fields["message"].s != "" ==>
              RequestError(Answered(code, Some(JObject(fields)))) == Some(ResponseErrorMessage(fields["message"].s))
    ensures !("message" in fields && fields["message"].JString? && fields["message"].s != "") ==>
              RequestError(Answered(code, Some(JObject(fields)))) == Some(ResponseStatusCode(code))
    ensures forall j: Json :: !j.JObject? ==> RequestError(Answered(code, Some(j))) == Some(ResponseStatusCode(code))
    ensures RequestError(Answered(code, None)) == Some(ResponseStatusCode(code))
  {
  }
}
