/**
 * A Worker's registry and outbound routing: the set of message names some
 * UI wants (`us`), the sibling workers (`ws`) and how messages leave the
 * worker for the UI and for siblings. A sibling is the Worker's `worker`
 * record, built from a registration record and turned back into one.
 */
module WorkerNode {
  import opened Common
  import Messages
  import opened WorkerRouting

  /** What a runnable announcement carries besides its name; this layer never looks inside. */
  type RunnableDetails(==)

  /** `astibob.RunnableMessage`: a runnable as its worker announces it. */
  datatype RunnableMessage = RunnableMessage(name: string, details: RunnableDetails)

  /** `astibob.Worker` as the worker package uses it: address, name and runnables of a worker. */
  datatype WorkerInfo = WorkerInfo(addr: string, name: string, runnables: seq<RunnableMessage>)

  // ---------------------------------------------------------------------
  // The sibling record

  /** The runnables indexed by name, later entries overwriting earlier ones with the same name. */
  function ByName(rs: seq<RunnableMessage>): map<string, RunnableMessage>
    decreases |rs|
  {
    if rs == [] then map[]
    else ByName(rs[..|rs| - 1])[rs[|rs| - 1].name := rs[|rs| - 1]]
  }

  /** No later runnable has the same name as `rs[j]`. */
  predicate LastWithItsName(rs: seq<RunnableMessage>, j: int)
    requires 0 <= j < |rs|
  {
    forall k :: j < k < |rs| ==> rs[k].name != rs[j].name
  }

  function Names(rs: seq<RunnableMessage>): set<string>
  {
    set r | r in rs :: r.name
  }

  /** `ByName` keeps one runnable per name: the last one with that name. */
  lemma {:induction false} ByNameKeepsLastOfEachName(rs: seq<RunnableMessage>)
    ensures ByName(rs).Keys == Names(rs)
    ensures forall n :: n in ByName(rs) ==> ByName(rs)[n].name == n && ByName(rs)[n] in rs
    ensures forall j :: 0 <= j < |rs| && LastWithItsName(rs, j) ==> ByName(rs)[rs[j].name] == rs[j]
    decreases |rs|
  {
    if rs != [] {
      var init, last := rs[..|rs| - 1], rs[|rs| - 1];
      ByNameKeepsLastOfEachName(init);
      assert rs == init + [last];
      assert Names(rs) == Names(init) + {last.name};
      forall j | 0 <= j < |rs| && LastWithItsName(rs, j)
        ensures ByName(rs)[rs[j].name] == rs[j]
      {
        if j < |rs| - 1 {
          assert rs[j] == init[j];
          assert LastWithItsName(init, j);
        }
      }
    }
  }

  /** `rs` lists the values of `m` once each, key by key in the order `order`. */
  ghost predicate Lists(rs: seq<RunnableMessage>, order: seq<string>, m: map<string, RunnableMessage>)
  {
    && Distinct(order)
    && Elements(order) == m.Keys
    && |rs| == |order|
    && forall j :: 0 <= j < |order| ==> order[j] in m && rs[j] == m[order[j]]
  }

  /**
   * A registration record turned into a sibling and back lists the
   * runnables once per name: for each name, the last runnable registered
   * under it, and nothing else. (The address and the name are kept by the
   * contracts of `Sibling`'s constructor and `ToMessage`.)
   */
  lemma RegistrationRoundTrip(i: WorkerInfo, o: WorkerInfo, order: seq<string>)
    requires Lists(o.runnables, order, ByName(i.runnables))
    ensures Names(o.runnables) == Names(i.runnables)
    ensures forall a, b :: 0 <= a < b < |o.runnables| ==> o.runnables[a].name != o.runnables[b].name
    ensures forall r :: r in o.runnables ==> r in i.runnables
    ensures forall k :: 0 <= k < |i.runnables| && LastWithItsName(i.runnables, k) ==> i.runnables[k] in o.runnables
  {
    var byName := ByName(i.runnables);
    ByNameKeepsLastOfEachName(i.runnables);
    assert forall j :: 0 <= j < |order| ==> o.runnables[j].name == order[j];
    forall n | n in Names(i.runnables) ensures n in Names(o.runnables) {
      assert n in Elements(order);
      var j :| 0 <= j < |order| && order[j] == n;
      assert o.runnables[j] in o.runnables;
    }
    forall k | 0 <= k < |i.runnables| && LastWithItsName(i.runnables, k)
      ensures i.runnables[k] in o.runnables
    {
      var n := i.runnables[k].name;
      assert n in Elements(order);
      var j :| 0 <= j < |order| && order[j] == n;
      assert o.runnables[j] == i.runnables[k];
    }
  }

  /** `worker`: a Worker's record of a sibling worker. */
  class Sibling {
    const addr: string
    const name: string
    /** The sibling's runnables, indexed by name. */
    var rs: map<string, RunnableMessage>

    /** `newWorker`: the record of a registered worker. */
    constructor (i: WorkerInfo)
      ensures addr == i.addr && name == i.name
      ensures rs == ByName(i.runnables)
    {
      var runnables := map[];
      var j := 0;
      while j < |i.runnables|
        invariant 0 <= j <= |i.runnables|
        invariant runnables == ByName(i.runnables[..j])
      {
        var r := i.runnables[j];
        assert i.runnables[..j + 1][..j] == i.runnables[..j];
        runnables := runnables[r.name := r];
        j := j + 1;
      }
      assert i.runnables[..j] == i.runnables;
      addr, name, rs := i.addr, i.name, runnables;
    }

    /** `toMessage`: the registration record of this sibling, runnables in map order. */
    method ToMessage() returns (o: WorkerInfo, ghost order: seq<string>)
      ensures o.addr == addr && o.name == name
      ensures Lists(o.runnables, order, rs)
    {
      o := WorkerInfo(addr, name, []);
      order := [];
      var remaining := rs.Keys;
      while remaining != {}
        invariant remaining <= rs.Keys
        invariant o.addr == addr && o.name == name
        invariant Distinct(order) && Elements(order) == rs.Keys - remaining
        invariant |o.runnables| == |order|
        invariant forall j :: 0 <= j < |order| ==> order[j] in rs && o.runnables[j] == rs[order[j]]
        decreases remaining
      {
        var k :| k in remaining;
        AppendElement(order, k);
        o := o.(runnables := o.runnables + [rs[k]]);
        order := order + [k];
        remaining := remaining - {k};
      }
    }
  }

  // ---------------------------------------------------------------------
  // The UI want-set

  /** The want-set after an add message listing `names`. */
  function WithNames(us: set<string>, names: seq<string>): set<string>
  {
    us + Elements(names)
  }

  /** The want-set after a delete message listing `names`. */
  function WithoutNames(us: set<string>, names: seq<string>): set<string>
  {
    us - Elements(names)
  }

  /** Adding the same names twice gives the set adding them once gives. */
  lemma AddingNamesIsIdempotent(us: set<string>, names: seq<string>)
    ensures WithNames(WithNames(us, names), names) == WithNames(us, names)
  {
  }

  /** Names a message does not list keep their membership; deleting an absent name changes nothing. */
  lemma UnlistedNamesAreUntouched(us: set<string>, names: seq<string>, n: string)
    requires n !in names
    ensures n in WithNames(us, names) <==> n in us
    ensures n in WithoutNames(us, names) <==> n in us
    ensures n !in us ==> WithoutNames(us, [n]) == us
  {
  }

  // ---------------------------------------------------------------------
  // Requests to siblings

  /** The request that carries `m` to a sibling at `addr`. */
  function PostMessage(addr: string, m: Messages.Message): Request
  {
    Request("POST", MessagesURL(addr), m)
  }

  /** The request to sibling `s` succeeds. */
  predicate Succeeds(respond: string -> Response, s: Sibling)
  {
    RequestError(respond(MessagesURL(s.addr))).None?
  }

  /**
   * The send loop's outcome: `requests` went to `targets` in order, one
   * each, stopping right after the first failure, whose error `err` reports;
   * `err` is `None` exactly when every target was contacted and succeeded.
   */
  ghost predicate Delivered(targets: seq<Sibling>, m: Messages.Message, respond: string -> Response,
                            requests: seq<Request>, err: Option<Error>)
  {
    && |requests| <= |targets|
    && (forall j :: 0 <= j < |requests| ==> requests[j] == PostMessage(targets[j].addr, m))
    && (forall j :: 0 <= j < |requests| - 1 ==> Succeeds(respond, targets[j]))
    && (err.None? <==> |requests| == |targets| && forall j :: 0 <= j < |targets| ==> Succeeds(respond, targets[j]))
    && (err.Some? ==>
          && |requests| > 0
          && var last := targets[|requests| - 1];
          && !Succeeds(respond, last)
          && err.value == SendingRequestToWorkerFailed(last.name, RequestError(respond(MessagesURL(last.addr))).value))
  }

  /** The send loop of `sendMessageToWorker`: one request per target, aborting on the first failure. */
  method SendToSiblings(targets: seq<Sibling>, m: Messages.Message, respond: string -> Response)
    returns (requests: seq<Request>, err: Option<Error>)
    ensures Delivered(targets, m, respond, requests, err)
  {
    requests := [];
    var i := 0;
    while i < |targets|
      invariant 0 <= i <= |targets|
      invariant |requests| == i
      invariant forall j :: 0 <= j < i ==> requests[j] == PostMessage(targets[j].addr, m)
      invariant forall j :: 0 <= j < i ==> Succeeds(respond, targets[j])
    {
      var url := MessagesURL(targets[i].addr);
      requests := requests + [Request("POST", url, m)];
      var failure := RequestError(respond(url));
      if failure.Some? {
        return requests, Some(SendingRequestToWorkerFailed(targets[i].name, failure.value));
      }
      i := i + 1;
    }
    err := None;
  }

  // ---------------------------------------------------------------------
  // The worker

  class Worker {
    const name: string
    /** `Identifier.WorkerName()`: the worker an identifier belongs to, "" for none. */
    const workerName: Messages.Identifier -> string
    /** The dispatch conditions registered by `New`, in order. */
    const handlers: seq<(DispatchConditions, Handler)>
    /** The message names some UI session wants. */
    var us: set<string>
    /** The sibling workers, indexed by name. */
    var ws: map<string, Sibling>

    /** `New`: an empty registry and the handler table. */
    constructor (name: string, c: Catalog, workerName: Messages.Identifier -> string)
      ensures this.name == name && this.workerName == workerName
      ensures handlers == HandlerTable(c)
      ensures us == {} && ws == map[]
    {
      this.name := name;
      this.workerName := workerName;
      handlers := HandlerTable(c);
      us := {};
      ws := map[];
    }

    /** `addUIMessageNames`: the names of the payload become wanted. */
    method AddUIMessageNames(m: Messages.Message) returns (err: Option<Error>)
      modifies this`us
      ensures Messages.ParseUIMessageNamesPayload(m).Err? ==>
                err == Some(ParsingPayloadFailed(Messages.ParseUIMessageNamesPayload(m).error)) && us == old(us)
      ensures Messages.ParseUIMessageNamesPayload(m).Ok? ==>
                err.None? && us == WithNames(old(us), Messages.ParseUIMessageNamesPayload(m).value)
    {
      var parsed := Messages.ParseUIMessageNamesPayload(m);
      if parsed.Err? {
        return Some(ParsingPayloadFailed(parsed.error));
      }
      var names := parsed.value;
      var i := 0;
      while i < |names|
        invariant 0 <= i <= |names|
        invariant us == old(us) + Elements(names[..i])
      {
        assert names[..i + 1] == names[..i] + [names[i]];
        AppendElement(names[..i], names[i]);
        us := us + {names[i]};
        i := i + 1;
      }
      assert names[..i] == names;
      err := None;
    }

    /** `deleteUIMessageNames`: the names of the payload are no longer wanted. */
    method DeleteUIMessageNames(m: Messages.Message) returns (err: Option<Error>)
      modifies this`us
      ensures Messages.ParseUIMessageNamesPayload(m).Err? ==>
                err == Some(ParsingPayloadFailed(Messages.ParseUIMessageNamesPayload(m).error)) && us == old(us)
      ensures Messages.ParseUIMessageNamesPayload(m).Ok? ==>
                err.None? && us == WithoutNames(old(us), Messages.ParseUIMessageNamesPayload(m).value)
    {
      var parsed := Messages.ParseUIMessageNamesPayload(m);
      if parsed.Err? {
        return Some(ParsingPayloadFailed(parsed.error));
      }
      var names := parsed.value;
      var i := 0;
      while i < |names|
        invariant 0 <= i <= |names|
        invariant us == old(us) - Elements(names[..i])
      {
        assert names[..i + 1] == names[..i] + [names[i]];
        AppendElement(names[..i], names[i]);
        us := us - {names[i]};
        i := i + 1;
      }
      assert names[..i] == names;
      err := None;
    }

    /**
     * `sendMessageToUI`: a message of this worker whose name some UI wants
     * is written once to the Index connection; `writeFailure` is the
     * outcome of that write.
     */
    method SendMessageToUI(m: Messages.Message, writeFailure: Option<string>)
      returns (written: seq<Messages.Message>, err: Option<Error>)
      ensures workerName(m.from) != name ==> written == [] && err.None?
      ensures workerName(m.from) == name && m.name !in us ==> written == [] && err.None?
      ensures workerName(m.from) == name && m.name in us ==>
                && written == [m]
                && err == if writeFailure.Some? then Some(WritingJSONFailed(writeFailure.value)) else None
    {
      if workerName(m.from) != name {
        return [], None;
      }
      if m.name !in us {
        return [], None;
      }
      written := [m];
      if writeFailure.Some? {
        return written, Some(WritingJSONFailed(writeFailure.value));
      }
      err := None;
    }

    /** The siblings of a broadcast: every record of `ws` whose name is not this worker's, in map order. */
    method BroadcastTargets() returns (targets: seq<Sibling>, ghost keys: seq<string>)
      ensures Distinct(keys)
      ensures forall k :: k in keys <==> k in ws && ws[k].name != name
      ensures |targets| == |keys|
      ensures forall j :: 0 <= j < |keys| ==> targets[j] == ws[keys[j]]
      ensures forall s :: s in targets ==> s in ws.Values && s.name != name
      ensures forall k :: k in ws && ws[k].name != name ==> ws[k] in targets
    {
      targets, keys := [], [];
      var remaining := ws.Keys;
      while remaining != {}
        invariant remaining <= ws.Keys
        invariant Distinct(keys)
        invariant forall k :: k in keys <==> k in ws && k !in remaining && ws[k].name != name
        invariant |targets| == |keys|
        invariant forall j :: 0 <= j < |keys| ==> targets[j] == ws[keys[j]]
        decreases remaining
      {
        var k :| k in remaining;
        var sibling := ws[k];
        if sibling.name != name {
          AppendElement(keys, k);
          targets, keys := targets + [sibling], keys + [k];
        }
        remaining := remaining - {k};
      }
    }

    /**
     * `sendMessageToWorker`: a message of this worker goes to the sibling
     * its target names, or to every other sibling when the target names no
     * worker. A missing target sends nothing and reports no error.
     * `keys` are the entries of `ws` the message was sent to, in order.
     */
    method SendMessageToWorker(m: Messages.Message, respond: string -> Response)
      returns (requests: seq<Request>, err: Option<Error>, ghost keys: seq<string>)
      ensures workerName(m.from) != name ==> requests == [] && err.None?
      ensures m.to.None? ==> requests == [] && err.None?
      ensures workerName(m.from) == name && m.to.Some? ==>
                var target := workerName(m.to.value);
                && (target != "" && target == name ==> requests == [] && err.None?)
                && (target != "" && target != name && target !in ws ==>
                      requests == [] && err == Some(WorkerNotFound(target)))
                && (target != "" && target != name && target in ws ==>
                      keys == [target] && Delivered([ws[target]], m, respond, requests, err))
                && (target == "" ==>
                      && Distinct(keys)
                      && (forall k :: k in keys <==> k in ws && ws[k].name != name)
                      && var siblings := ws;
                      && Delivered(seq(|keys|, j requires 0 <= j < |keys| && keys[j] in siblings => siblings[keys[j]]),
                                   m, respond, requests, err))
    {
      keys := [];
      if workerName(m.from) != name {
        return [], None, keys;
      }
      if m.to.None? {
        return [], None, keys;
      }
      var targets: seq<Sibling>;
      var target := workerName(m.to.value);
      if target != "" {
        if target == name {
          return [], None, keys;
        }
        if target !in ws {
          return [], Some(WorkerNotFound(target)), keys;
        }
        targets, keys := [ws[target]], [target];
      } else {
        targets, keys := BroadcastTargets();
        var siblings := ws;
        assert targets == seq(|keys|, j requires 0 <= j < |keys| && keys[j] in siblings => siblings[keys[j]]);
      }
      requests, err := SendToSiblings(targets, m, respond);
    }
  }
}
