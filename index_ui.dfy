/**
 * The Index's UI side: the reference-counted subscription table
 * `us: message name -> set of UI session names`, the recipient resolution
 * of messages addressed to UIs, and the guards of the keep-alive call.
 */
module IndexUI {
  import opened Common
  import opened Messages

  /** Every message name in the table has at least one subscribed session. */
  predicate NonEmptyEntries(us: map<string, set<string>>)
  {
    forall n :: n in us ==> us[n] != {}
  }

  /**
   * The names of `names` that are not in `known`, in order of first
   * occurrence and each once: the names a subscription creates.
   */
  function NewNames(names: seq<string>, known: set<string>): seq<string>
    decreases |names|
  {
    if names == [] then []
    else if names[0] in known then NewNames(names[1..], known)
    else [names[0]] + NewNames(names[1..], known + {names[0]})
  }

  /** The names a subscription creates are distinct, new, and all the new names of the request. */
  lemma {:induction false} NewNamesAreTheFreshNames(names: seq<string>, known: set<string>)
    ensures Distinct(NewNames(names, known))
    ensures Elements(NewNames(names, known)) == Elements(names) - known
    decreases |names|
  {
    if names != [] {
      var n, rest := names[0], names[1..];
      assert Elements(names) == {n} + Elements(rest) by { assert names == [n] + rest; }
      if n in known {
        NewNamesAreTheFreshNames(rest, known);
      } else {
        NewNamesAreTheFreshNames(rest, known + {n});
        var tail := NewNames(rest, known + {n});
        assert NewNames(names, known) == [n] + tail;
        assert Elements([n] + tail) == {n} + Elements(tail) by {
          assert forall y :: y in [n] + tail <==> y == n || y in tail;
        }
        assert n !in Elements(tail);
        assert forall j :: 0 <= j < |tail| ==> tail[j] in Elements(tail);
      }
    }
  }

  /**
   * `us1` is `us0` after session `ui` subscribed to every name of `names`:
   * the keys grow by the requested names, a requested name gains `ui`,
   * every other entry is unchanged.
   */
  ghost predicate SubscribedAll(us0: map<string, set<string>>, us1: map<string, set<string>>, ui: string, names: seq<string>)
  {
    && us1.Keys == us0.Keys + Elements(names)
    && (forall n :: n in Elements(names) ==> us1[n] == (if n in us0 then us0[n] else {}) + {ui})
    && (forall n :: n in us0 && n !in Elements(names) ==> us1[n] == us0[n])
  }

  /** One step of `NewNames` at position `i`. */
  lemma NewNamesStep(names: seq<string>, i: nat, known: set<string>)
    requires i < |names|
    ensures NewNames(names[i..], known) ==
            if names[i] in known then NewNames(names[i + 1..], known)
            else [names[i]] + NewNames(names[i + 1..], known + {names[i]})
  {
    assert names[i..][0] == names[i];
    assert names[i..][1..] == names[i + 1..];
  }

  /** Subscribing to one more name of the request extends `SubscribedAll` to it. */
  lemma SubscribeStep(us0: map<string, set<string>>, before: map<string, set<string>>,
                      after: map<string, set<string>>, ui: string, names: seq<string>, i: nat)
    requires i < |names|
    requires SubscribedAll(us0, before, ui, names[..i])
    requires NonEmptyEntries(before)
    requires after == before[names[i] := (if names[i] in before then before[names[i]] else {}) + {ui}]
    ensures SubscribedAll(us0, after, ui, names[..i + 1])
    ensures NonEmptyEntries(after)
    ensures after.Keys == before.Keys + {names[i]}
  {
    assert names[..i + 1] == names[..i] + [names[i]];
    AppendElement(names[..i], names[i]);
  }

  /** The state of the subscription loop after the first `i` names of the request. */
  ghost predicate SubscribeProgress(us0: map<string, set<string>>, us: map<string, set<string>>,
                                    added: seq<string>, ui: string, names: seq<string>, i: nat)
    requires i <= |names|
  {
    && SubscribedAll(us0, us, ui, names[..i])
    && NonEmptyEntries(us)
    && added + NewNames(names[i..], us.Keys) == NewNames(names, us0.Keys)
  }

  /** One iteration of the subscription loop keeps `SubscribeProgress`. */
  lemma SubscribeProgressStep(us0: map<string, set<string>>, before: map<string, set<string>>,
                              after: map<string, set<string>>, addedBefore: seq<string>, addedAfter: seq<string>,
                              ui: string, names: seq<string>, i: nat)
    requires i < |names|
    requires SubscribeProgress(us0, before, addedBefore, ui, names, i)
    requires after == before[names[i] := (if names[i] in before then before[names[i]] else {}) + {ui}]
    requires addedAfter == if names[i] in before then addedBefore else addedBefore + [names[i]]
    ensures SubscribeProgress(us0, after, addedAfter, ui, names, i + 1)
  {
    var n := names[i];
    NewNamesStep(names, i, before.Keys);
    SubscribeStep(us0, before, after, ui, names, i);
    var rest := NewNames(names[i + 1..], after.Keys);
    if n in before {
      assert after.Keys == before.Keys;
    } else {
      assert addedBefore + ([n] + rest) == addedAfter + rest;
    }
  }

  /**
   * `us1` is `us0` after session `ui` left: `ui` is removed from every
   * entry and the entries left empty are removed.
   */
  ghost predicate UnsubscribedAll(us0: map<string, set<string>>, us1: map<string, set<string>>, ui: string)
  {
    && (forall n :: n in us1 <==> n in us0 && us0[n] - {ui} != {})
    && (forall n :: n in us1 ==> us1[n] == us0[n] - {ui})
  }

  /** The message names whose entry `ui` leaves empty. */
  function Orphaned(us: map<string, set<string>>, ui: string): set<string>
  {
    set n | n in us && us[n] - {ui} == {}
  }

  /** Subscribing keeps every entry non-empty and puts `ui` in every requested entry. */
  lemma SubscribingKeepsEntriesNonEmpty(us0: map<string, set<string>>, us1: map<string, set<string>>,
                                        ui: string, names: seq<string>)
    requires NonEmptyEntries(us0)
    requires SubscribedAll(us0, us1, ui, names)
    ensures NonEmptyEntries(us1)
    ensures forall n :: n in names ==> n in us1 && ui in us1[n]
  {
    forall n | n in us1 ensures us1[n] != {} {
      if n in Elements(names) {
        assert ui in us1[n];
      }
    }
  }

  /**
   * After a session leaves, it is in no entry, every entry is non-empty,
   * and when every entry was non-empty beforehand the orphaned names are
   * exactly those whose only session it was.
   */
  lemma UnsubscribingRemovesTheSession(us0: map<string, set<string>>, us1: map<string, set<string>>, ui: string)
    requires UnsubscribedAll(us0, us1, ui)
    ensures NonEmptyEntries(us1)
    ensures forall n :: n in us1 ==> ui !in us1[n]
    ensures NonEmptyEntries(us0) ==> Orphaned(us0, ui) == set n | n in us0 && us0[n] == {ui}
  {
    if NonEmptyEntries(us0) {
      forall n | n in us0 && us0[n] - {ui} == {} ensures us0[n] == {ui} {
        assert us0[n] != {};
        assert us0[n] <= {ui};
      }
    }
  }

  /** What `sendMessageToUI` does with a message. */
  datatype Delivery =
    | Rejected(error: Error)          // an error is returned, nothing is sent
    | NotSent                         // nothing is sent, no error
    | SendTo(names: seq<string>)      // the message goes to these UI sessions

  /** `templateData`: the status code of a rendered page. */
  function TemplateStatusCode(name: string): (code: int)
    ensures code == 404 <==> name == "/errors/404.html"
    ensures code == 200 <==> name != "/errors/404.html"
  {
    if name == "/errors/404.html" then 404 else 200
  }

  class Index {
    /** Message name -> names of the UI sessions that subscribed to it. */
    var us: map<string, set<string>>
    /** The UI sessions registered in the websocket manager. */
    var clients: set<string>

    ghost predicate Valid()
      reads this
    {
      NonEmptyEntries(us)
    }

    /** A new Index: no subscriptions and no UI client. */
    constructor ()
      ensures us == map[] && clients == {}
      ensures Valid()
    {
      us, clients := map[], {};
    }

    /**
     * Resolves the UI sessions a message goes to: its named target, or
     * every session subscribed to its name.
     */
    method SendMessageToUI(m: Message) returns (d: Delivery)
      requires Valid()
      ensures m.to.None? <==> d == Rejected(InvalidTo)
      ensures m.to.Some? && m.to.value.name.Some? ==> d == SendTo([m.to.value.name.value])
      ensures m.to.Some? && m.to.value.name.None? && m.name !in us ==> d == NotSent
      ensures m.to.Some? && m.to.value.name.None? && m.name in us ==>
                d.SendTo? && Distinct(d.names) && Elements(d.names) == us[m.name] && d.names != []
    {
      if m.to.None? {
        return Rejected(InvalidTo);
      }
      if m.to.value.name.Some? {
        return SendTo([m.to.value.name.value]);
      }
      if m.name !in us {
        return NotSent;
      }
      var subscribers := us[m.name];
      var remaining := subscribers;
      var names: seq<string> := [];
      while remaining != {}
        invariant remaining <= subscribers
        invariant Distinct(names)
        invariant Elements(names) == subscribers - remaining
        decreases remaining
      {
        var n :| n in remaining;
        AppendElement(names, n);
        names := names + [n];
        remaining := remaining - {n};
      }
      var n0 :| n0 in subscribers;
      assert n0 in Elements(names);
      return SendTo(names);
    }

    /**
     * Session `u.name` subscribes to the message names of the payload;
     * `added` lists the names that had no subscriber before (0 -> 1).
     */
    method RegisterUI(m: Message) returns (err: Option<Error>, added: seq<string>)
      requires Valid()
      modifies this`us
      ensures Valid()
      ensures m.from.name.None? ==> err == Some(FromNameEmpty) && added == [] && us == old(us)
      ensures m.from.name.Some? && ParseUIRegisterPayload(m).Err? ==>
                err == Some(ParsingPayloadFailed(ParseUIRegisterPayload(m).error)) && added == [] && us == old(us)
      ensures m.from.name.Some? && ParseUIRegisterPayload(m).Ok? ==>
                var u := ParseUIRegisterPayload(m).value;
                && err.None?
                && SubscribedAll(old(us), us, u.name, u.messageNames)
                && added == NewNames(u.messageNames, old(us).Keys)
    {
      if m.from.name.None? {
        return Some(FromNameEmpty), [];
      }
      var parsed := ParseUIRegisterPayload(m);
      if parsed.Err? {
        return Some(ParsingPayloadFailed(parsed.error)), [];
      }
      var u := parsed.value;
      added := Subscribe(u.name, u.messageNames);
      err := None;
    }

    /** The subscription loop of `RegisterUI`: session `ui` subscribes to each of `names` in turn. */
    method Subscribe(ui: string, names: seq<string>) returns (added: seq<string>)
      requires Valid()
      modifies this`us
      ensures Valid()
      ensures SubscribedAll(old(us), us, ui, names)
      ensures added == NewNames(names, old(us).Keys)
    {
      added := [];
      var i := 0;
      assert names[..0] == [] && names[0..] == names;
      while i < |names|
        invariant 0 <= i <= |names|
        invariant SubscribeProgress(old(us), us, added, ui, names, i)
      {
        var n := names[i];
        ghost var before, addedBefore := us, added;
        if n !in us {
          us := us[n := {}];
          added := added + [n];
        }
        us := us[n := us[n] + {ui}];
        SubscribeProgressStep(old(us), before, us, addedBefore, added, ui, names, i);
        i := i + 1;
      }
      assert names[..i] == names;
    }

    /**
     * Session `name` (the payload) leaves: it is removed from every entry,
     * the entries it leaves empty are removed and listed in `removed`
     * (1 -> 0), and its websocket client is unregistered.
     */
    method UnregisterUI(m: Message) returns (err: Option<Error>, removed: seq<string>)
      requires Valid()
      modifies this
      ensures Valid()
      ensures ParseEventUIDisconnectedPayload(m).Err? ==>
                && err == Some(ParsingPayloadFailed(ParseEventUIDisconnectedPayload(m).error))
                && removed == [] && us == old(us) && clients == old(clients)
      ensures ParseEventUIDisconnectedPayload(m).Ok? ==>
                var name := ParseEventUIDisconnectedPayload(m).value;
                && err.None?
                && UnsubscribedAll(old(us), us, name)
                && Distinct(removed) && Elements(removed) == Orphaned(old(us), name)
                && clients == old(clients) - {name}
    {
      var parsed := ParseEventUIDisconnectedPayload(m);
      if parsed.Err? {
        return Some(ParsingPayloadFailed(parsed.error)), [];
      }
      var name := parsed.value;
      var remaining := us.Keys;
      removed := [];
      while remaining != {}
        invariant remaining <= old(us).Keys
        invariant clients == old(clients)
        invariant forall n :: n in us <==> n in old(us) && (n in remaining || old(us)[n] - {name} != {})
        invariant forall n :: n in us ==> us[n] == if n in remaining then old(us)[n] else old(us)[n] - {name}
        invariant Distinct(removed)
        invariant Elements(removed) == Orphaned(old(us), name) - remaining
        decreases remaining
      {
        var n :| n in remaining;
        var rest := us[n] - {name};
        assert n in Orphaned(old(us), name) <==> rest == {};
        AppendElement(removed, n);
        if rest == {} {
          us := us - {n};
          removed := removed + [n];
        } else {
          us := us[n := rest];
        }
        remaining := remaining - {n};
      }
      UnsubscribingRemovesTheSession(old(us), us, name);
      clients := clients - {name};
      err := None;
    }

    /**
     * The guards of `extendUIConnection`: the sender must be named and be a
     * registered client; `extendFailure` is the outcome of the keep-alive
     * call itself.
     */
    function ExtendUIConnection(m: Message, extendFailure: Option<string>): (err: Option<Error>)
      reads this
      ensures m.from.name.None? ==> err == Some(FromNameEmpty)
      ensures m.from.name.Some? && m.from.name.value !in clients ==> err == Some(ClientNotFound(m.from.name.value))
      ensures err.None? <==> m.from.name.Some? && m.from.name.value in clients && extendFailure.None?
    {
      if m.from.name.None? then Some(FromNameEmpty)
      else if m.from.name.value !in clients then Some(ClientNotFound(m.from.name.value))
      else if extendFailure.Some? then Some(ExtendingConnectionFailed(extendFailure.value))
      else None
    }
  }
}
