/**
 * The cross-window message passer of src/messages.js. A `MessageManager`
 * keeps its clients in a map that remembers insertion order; `Broadcast`
 * hands a message to every client except the sender, in that order.
 * Callbacks are opaque tokens: invoking one is recorded as a `Delivery` in
 * the manager's trace.
 */
module Messages {
  import opened Wrappers
  import opened Text

  type ClientId = string

  /** An opaque callback supplied by a client. */
  type Callback = nat

  /** A resource as `send` reads it: `getId()` and its optional 'type' property. */
  datatype Resource = Resource(id: string, kind: Option<string>)

  /** The fixed envelope built by `send`. */
  datatype Envelope = Envelope(sender: ClientId, resource: string, kind: string, action: string, data: string)

  /** One invocation of a client's callback with a message. */
  datatype Delivery = Delivery(client: ClientId, callback: Callback, message: Envelope)

  predicate Distinct(s: seq<ClientId>) {
    forall i, j :: 0 <= i < j < |s| ==> s[i] != s[j]
  }

  /** The registered ids other than the sender, in registration order. */
  function Recipients(order: seq<ClientId>, sender: ClientId): (r: seq<ClientId>)
    ensures |r| <= |order|
    ensures forall id :: id in r <==> id in order && id != sender
    decreases |order|
  {
    if |order| == 0 then []
    else (if order[0] != sender then [order[0]] else []) + Recipients(order[1..], sender)
  }

  function Occurrences(s: seq<ClientId>, id: ClientId): nat
    decreases |s|
  {
    if |s| == 0 then 0 else (if s[0] == id then 1 else 0) + Occurrences(s[1..], id)
  }

  /** Every recipient is reached exactly once, the sender never. */
  lemma {:induction false} RecipientsOnce(order: seq<ClientId>, sender: ClientId, id: ClientId)
    requires Distinct(order)
    ensures Occurrences(Recipients(order, sender), id) == (if id in order && id != sender then 1 else 0)
    decreases |order|
  {
    if |order| > 0 {
      assert Distinct(order[1..]) by {
        forall i, j | 0 <= i < j < |order[1..]| ensures order[1..][i] != order[1..][j] {
          assert order[1..][i] == order[i + 1] && order[1..][j] == order[j + 1];
        }
      }
      RecipientsOnce(order[1..], sender, id);
      var head := if order[0] != sender then [order[0]] else [];
      OccurrencesAppend(head, Recipients(order[1..], sender), id);
      if order[0] == id {
        assert id !in order[1..] by {
          forall k | 0 <= k < |order[1..]| ensures order[1..][k] != id {
            assert order[1..][k] == order[k + 1];
          }
        }
      } else {
        assert id in order <==> id in order[1..] by {
          assert order == [order[0]] + order[1..];
        }
      }
    }
  }

  lemma {:induction false} OccurrencesAppend(a: seq<ClientId>, b: seq<ClientId>, id: ClientId)
    ensures Occurrences(a + b, id) == Occurrences(a, id) + Occurrences(b, id)
    decreases |a|
  {
    if |a| == 0 {
      assert a + b == b;
    } else {
      assert (a + b)[1..] == a[1..] + b;
      OccurrencesAppend(a[1..], b, id);
    }
  }

  /** A sender that is not registered reaches every registered client, in order. */
  lemma {:induction false} UnregisteredSenderReachesAll(order: seq<ClientId>, sender: ClientId)
    requires sender !in order
    ensures Recipients(order, sender) == order
    decreases |order|
  {
    if |order| > 0 {
      UnregisteredSenderReachesAll(order[1..], sender);
      assert [order[0]] + order[1..] == order;
    }
  }

  /** `resource.get('type') || ''`. */
  function KindOf(r: Resource): (k: string)
    ensures k == "" <==> !Truthy(r.kind)
    ensures k != "" ==> r.kind == Some(k)
  {
    if Truthy(r.kind) then r.kind.value else ""
  }

  /** The envelope `send` broadcasts; an omitted `data` defaults to ''. */
  function MakeEnvelope(sender: ClientId, resource: Resource, action: string, data: Option<string>): (e: Envelope)
    ensures e.sender == sender && e.resource == resource.id && e.action == action
    ensures e.kind == KindOf(resource)
    ensures e.data == (if data.Some? then data.value else "")
  {
    Envelope(sender, resource.id, KindOf(resource), action, if data.Some? then data.value else "")
  }

  /** The invocations a broadcast makes, recipient by recipient. */
  function DeliveriesTo(ids: seq<ClientId>, clients: map<ClientId, MessageClient>, m: Envelope): (r: seq<Delivery>)
    requires forall id :: id in ids ==> id in clients
    ensures |r| == |ids|
    ensures forall k :: 0 <= k < |r| ==> r[k] == Delivery(ids[k], clients[ids[k]].callback, m)
  {
    seq(|ids|, k requires 0 <= k < |ids| => Delivery(ids[k], clients[ids[k]].callback, m))
  }

  class MessageManager {
    var order: seq<ClientId>
    var clients: map<ClientId, MessageClient>
    var deliveries: seq<Delivery>

    /** The insertion order lists each registered id exactly once, and every
        client is registered under its own id with this manager. */
    ghost predicate Valid()
      reads this
    {
      && Distinct(order)
      && (forall id :: id in order <==> id in clients)
      && (forall id :: id in clients ==> clients[id].id == id && clients[id].manager == this)
    }

    constructor ()
      ensures Valid() && order == [] && clients == map[] && deliveries == []
    {
      order := [];
      clients := map[];
      deliveries := [];
    }

    /** Registers a new client, or returns the one already registered under
        that id, whose callback is kept. */
    method Connect(clientId: ClientId, callback: Callback) returns (c: MessageClient)
      requires Valid()
      modifies this
      ensures Valid()
      ensures clientId in clients && c == clients[clientId]
      ensures clientId in old(clients) ==> clients == old(clients) && order == old(order)
      ensures clientId !in old(clients) ==>
        && fresh(c) && c.id == clientId && c.callback == callback
        && clients == old(clients)[clientId := c] && order == old(order) + [clientId]
      ensures deliveries == old(deliveries)
    {
      if clientId !in clients {
        c := new MessageClient(clientId, callback, this);
        clients := clients[clientId := c];
        order := order + [clientId];
      }
      c := clients[clientId];
    }

    /** Unregisters the id; an absent id changes nothing. */
    method Disconnect(clientId: ClientId)
      requires Valid()
      modifies this
      ensures Valid()
      ensures clients == old(clients) - {clientId}
      ensures order == Recipients(old(order), clientId)
      ensures clientId !in old(clients) ==> order == old(order)
      ensures deliveries == old(deliveries)
    {
      if clientId !in order {
        UnregisteredSenderReachesAll(order, clientId);
      }
      clients := clients - {clientId};
      order := Recipients(order, clientId);
      DistinctRecipients(old(order), clientId);
    }

    /** Invokes the callback of every registered client other than the sender,
        in registration order. */
    method Broadcast(senderId: ClientId, m: Envelope)
      requires Valid()
      modifies this
      ensures Valid()
      ensures order == old(order) && clients == old(clients)
      ensures deliveries == old(deliveries) + DeliveriesTo(Recipients(order, senderId), clients, m)
    {
      var sent: seq<ClientId> := [];
      for i := 0 to |order|
        invariant order == old(order) && clients == old(clients)
        invariant sent == Recipients(order[..i], senderId)
        invariant deliveries == old(deliveries) + DeliveriesTo(sent, clients, m)
      {
        var id := order[i];
        var client := clients[id];
        RecipientsSnoc(order[..i], senderId, id);
        assert order[..i + 1] == order[..i] + [id];
        if id != senderId {
          deliveries := deliveries + [Delivery(id, client.callback, m)];
          sent := sent + [id];
        }
      }
      assert order[..|order|] == order;
    }
  }

  lemma {:induction false} RecipientsSnoc(order: seq<ClientId>, sender: ClientId, id: ClientId)
    ensures Recipients(order + [id], sender) == Recipients(order, sender) + (if id != sender then [id] else [])
    decreases |order|
  {
    if |order| == 0 {
      assert [id][1..] == [];
    } else {
      assert (order + [id])[1..] == order[1..] + [id];
      RecipientsSnoc(order[1..], sender, id);
    }
  }

  lemma {:induction false} DistinctRecipients(order: seq<ClientId>, sender: ClientId)
    requires Distinct(order)
    ensures Distinct(Recipients(order, sender))
    decreases |order|
  {
    if |order| > 0 {
      assert Distinct(order[1..]) by {
        forall i, j | 0 <= i < j < |order[1..]| ensures order[1..][i] != order[1..][j] {
          assert order[1..][i] == order[i + 1] && order[1..][j] == order[j + 1];
        }
      }
      DistinctRecipients(order[1..], sender);
      assert order[0] !in order[1..] by {
        forall k | 0 <= k < |order[1..]| ensures order[1..][k] != order[0] {
          assert order[1..][k] == order[k + 1];
        }
      }
    }
  }

  class MessageClient {
    const id: ClientId
    const callback: Callback
    const manager: MessageManager

    constructor (id: ClientId, callback: Callback, manager: MessageManager)
      ensures this.id == id && this.callback == callback && this.manager == manager
    {
      this.id := id;
      this.callback := callback;
      this.manager := manager;
    }

    /** Broadcasts the envelope for `resource` and `action` from this client. */
    method Send(resource: Resource, action: string, data: Option<string>)
      requires manager.Valid()
      modifies manager
      ensures manager.Valid()
      ensures manager.order == old(manager.order) && manager.clients == old(manager.clients)
      ensures manager.deliveries == old(manager.deliveries)
        + DeliveriesTo(Recipients(manager.order, id), manager.clients, MakeEnvelope(id, resource, action, data))
    {
      manager.Broadcast(id, MakeEnvelope(id, resource, action, data));
    }
  }
}
