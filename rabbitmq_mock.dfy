/** The in-memory stand-in for the API's RabbitMQ publisher used by the
    end-to-end tests: it records what would have been published. */
module RabbitMqMock {
  import opened JsonValue

  datatype PublishedMessage = PublishedMessage(routingKey: string, payload: Json)

  /** `getMessagesByRoutingKey` on a list of records: the payloads published
      under `routingKey`, in publication order. */
  function PayloadsFor(messages: seq<PublishedMessage>, routingKey: string): (r: seq<Json>)
    ensures |r| <= |messages|
  {
    if messages == [] then []
    else
      var rest := PayloadsFor(messages[1..], routingKey);
      if messages[0].routingKey == routingKey then [messages[0].payload] + rest else rest
  }

  /** Filtering distributes over concatenation. */
  lemma {:induction false} PayloadsForAppend(a: seq<PublishedMessage>, b: seq<PublishedMessage>, routingKey: string)
    ensures PayloadsFor(a + b, routingKey) == PayloadsFor(a, routingKey) + PayloadsFor(b, routingKey)
  {
    if a == [] {
      assert a + b == b;
    } else {
      assert (a + b)[1..] == a[1..] + b;
      PayloadsForAppend(a[1..], b, routingKey);
    }
  }

  /** A payload is listed exactly when some record under that key carries it. */
  lemma {:induction false} PayloadsForMembership(messages: seq<PublishedMessage>, routingKey: string, payload: Json)
    ensures payload in PayloadsFor(messages, routingKey) <==> PublishedMessage(routingKey, payload) in messages
  {
    if messages != [] {
      PayloadsForMembership(messages[1..], routingKey, payload);
      assert forall m :: m in messages <==> m == messages[0] || m in messages[1..];
    }
  }

  class RabbitMqMockService {
    var published: seq<PublishedMessage>

    constructor()
      ensures published == []
    {
      published := [];
    }

    /** `publish`: records the message. */
    method Publish(routingKey: string, payload: Json)
      modifies this
      ensures published == old(published) + [PublishedMessage(routingKey, payload)]
    {
      published := published + [PublishedMessage(routingKey, payload)];
    }

    /** `getPublishedMessages`. */
    method GetPublishedMessages() returns (r: seq<PublishedMessage>)
      ensures r == published
    {
      r := published;
    }

    /** `clearPublishedMessages`. */
    method ClearPublishedMessages()
      modifies this
      ensures published == []
    {
      published := [];
    }

    /** `getMessagesByRoutingKey`. */
    method GetMessagesByRoutingKey(routingKey: string) returns (r: seq<Json>)
      ensures forall p :: p in r <==> PublishedMessage(routingKey, p) in published
      ensures r == PayloadsFor(published, routingKey)
    {
      r := PayloadsFor(published, routingKey);
      forall p
        ensures p in r <==> PublishedMessage(routingKey, p) in published
      {
        PayloadsForMembership(published, routingKey, p);
      }
    }
  }

  /** Publishing appends exactly one payload to the list of its own key and
      leaves every other key's list unchanged. */
  lemma PublishOnlyAffectsItsKey(messages: seq<PublishedMessage>, routingKey: string, payload: Json, other: string)
    ensures PayloadsFor(messages + [PublishedMessage(routingKey, payload)], routingKey)
            == PayloadsFor(messages, routingKey) + [payload]
    ensures other != routingKey ==>
              PayloadsFor(messages + [PublishedMessage(routingKey, payload)], other) == PayloadsFor(messages, other)
  {
    var m := [PublishedMessage(routingKey, payload)];
    PayloadsForAppend(messages, m, routingKey);
    PayloadsForAppend(messages, m, other);
    assert m[1..] == [];
  }
}
