/** The best-effort publisher: messages go to the client's FIFO queue or are silently dropped. */
module MqttPub {
  import opened Json
  import opened Topics

  datatype Message = Message(topic: string, payload: Dict, retain: bool)

  class Publisher {
    var queue: seq<Message>

    constructor ()
      ensures queue == []
    {
      queue := [];
    }

    /** The client raises on a wildcard in the topic, and `accepted` is false when it raises for any
        other reason; the caller cannot tell. */
    method Publish(topic: string, payload: Dict, retain: bool, accepted: bool)
      modifies this
      ensures queue == old(queue) + if accepted && Publishable(topic) then [Message(topic, payload, retain)] else []
    {
      if accepted && Publishable(topic) {
        queue := queue + [Message(topic, payload, retain)];
      }
    }

    method PublishRetained(topic: string, payload: Dict, accepted: bool)
      modifies this
      ensures queue == old(queue) + if accepted && Publishable(topic) then [Message(topic, payload, true)] else []
    {
      Publish(topic, payload, true, accepted);
    }
  }
}
