/**
 * `getTopic`: resolving a publish/subscribe topic by trying to create it and
 * treating "already exists" as success. The messaging client is not modelled:
 * the outcome of the creation attempt is an input.
 */
module Topics {
  import opened JsValues

  /** A topic handle; handles are identified by the topic's name. */
  datatype Topic = Topic(name: string)

  /** An error object of the messaging client, with its numeric code. */
  datatype PubSubError = PubSubError(code: int, message: string)

  /** The callback arguments of `createTopic`: the new topic, or an error (with whatever topic value came with it). */
  datatype CreateOutcome =
    | Created(topic: Topic)
    | CreateFailed(error: PubSubError, partial: Option<Topic>)

  /** The arguments `getTopic` passes to its own callback: an error or none, and a topic or none. */
  datatype Resolution = Resolution(error: Option<PubSubError>, topic: Option<Topic>)

  /** The code of the "already exists" conflict. */
  const AlreadyExists: int := 409

  /** `pubsub.topic(name)`: a handle on the existing topic of that name. */
  function ExistingTopic(name: string): Topic {
    Topic(name)
  }

  /** `getTopic(pubsub, topicName, cb)`, given what `createTopic` reported. */
  function GetTopic(topicName: string, created: CreateOutcome): (r: Resolution)
    ensures r.error.None? <==> created.Created? || created.error.code == AlreadyExists
    ensures r.error.None? ==> r.topic.Some?
    ensures created.Created? ==> r.topic == Some(created.topic)
    ensures created.CreateFailed? && created.error.code == AlreadyExists ==>
      r.topic == Some(Topic(topicName))
    ensures created.CreateFailed? && created.error.code != AlreadyExists ==>
      r == Resolution(Some(created.error), created.partial)
  {
    if created.CreateFailed? && created.error.code == AlreadyExists then
      Resolution(None, Some(ExistingTopic(topicName)))
    else
      match created
      case Created(t) => Resolution(None, Some(t))
      case CreateFailed(e, t) => Resolution(Some(e), t)
  }
}
