/** Event name -> destination queue table. */
module EventRouting {
  import opened Wrappers
  import EventNames
  import QueueTableNames

  /** `EventNameToDbTableMapper.GetDbTableForEventName`: an exact match on one
      of the three event names; anything else is an `ArgumentException`. */
  function GetDbTableForEventName(eventName: string): (r: Result<string>)
    ensures r.Ok? <==> eventName in {EventNames.NotificationInitialized,
                                     EventNames.EmailTemplateShouldBePopulated,
                                     EventNames.EmailTemplateHasBeenPopulated}
    ensures r.Ok? ==> r.value in {QueueTableNames.UnprocessedNotifications,
                                  QueueTableNames.EmailsToBePopulated,
                                  QueueTableNames.EmailsToBeSent}
    ensures r.Err? ==> r.error == ArgumentException("Unknown event name: " + eventName)
  {
    if eventName == EventNames.NotificationInitialized then Ok(QueueTableNames.UnprocessedNotifications)
    else if eventName == EventNames.EmailTemplateShouldBePopulated then Ok(QueueTableNames.EmailsToBePopulated)
    else if eventName == EventNames.EmailTemplateHasBeenPopulated then Ok(QueueTableNames.EmailsToBeSent)
    else Err(ArgumentException("Unknown event name: " + eventName))
  }

  /** Each event name is routed to its own stage's queue. */
  lemma EventRoutes()
    ensures GetDbTableForEventName(EventNames.NotificationInitialized) == Ok(QueueTableNames.UnprocessedNotifications)
    ensures GetDbTableForEventName(EventNames.EmailTemplateShouldBePopulated) == Ok(QueueTableNames.EmailsToBePopulated)
    ensures GetDbTableForEventName(EventNames.EmailTemplateHasBeenPopulated) == Ok(QueueTableNames.EmailsToBeSent)
  {
  }

  /** Matching is exact: a case variant of an event name is rejected. */
  lemma CaseVariantRejected()
    ensures GetDbTableForEventName("notificationinitialized").Err?
  {
  }

  /** Two different event names never share a queue table. */
  lemma EventRoutingInjective(e1: string, e2: string)
    requires GetDbTableForEventName(e1).Ok? && GetDbTableForEventName(e2).Ok?
    requires GetDbTableForEventName(e1) == GetDbTableForEventName(e2)
    ensures e1 == e2
  {
  }
}
