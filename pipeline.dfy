/** How the two routing tables fit together: what one stage publishes,
    a registered consumer origin drains. */
module Pipeline {
  import opened Wrappers
  import EventNames
  import QueueTableNames
  import EventRouting
  import RefererRouting
  import LegacyEventRouting

  /** Every queue an event is published into is drained by some registered
      origin, so no stage publishes into an undrained queue. */
  lemma PipelineClosed(eventName: string)
    requires EventRouting.GetDbTableForEventName(eventName).Ok?
    ensures exists origin :: RefererRouting.GetQueueTableName(origin) == EventRouting.GetDbTableForEventName(eventName)
  {
    if eventName == EventNames.NotificationInitialized {
      RefererRouting.NotificationOriginRoutes([]);
      assert RefererRouting.GetQueueTableName("http://localhost:5258" + []) == Ok(QueueTableNames.UnprocessedNotifications);
    } else if eventName == EventNames.EmailTemplateShouldBePopulated {
      RefererRouting.TemplateOriginRoutes([]);
      assert RefererRouting.GetQueueTableName("http://localhost:5298" + []) == Ok(QueueTableNames.EmailsToBePopulated);
    } else {
      RefererRouting.SenderOriginRoutes([]);
      assert RefererRouting.GetQueueTableName("http://localhost:5089" + []) == Ok(QueueTableNames.EmailsToBeSent);
    }
  }

  /** The table the older mapper routes `NotificationInitialized` to is
      drained by no origin: with it, the first stage would publish into a
      queue nobody polls. */
  lemma LegacyNotificationQueueUndrained(referer: string)
    ensures RefererRouting.GetQueueTableName(referer) != LegacyEventRouting.GetDbTableForEventName("NotificationInitialized")
  {
    LegacyEventRouting.LegacyEventRoutes();
    var r := RefererRouting.GetQueueTableName(referer);
    if r.Ok? {
      assert r.value in RefererRouting.RefererToQueueMap.Values;
      assert |LegacyEventRouting.NotificationInitialized| == 20;
    }
  }
}
