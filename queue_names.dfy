/** The event names of the notification pipeline. */
module EventNames {
  const NotificationInitialized: string := "NotificationInitialized"
  const EmailTemplateShouldBePopulated: string := "EmailTemplateShouldBePopulated"
  const EmailTemplateHasBeenPopulated: string := "EmailTemplateHasBeenPopulated"
}

/** The queue tables of a tenant database, one per pipeline stage. */
module QueueTableNames {
  const UnprocessedNotifications: string := "queues.unprocessed_notifications"
  const EmailsToBePopulated: string := "queues.emails_to_be_merged_into_template"
  const EmailsToBeSent: string := "queues.emails_to_be_sent"
}
