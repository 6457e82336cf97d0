/** The older event name -> queue table mapper, with its own table names. */
module LegacyEventRouting {
  import opened Wrappers
  import Strings

  const Schema: string := "queues."
  const NotificationInitialized: string := Schema + "notifications"
  const EmailTemplateShouldBePopulated: string := Schema + "emails_to_be_merged_into_templates"
  const EmailTemplateHasBeenPopulated: string := Schema + "emails_to_be_sent"

  /** `EventNameToDbTableMapper.GetDbTableForEventName` of the older mapper:
      each of the three event names selects the table constant of the same
      name; anything else is an `ArgumentException`. */
  function GetDbTableForEventName(eventName: string): (r: Result<string>)
    ensures eventName == "NotificationInitialized" ==> r == Ok(NotificationInitialized)
    ensures eventName == "EmailTemplateShouldBePopulated" ==> r == Ok(EmailTemplateShouldBePopulated)
    ensures eventName == "EmailTemplateHasBeenPopulated" ==> r == Ok(EmailTemplateHasBeenPopulated)
    ensures r.Ok? <==> eventName in {"NotificationInitialized", "EmailTemplateShouldBePopulated",
                                     "EmailTemplateHasBeenPopulated"}
    ensures r.Ok? ==> Strings.OccursAt(r.value, Schema, 0)
    ensures r.Err? ==> r.error == ArgumentException("Unknown event name: " + eventName)
  {
    match eventName
    case "NotificationInitialized" => Ok(NotificationInitialized)
    case "EmailTemplateShouldBePopulated" => Ok(EmailTemplateShouldBePopulated)
    case "EmailTemplateHasBeenPopulated" => Ok(EmailTemplateHasBeenPopulated)
    case _ => Err(ArgumentException("Unknown event name: " + eventName))
  }

  /** Each event name is routed to the legacy table constant of its own name. */
  lemma LegacyEventRoutes()
    ensures GetDbTableForEventName("NotificationInitialized") == Ok(NotificationInitialized)
    ensures GetDbTableForEventName("EmailTemplateShouldBePopulated") == Ok(EmailTemplateShouldBePopulated)
    ensures GetDbTableForEventName("EmailTemplateHasBeenPopulated") == Ok(EmailTemplateHasBeenPopulated)
  {
  }

  /** The three legacy tables are pairwise distinct, so the mapping is injective. */
  lemma LegacyRoutingInjective(e1: string, e2: string)
    requires GetDbTableForEventName(e1).Ok? && GetDbTableForEventName(e2).Ok?
    requires GetDbTableForEventName(e1) == GetDbTableForEventName(e2)
    ensures e1 == e2
  {
  }
}
