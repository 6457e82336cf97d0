/** Event name -> email template name, used by the template stage. */
module EmailTemplateNames {
  import opened Wrappers
  import EventNames

  const DocumentUploadedToCase: string := "DocumentUploadedToCase"
  const DocumentUploadEvent: string := "dk.openesdh.case.document-upload"

  /** `GetEmailTemplateNameFromEventName`: the document-upload event names
      the document-uploaded template; any other name is rejected. */
  function GetEmailTemplateNameFromEventName(eventName: string): (r: Result<string>)
    ensures r.Ok? <==> eventName == DocumentUploadEvent
    ensures r.Ok? ==> r.value == DocumentUploadedToCase
    ensures r.Err? ==> r.error == ArgumentException("Unknown event name: " + eventName)
  {
    if eventName == DocumentUploadEvent then Ok(DocumentUploadedToCase)
    else Err(ArgumentException("Unknown event name: " + eventName))
  }

  /** The queue pipeline's own event names are not template events. */
  lemma QueueEventNamesRejected(eventName: string)
    requires eventName in {EventNames.NotificationInitialized, EventNames.EmailTemplateShouldBePopulated,
                           EventNames.EmailTemplateHasBeenPopulated}
    ensures GetEmailTemplateNameFromEventName(eventName).Err?
  {
  }
}
