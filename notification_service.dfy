/** The notification service: storing a posted notification and publishing
    it to the message queue, and handing a message on to the template stage. */
module NotificationService {
  import opened Wrappers
  import opened Strings
  import opened Json
  import opened NotificationPayload
  import opened NotificationDto
  import Repository = NotificationRepository
  import EmailTemplatePayload

  const PublishNotificationUrl := "http://localhost:5204/messagequeue/publish/NotificationInitialized"
  const PublishEmailUrl := "http://localhost:5204/messagequeue/publish/EmailTemplateShouldBePopulated"
  const TenantHeader := "X-Tenant-Identifier"
  const Unknown := "Unknown"

  /** An HTTP POST to the message queue: the address, the JSON body and the
      extra headers. */
  datatype Request = Request(url: string, body: seq<Property>, headers: seq<(string, string)>)

  datatype Response = Response(statusCode: int, content: string)

  /** What sending a request yields: a response, or the exception the
      client threw. */
  datatype Reply = Responded(response: Response) | Threw(error: Exception)

  datatype LogEntry =
    | PublishFailed(statusCode: int, errorContent: string)
    | PublishError(error: Exception)
    | EmailError(error: Exception)

  predicate IsSuccessStatusCode(statusCode: int)
  {
    200 <= statusCode <= 299
  }

  /** `summary[key]?.ToString() ?? "Unknown"`. */
  function OrUnknown(s: Option<string>): (r: string)
    ensures s.None? ==> r == Unknown
    ensures s.Some? ==> r == s.value
  {
    if s.Some? then s.value else Unknown
  }

  /** The details the published payload carries: each taken from the
      summary, `"Unknown"` when its key is missing. */
  function PublishedData(summary: seq<Property>): (r: JsonData)
    ensures r.modifierDisplayName == Some(OrUnknown(SummaryText(summary, "modifierDisplayName")))
    ensures r.caseId == Some(OrUnknown(SummaryText(summary, "caseId")))
    ensures r.caseTitle == Some(OrUnknown(SummaryText(summary, "caseTitle")))
    ensures r.docTitle == Some(OrUnknown(SummaryText(summary, "docTitle")))
  {
    JsonData(Some(OrUnknown(SummaryText(summary, "modifierDisplayName"))), Some(OrUnknown(SummaryText(summary, "caseId"))),
             Some(OrUnknown(SummaryText(summary, "caseTitle"))), Some(OrUnknown(SummaryText(summary, "docTitle"))))
  }

  /** The message object `PublishToMessageQueue` builds; a null summary
      cannot be indexed. */
  function PublishPayload(dto: NotificationFromJavaDto): (r: Result<seq<Property>>)
    ensures r.Err? <==> dto.activitySummary.None?
    ensures r.Err? ==> r.error == NullReferenceException
  {
    match dto.activitySummary
    case None => Err(NullReferenceException)
    case Some(summary) =>
      Ok(Envelope(JString(dto.activityType), JObject(JsonDataObject(PublishedData(summary))), JString(dto.feedUserId),
                  JString(dto.toEmail), JString(dto.fromEmail)))
  }

  /** The message `ToMessage` gives, with each missing detail replaced by
      `"Unknown"`. */
  function WithFallbacks(message: Message): Message
  {
    var d := message.jsonData;
    message.(jsonData := JsonData(Some(OrUnknown(d.modifierDisplayName)), Some(OrUnknown(d.caseId)),
                                  Some(OrUnknown(d.caseTitle)), Some(OrUnknown(d.docTitle))))
  }

  /** What is published is what the notification stage decodes: the DTO's
      message with `"Unknown"` for each detail its summary lacks, the user
      being the feed user. */
  lemma PublishedPayloadDecodes(id: int, dto: NotificationFromJavaDto)
    requires dto.activitySummary.Some?
    ensures ToIdAndMessage(IdAndJObject(id, PublishPayload(dto).value)) == Ok(IdAndMessage(id, WithFallbacks(ToMessage(dto).value)))
    ensures WithFallbacks(ToMessage(dto).value).userName == dto.feedUserId
  {
    var summary := dto.activitySummary.value;
    assert PublishPayload(dto).value == Payload(WithFallbacks(ToMessage(dto).value));
    DecodesPayload(id, WithFallbacks(ToMessage(dto).value));
  }

  /** A published detail is `"Unknown"` when its key is missing from the
      summary, and the key's text when it is present. */
  lemma UnknownOnlyForMissingKey(summary: seq<Property>, key: string)
    ensures (forall j :: 0 <= j < |summary| ==> summary[j].name != key) ==> OrUnknown(SummaryText(summary, key)) == Unknown
    ensures Get(summary, key).Some? ==> OrUnknown(SummaryText(summary, key)) == Text(Get(summary, key).value)
  {
    SummaryTextNullIffMissing(summary, key);
  }

  /** `JsonConvert.SerializeObject(new EmailNotification(...))`: the
      members under their own names. */
  function EmailNotificationBody(message: Message, linksEnabled: bool): seq<Property>
  {
    EmailTemplatePayload.Envelope(JString(message.activityType), JObject(JsonDataObject(message.jsonData)),
                                  JString(message.userName), JString(message.toEmail), JString(message.fromEmail),
                                  JBool(linksEnabled))
  }

  /** The template stage's details for this stage's: the four shared members
      carried over, the other five null. */
  function Widened(d: JsonData): EmailTemplatePayload.JsonData
  {
    EmailTemplatePayload.JsonData(None, d.modifierDisplayName, None, d.caseId, d.caseTitle, d.docTitle, None, None, None)
  }

  /** What `CreateEmailNotification` sends is what the template stage
      decodes: the message's fields, its details widened, and the flag. */
  lemma EmailNotificationDecodes(id: int, message: Message, linksEnabled: bool)
    ensures EmailTemplatePayload.ToIdAndEmailActivity(EmailTemplatePayload.IdAndJObject(id, EmailNotificationBody(message, linksEnabled))) ==
            Ok(EmailTemplatePayload.IdAndEmailActivity(id, EmailTemplatePayload.EmailActivity(
                 message.activityType, Widened(message.jsonData), message.userName, message.toEmail, message.fromEmail,
                 linksEnabled)))
  {
    WidenedRoundTrip(message.jsonData);
    EmailTemplatePayload.EnvelopeKeys(JString(message.activityType), JObject(JsonDataObject(message.jsonData)),
                                      JString(message.userName), JString(message.toEmail), JString(message.fromEmail),
                                      JBool(linksEnabled));
  }

  lemma WidenedRoundTrip(d: JsonData)
    ensures EmailTemplatePayload.ToJsonData(JObject(JsonDataObject(d))) == Ok(Some(Widened(d)))
  {
    SharedMembersRead(d);
    OtherMembersNull(d);
  }

  lemma SharedMembersRead(d: JsonData)
    ensures StringMember(JsonDataObject(d), "ModifierDisplayName") == Ok(d.modifierDisplayName)
    ensures StringMember(JsonDataObject(d), "CaseId") == Ok(d.caseId)
    ensures StringMember(JsonDataObject(d), "CaseTitle") == Ok(d.caseTitle)
    ensures StringMember(JsonDataObject(d), "DocTitle") == Ok(d.docTitle)
  {
    JsonDataRoundTrip(d);
  }

  lemma OtherMembersNull(d: JsonData)
    ensures StringMember(JsonDataObject(d), "DocRecordNodeRef") == Ok(None)
    ensures StringMember(JsonDataObject(d), "Modifier") == Ok(None)
    ensures StringMember(JsonDataObject(d), "ParentTitle") == Ok(None)
    ensures StringMember(JsonDataObject(d), "ParentType") == Ok(None)
    ensures StringMember(JsonDataObject(d), "ParentRef") == Ok(None)
  {
    var p := JsonDataObject(d);
    assert forall j :: 0 <= j < |p| ==> !IsContainer(p[j].value);
    StringMemberAbsent(p, "DocRecordNodeRef");
    DifferIgnoringCase("DocTitle", "Modifier");
    StringMemberAbsent(p, "Modifier");
    StringMemberAbsent(p, "ParentTitle");
    StringMemberAbsent(p, "ParentType");
    DifferIgnoringCase("CaseTitle", "ParentRef");
    StringMemberAbsent(p, "ParentRef");
  }

  /** The log entries a publish reply leaves: a failure status is logged,
      an exception is logged (and rethrown). */
  function PublishLog(reply: Reply): seq<LogEntry>
  {
    match reply
    case Threw(e) => [PublishError(e)]
    case Responded(response) =>
      if IsSuccessStatusCode(response.statusCode) then [] else [PublishFailed(response.statusCode, response.content)]
  }

  /** Only an exception fails a publish; a failure status does not. */
  function PublishResult(reply: Reply): (r: Result<()>)
    ensures r.Err? <==> reply.Threw?
  {
    match reply
    case Threw(e) => Err(e)
    case Responded(_) => Ok(())
  }

  /** The service, with the repository it stores into and the requests it
      has sent and the errors it has logged. */
  class NotificationService {
    const repository: Repository.NotificationRepository
    var requests: seq<Request>
    var log: seq<LogEntry>

    constructor(repository: Repository.NotificationRepository)
      ensures this.repository == repository && requests == [] && log == []
    {
      this.repository := repository;
      requests := [];
      log := [];
    }

    /** `CreateAsync`: store the converted notification, then publish the
        DTO; the post date default is applied to the local copy only after
        both, so the stored row keeps the DTO's post date. */
    method CreateAsync(notificationDto: NotificationFromJavaDto, tenantIdentifier: string, freshId: Guid, now: int,
                       reply: Reply) returns (r: Result<()>)
      modifies this, repository
      ensures var stored := tenantIdentifier in old(repository.tables) && notificationDto.activitySummary.Some?;
              && (tenantIdentifier !in old(repository.tables) ==> r == Err(Repository.NoDatabase))
              && (tenantIdentifier in old(repository.tables) && notificationDto.activitySummary.None? ==>
                    r == Err(NullReferenceException))
              && (!stored ==> repository.tables == old(repository.tables) && requests == old(requests) && log == old(log))
              && (stored ==>
                    && repository.tables == old(repository.tables)[tenantIdentifier :=
                         Repository.Inserted(old(repository.tables)[tenantIdentifier], ToNotification(notificationDto), freshId)]
                    && requests == old(requests) + [Request(PublishNotificationUrl, PublishPayload(notificationDto).value,
                                                            [(TenantHeader, tenantIdentifier)])]
                    && log == old(log) + PublishLog(reply)
                    && r == PublishResult(reply))
    {
      var notification := ToNotification(notificationDto);
      var stored := repository.CreateAsync(notification, tenantIdentifier, freshId);
      if stored.Err? {
        return Err(stored.error);
      }
      r := PublishToMessageQueue(notificationDto, tenantIdentifier, reply);
      if r.Err? {
        return;
      }
      if notification.postDate == 0 {
        notification := notification.(postDate := now);
      }
    }

    /** `PublishToMessageQueue`: build the message object, send it with the
        tenant header, log a failure status and rethrow an exception. */
    method PublishToMessageQueue(notificationDto: NotificationFromJavaDto, tenantIdentifier: string, reply: Reply)
      returns (r: Result<()>)
      modifies this
      ensures notificationDto.activitySummary.None? ==>
                r == Err(NullReferenceException) && requests == old(requests) &&
                log == old(log) + [PublishError(NullReferenceException)]
      ensures notificationDto.activitySummary.Some? ==>
                && requests == old(requests) + [Request(PublishNotificationUrl, PublishPayload(notificationDto).value,
                                                        [(TenantHeader, tenantIdentifier)])]
                && log == old(log) + PublishLog(reply)
                && r == PublishResult(reply)
    {
      var messageObject := PublishPayload(notificationDto);
      if messageObject.Err? {
        log := log + [PublishError(messageObject.error)];
        return Err(messageObject.error);
      }
      requests := requests + [Request(PublishNotificationUrl, messageObject.value, [(TenantHeader, tenantIdentifier)])];
      match reply
      case Threw(e) =>
        log := log + [PublishError(e)];
        return Err(e);
      case Responded(response) =>
        if !IsSuccessStatusCode(response.statusCode) {
          log := log + [PublishFailed(response.statusCode, response.content)];
        }
        return Ok(());
    }

    /** `CreateEmailNotification`: send the message and the flag to the
        template stage's queue and return the response's content. */
    method CreateEmailNotification(message: Message, linksEnabled: bool, reply: Reply) returns (r: Result<string>)
      modifies this
      ensures requests == old(requests) + [Request(PublishEmailUrl, EmailNotificationBody(message, linksEnabled), [])]
      ensures reply.Threw? ==> r == Err(reply.error) && log == old(log) + [EmailError(reply.error)]
      ensures reply.Responded? ==> r == Ok(reply.response.content) && log == old(log)
    {
      requests := requests + [Request(PublishEmailUrl, EmailNotificationBody(message, linksEnabled), [])];
      match reply
      case Threw(e) =>
        log := log + [EmailError(e)];
        return Err(e);
      case Responded(response) =>
        return Ok(response.content);
    }
  }

  /** The row `CreateAsync` stores carries the DTO's post date, even when
      that is 0, and no address. */
  lemma StoredPostDateIsDtos(table: seq<Notification>, dto: NotificationFromJavaDto, freshId: Guid)
    ensures var row := Repository.Inserted(table, ToNotification(dto), freshId)[|table|];
            row.postDate == dto.postDate && row.feedUserId == dto.feedUserId && row.activitySummary == dto.activitySummary
  {
  }
}
