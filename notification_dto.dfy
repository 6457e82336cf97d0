/** The notification entity and the DTO the case-management system posts,
    with its two conversions: to the stored entity and to the queue message. */
module NotificationDto {
  import opened Wrappers
  import opened Json
  import NotificationPayload

  /** A `Guid`; the empty Guid is 0. */
  type Guid = nat

  const EmptyGuid: Guid := 0

  /** `Notification`: a row of the notification table. The summary is an
      object reference and may be null. */
  datatype Notification = Notification(
    id: Guid, postUserId: string, feedUserId: string, activityType: string,
    activitySummary: Option<seq<Property>>, isRead: bool, postDate: int)

  /** `NotificationFromJavaDto`: the notification plus the two addresses
      the e-mail is to carry. */
  datatype NotificationFromJavaDto = NotificationFromJavaDto(
    id: Guid, postUserId: string, feedUserId: string, activityType: string,
    activitySummary: Option<seq<Property>>, isRead: bool, postDate: int, toEmail: string, fromEmail: string)

  /** `ToNotification`: every field the entity has is copied. */
  function ToNotification(dto: NotificationFromJavaDto): (r: Notification)
    ensures r.id == dto.id && r.postUserId == dto.postUserId && r.feedUserId == dto.feedUserId
    ensures r.activityType == dto.activityType && r.activitySummary == dto.activitySummary
    ensures r.isRead == dto.isRead && r.postDate == dto.postDate
  {
    Notification(dto.id, dto.postUserId, dto.feedUserId, dto.activityType, dto.activitySummary, dto.isRead, dto.postDate)
  }

  /** The entity does not depend on the addresses: they are dropped. */
  lemma ToNotificationDropsAddresses(dto: NotificationFromJavaDto, toEmail: string, fromEmail: string)
    ensures ToNotification(dto.(toEmail := toEmail, fromEmail := fromEmail)) == ToNotification(dto)
  {
  }

  /** `summary[key]?.ToString()`: null when the key is missing. */
  function SummaryText(summary: seq<Property>, key: string): (r: Option<string>)
    ensures r.None? <==> Get(summary, key).None?
    ensures r.Some? ==> r.value == Text(Get(summary, key).value)
  {
    match Get(summary, key)
    case None => None
    case Some(v) => Some(Text(v))
  }

  /** The four details taken from the summary by exact key. */
  function SummaryData(summary: seq<Property>): (r: NotificationPayload.JsonData)
  {
    NotificationPayload.JsonData(SummaryText(summary, "modifierDisplayName"), SummaryText(summary, "caseId"),
                                 SummaryText(summary, "caseTitle"), SummaryText(summary, "docTitle"))
  }

  /** `ToMessage`: the user name is the feed user, the activity type and the
      addresses are copied and the details come from the summary; a null
      summary cannot be indexed. */
  function ToMessage(dto: NotificationFromJavaDto): (r: Result<NotificationPayload.Message>)
    ensures r.Ok? <==> dto.activitySummary.Some?
    ensures r.Err? ==> r.error == NullReferenceException
    ensures r.Ok? ==> r.value.userName == dto.feedUserId && r.value.activityType == dto.activityType
    ensures r.Ok? ==> r.value.toEmail == dto.toEmail && r.value.fromEmail == dto.fromEmail
    ensures r.Ok? ==> r.value.jsonData == SummaryData(dto.activitySummary.value)
  {
    match dto.activitySummary
    case None => Err(NullReferenceException)
    case Some(summary) =>
      Ok(NotificationPayload.Message(dto.activityType, SummaryData(summary), dto.feedUserId, dto.toEmail, dto.fromEmail))
  }

  /** A detail is null exactly when no property of the summary carries its
      key in exactly that spelling; a key holding JSON null gives the empty
      text. */
  lemma SummaryTextNullIffMissing(summary: seq<Property>, key: string)
    ensures SummaryText(summary, key).None? <==> forall j :: 0 <= j < |summary| ==> summary[j].name != key
    ensures Get(summary, key) == Some(JNull) ==> SummaryText(summary, key) == Some("")
  {
    GetMissing(summary, key);
  }

  /** The entity and the message agree: the message's user is the stored
      feed user and its activity type the stored one. */
  lemma MessageMatchesEntity(dto: NotificationFromJavaDto)
    requires dto.activitySummary.Some?
    ensures ToMessage(dto).value.userName == ToNotification(dto).feedUserId
    ensures ToMessage(dto).value.activityType == ToNotification(dto).activityType
  {
  }
}
