/** The notification stage's message model and its decoding of a dequeued
    message: five camelCase keys looked up exactly, `jsonData` read into a
    class of four string members. */
module NotificationPayload {
  import opened Wrappers
  import opened Strings
  import opened Json

  /** The activity's details; a member may be null. */
  datatype JsonData = JsonData(
    modifierDisplayName: Option<string>, caseId: Option<string>, caseTitle: Option<string>, docTitle: Option<string>)

  datatype Message = Message(activityType: string, jsonData: JsonData, userName: string, toEmail: string, fromEmail: string)

  datatype IdAndMessage = IdAndMessage(id: int, message: Message)
  datatype IdAndJObject = IdAndJObject(id: int, jObject: seq<Property>)

  /** `JObject.FromObject(jsonData)` (and the same object inside
      `JsonConvert.SerializeObject`): one property per member, named as the
      member, a null member written as JSON null. */
  function JsonDataObject(d: JsonData): seq<Property>
  {
    [Property("ModifierDisplayName", FromOption(d.modifierDisplayName)), Property("CaseId", FromOption(d.caseId)),
     Property("CaseTitle", FromOption(d.caseTitle)), Property("DocTitle", FromOption(d.docTitle))]
  }

  /** `token.ToObject<JsonData>()`: JSON null gives null, an object fills
      each member from the last property matching it ignoring case, anything
      else cannot be converted. */
  function ToJsonData(v: JValue): (r: Result<Option<JsonData>>)
    ensures v.JNull? ==> r == Ok(None)
    ensures !v.JNull? && !v.JObject? ==> r == Err(JsonSerializationException)
    ensures v.JObject? ==> (r.Ok? <==> forall member :: member in Members ==> !ContainerMember(v.properties, member))
    ensures v.JObject? && r.Ok? ==> r.value.Some?
  {
    match v
    case JNull => Ok(None)
    case JObject(ps) =>
      var modifierDisplayName :- StringMember(ps, "ModifierDisplayName");
      var caseId :- StringMember(ps, "CaseId");
      var caseTitle :- StringMember(ps, "CaseTitle");
      var docTitle :- StringMember(ps, "DocTitle");
      Ok(Some(JsonData(modifierDisplayName, caseId, caseTitle, docTitle)))
    case _ => Err(JsonSerializationException)
  }

  const Members: set<string> := {"ModifierDisplayName", "CaseId", "CaseTitle", "DocTitle"}

  /** `jObject[key]?.ToString() ?? throw`. */
  function RequiredText(jObject: seq<Property>, key: string, message: string): (r: Result<string>)
  {
    match Get(jObject, key)
    case None => Err(InvalidOperationException(message))
    case Some(v) => Ok(Text(v))
  }

  /** `jObject["jsonData"]?.ToObject<JsonData>() ?? throw`. */
  function RequiredJsonData(jObject: seq<Property>): (r: Result<JsonData>)
  {
    match Get(jObject, "jsonData")
    case None => Err(InvalidOperationException("JsonData is required"))
    case Some(v) =>
      match ToJsonData(v)
      case Err(e) => Err(e)
      case Ok(None) => Err(InvalidOperationException("JsonData is required"))
      case Ok(Some(d)) => Ok(d)
  }

  /** `ToIdAndMessage`: the id is copied and the five fields are read in the
      order activityType, jsonData, userName, toEmail, fromEmail; the first
      that fails decides the error. */
  function ToIdAndMessage(m: IdAndJObject): (r: Result<IdAndMessage>)
    ensures var activityType := RequiredText(m.jObject, "activityType", "ActivityType is required");
            var jsonData := RequiredJsonData(m.jObject);
            var userName := RequiredText(m.jObject, "userName", "UserName is required");
            var toEmail := RequiredText(m.jObject, "toEmail", "ToEmail is required");
            var fromEmail := RequiredText(m.jObject, "fromEmail", "FromEmail is required");
            && (r.Ok? <==> activityType.Ok? && jsonData.Ok? && userName.Ok? && toEmail.Ok? && fromEmail.Ok?)
            && (r.Ok? ==> r.value == IdAndMessage(m.id, Message(activityType.value, jsonData.value, userName.value,
                                                               toEmail.value, fromEmail.value)))
            && (activityType.Err? ==> r == Err(activityType.error))
            && (activityType.Ok? && jsonData.Err? ==> r == Err(jsonData.error))
            && (activityType.Ok? && jsonData.Ok? && userName.Err? ==> r == Err(userName.error))
            && (activityType.Ok? && jsonData.Ok? && userName.Ok? && toEmail.Err? ==> r == Err(toEmail.error))
            && (activityType.Ok? && jsonData.Ok? && userName.Ok? && toEmail.Ok? && fromEmail.Err? ==> r == Err(fromEmail.error))
  {
    var activityType :- RequiredText(m.jObject, "activityType", "ActivityType is required");
    var jsonData :- RequiredJsonData(m.jObject);
    var userName :- RequiredText(m.jObject, "userName", "UserName is required");
    var toEmail :- RequiredText(m.jObject, "toEmail", "ToEmail is required");
    var fromEmail :- RequiredText(m.jObject, "fromEmail", "FromEmail is required");
    Ok(IdAndMessage(m.id, Message(activityType, jsonData, userName, toEmail, fromEmail)))
  }

  /** Keys are matched exactly: a payload whose activity type is keyed in
      PascalCase only is rejected for lacking `activityType`. */
  lemma ActivityTypeKeyExact(m: IdAndJObject)
    requires forall j :: 0 <= j < |m.jObject| ==> m.jObject[j].name != "activityType"
    ensures ToIdAndMessage(m) == Err(InvalidOperationException("ActivityType is required"))
  {
    GetMissing(m.jObject, "activityType");
  }

  /** A `jsonData` holding JSON null is as good as a missing one. */
  lemma NullJsonDataRejected(m: IdAndJObject)
    requires Get(m.jObject, "activityType").Some?
    requires Get(m.jObject, "jsonData") == Some(JNull)
    ensures ToIdAndMessage(m) == Err(InvalidOperationException("JsonData is required"))
  {
  }

  /** A message laid out with the five keys, the details as their object. */
  function Envelope(activityType: JValue, jsonData: JValue, userName: JValue, toEmail: JValue, fromEmail: JValue): seq<Property>
  {
    [Property("activityType", activityType), Property("jsonData", jsonData), Property("userName", userName),
     Property("toEmail", toEmail), Property("fromEmail", fromEmail)]
  }

  /** The message as a JSON object with the keys the decoder expects. */
  function Payload(message: Message): seq<Property>
  {
    Envelope(JString(message.activityType), JObject(JsonDataObject(message.jsonData)), JString(message.userName),
             JString(message.toEmail), JString(message.fromEmail))
  }

  /** Decoding a message's payload gives the message back. */
  lemma DecodesPayload(id: int, message: Message)
    ensures ToIdAndMessage(IdAndJObject(id, Payload(message))) == Ok(IdAndMessage(id, message))
  {
    JsonDataRoundTrip(message.jsonData);
    EnvelopeKeys(JString(message.activityType), JObject(JsonDataObject(message.jsonData)), JString(message.userName),
                 JString(message.toEmail), JString(message.fromEmail));
  }

  /** Each key of the envelope is found by an exact lookup. */
  lemma EnvelopeKeys(activityType: JValue, jsonData: JValue, userName: JValue, toEmail: JValue, fromEmail: JValue)
    ensures Get(Envelope(activityType, jsonData, userName, toEmail, fromEmail), "activityType") == Some(activityType)
    ensures Get(Envelope(activityType, jsonData, userName, toEmail, fromEmail), "jsonData") == Some(jsonData)
    ensures Get(Envelope(activityType, jsonData, userName, toEmail, fromEmail), "userName") == Some(userName)
    ensures Get(Envelope(activityType, jsonData, userName, toEmail, fromEmail), "toEmail") == Some(toEmail)
    ensures Get(Envelope(activityType, jsonData, userName, toEmail, fromEmail), "fromEmail") == Some(fromEmail)
  {
    var p := Envelope(activityType, jsonData, userName, toEmail, fromEmail);
    GetFirst(p, 1, "jsonData");
    GetFirst(p, 2, "userName");
    GetFirst(p, 3, "toEmail");
    GetFirst(p, 4, "fromEmail");
  }

  /** Serializing the details and reading them back gives them unchanged. */
  lemma JsonDataRoundTrip(d: JsonData)
    ensures ToJsonData(JObject(JsonDataObject(d))) == Ok(Some(d))
  {
    var p := JsonDataObject(d);
    assert forall j :: 0 <= j < |p| ==> !IsContainer(p[j].value);
    StringMemberAt(p, 0, "ModifierDisplayName");
    StringMemberAt(p, 1, "CaseId");
    StringMemberAt(p, 2, "CaseTitle");
    StringMemberAt(p, 3, "DocTitle");
  }
}
