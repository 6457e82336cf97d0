/** The template stage's decoding of a dequeued message into an e-mail
    activity: six keys looked up exactly, `JsonData` read into a class of
    nine string members and `LinksEnabled` converted to a boolean. */
module EmailTemplatePayload {
  import opened Wrappers
  import opened Strings
  import opened Json

  /** The activity's details; a member the object lacks, or holds as JSON
      null, stays null. */
  datatype JsonData = JsonData(
    docRecordNodeRef: Option<string>, modifierDisplayName: Option<string>, modifier: Option<string>,
    caseId: Option<string>, caseTitle: Option<string>, docTitle: Option<string>,
    parentTitle: Option<string>, parentType: Option<string>, parentRef: Option<string>)

  datatype EmailActivity = EmailActivity(
    activityType: string, jsonData: JsonData, userName: string, toEmail: string, fromEmail: string, linksEnabled: bool)

  datatype IdAndEmailActivity = IdAndEmailActivity(id: int, emailActivity: EmailActivity)
  datatype IdAndJObject = IdAndJObject(id: int, jObject: seq<Property>)

  /** `token.ToObject<JsonData>()`: JSON null gives null, an object fills
      each member from its properties, anything else cannot be converted. */
  function ToJsonData(v: JValue): (r: Result<Option<JsonData>>)
    ensures v.JNull? ==> r == Ok(None)
    ensures !v.JNull? && !v.JObject? ==> r == Err(JsonSerializationException)
    ensures v.JObject? ==> (r.Ok? <==> NoContainerMember(v.properties))
    ensures v.JObject? && r.Ok? ==> r.value.Some?
  {
    match v
    case JNull => Ok(None)
    case JObject(ps) =>
      var docRecordNodeRef :- StringMember(ps, "DocRecordNodeRef");
      var modifierDisplayName :- StringMember(ps, "ModifierDisplayName");
      var modifier :- StringMember(ps, "Modifier");
      var caseId :- StringMember(ps, "CaseId");
      var caseTitle :- StringMember(ps, "CaseTitle");
      var docTitle :- StringMember(ps, "DocTitle");
      var parentTitle :- StringMember(ps, "ParentTitle");
      var parentType :- StringMember(ps, "ParentType");
      var parentRef :- StringMember(ps, "ParentRef");
      Ok(Some(JsonData(docRecordNodeRef, modifierDisplayName, modifier, caseId, caseTitle, docTitle,
                       parentTitle, parentType, parentRef)))
    case _ => Err(JsonSerializationException)
  }

  /** No property matching one of the nine members holds an object or an
      array. */
  predicate NoContainerMember(ps: seq<Property>)
  {
    && !ContainerMember(ps, "DocRecordNodeRef") && !ContainerMember(ps, "ModifierDisplayName")
    && !ContainerMember(ps, "Modifier") && !ContainerMember(ps, "CaseId") && !ContainerMember(ps, "CaseTitle")
    && !ContainerMember(ps, "DocTitle") && !ContainerMember(ps, "ParentTitle") && !ContainerMember(ps, "ParentType")
    && !ContainerMember(ps, "ParentRef")
  }

  const Members: set<string> := {"DocRecordNodeRef", "ModifierDisplayName", "Modifier", "CaseId", "CaseTitle",
                                 "DocTitle", "ParentTitle", "ParentType", "ParentRef"}

  /** `jObject[key]?.ToString() ?? throw`: a present key gives its text (a
      JSON null gives ""), a missing one throws. */
  function RequiredText(jObject: seq<Property>, key: string, message: string): (r: Result<string>)
  {
    match Get(jObject, key)
    case None => Err(InvalidOperationException(message))
    case Some(v) => Ok(Text(v))
  }

  /** `jObject["JsonData"]?.ToObject<JsonData>() ?? throw`. */
  function RequiredJsonData(jObject: seq<Property>): (r: Result<JsonData>)
  {
    match Get(jObject, "JsonData")
    case None => Err(InvalidOperationException("JsonData is required"))
    case Some(v) =>
      match ToJsonData(v)
      case Err(e) => Err(e)
      case Ok(None) => Err(InvalidOperationException("JsonData is required"))
      case Ok(Some(d)) => Ok(d)
  }

  /** `jObject["LinksEnabled"]?.ToObject<bool>() ?? throw`. */
  function RequiredBool(jObject: seq<Property>): (r: Result<bool>)
  {
    match Get(jObject, "LinksEnabled")
    case None => Err(InvalidOperationException("LinksEnabled is required"))
    case Some(v) => ToBool(v)
  }

  /** `ToIdAndEmailActivity`: the id is copied and the six fields are read in
      the order ActivityType, JsonData, UserName, ToEmail, FromEmail,
      LinksEnabled; the first that fails decides the error. */
  function ToIdAndEmailActivity(m: IdAndJObject): (r: Result<IdAndEmailActivity>)
    ensures var activityType := RequiredText(m.jObject, "ActivityType", "ActivityType is required");
            var jsonData := RequiredJsonData(m.jObject);
            var userName := RequiredText(m.jObject, "UserName", "UserName is required");
            var toEmail := RequiredText(m.jObject, "ToEmail", "ToEmail is required");
            var fromEmail := RequiredText(m.jObject, "FromEmail", "FromEmail is required");
            var linksEnabled := RequiredBool(m.jObject);
            && (r.Ok? <==> activityType.Ok? && jsonData.Ok? && userName.Ok? && toEmail.Ok? && fromEmail.Ok? && linksEnabled.Ok?)
            && (r.Ok? ==> r.value == IdAndEmailActivity(m.id, EmailActivity(activityType.value, jsonData.value, userName.value,
                                                                             toEmail.value, fromEmail.value, linksEnabled.value)))
            && (activityType.Err? ==> r == Err(activityType.error))
            && (activityType.Ok? && jsonData.Err? ==> r == Err(jsonData.error))
            && (activityType.Ok? && jsonData.Ok? && userName.Err? ==> r == Err(userName.error))
            && (activityType.Ok? && jsonData.Ok? && userName.Ok? && toEmail.Err? ==> r == Err(toEmail.error))
            && (activityType.Ok? && jsonData.Ok? && userName.Ok? && toEmail.Ok? && fromEmail.Err? ==> r == Err(fromEmail.error))
            && (activityType.Ok? && jsonData.Ok? && userName.Ok? && toEmail.Ok? && fromEmail.Ok? && linksEnabled.Err? ==>
                  r == Err(linksEnabled.error))
  {
    var activityType :- RequiredText(m.jObject, "ActivityType", "ActivityType is required");
    var jsonData :- RequiredJsonData(m.jObject);
    var userName :- RequiredText(m.jObject, "UserName", "UserName is required");
    var toEmail :- RequiredText(m.jObject, "ToEmail", "ToEmail is required");
    var fromEmail :- RequiredText(m.jObject, "FromEmail", "FromEmail is required");
    var linksEnabled :- RequiredBool(m.jObject);
    Ok(IdAndEmailActivity(m.id, EmailActivity(activityType, jsonData, userName, toEmail, fromEmail, linksEnabled)))
  }

  /** Keys are matched exactly: a payload without a property named exactly
      `LinksEnabled` is rejected, whatever else it holds. */
  lemma LinksEnabledMandatory(m: IdAndJObject)
    requires forall j :: 0 <= j < |m.jObject| ==> m.jObject[j].name != "LinksEnabled"
    ensures ToIdAndEmailActivity(m).Err?
    ensures RequiredText(m.jObject, "ActivityType", "ActivityType is required").Ok? &&
            RequiredJsonData(m.jObject).Ok? &&
            RequiredText(m.jObject, "UserName", "UserName is required").Ok? &&
            RequiredText(m.jObject, "ToEmail", "ToEmail is required").Ok? &&
            RequiredText(m.jObject, "FromEmail", "FromEmail is required").Ok? ==>
              ToIdAndEmailActivity(m).error == InvalidOperationException("LinksEnabled is required")
  {
    GetMissing(m.jObject, "LinksEnabled");
  }

  /** A JSON null `LinksEnabled` cannot be read as a boolean. */
  lemma NullLinksEnabledRejected(m: IdAndJObject)
    requires Get(m.jObject, "LinksEnabled") == Some(JNull)
    ensures ToIdAndEmailActivity(m).Err?
  {
  }

  /** A payload carrying the activity: the six PascalCase keys, with all
      nine details written under their camelCase names. */
  function Payload(a: EmailActivity): seq<Property>
  {
    Envelope(JString(a.activityType), JObject(JsonDataPayload(a.jsonData)), JString(a.userName),
             JString(a.toEmail), JString(a.fromEmail), JBool(a.linksEnabled))
  }

  function Envelope(activityType: JValue, jsonData: JValue, userName: JValue, toEmail: JValue, fromEmail: JValue,
                    linksEnabled: JValue): seq<Property>
  {
    [Property("ActivityType", activityType), Property("JsonData", jsonData), Property("UserName", userName),
     Property("ToEmail", toEmail), Property("FromEmail", fromEmail), Property("LinksEnabled", linksEnabled)]
  }

  function JsonDataPayload(d: JsonData): seq<Property>
  {
    [Property("docRecordNodeRef", FromOption(d.docRecordNodeRef)),
     Property("modifierDisplayName", FromOption(d.modifierDisplayName)),
     Property("modifier", FromOption(d.modifier)),
     Property("caseId", FromOption(d.caseId)),
     Property("caseTitle", FromOption(d.caseTitle)),
     Property("docTitle", FromOption(d.docTitle)),
     Property("parentTitle", FromOption(d.parentTitle)),
     Property("parentType", FromOption(d.parentType)),
     Property("parentRef", FromOption(d.parentRef))]
  }

  /** Decoding the payload of an activity gives the activity back, its
      details matched to the members ignoring case. */
  lemma DecodesPayload(id: int, a: EmailActivity)
    ensures ToIdAndEmailActivity(IdAndJObject(id, Payload(a))) == Ok(IdAndEmailActivity(id, a))
  {
    JsonDataRoundTrip(a.jsonData);
    EnvelopeKeys(JString(a.activityType), JObject(JsonDataPayload(a.jsonData)), JString(a.userName),
                 JString(a.toEmail), JString(a.fromEmail), JBool(a.linksEnabled));
  }

  /** Each key of the payload is found by an exact lookup. */
  lemma EnvelopeKeys(activityType: JValue, jsonData: JValue, userName: JValue, toEmail: JValue, fromEmail: JValue,
                     linksEnabled: JValue)
    ensures Get(Envelope(activityType, jsonData, userName, toEmail, fromEmail, linksEnabled), "ActivityType") == Some(activityType)
    ensures Get(Envelope(activityType, jsonData, userName, toEmail, fromEmail, linksEnabled), "JsonData") == Some(jsonData)
    ensures Get(Envelope(activityType, jsonData, userName, toEmail, fromEmail, linksEnabled), "UserName") == Some(userName)
    ensures Get(Envelope(activityType, jsonData, userName, toEmail, fromEmail, linksEnabled), "ToEmail") == Some(toEmail)
    ensures Get(Envelope(activityType, jsonData, userName, toEmail, fromEmail, linksEnabled), "FromEmail") == Some(fromEmail)
    ensures Get(Envelope(activityType, jsonData, userName, toEmail, fromEmail, linksEnabled), "LinksEnabled") == Some(linksEnabled)
  {
    var p := Envelope(activityType, jsonData, userName, toEmail, fromEmail, linksEnabled);
    GetFirst(p, 0, "ActivityType");
    GetFirst(p, 1, "JsonData");
    GetFirst(p, 2, "UserName");
    GetFirst(p, 3, "ToEmail");
    GetFirst(p, 4, "FromEmail");
    GetFirst(p, 5, "LinksEnabled");
  }

  lemma JsonDataRoundTrip(d: JsonData)
    ensures ToJsonData(JObject(JsonDataPayload(d))) == Ok(Some(d))
  {
    ReadDocRecordNodeRef(d);
    ReadModifierDisplayName(d);
    ReadModifier(d);
    ReadCaseId(d);
    ReadCaseTitle(d);
    ReadDocTitle(d);
    ReadParentTitle(d);
    ReadParentType(d);
    ReadParentRef(d);
  }

  /** Each member of the details is read back from their payload. */
  lemma ReadDocRecordNodeRef(d: JsonData)
    ensures StringMember(JsonDataPayload(d), "DocRecordNodeRef") == Ok(d.docRecordNodeRef)
  {
    PayloadMember(d, 0, "DocRecordNodeRef");
  }

  lemma ReadModifierDisplayName(d: JsonData)
    ensures StringMember(JsonDataPayload(d), "ModifierDisplayName") == Ok(d.modifierDisplayName)
  {
    PayloadMember(d, 1, "ModifierDisplayName");
  }

  lemma ReadModifier(d: JsonData)
    ensures StringMember(JsonDataPayload(d), "Modifier") == Ok(d.modifier)
  {
    DifferIgnoringCase("docTitle", "Modifier"); PayloadMember(d, 2, "Modifier");
  }

  lemma ReadCaseId(d: JsonData)
    ensures StringMember(JsonDataPayload(d), "CaseId") == Ok(d.caseId)
  {
    PayloadMember(d, 3, "CaseId");
  }

  lemma ReadCaseTitle(d: JsonData)
    ensures StringMember(JsonDataPayload(d), "CaseTitle") == Ok(d.caseTitle)
  {
    DifferIgnoringCase("parentRef", "CaseTitle"); PayloadMember(d, 4, "CaseTitle");
  }

  lemma ReadDocTitle(d: JsonData)
    ensures StringMember(JsonDataPayload(d), "DocTitle") == Ok(d.docTitle)
  {
    PayloadMember(d, 5, "DocTitle");
  }

  lemma ReadParentTitle(d: JsonData)
    ensures StringMember(JsonDataPayload(d), "ParentTitle") == Ok(d.parentTitle)
  {
    PayloadMember(d, 6, "ParentTitle");
  }

  lemma ReadParentType(d: JsonData)
    ensures StringMember(JsonDataPayload(d), "ParentType") == Ok(d.parentType)
  {
    PayloadMember(d, 7, "ParentType");
  }

  lemma ReadParentRef(d: JsonData)
    ensures StringMember(JsonDataPayload(d), "ParentRef") == Ok(d.parentRef)
  {
    PayloadMember(d, 8, "ParentRef");
  }

  /** The member `member` of the details is read from property `k` of their
      payload and from no later one. */
  lemma PayloadMember(d: JsonData, k: nat, member: string)
    requires k < 9 && EqualsIgnoreCase(JsonDataPayload(d)[k].name, member)
    requires forall j :: k < j < 9 ==> !EqualsIgnoreCase(JsonDataPayload(d)[j].name, member)
    ensures var v := JsonDataPayload(d)[k].value;
            StringMember(JsonDataPayload(d), member) == Ok(if v.JNull? then None else Some(Text(v)))
  {
    var p := JsonDataPayload(d);
    assert forall j :: 0 <= j < |p| ==> !IsContainer(p[j].value);
    StringMemberAt(p, k, member);
  }

  /** Members are matched ignoring case and a later duplicate overwrites an
      earlier one. */
  lemma LaterDuplicateWins(earlier: string, later: string)
    ensures ToJsonData(JObject([Property("caseid", JString(earlier)), Property("CASEID", JString(later))])) ==
            Ok(Some(JsonData(None, None, None, Some(later), None, None, None, None, None)))
  {
    var p := [Property("caseid", JString(earlier)), Property("CASEID", JString(later))];
    assert Lower("CASEID") == Lower("CaseId");
    StringMemberAt(p, 1, "CaseId");
    forall member | member in Members - {"CaseId"}
      ensures StringMember(p, member) == Ok(None)
    {
      DifferIgnoringCase("caseid", member);
      DifferIgnoringCase("CASEID", member);
    }
  }
}
