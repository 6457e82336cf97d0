/** The e-mail sender's decoding of a dequeued message into an outbound
    e-mail: five fields looked up by name ignoring case. */
module EmailSenderPayload {
  import opened Wrappers
  import opened Strings
  import opened Json

  datatype OutboundEmail = OutboundEmail(toEmail: string, fromEmail: string, subject: string, htmlBody: string, textBody: string)
  datatype IdAndOutboundEmail = IdAndOutboundEmail(id: int, outboundEmail: OutboundEmail)
  datatype IdAndJObject = IdAndJObject(id: int, jObject: seq<Property>)

  /** `GetPropertyCaseInsensitive`: the text of the first property whose name
      matches ignoring case, or null when none does. */
  function GetPropertyCaseInsensitive(jObject: seq<Property>, propertyName: string): (r: Option<string>)
    ensures r.None? <==> forall j :: 0 <= j < |jObject| ==> !EqualsIgnoreCase(jObject[j].name, propertyName)
    ensures r.Some? ==> var k := FirstIgnoreCase(jObject, propertyName).value;
                        && EqualsIgnoreCase(jObject[k].name, propertyName) && r.value == Text(jObject[k].value)
                        && forall j :: 0 <= j < k ==> !EqualsIgnoreCase(jObject[j].name, propertyName)
  {
    match FirstIgnoreCase(jObject, propertyName)
    case None => None
    case Some(k) => Some(Text(jObject[k].value))
  }

  /** `field ?? throw new InvalidOperationException(message)`. */
  function Required(field: Option<string>, message: string): Result<string>
  {
    if field.Some? then Ok(field.value) else Err(InvalidOperationException(message))
  }

  /** `ToIdAndOutboundEmail`: the id is copied; the fields are looked up in
      the order to, from, subject, HTML body, text body, and the first that
      is missing is reported. */
  function ToIdAndOutboundEmail(m: IdAndJObject): (r: Result<IdAndOutboundEmail>)
    ensures var to := GetPropertyCaseInsensitive(m.jObject, "toEmail");
            var from := GetPropertyCaseInsensitive(m.jObject, "fromEmail");
            var subject := GetPropertyCaseInsensitive(m.jObject, "subject");
            var html := GetPropertyCaseInsensitive(m.jObject, "htmlBody");
            var text := GetPropertyCaseInsensitive(m.jObject, "textBody");
            && (r.Ok? <==> to.Some? && from.Some? && subject.Some? && html.Some? && text.Some?)
            && (r.Ok? ==> r.value == IdAndOutboundEmail(m.id, OutboundEmail(to.value, from.value, subject.value, html.value, text.value)))
            && (to.None? ==> r == Err(InvalidOperationException("ToEmail is required")))
            && (to.Some? && from.None? ==> r == Err(InvalidOperationException("FromEmail is required")))
            && (to.Some? && from.Some? && subject.None? ==> r == Err(InvalidOperationException("Subject is required")))
            && (to.Some? && from.Some? && subject.Some? && html.None? ==> r == Err(InvalidOperationException("HtmlBody is required")))
            && (to.Some? && from.Some? && subject.Some? && html.Some? && text.None? ==>
                  r == Err(InvalidOperationException("TextBody is required")))
  {
    var toEmail :- Required(GetPropertyCaseInsensitive(m.jObject, "toEmail"), "ToEmail is required");
    var fromEmail :- Required(GetPropertyCaseInsensitive(m.jObject, "fromEmail"), "FromEmail is required");
    var subject :- Required(GetPropertyCaseInsensitive(m.jObject, "subject"), "Subject is required");
    var htmlBody :- Required(GetPropertyCaseInsensitive(m.jObject, "htmlBody"), "HtmlBody is required");
    var textBody :- Required(GetPropertyCaseInsensitive(m.jObject, "textBody"), "TextBody is required");
    Ok(IdAndOutboundEmail(m.id, OutboundEmail(toEmail, fromEmail, subject, htmlBody, textBody)))
  }

  /** A payload carrying the five fields as strings. */
  function Payload(e: OutboundEmail): seq<Property>
  {
    [Property("toEmail", JString(e.toEmail)), Property("fromEmail", JString(e.fromEmail)),
     Property("subject", JString(e.subject)), Property("htmlBody", JString(e.htmlBody)),
     Property("textBody", JString(e.textBody))]
  }

  /** Decoding a payload that carries the five fields gives them back. */
  lemma DecodesPayload(id: int, e: OutboundEmail)
    ensures ToIdAndOutboundEmail(IdAndJObject(id, Payload(e))) == Ok(IdAndOutboundEmail(id, e))
  {
    PayloadLookups(Payload(e), e);
  }

  /** Each field name finds its own field, also with more properties after. */
  lemma PayloadLookups(p: seq<Property>, e: OutboundEmail)
    requires |p| >= 5 && p[..5] == Payload(e)
    ensures GetPropertyCaseInsensitive(p, "toEmail") == Some(e.toEmail)
    ensures GetPropertyCaseInsensitive(p, "fromEmail") == Some(e.fromEmail)
    ensures GetPropertyCaseInsensitive(p, "subject") == Some(e.subject)
    ensures GetPropertyCaseInsensitive(p, "htmlBody") == Some(e.htmlBody)
    ensures GetPropertyCaseInsensitive(p, "textBody") == Some(e.textBody)
  {
    assert p[0] == Property("toEmail", JString(e.toEmail)) && p[1] == Property("fromEmail", JString(e.fromEmail));
    assert p[2] == Property("subject", JString(e.subject)) && p[3] == Property("htmlBody", JString(e.htmlBody));
    assert p[4] == Property("textBody", JString(e.textBody));
    FieldLookup(p, 0, "toEmail");
    LookupFrom(p);
    LookupSubject(p);
    LookupHtml(p);
    LookupText(p);
  }

  lemma LookupFrom(p: seq<Property>)
    requires |p| >= 2 && p[0].name == "toEmail" && p[1].name == "fromEmail"
    ensures GetPropertyCaseInsensitive(p, "fromEmail") == Some(Text(p[1].value))
  {
    DifferIgnoringCase("toEmail", "fromEmail");
    FieldLookup(p, 1, "fromEmail");
  }

  lemma LookupSubject(p: seq<Property>)
    requires |p| >= 3 && p[0].name == "toEmail" && p[1].name == "fromEmail" && p[2].name == "subject"
    ensures GetPropertyCaseInsensitive(p, "subject") == Some(Text(p[2].value))
  {
    DifferIgnoringCase("toEmail", "subject");
    DifferIgnoringCase("fromEmail", "subject");
    FieldLookup(p, 2, "subject");
  }

  lemma LookupHtml(p: seq<Property>)
    requires |p| >= 4 && p[0].name == "toEmail" && p[1].name == "fromEmail" && p[2].name == "subject"
    requires p[3].name == "htmlBody"
    ensures GetPropertyCaseInsensitive(p, "htmlBody") == Some(Text(p[3].value))
  {
    DifferIgnoringCase("toEmail", "htmlBody");
    DifferIgnoringCase("fromEmail", "htmlBody");
    DifferIgnoringCase("subject", "htmlBody");
    FieldLookup(p, 3, "htmlBody");
  }

  lemma LookupText(p: seq<Property>)
    requires |p| >= 5 && p[0].name == "toEmail" && p[1].name == "fromEmail" && p[2].name == "subject"
    requires p[3].name == "htmlBody" && p[4].name == "textBody"
    ensures GetPropertyCaseInsensitive(p, "textBody") == Some(Text(p[4].value))
  {
    DifferIgnoringCase("toEmail", "textBody");
    DifferIgnoringCase("fromEmail", "textBody");
    DifferIgnoringCase("subject", "textBody");
    DifferIgnoringCase("htmlBody", "textBody");
    FieldLookup(p, 4, "textBody");
  }

  lemma FieldLookup(p: seq<Property>, k: nat, name: string)
    requires k < |p| && p[k].name == name
    requires forall j :: 0 <= j < k ==> !EqualsIgnoreCase(p[j].name, name)
    ensures GetPropertyCaseInsensitive(p, name) == Some(Text(p[k].value))
  {
    assert EqualsIgnoreCase(p[k].name, name);
  }

  /** The names are matched ignoring case: renaming a payload's properties
      to names equal ignoring case decodes to the same e-mail. */
  lemma NamesIgnoreCase(m: IdAndJObject, n: IdAndJObject)
    requires m.id == n.id && |m.jObject| == |n.jObject|
    requires forall j :: 0 <= j < |m.jObject| ==>
               EqualsIgnoreCase(m.jObject[j].name, n.jObject[j].name) && m.jObject[j].value == n.jObject[j].value
    ensures ToIdAndOutboundEmail(m) == ToIdAndOutboundEmail(n)
  {
    SameLookup(m.jObject, n.jObject, "toEmail");
    SameLookup(m.jObject, n.jObject, "fromEmail");
    SameLookup(m.jObject, n.jObject, "subject");
    SameLookup(m.jObject, n.jObject, "htmlBody");
    SameLookup(m.jObject, n.jObject, "textBody");
  }

  lemma SameLookup(a: seq<Property>, b: seq<Property>, name: string)
    requires |a| == |b|
    requires forall j :: 0 <= j < |a| ==> EqualsIgnoreCase(a[j].name, b[j].name) && a[j].value == b[j].value
    ensures GetPropertyCaseInsensitive(a, name) == GetPropertyCaseInsensitive(b, name)
  {
    SameFirstMatch(a, b, name);
  }

  lemma {:induction false} SameFirstMatch(a: seq<Property>, b: seq<Property>, name: string)
    requires |a| == |b|
    requires forall j :: 0 <= j < |a| ==> EqualsIgnoreCase(a[j].name, b[j].name) && a[j].value == b[j].value
    ensures FirstIgnoreCase(a, name) == FirstIgnoreCase(b, name)
  {
    if a != [] {
      SameFirstMatch(a[1..], b[1..], name);
    }
  }

  /** When two properties match the same field, the earlier one is used. */
  lemma EarliestWins(id: int, e: OutboundEmail, shadow: string)
    ensures ToIdAndOutboundEmail(IdAndJObject(id, Payload(e) + [Property("TOEMAIL", JString(shadow))])) ==
              Ok(IdAndOutboundEmail(id, e))
  {
    var p := Payload(e) + [Property("TOEMAIL", JString(shadow))];
    assert p[..5] == Payload(e);
    PayloadLookups(p, e);
  }
}
