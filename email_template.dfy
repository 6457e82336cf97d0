/** An e-mail template as the template repositories hold it, and the
    lookup both repositories perform. */
module EmailTemplates {
  import opened Wrappers

  /** `EmailTemplate`: only its id matters to the repositories; the rest of
      the class is carried as its content. */
  datatype EmailTemplate = EmailTemplate(id: int, content: string)

  /** `templates.FirstOrDefault(t => t.Id == id)`. */
  function FirstWithId(templates: seq<EmailTemplate>, id: int): (r: Option<EmailTemplate>)
    ensures r.None? <==> forall t :: t in templates ==> t.id != id
    ensures r.Some? ==> exists k :: 0 <= k < |templates| && templates[k] == r.value && r.value.id == id &&
                                    forall j :: 0 <= j < k ==> templates[j].id != id
  {
    if templates == [] then None
    else if templates[0].id == id then Some(templates[0])
    else
      var r := FirstWithId(templates[1..], id);
      assert r.Some? ==> forall k :: 0 <= k < |templates[1..]| ==> templates[1..][k] == templates[k + 1];
      r
  }

  /** Appending a template never changes what an id already found finds:
      a duplicate id does not shadow the earlier entry. */
  lemma {:induction false} AppendKeepsFirst(templates: seq<EmailTemplate>, t: EmailTemplate, id: int)
    ensures FirstWithId(templates, id).Some? ==> FirstWithId(templates + [t], id) == FirstWithId(templates, id)
    ensures FirstWithId(templates, id).None? ==> FirstWithId(templates + [t], id) == if t.id == id then Some(t) else None
  {
    if templates != [] {
      assert (templates + [t])[1..] == templates[1..] + [t];
      AppendKeepsFirst(templates[1..], t, id);
    }
  }
}
