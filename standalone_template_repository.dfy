/** The stand-alone template service's in-memory template repository, a second copy of the template stage's. */
module StandaloneTemplateRepository {
  import opened Wrappers
  import opened EmailTemplates

  /** `EmailTemplateRepository`: a list of templates in insertion order. */
  class EmailTemplateRepository {
    var templates: seq<EmailTemplate>

    /** A new repository is empty. */
    constructor()
      ensures templates == []
    {
      templates := [];
    }

    /** `GetAll`: every template, in insertion order. */
    method GetAll() returns (r: seq<EmailTemplate>)
      ensures r == templates
    {
      return templates;
    }

    /** `GetById`: the first template with the id, or null. */
    method GetById(id: int) returns (r: Option<EmailTemplate>)
      ensures r == FirstWithId(templates, id)
    {
      return FirstWithId(templates, id);
    }

    /** `Add`: the template is appended; earlier entries are unchanged. */
    method Add(template: EmailTemplate)
      modifies this
      ensures templates == old(templates) + [template]
    {
      templates := templates + [template];
    }
  }
}
