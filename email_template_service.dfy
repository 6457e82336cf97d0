/** The template stage's `EmailTemplateService`: delegations to the template
    repository, and `PopulateSystemEmail`, which reads a system template and
    substitutes its `{{field}}` placeholders. */
module EmailTemplateService {
  import opened Wrappers
  import opened Strings
  import opened EmailTemplates
  import Repository = StandaloneTemplateRepository

  /** `PopulateEmailTemplateDTO`. */
  datatype PopulateEmailTemplateDto = PopulateEmailTemplateDto(templateName: string, dynamicEmailFields: seq<string>)

  /** `EmailReadyToSend`. */
  datatype EmailReadyToSend = EmailReadyToSend(to: string, from: string, subject: string, body: string)

  const SystemTemplateDirectory := "EmailTemplateAPI/SystemEmailTemplates/"
  const SystemTo := "rasmus.ulriksen@visma.com"
  const SystemFrom := "test@test.dk"
  const SystemSubject := "Test Email"

  /** The file a system template is read from. */
  function TemplatePath(templateName: string): (r: string)
    ensures |r| == |SystemTemplateDirectory| + |templateName| + 5
    ensures r[..|SystemTemplateDirectory|] == SystemTemplateDirectory
    ensures r[|SystemTemplateDirectory|..|r| - 5] == templateName
    ensures r[|r| - 5..] == ".html"
  {
    SystemTemplateDirectory + templateName + ".html"
  }

  /** The placeholder a dynamic field stands for in a template. */
  function Placeholder(field: string): (r: string)
    ensures r != [] && |r| == |field| + 4
  {
    "{{" + field + "}}"
  }

  /** The template text after each field's placeholders have been replaced
      by the field name, taking the fields in list order (the last field is
      replaced last). */
  function SubstituteAll(text: string, fields: seq<string>): string
  {
    if fields == [] then text
    else
      var last := fields[|fields| - 1];
      Replace(SubstituteAll(text, fields[..|fields| - 1]), Placeholder(last), last)
  }

  /** The first field is substituted first, on the template as read. */
  lemma {:induction false} SubstituteFirstFieldFirst(text: string, field: string, rest: seq<string>)
    ensures SubstituteAll(text, [field] + rest) == SubstituteAll(Replace(text, Placeholder(field), field), rest)
    decreases |rest|
  {
    var fields := [field] + rest;
    if rest == [] {
      assert fields[..0] == [];
    } else {
      assert fields[..|fields| - 1] == [field] + rest[..|rest| - 1];
      SubstituteFirstFieldFirst(text, field, rest[..|rest| - 1]);
    }
  }

  /** Fields whose placeholders do not occur in the template leave it
      unchanged; in particular so does an empty field list. */
  lemma {:induction false} SubstituteAbsent(text: string, fields: seq<string>)
    requires forall f :: f in fields ==> !Contains(text, Placeholder(f))
    ensures SubstituteAll(text, fields) == text
  {
    if fields != [] {
      var last := fields[|fields| - 1];
      SubstituteAbsent(text, fields[..|fields| - 1]);
      ReplaceAbsent(text, Placeholder(last), last);
    }
  }

  /** For a single field, the leftmost placeholder is replaced by the field
      name, the text before it is kept, and the rest of the text is
      substituted in the same way. */
  lemma SubstituteOneField(text: string, field: string, i: nat)
    requires OccursAt(text, Placeholder(field), i)
    requires forall j: nat :: j < i ==> !OccursAt(text, Placeholder(field), j)
    ensures SubstituteAll(text, [field]) == text[..i] + field + SubstituteAll(text[i + |field| + 4..], [field])
  {
    var p := Placeholder(field);
    assert [field][..0] == [];
    ReplaceLeftmost(text, p, field, i);
  }

  /** A substituted field name is not itself substituted again: with a
      template holding `{{{{name}}}}`, one pass leaves `{{name}}` behind. */
  lemma NestedPlaceholderSurvives()
    ensures SubstituteAll("{{{{n}}}}", ["n"]) == "{{n}}"
  {
    var p := Placeholder("n");
    var s: string := "{{{{n}}}}";
    assert ["n"][..0] == [];
    assert OccursAt(s, p, 2) by { assert s[2..7] == "{{n}}"; }
    assert !OccursAt(s, p, 0) by { assert s[0..5][2] != p[2]; }
    assert !OccursAt(s, p, 1) by { assert s[1..6][2] != p[2]; }
    ReplaceLeftmost(s, p, "n", 2);
    assert s[..2] == "{{" && s[7..] == "}}";
    assert Replace("}}", p, "n") == "}}";
  }

  /** `EmailTemplateService`; the template repository it delegates to is the
      stand-alone service's in-memory repository. */
  class EmailTemplateService {
    const repository: Repository.EmailTemplateRepository

    constructor(repository: Repository.EmailTemplateRepository)
      ensures this.repository == repository
    {
      this.repository := repository;
    }

    /** `GetAllTemplates`: the repository's templates, unchanged. */
    method GetAllTemplates() returns (r: seq<EmailTemplate>)
      ensures r == repository.templates
    {
      r := repository.GetAll();
    }

    /** `GetTemplateById`: the repository's answer, unchanged. */
    method GetTemplateById(id: int) returns (r: Option<EmailTemplate>)
      ensures r == FirstWithId(repository.templates, id)
    {
      r := repository.GetById(id);
    }

    /** `CreateTemplate`: the repository appends the template. */
    method CreateTemplate(template: EmailTemplate)
      modifies repository
      ensures repository.templates == old(repository.templates) + [template]
    {
      repository.Add(template);
    }

    /** `PopulateSystemEmail`: reads the template file (the file system is the
        map `files` from path to contents; a missing file throws), replaces
        every field's placeholder by the field name, field by field, and
        addresses the result to the fixed test recipient. */
    method PopulateSystemEmail(dto: PopulateEmailTemplateDto, files: map<string, string>)
      returns (r: Result<EmailReadyToSend>)
      ensures TemplatePath(dto.templateName) !in files <==> r.Err?
      ensures r.Err? ==> r.error == FileNotFoundException(TemplatePath(dto.templateName))
      ensures r.Ok? ==> r.value.to == SystemTo && r.value.from == SystemFrom && r.value.subject == SystemSubject
      ensures r.Ok? ==> r.value.body == SubstituteAll(files[TemplatePath(dto.templateName)], dto.dynamicEmailFields)
    {
      var templatePath := SystemTemplateDirectory + dto.templateName + ".html";
      if templatePath !in files {
        return Err(FileNotFoundException(templatePath));
      }
      var emailTemplate := files[templatePath];
      var fields := dto.dynamicEmailFields;
      var i := 0;
      while i < |fields|
        invariant 0 <= i <= |fields|
        invariant emailTemplate == SubstituteAll(files[templatePath], fields[..i])
      {
        var field := fields[i];
        assert fields[..i + 1][..i] == fields[..i];
        emailTemplate := Replace(emailTemplate, "{{" + field + "}}", field);
        i := i + 1;
      }
      assert fields[..i] == fields;
      return Ok(EmailReadyToSend(SystemTo, SystemFrom, SystemSubject, emailTemplate));
    }
  }
}
