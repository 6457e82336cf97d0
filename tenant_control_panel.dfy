/** Tenant onboarding and teardown as ordered steps over a control-plane
    record set and a database catalog, with no rollback. Every database
    command is recorded in order; whether a step's command fails on the
    server is a parameter (`fault`), and the SQL directory is a map from
    path to file text. */
module TenantControlPanel {
  import opened Wrappers
  import opened Strings
  import opened ConnectionSettings

  datatype OnboardTenantRequest = OnboardTenantRequest(tenantIdentifier: string, tenantName: string, tenantTier: string)

  /** The steps that send a command to a database server. */
  datatype Step =
    | RecordInsertion | ExistenceCheck | DatabaseCreation | NotificationSchemaCreation | QueuesSchemaCreation
    | RecordDeletion | SessionTermination | DatabaseDrop

  /** A command sent to the server behind `target`. */
  datatype Command =
    | Script(target: Settings, sql: string)
    | ExistsQuery(target: Settings, name: string)
    | CreateDatabase(target: Settings, sql: string)
    | TerminateBackends(target: Settings, name: string)
    | DropDatabase(target: Settings, sql: string)

  /** What the two servers hold, and the commands sent so far. */
  datatype Panel = Panel(records: set<string>, catalog: set<string>, log: seq<Command>)

  datatype Outcome = Outcome(result: Result<()>, panel: Panel)

  /** The two configured connection strings and the SQL directory. */
  datatype Environment = Environment(controlPanel: Settings, tenantsBase: Settings, files: map<string, string>)

  const IdentifierPlaceholder := "@TenantIdentifier"
  const NamePlaceholder := "@TenantName"
  const TierPlaceholder := "@TenantTier"
  const CreateTenantScript := "Onboard/create_tenant.sql"
  const NotificationSchemaScript := "Onboard/create_notification_schema.sql"
  const QueuesSchemaScript := "Onboard/create_queues_schema.sql"
  const TeardownRecordScript := "Teardown/teardown_tenant_record.sql"
  /** The server's error, whatever its text. */
  const ServerError := StorageException("database command failed")

  /** `Path.Combine("SQL", name)`. */
  function ScriptPath(name: string): string
  {
    "SQL/" + name
  }

  /** `File.ReadAllTextAsync`: a missing file throws. */
  function ReadScript(files: map<string, string>, name: string): Result<string>
  {
    if ScriptPath(name) in files then Ok(files[ScriptPath(name)])
    else Err(FileNotFoundException(ScriptPath(name)))
  }

  function Quoted(v: string): string
  {
    "'" + v + "'"
  }

  /** The quoted helper's substitution: for use as an SQL value. */
  function SubstituteQuoted(sql: string, tenantIdentifier: string): string
  {
    Replace(sql, IdentifierPlaceholder, Quoted(tenantIdentifier))
  }

  /** The unquoted helper's substitution: merged into identifiers. */
  function SubstituteBare(sql: string, tenantIdentifier: string): string
  {
    Replace(sql, IdentifierPlaceholder, tenantIdentifier)
  }

  /** The record script: identifier, then name, then tier, each quoted. */
  function RecordSql(sql: string, request: OnboardTenantRequest): string
  {
    Replace(Replace(SubstituteQuoted(sql, request.tenantIdentifier), NamePlaceholder, Quoted(request.tenantName)),
            TierPlaceholder, Quoted(request.tenantTier))
  }

  function CreateDatabaseSql(tenantIdentifier: string): string
  {
    "CREATE DATABASE " + tenantIdentifier + " WITH OWNER = admin;"
  }

  function DropDatabaseSql(tenantIdentifier: string): string
  {
    "DROP DATABASE IF EXISTS " + tenantIdentifier + ";"
  }

  /** What a step that succeeds does to the servers. The record scripts are
      not part of this model; they are taken to insert and delete the
      tenant's control-plane record. */
  function Effect(p: Panel, step: Step, tenantIdentifier: string): Panel
  {
    match step
    case RecordInsertion => p.(records := p.records + {tenantIdentifier})
    case RecordDeletion => p.(records := p.records - {tenantIdentifier})
    case DatabaseCreation => p.(catalog := p.catalog + {tenantIdentifier})
    case DatabaseDrop => p.(catalog := p.catalog - {tenantIdentifier})
    case _ => p
  }

  /** Sends `c` for `step`: it is recorded, and it either fails with the
      server's error and no effect, or takes effect. */
  function Execute(p: Panel, step: Step, c: Command, tenantIdentifier: string, fault: Option<Step>): Outcome
  {
    var sent := p.(log := p.log + [c]);
    if fault == Some(step) then Outcome(Err(ServerError), sent)
    else Outcome(Ok(()), Effect(sent, step, tenantIdentifier))
  }

  /** `ExecuteSqlScriptOnTenantDatabaseWithQuotedTenantIdentifier`. */
  function QuotedScript(p: Panel, env: Environment, target: Settings, name: string, tenantIdentifier: string,
                        step: Step, fault: Option<Step>): Outcome
  {
    match ReadScript(env.files, name)
    case Err(e) => Outcome(Err(e), p)
    case Ok(sql) => Execute(p, step, Script(target, SubstituteQuoted(sql, tenantIdentifier)), tenantIdentifier, fault)
  }

  /** `ExecuteSqlScriptOnTenantDatabaseWithoutQuotedTenantIdentifier`. */
  function BareScript(p: Panel, env: Environment, target: Settings, name: string, tenantIdentifier: string,
                      step: Step, fault: Option<Step>): Outcome
  {
    match ReadScript(env.files, name)
    case Err(e) => Outcome(Err(e), p)
    case Ok(sql) => Execute(p, step, Script(target, SubstituteBare(sql, tenantIdentifier)), tenantIdentifier, fault)
  }

  /** `CreateTenantRecord`. */
  function TenantRecord(p: Panel, env: Environment, request: OnboardTenantRequest, fault: Option<Step>): Outcome
  {
    match ReadScript(env.files, CreateTenantScript)
    case Err(e) => Outcome(Err(e), p)
    case Ok(sql) =>
      Execute(p, RecordInsertion, Script(env.controlPanel, RecordSql(sql, request)), request.tenantIdentifier, fault)
  }

  /** `CreateTenantDatabase`: asks whether the database exists and creates it
      only when it does not. */
  function TenantDatabase(p: Panel, env: Environment, tenantIdentifier: string, fault: Option<Step>): Outcome
  {
    var asked := p.(log := p.log + [ExistsQuery(env.tenantsBase, tenantIdentifier)]);
    if fault == Some(ExistenceCheck) then Outcome(Err(ServerError), asked)
    else if tenantIdentifier in p.catalog then Outcome(Ok(()), asked)
    else Execute(asked, DatabaseCreation, CreateDatabase(env.tenantsBase, CreateDatabaseSql(tenantIdentifier)),
                 tenantIdentifier, fault)
  }

  /** The tenant's own database: the tenants base with `Database` set. */
  function TenantDatabaseSettings(env: Environment, tenantIdentifier: string): Settings
  {
    WithDatabase(env.tenantsBase, tenantIdentifier)
  }

  /** `OnboardTenant`: record, database, notification schema, queues schema;
      the first failure is rethrown and nothing before it is undone. */
  function Onboarding(p: Panel, env: Environment, request: OnboardTenantRequest, fault: Option<Step>): Outcome
  {
    var id := request.tenantIdentifier;
    var record := TenantRecord(p, env, request, fault);
    if record.result.Err? then record else
    var database := TenantDatabase(record.panel, env, id, fault);
    if database.result.Err? then database else
    var notification := QuotedScript(database.panel, env, TenantDatabaseSettings(env, id), NotificationSchemaScript,
                                     id, NotificationSchemaCreation, fault);
    if notification.result.Err? then notification else
    BareScript(notification.panel, env, TenantDatabaseSettings(env, id), QueuesSchemaScript, id, QueuesSchemaCreation, fault)
  }

  /** `TeardownTenant`: record deletion, session termination, drop if exists;
      the first failure is rethrown. */
  function Teardown(p: Panel, env: Environment, tenantIdentifier: string, fault: Option<Step>): Outcome
  {
    var record := QuotedScript(p, env, env.controlPanel, TeardownRecordScript, tenantIdentifier, RecordDeletion, fault);
    if record.result.Err? then record else
    var terminated := Execute(record.panel, SessionTermination, TerminateBackends(env.tenantsBase, tenantIdentifier),
                              tenantIdentifier, fault);
    if terminated.result.Err? then terminated else
    Execute(terminated.panel, DatabaseDrop, DropDatabase(env.tenantsBase, DropDatabaseSql(tenantIdentifier)),
            tenantIdentifier, fault)
  }

  /** Every file onboarding reads is present. */
  predicate OnboardingScriptsPresent(env: Environment)
  {
    ScriptPath(CreateTenantScript) in env.files && ScriptPath(NotificationSchemaScript) in env.files
    && ScriptPath(QueuesSchemaScript) in env.files
  }

  /** The commands a fully successful onboarding sends, in order. */
  function OnboardingCommands(env: Environment, request: OnboardTenantRequest, catalog: set<string>): seq<Command>
    requires OnboardingScriptsPresent(env)
  {
    var id := request.tenantIdentifier;
    var tenantDb := TenantDatabaseSettings(env, id);
    [Script(env.controlPanel, RecordSql(env.files[ScriptPath(CreateTenantScript)], request)),
     ExistsQuery(env.tenantsBase, id)]
    + (if id in catalog then [] else [CreateDatabase(env.tenantsBase, CreateDatabaseSql(id))])
    + [Script(tenantDb, SubstituteQuoted(env.files[ScriptPath(NotificationSchemaScript)], id)),
       Script(tenantDb, SubstituteBare(env.files[ScriptPath(QueuesSchemaScript)], id))]
  }

  /** Onboarding succeeds exactly when every script is present and no step
      it reaches fails; creation is reached only for a new database. */
  lemma OnboardingSucceeds(p: Panel, env: Environment, request: OnboardTenantRequest, fault: Option<Step>)
    ensures Onboarding(p, env, request, fault).result.Ok? <==>
              && OnboardingScriptsPresent(env)
              && fault != Some(RecordInsertion) && fault != Some(ExistenceCheck)
              && (request.tenantIdentifier !in p.catalog ==> fault != Some(DatabaseCreation))
              && fault != Some(NotificationSchemaCreation) && fault != Some(QueuesSchemaCreation)
  {
  }

  /** A successful onboarding sends record, existence check, creation (for a
      new database only), notification schema, queues schema, in that order,
      and leaves the tenant in both the records and the catalog. */
  lemma OnboardingOrder(p: Panel, env: Environment, request: OnboardTenantRequest, fault: Option<Step>)
    requires Onboarding(p, env, request, fault).result.Ok?
    ensures OnboardingScriptsPresent(env)
    ensures Onboarding(p, env, request, fault).panel ==
              Panel(p.records + {request.tenantIdentifier}, p.catalog + {request.tenantIdentifier},
                    p.log + OnboardingCommands(env, request, p.catalog))
  {
    OnboardingSucceeds(p, env, request, fault);
  }

  /** No rollback: whatever the outcome, onboarding removes no record and no
      database, adds nothing but the tenant, and only appends commands. */
  lemma OnboardingOnlyAdds(p: Panel, env: Environment, request: OnboardTenantRequest, fault: Option<Step>)
    ensures var q := Onboarding(p, env, request, fault).panel;
            && p.records <= q.records <= p.records + {request.tenantIdentifier}
            && p.catalog <= q.catalog <= p.catalog + {request.tenantIdentifier}
            && q.log[..|p.log|] == p.log
  {
  }

  /** The record stays when creating the database fails. */
  lemma RecordSurvivesFailedCreation(p: Panel, env: Environment, request: OnboardTenantRequest)
    requires ScriptPath(CreateTenantScript) in env.files
    requires request.tenantIdentifier !in p.catalog
    ensures var o := Onboarding(p, env, request, Some(DatabaseCreation));
            && o.result == Err(ServerError)
            && request.tenantIdentifier in o.panel.records
            && o.panel.catalog == p.catalog
  {
  }

  /** Onboarding a tenant whose database already exists sends no CREATE. */
  lemma ExistingDatabaseNotCreated(p: Panel, env: Environment, request: OnboardTenantRequest, fault: Option<Step>)
    requires request.tenantIdentifier in p.catalog
    ensures var q := Onboarding(p, env, request, fault).panel;
            q.catalog == p.catalog && forall c :: c in q.log[|p.log|..] ==> !c.CreateDatabase?
  {
  }

  /** Onboarding again after a success succeeds too, and changes neither the
      records nor the catalog. */
  lemma OnboardingRepeatable(p: Panel, env: Environment, request: OnboardTenantRequest)
    requires Onboarding(p, env, request, None).result.Ok?
    ensures var q := Onboarding(p, env, request, None).panel;
            var o := Onboarding(q, env, request, None);
            o.result.Ok? && o.panel.records == q.records && o.panel.catalog == q.catalog
  {
    OnboardingOrder(p, env, request, None);
    var q := Onboarding(p, env, request, None).panel;
    OnboardingSucceeds(q, env, request, None);
    OnboardingOrder(q, env, request, None);
  }

  /** Teardown succeeds exactly when its script is present and no step
      fails; in particular whether the database exists does not matter. */
  lemma TeardownSucceeds(p: Panel, env: Environment, tenantIdentifier: string, fault: Option<Step>)
    ensures Teardown(p, env, tenantIdentifier, fault).result.Ok? <==>
              ScriptPath(TeardownRecordScript) in env.files
              && fault != Some(RecordDeletion) && fault != Some(SessionTermination) && fault != Some(DatabaseDrop)
  {
  }

  /** A successful teardown deletes the record, then terminates the other
      sessions, then drops the database if it exists; afterwards the tenant
      is in neither the records nor the catalog. */
  lemma TeardownOrder(p: Panel, env: Environment, tenantIdentifier: string, fault: Option<Step>)
    requires Teardown(p, env, tenantIdentifier, fault).result.Ok?
    ensures ScriptPath(TeardownRecordScript) in env.files
    ensures Teardown(p, env, tenantIdentifier, fault).panel ==
              Panel(p.records - {tenantIdentifier}, p.catalog - {tenantIdentifier},
                    p.log + [Script(env.controlPanel, SubstituteQuoted(env.files[ScriptPath(TeardownRecordScript)], tenantIdentifier)),
                             TerminateBackends(env.tenantsBase, tenantIdentifier),
                             DropDatabase(env.tenantsBase, DropDatabaseSql(tenantIdentifier))])
  {
    TeardownSucceeds(p, env, tenantIdentifier, fault);
  }

  /** Teardown after onboarding a new tenant restores the records and the
      catalog. */
  lemma TeardownUndoesOnboarding(p: Panel, env: Environment, request: OnboardTenantRequest)
    requires request.tenantIdentifier !in p.records && request.tenantIdentifier !in p.catalog
    requires Onboarding(p, env, request, None).result.Ok?
    requires Teardown(Onboarding(p, env, request, None).panel, env, request.tenantIdentifier, None).result.Ok?
    ensures var q := Teardown(Onboarding(p, env, request, None).panel, env, request.tenantIdentifier, None).panel;
            q.records == p.records && q.catalog == p.catalog
  {
    OnboardingOrder(p, env, request, None);
    TeardownOrder(Onboarding(p, env, request, None).panel, env, request.tenantIdentifier, None);
  }

  /** A quoted value holds a pattern free of quotes only if the value does. */
  lemma QuotedFree(v: string, p: string)
    requires p != [] && '\'' !in p
    requires !Contains(v, p)
    ensures !Contains(Quoted(v), p)
  {
    if Contains(Quoted(v), p) {
      var i: nat :| i <= |Quoted(v)| && OccursAt(Quoted(v), p, i);
      if i == 0 {
        OccurrenceCovers(Quoted(v), p, i, 0);
        assert false;
      } else if i + |p| > |v| + 1 {
        OccurrenceCovers(Quoted(v), p, i, |v| + 1);
        assert false;
      } else {
        assert Quoted(v)[i..i + |p|] == v[i - 1..i - 1 + |p|];
        assert OccursAt(v, p, i - 1);
      }
    }
  }

  /** The quoted helper replaces every placeholder: none is left unless the
      identifier itself holds one. */
  lemma {:induction false} QuotedSubstitutionComplete(sql: string, tenantIdentifier: string)
    requires !Contains(tenantIdentifier, IdentifierPlaceholder)
    ensures !Contains(SubstituteQuoted(sql, tenantIdentifier), IdentifierPlaceholder)
  {
    QuotedFree(tenantIdentifier, IdentifierPlaceholder);
    ReplaceLeavesNoOccurrence(sql, IdentifierPlaceholder, Quoted(tenantIdentifier), IdentifierPlaceholder);
  }

  /** None of the record script's three placeholders occurs in `v`. */
  predicate PlaceholderFree(v: string)
  {
    !Contains(v, IdentifierPlaceholder) && !Contains(v, NamePlaceholder) && !Contains(v, TierPlaceholder)
  }

  /** After the record script's three substitutions no placeholder is left,
      as long as the substituted values hold none. */
  lemma {:induction false} RecordSubstitutionComplete(sql: string, request: OnboardTenantRequest)
    requires PlaceholderFree(request.tenantIdentifier)
    requires PlaceholderFree(request.tenantName)
    requires PlaceholderFree(request.tenantTier)
    ensures PlaceholderFree(RecordSql(sql, request))
  {
    var withIdentifier := SubstituteQuoted(sql, request.tenantIdentifier);
    QuotedSubstitutionComplete(sql, request.tenantIdentifier);
    var withName := Replace(withIdentifier, NamePlaceholder, Quoted(request.tenantName));
    QuotedFree(request.tenantName, IdentifierPlaceholder);
    QuotedFree(request.tenantName, NamePlaceholder);
    ReplaceLeavesNoOccurrence(withIdentifier, NamePlaceholder, Quoted(request.tenantName), IdentifierPlaceholder);
    ReplaceLeavesNoOccurrence(withIdentifier, NamePlaceholder, Quoted(request.tenantName), NamePlaceholder);
    QuotedFree(request.tenantTier, IdentifierPlaceholder);
    QuotedFree(request.tenantTier, NamePlaceholder);
    QuotedFree(request.tenantTier, TierPlaceholder);
    ReplaceLeavesNoOccurrence(withName, TierPlaceholder, Quoted(request.tenantTier), IdentifierPlaceholder);
    ReplaceLeavesNoOccurrence(withName, TierPlaceholder, Quoted(request.tenantTier), NamePlaceholder);
    ReplaceLeavesNoOccurrence(withName, TierPlaceholder, Quoted(request.tenantTier), TierPlaceholder);
  }

  /** `configuration.GetConnectionString(key)` handed to Npgsql: a missing
      key gives the empty descriptor. */
  function ConnectionString(connectionStrings: map<string, Settings>, key: string): Settings
  {
    if key in connectionStrings then connectionStrings[key] else Unset
  }

  class TenantControlPanelService {
    const environment: Environment
    /** The tenants recorded in the control-plane database. */
    var records: set<string>
    /** The databases on the tenants' server. */
    var catalog: set<string>
    /** The commands sent so far, in order. */
    var log: seq<Command>

    function State(): Panel
      reads this
    {
      Panel(records, catalog, log)
    }

    constructor (connectionStrings: map<string, Settings>, files: map<string, string>,
                 records: set<string>, catalog: set<string>)
      ensures environment == Environment(ConnectionString(connectionStrings, "TenantControlPanelConnectionString"),
                                         ConnectionString(connectionStrings, "TenantsDatabaseConnectionString"), files)
      ensures State() == Panel(records, catalog, [])
    {
      environment := Environment(ConnectionString(connectionStrings, "TenantControlPanelConnectionString"),
                                 ConnectionString(connectionStrings, "TenantsDatabaseConnectionString"), files);
      this.records := records;
      this.catalog := catalog;
      log := [];
    }

    /** Sends one command for `step`. */
    method Run(step: Step, c: Command, tenantIdentifier: string, fault: Option<Step>) returns (r: Result<()>)
      modifies this
      ensures Outcome(r, State()) == Execute(old(State()), step, c, tenantIdentifier, fault)
    {
      log := log + [c];
      if fault == Some(step) {
        return Err(ServerError);
      }
      match step {
        case RecordInsertion => records := records + {tenantIdentifier};
        case RecordDeletion => records := records - {tenantIdentifier};
        case DatabaseCreation => catalog := catalog + {tenantIdentifier};
        case DatabaseDrop => catalog := catalog - {tenantIdentifier};
        case _ =>
      }
      r := Ok(());
    }

    method OnboardTenant(request: OnboardTenantRequest, fault: Option<Step>) returns (r: Result<()>)
      modifies this
      ensures Outcome(r, State()) == Onboarding(old(State()), environment, request, fault)
    {
      r := CreateTenantRecord(request, fault);
      if r.Err? {
        return;
      }
      r := CreateTenantDatabase(request.tenantIdentifier, fault);
      if r.Err? {
        return;
      }
      var tenantConnectionString := WithDatabase(environment.tenantsBase, request.tenantIdentifier);
      r := ExecuteSqlScriptOnTenantDatabaseWithQuotedTenantIdentifier(
        tenantConnectionString, NotificationSchemaScript, request.tenantIdentifier, NotificationSchemaCreation, fault);
      if r.Err? {
        return;
      }
      r := ExecuteSqlScriptOnTenantDatabaseWithoutQuotedTenantIdentifier(
        tenantConnectionString, QueuesSchemaScript, request.tenantIdentifier, QueuesSchemaCreation, fault);
    }

    method TeardownTenant(tenantIdentifier: string, fault: Option<Step>) returns (r: Result<()>)
      modifies this
      ensures Outcome(r, State()) == Teardown(old(State()), environment, tenantIdentifier, fault)
    {
      r := ExecuteSqlScriptOnTenantDatabaseWithQuotedTenantIdentifier(
        environment.controlPanel, TeardownRecordScript, tenantIdentifier, RecordDeletion, fault);
      if r.Err? {
        return;
      }
      r := Run(SessionTermination, TerminateBackends(environment.tenantsBase, tenantIdentifier), tenantIdentifier, fault);
      if r.Err? {
        return;
      }
      r := Run(DatabaseDrop, DropDatabase(environment.tenantsBase, DropDatabaseSql(tenantIdentifier)), tenantIdentifier, fault);
    }

    method CreateTenantRecord(request: OnboardTenantRequest, fault: Option<Step>) returns (r: Result<()>)
      modifies this
      ensures Outcome(r, State()) == TenantRecord(old(State()), environment, request, fault)
    {
      var read := ReadScript(environment.files, CreateTenantScript);
      if read.Err? {
        return Err(read.error);
      }
      var sqlScript := read.value;
      sqlScript := Replace(sqlScript, IdentifierPlaceholder, Quoted(request.tenantIdentifier));
      sqlScript := Replace(sqlScript, NamePlaceholder, Quoted(request.tenantName));
      sqlScript := Replace(sqlScript, TierPlaceholder, Quoted(request.tenantTier));
      r := Run(RecordInsertion, Script(environment.controlPanel, sqlScript), request.tenantIdentifier, fault);
    }

    method CreateTenantDatabase(tenantIdentifier: string, fault: Option<Step>) returns (r: Result<()>)
      modifies this
      ensures Outcome(r, State()) == TenantDatabase(old(State()), environment, tenantIdentifier, fault)
    {
      log := log + [ExistsQuery(environment.tenantsBase, tenantIdentifier)];
      if fault == Some(ExistenceCheck) {
        return Err(ServerError);
      }
      var dbExists := tenantIdentifier in catalog;
      if !dbExists {
        r := Run(DatabaseCreation, CreateDatabase(environment.tenantsBase, CreateDatabaseSql(tenantIdentifier)),
                 tenantIdentifier, fault);
      } else {
        r := Ok(());
      }
    }

    method ExecuteSqlScriptOnTenantDatabaseWithQuotedTenantIdentifier(
      connectionString: Settings, scriptName: string, tenantIdentifier: string, step: Step, fault: Option<Step>)
      returns (r: Result<()>)
      modifies this
      ensures Outcome(r, State()) == QuotedScript(old(State()), environment, connectionString, scriptName,
                                                  tenantIdentifier, step, fault)
    {
      var read := ReadScript(environment.files, scriptName);
      if read.Err? {
        return Err(read.error);
      }
      var sqlScript := Replace(read.value, IdentifierPlaceholder, Quoted(tenantIdentifier));
      r := Run(step, Script(connectionString, sqlScript), tenantIdentifier, fault);
    }

    method ExecuteSqlScriptOnTenantDatabaseWithoutQuotedTenantIdentifier(
      connectionString: Settings, scriptName: string, tenantIdentifier: string, step: Step, fault: Option<Step>)
      returns (r: Result<()>)
      modifies this
      ensures Outcome(r, State()) == BareScript(old(State()), environment, connectionString, scriptName,
                                                tenantIdentifier, step, fault)
    {
      var read := ReadScript(environment.files, scriptName);
      if read.Err? {
        return Err(read.error);
      }
      var sqlScript := Replace(read.value, IdentifierPlaceholder, tenantIdentifier);
      r := Run(step, Script(connectionString, sqlScript), tenantIdentifier, fault);
    }
  }
}
