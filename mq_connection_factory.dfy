/** The message-queue service's tenant connection resolver. */
module MessageQueueConnections {
  import opened ConnectionSettings

  /** The configuration entry that holds the base connection string. */
  const ConfigurationKey: string := "MessageQueueDb"

  /** The factory's only state: the base connection string, fixed when it is built. */
  datatype ConnectionStringFactory = ConnectionStringFactory(baseConnectionString: Settings) {

    /** The connection to a tenant's own database: the tenant identifier
        becomes the database, host, port and credentials stay the base's. */
    function CreateConnectionString(tenantIdentifier: string): (r: Settings)
      ensures r.database == tenantIdentifier
      ensures r.host == baseConnectionString.host && r.port == baseConnectionString.port
      ensures r.username == baseConnectionString.username
      ensures r.password == baseConnectionString.password
    {
      WithDatabase(baseConnectionString, tenantIdentifier)
    }
  }

  /** The constructor: reads the named connection string from the
      configuration; a missing entry gives a builder with nothing set. */
  function FromConfiguration(connectionStrings: map<string, Settings>): (f: ConnectionStringFactory)
    ensures ConfigurationKey in connectionStrings ==> f.baseConnectionString == connectionStrings[ConfigurationKey]
    ensures ConfigurationKey !in connectionStrings ==> f.baseConnectionString == Unset
  {
    ConnectionStringFactory(if ConfigurationKey in connectionStrings then connectionStrings[ConfigurationKey] else Unset)
  }

  /** Tenant isolation: different tenants are sent to different databases,
      and the same tenant always to the same one. */
  lemma TenantIsolation(f: ConnectionStringFactory, t1: string, t2: string)
    ensures f.CreateConnectionString(t1) == f.CreateConnectionString(t2) <==> t1 == t2
  {
    WithDatabaseOnlyDatabaseDiffers(f.baseConnectionString, t1, t2);
  }
}
