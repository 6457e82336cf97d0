/** An Npgsql connection string, held in its parsed form: the components a
    `NpgsqlConnectionStringBuilder` exposes and the modelled code reads or sets. */
module ConnectionSettings {

  /** Npgsql's port when the connection string names none. */
  const DefaultPort: int := 5432

  datatype Settings = Settings(host: string, port: int, database: string, username: string, password: string)

  /** The builder of a missing (null) connection string: every component unset. */
  const Unset: Settings := Settings("", DefaultPort, "", "", "")

  /** `builder.Database = database` on a builder of `base`: the database
      becomes `database`, every other component is that of `base`. */
  function WithDatabase(base: Settings, database: string): (r: Settings)
    ensures r.database == database
    ensures r.host == base.host && r.port == base.port
    ensures r.username == base.username && r.password == base.password
  {
    base.(database := database)
  }

  /** Setting the database to what it already is changes nothing. */
  lemma WithOwnDatabase(base: Settings)
    ensures WithDatabase(base, base.database) == base
  {
  }

  /** Only the database component changes: two results for the same base
      differ in it and in nothing else. */
  lemma WithDatabaseOnlyDatabaseDiffers(base: Settings, d1: string, d2: string)
    ensures WithDatabase(base, d1) == WithDatabase(base, d2) <==> d1 == d2
    ensures WithDatabase(base, d1).(database := d2) == WithDatabase(base, d2)
  {
  }
}
