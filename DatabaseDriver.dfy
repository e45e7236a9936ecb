/** `DatabaseDriverFactory.createDriver` on the desktop: the database file under the home
    directory, the read of SQLite's `user_version`, and the choice between creating the
    schema, migrating it and leaving it alone. The driver's statements are recorded as
    effects; what the generated schema does with them is not part of this model. */
module DatabaseDriver {
  import opened Common

  /** The database file, relative to the home directory. */
  const DatabaseFile := ".lingua_lift/AppDatabase.db"

  /** The directory `dbFile.parentFile` names, relative to the home directory. */
  const DatabaseDirectory := ".lingua_lift"

  const JdbcPrefix := "jdbc:sqlite:"

  /** The connection string the driver is opened with: the prefix and then the file's path. */
  function JdbcUrl(path: string): (r: string)
    ensures |r| == |JdbcPrefix| + |path| && r[..|JdbcPrefix|] == JdbcPrefix && r[|JdbcPrefix|..] == path
  {
    JdbcPrefix + path
  }

  /** The database file sits in the directory that is created before the driver opens it. */
  lemma DatabaseFileInDirectory(home: string)
    ensures ChildPath(home, DatabaseFile) == ChildPath(ChildPath(home, DatabaseDirectory), "AppDatabase.db")
  {
  }

  const TwoTo31 := 0x8000_0000
  const TwoTo32 := 0x1_0000_0000

  /** Kotlin's `Long.toInt()`: the low 32 bits, read as a two's-complement `Int`. */
  function ToInt(v: int): (r: int)
    ensures -TwoTo31 <= r < TwoTo31
    ensures (v - r) % TwoTo32 == 0
    ensures -TwoTo31 <= v < TwoTo31 ==> r == v
  {
    var low := v % TwoTo32;
    if low >= TwoTo31 then low - TwoTo32 else low
  }

  /** What the cursor of `PRAGMA user_version;` yields: no row, or a row whose first column,
      read with `getLong(0)`, may be null. */
  datatype VersionRow = NoRow | Row(column: Option<int>)

  /** The version `createDriver` works with: 0 when there is no row or the column is null,
      otherwise the column cut to an `Int`. */
  function CurrentVersion(row: VersionRow): (r: int)
    ensures row == NoRow || row == Row(None) ==> r == 0
    ensures -TwoTo31 <= r < TwoTo31
  {
    match row
    case Row(Some(v)) => ToInt(v)
    case _ => 0
  }

  /** A stored version in the `Int` range is read back as itself. */
  lemma CurrentVersionOfStored(v: int)
    requires -TwoTo31 <= v < TwoTo31
    ensures CurrentVersion(Row(Some(v))) == v
  {
  }

  /** What `createDriver` asks of the file and the driver. */
  datatype Effect =
    | MakeDirectories(path: string)
    | CreateSchema
    | Migrate(oldVersion: int, newVersion: int)
    | SetUserVersion(version: int)

  /** The statements chosen for the version read: on 0 the schema is created and the version
      written; below the schema's version the schema is migrated from the read version and
      the version written; otherwise nothing. */
  function Bootstrap(current: int, schemaVersion: int): seq<Effect> {
    if current == 0 then [CreateSchema, SetUserVersion(schemaVersion)]
    else if schemaVersion > current then [Migrate(current, schemaVersion), SetUserVersion(schemaVersion)]
    else []
  }

  /** The `user_version` after a sequence of effects, starting from `stored`. */
  function VersionAfter(stored: int, effects: seq<Effect>): int
    decreases |effects|
  {
    if effects == [] then stored
    else
      var last := effects[|effects| - 1];
      if last.SetUserVersion? then last.version else VersionAfter(stored, effects[..|effects| - 1])
  }

  /** The migrations among a sequence of effects, in order, as (from, to) pairs. */
  function Migrations(effects: seq<Effect>): seq<(int, int)>
    decreases |effects|
  {
    if effects == [] then []
    else
      var rest := Migrations(effects[1..]);
      if effects[0].Migrate? then [(effects[0].oldVersion, effects[0].newVersion)] + rest else rest
  }

  /** How many times the schema is created in a sequence of effects. */
  function Creations(effects: seq<Effect>): nat
    decreases |effects|
  {
    if effects == [] then 0
    else (if effects[0].CreateSchema? then 1 else 0) + Creations(effects[1..])
  }

  /** The decision rule: the schema is created exactly once when the version read is 0 and
      never otherwise; it is migrated exactly once, from the read version to the schema's,
      when the read version is non-zero and lower; and nothing at all happens when it is
      non-zero and not lower. */
  lemma BootstrapDecision(current: int, schemaVersion: int)
    ensures Creations(Bootstrap(current, schemaVersion)) == (if current == 0 then 1 else 0)
    ensures Migrations(Bootstrap(current, schemaVersion)) ==
      (if current != 0 && current < schemaVersion then [(current, schemaVersion)] else [])
    ensures Bootstrap(current, schemaVersion) == [] <==> current != 0 && current >= schemaVersion
  {
    var b := Bootstrap(current, schemaVersion);
    if b != [] {
      assert b[1..] == [SetUserVersion(schemaVersion)];
      assert b[1..][1..] == [];
      assert Creations(b[1..]) == 0 && Migrations(b[1..]) == [];
    }
  }

  /** The version stored afterwards: the schema's version when 0 was read, otherwise the
      larger of the read version and the schema's. */
  lemma BootstrapFinalVersion(current: int, schemaVersion: int)
    ensures VersionAfter(current, Bootstrap(current, schemaVersion)) ==
      (if current == 0 then schemaVersion else if current > schemaVersion then current else schemaVersion)
  {
  }

  /** With a schema version of at least 1, as generated schemas have, a second run on the
      version the first one stored does nothing. */
  lemma BootstrapSettles(current: int, schemaVersion: int)
    requires schemaVersion >= 1
    ensures Bootstrap(VersionAfter(current, Bootstrap(current, schemaVersion)), schemaVersion) == []
  {
    BootstrapFinalVersion(current, schemaVersion);
  }

  /** `DatabaseDriverFactory`: the effects issued so far. */
  class DatabaseDriverFactory {
    var effects: seq<Effect>

    constructor()
      ensures effects == []
    {
      effects := [];
    }

    /** `createDriver` for the home directory `home`, with the cursor's answer `row` and the
        generated `Schema.version` `schemaVersion` as inputs; returns the connection string
        of the driver. */
    method CreateDriver(home: string, row: VersionRow, schemaVersion: int) returns (url: string)
      modifies this
      ensures url == JdbcUrl(ChildPath(home, DatabaseFile))
      ensures effects == old(effects) + [MakeDirectories(ChildPath(home, DatabaseDirectory))]
        + Bootstrap(CurrentVersion(row), schemaVersion)
    {
      var dbFile := ChildPath(home, DatabaseFile);
      DatabaseFileInDirectory(home);
      effects := effects + [MakeDirectories(ChildPath(home, DatabaseDirectory))];
      url := JdbcPrefix + dbFile;

      var currentVersion := 0;
      match row {
        case Row(Some(v)) =>
          currentVersion := ToInt(v);
        case _ =>
      }

      if currentVersion == 0 {
        effects := effects + [CreateSchema];
        effects := effects + [SetUserVersion(schemaVersion)];
      } else {
        if schemaVersion > currentVersion {
          effects := effects + [Migrate(currentVersion, schemaVersion)];
          effects := effects + [SetUserVersion(schemaVersion)];
        }
      }
    }
  }
}
