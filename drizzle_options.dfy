/**
 * The scenario matrix of the drizzle add-on's tests: a record of option
 * defaults, and four option-value records each built by spreading the
 * defaults and overriding a few keys.
 */
module DrizzleOptions {

  /** The value of one option: a select answer or a boolean answer. */
  datatype OptionValue = Str(s: string) | Bool(b: bool)

  /** A question of the add-on's option definition, reduced to its default answer. */
  datatype Question = Question(defaultValue: OptionValue)

  /** The questions of the drizzle option definition that the tests read. */
  datatype DrizzleQuestions =
    DrizzleQuestions(sqlite: Question, mysql: Question, postgresql: Question, docker: Question)

  /** The option keys the drizzle test scenarios mention. */
  datatype OptionKey = Database | Sqlite | Mysql | Postgresql | Docker

  /** An option-value record: object keys to answers. */
  type OptionValues = map<OptionKey, OptionValue>

  /** The keys an object literal's explicit properties set. */
  function FieldKeys<K, V>(fields: seq<(K, V)>): set<K>
  {
    set i | 0 <= i < |fields| :: fields[i].0
  }

  /** No explicit property after the `i`-th one has the same key. */
  predicate LastOfItsKey<K(==), V>(fields: seq<(K, V)>, i: nat)
    requires i < |fields|
  {
    forall j :: i < j < |fields| ==> fields[j].0 != fields[i].0
  }

  /**
   * The object literal `{ ...base, k1: v1, k2: v2, ... }`: properties are
   * written left to right, so an explicit property overrides the spread one
   * and a later property overrides an earlier one of the same key.
   */
  function Spread<K, V>(base: map<K, V>, fields: seq<(K, V)>): (r: map<K, V>)
    ensures r.Keys == base.Keys + FieldKeys(fields)
    ensures forall k :: k in base && k !in FieldKeys(fields) ==> r[k] == base[k]
    ensures forall i :: 0 <= i < |fields| && LastOfItsKey(fields, i) ==> r[fields[i].0] == fields[i].1
    decreases |fields|
  {
    if fields == [] then base
    else
      var rest := fields[1..];
      var r := Spread(base[fields[0].0 := fields[0].1], rest);
      assert FieldKeys(fields) == {fields[0].0} + FieldKeys(rest) by {
        assert forall i :: 1 <= i < |fields| ==> fields[i] == rest[i - 1];
      }
      forall i | 0 <= i < |fields| && LastOfItsKey(fields, i)
        ensures r[fields[i].0] == fields[i].1
      {
        if i > 0 {
          assert rest[i - 1] == fields[i];
          assert LastOfItsKey(rest, i - 1) by {
            forall j | i - 1 < j < |rest| ensures rest[j].0 != rest[i - 1].0 {
              assert rest[j] == fields[j + 1];
            }
          }
        } else {
          assert fields[0].0 !in FieldKeys(rest) by {
            forall j | 0 <= j < |rest| ensures rest[j].0 != fields[0].0 {
              assert rest[j] == fields[j + 1];
            }
          }
        }
      }
      r
  }

  /** `defaultOptionValues`: every database driver option and `docker` at its default. */
  function DefaultOptionValues(q: DrizzleQuestions): OptionValues
  {
    map[
      Sqlite := q.sqlite.defaultValue,
      Mysql := q.mysql.defaultValue,
      Postgresql := q.postgresql.defaultValue,
      Docker := q.docker.defaultValue
    ]
  }

  /** The explicit properties of each scenario's object literal, after the spread. */
  function ScenarioFields(i: nat): seq<(OptionKey, OptionValue)>
    requires i < 4
  {
    [
      [(Database, Str("sqlite")), (Sqlite, Str("better-sqlite3"))],
      [(Database, Str("sqlite")), (Sqlite, Str("libsql"))],
      [(Database, Str("mysql")), (Mysql, Str("mysql2")), (Docker, Bool(true))],
      [(Database, Str("postgresql")), (Postgresql, Str("postgres.js")), (Docker, Bool(true))]
    ][i]
  }

  /** Scenario `i` of the matrix: `{ ...defaultOptionValues, <its fields> }`. */
  function Scenario(q: DrizzleQuestions, i: nat): OptionValues
    requires i < 4
  {
    Spread(DefaultOptionValues(q), ScenarioFields(i))
  }

  /**
   * What the fixture means record `i` to be: the defaults plus `database`,
   * every key it does not override at its default, its database and driver
   * as listed, and `docker` switched on exactly for a server database.
   */
  predicate IsScenarioRecord(q: DrizzleQuestions, i: nat, s: OptionValues)
    requires i < 4
  {
    var d, db := DefaultOptionValues(q), ScenarioDatabase(i);
    && s.Keys == d.Keys + {Database}
    && (forall k :: k in d && k !in OverriddenKeys(i) ==> s[k] == d[k])
    && s[Database] == Str(db)
    && s[DriverKey(db)] == Str(ScenarioDriver(i))
    && s[Docker] == if NeedsServer(db) then Bool(true) else q.docker.defaultValue
  }

  /** The `optionValues` list of the drizzle tests: the four scenario records, all distinct. */
  function OptionValueMatrix(q: DrizzleQuestions): (r: seq<OptionValues>)
    ensures |r| == 4
    ensures forall i :: 0 <= i < 4 ==> IsScenarioRecord(q, i, r[i])
    ensures forall i, j :: 0 <= i < j < 4 ==> r[i] != r[j]
  {
    var r := seq(4, i requires 0 <= i < 4 => Scenario(q, i));
    assert forall i :: 0 <= i < 4 ==> IsScenarioRecord(q, i, r[i]) by {
      forall i | 0 <= i < 4 ensures IsScenarioRecord(q, i, r[i]) {
        ScenarioKeepsDefaults(q, i);
        ScenarioSelectsDriver(q, i);
        DockerOnlyForServerDatabases(q, i);
      }
    }
    assert forall i, j :: 0 <= i < j < 4 ==> r[i] != r[j] by {
      forall i, j | 0 <= i < j < 4 ensures r[i] != r[j] {
        ScenariosDistinct(q, i, j);
      }
    }
    r
  }

  /** The database each scenario targets, as the answer to `database`. */
  function ScenarioDatabase(i: nat): string
    requires i < 4
  {
    ["sqlite", "sqlite", "mysql", "postgresql"][i]
  }

  /** The driver each scenario selects for its database. */
  function ScenarioDriver(i: nat): string
    requires i < 4
  {
    ["better-sqlite3", "libsql", "mysql2", "postgres.js"][i]
  }

  /** The option that selects the driver for a database: the option named after it. */
  function DriverKey(database: string): OptionKey
  {
    if database == "sqlite" then Sqlite
    else if database == "mysql" then Mysql
    else Postgresql
  }

  /** A database that runs as a server, which the tests start in a container. */
  predicate NeedsServer(database: string)
  {
    database != "sqlite"
  }

  /**
   * The keys a scenario sets explicitly: `database`, the driver option named
   * after that database, and `docker` for a server database.
   */
  function OverriddenKeys(i: nat): set<OptionKey>
    requires i < 4
  {
    var db := ScenarioDatabase(i);
    {Database, DriverKey(db)} + if NeedsServer(db) then {Docker} else {}
  }

  /** The keys scenario `i` sets, each set once. */
  lemma ScenarioFieldKeys(i: nat)
    requires i < 4
    ensures var f := ScenarioFields(i);
      && FieldKeys(f) == OverriddenKeys(i)
      && forall j :: 0 <= j < |f| ==> LastOfItsKey(f, j)
  {
    var f := ScenarioFields(i);
    if i < 2 {
      assert f[0].0 in FieldKeys(f) && f[1].0 in FieldKeys(f);
    } else {
      assert f[0].0 in FieldKeys(f) && f[1].0 in FieldKeys(f) && f[2].0 in FieldKeys(f);
    }
  }

  /**
   * Every scenario has the keys of the defaults record plus `database`, and
   * every key it does not override keeps its default.
   */
  lemma ScenarioKeepsDefaults(q: DrizzleQuestions, i: nat)
    requires i < 4
    ensures var s, d := Scenario(q, i), DefaultOptionValues(q);
      && s.Keys == d.Keys + {Database}
      && forall k :: k in d && k !in OverriddenKeys(i) ==> s[k] == d[k]
  {
    ScenarioFieldKeys(i);
  }

  /** Every scenario answers `database` and that database's driver option as listed. */
  lemma ScenarioSelectsDriver(q: DrizzleQuestions, i: nat)
    requires i < 4
    ensures var s := Scenario(q, i);
      && s[Database] == Str(ScenarioDatabase(i))
      && s[DriverKey(ScenarioDatabase(i))] == Str(ScenarioDriver(i))
  {
    ScenarioFieldKeys(i);
  }

  /**
   * The mysql and postgresql scenarios switch `docker` on whatever its
   * default; the two sqlite scenarios leave it at the default.
   */
  lemma DockerOnlyForServerDatabases(q: DrizzleQuestions, i: nat)
    requires i < 4
    ensures Scenario(q, i)[Docker] ==
      if NeedsServer(ScenarioDatabase(i)) then Bool(true) else q.docker.defaultValue
  {
    ScenarioFieldKeys(i);
  }

  /** The four scenarios are four different option-value records. */
  lemma ScenariosDistinct(q: DrizzleQuestions, i: nat, j: nat)
    requires i < j < 4
    ensures Scenario(q, i) != Scenario(q, j)
  {
    if i == 0 && j == 1 {
      ScenarioSelectsDriver(q, 0);
      ScenarioSelectsDriver(q, 1);
      assert Scenario(q, 0)[Sqlite] != Scenario(q, 1)[Sqlite];
    } else {
      DatabasesDiffer(i, j);
      ScenarioSelectsDriver(q, i);
      ScenarioSelectsDriver(q, j);
    }
  }

  /** Apart from the two sqlite scenarios, no two scenarios target the same database. */
  lemma DatabasesDiffer(i: nat, j: nat)
    requires i < j < 4 && !(i == 0 && j == 1)
    ensures ScenarioDatabase(i) != ScenarioDatabase(j)
  {
  }
}
