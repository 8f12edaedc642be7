/**
 * The helpers of the upload settings form: the database and schema options
 * of its selects, and whether a database supports schemas.
 */
module UploadSettings {
  import opened Wrappers
  import QueryData

  /** The parts of a `Database` the helpers read; `features` may be absent. */
  datatype Database = Database(id: int, name: string, features: Option<seq<string>>)

  /** A select option `{ label, value }`; `text` is the label. */
  datatype SelectOption = SelectOption(text: string, value: string)

  // ---------------------------------------------------------------------------
  // `String(id)` for an integer id
  // ---------------------------------------------------------------------------

  predicate IsDigit(c: char) {
    '0' <= c <= '9'
  }

  predicate AllDigits(s: string) {
    forall i :: 0 <= i < |s| ==> IsDigit(s[i])
  }

  /** What `IntString` produces: digits, possibly after a minus sign. */
  predicate IsDecimal(s: string) {
    |s| > 0 && (if s[0] == '-' then |s| > 1 && AllDigits(s[1..]) else AllDigits(s))
  }

  function DigitChar(d: nat): (c: char)
    requires d < 10
    ensures IsDigit(c)
  {
    ('0' as int + d) as char
  }

  /** The decimal digits of `n`, without leading zeros. */
  function NatString(n: nat): (s: string)
    ensures |s| > 0 && AllDigits(s)
    decreases n
  {
    if n < 10 then [DigitChar(n)] else NatString(n / 10) + [DigitChar(n % 10)]
  }

  /** `String(n)` for an integer: a minus sign before the digits of a
      negative number. */
  function IntString(n: int): string {
    if n < 0 then "-" + NatString(-n) else NatString(n)
  }

  function DigitValue(c: char): (d: nat)
    requires IsDigit(c)
    ensures d < 10 && DigitChar(d) == c
  {
    c as int - '0' as int
  }

  /** The value of a string of decimal digits. */
  function ParseDigits(s: string): nat
    requires AllDigits(s)
    decreases |s|
  {
    if s == [] then 0
    else ParseDigits(s[..|s| - 1]) * 10 + DigitValue(s[|s| - 1])
  }

  /** The integer an `IntString` denotes. */
  function ParseInt(s: string): int
    requires IsDecimal(s)
  {
    if s[0] == '-' then -(ParseDigits(s[1..]) as int) else ParseDigits(s)
  }

  lemma {:induction false} ParseNatString(n: nat)
    ensures ParseDigits(NatString(n)) == n
    decreases n
  {
    if n >= 10 {
      ParseNatString(n / 10);
      var s := NatString(n);
      assert s[..|s| - 1] == NatString(n / 10);
    }
  }

  /** `String(id)` loses nothing: the id can be read back from it. */
  lemma IntStringRoundTrip(n: int)
    ensures IsDecimal(IntString(n)) && ParseInt(IntString(n)) == n
  {
    if n < 0 {
      ParseNatString(-n);
      assert IntString(n)[1..] == NatString(-n);
    } else {
      ParseNatString(n);
      assert IntString(n)[0] != '-' by {
        assert IsDigit(NatString(n)[0]);
      }
    }
  }

  /** Different ids give different option values. */
  lemma IntStringInjective(a: int, b: int)
    ensures IntString(a) == IntString(b) <==> a == b
  {
    IntStringRoundTrip(a);
    IntStringRoundTrip(b);
  }

  // ---------------------------------------------------------------------------
  // The helpers
  // ---------------------------------------------------------------------------

  /** `getDatabaseOptions(databases)` */
  function GetDatabaseOptions(databases: seq<Database>): (r: seq<SelectOption>)
    ensures |r| == |databases|
    ensures forall i :: 0 <= i < |r| ==> r[i].text == databases[i].name
  {
    seq(|databases|, i requires 0 <= i < |databases| => SelectOption(databases[i].name, IntString(databases[i].id)))
  }

  /** One option per database, in order, labelled with its name; the value
      of an option gives back its database's id, so databases with distinct
      ids get distinct values. */
  lemma DatabaseOptionsIdentify(databases: seq<Database>)
    ensures var r := GetDatabaseOptions(databases);
            && |r| == |databases|
            && (forall i :: 0 <= i < |r| ==> r[i].text == databases[i].name)
            && (forall i :: 0 <= i < |r| ==> IsDecimal(r[i].value) && ParseInt(r[i].value) == databases[i].id)
            && (forall i, j :: 0 <= i < |r| && 0 <= j < |r| ==> (r[i].value == r[j].value <==> databases[i].id == databases[j].id))
  {
    var r := GetDatabaseOptions(databases);
    forall i | 0 <= i < |r| ensures IsDecimal(r[i].value) && ParseInt(r[i].value) == databases[i].id {
      IntStringRoundTrip(databases[i].id);
    }
    forall i, j | 0 <= i < |r| && 0 <= j < |r| ensures r[i].value == r[j].value <==> databases[i].id == databases[j].id {
      IntStringInjective(databases[i].id, databases[j].id);
    }
  }

  /** `getSchemaOptions(schemas)` */
  function GetSchemaOptions(schemas: seq<string>): (r: seq<SelectOption>)
    ensures |r| == |schemas|
    ensures forall i :: 0 <= i < |r| ==> r[i].text == schemas[i] && r[i].value == schemas[i]
  {
    seq(|schemas|, i requires 0 <= i < |schemas| => SelectOption(schemas[i], schemas[i]))
  }

  /** The schemas can be read back from their options. */
  lemma SchemaOptionsRoundTrip(schemas: seq<string>)
    ensures seq(|schemas|, i requires 0 <= i < |schemas| => GetSchemaOptions(schemas)[i].value) == schemas
  {
  }

  /** `dbHasSchema(databases, dbId)` */
  function DbHasSchema(databases: seq<Database>, dbId: int): bool {
    var i := QueryData.FindIndex(databases, (db: Database) => db.id == dbId);
    i >= 0 && databases[i].features.Some? && "schemas" in databases[i].features.value
  }

  /** False when no database has the id. Otherwise only the first database
      with that id is consulted: true exactly when its features are present
      and include `"schemas"`, whatever later databases with the same id say. */
  lemma DbHasSchemaRules(databases: seq<Database>, dbId: int)
    ensures (forall i :: 0 <= i < |databases| ==> databases[i].id != dbId) ==> !DbHasSchema(databases, dbId)
    ensures forall i :: 0 <= i < |databases| && databases[i].id == dbId && (forall j :: 0 <= j < i ==> databases[j].id != dbId) ==>
      (DbHasSchema(databases, dbId) <==> databases[i].features.Some? && "schemas" in databases[i].features.value)
  {
    var p := (db: Database) => db.id == dbId;
    var k := QueryData.FindIndex(databases, p);
    forall i | 0 <= i < |databases| && databases[i].id == dbId && (forall j :: 0 <= j < i ==> databases[j].id != dbId)
      ensures k == i
    {
      assert p(databases[i]);
    }
  }
}
