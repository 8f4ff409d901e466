/** The Postgres database the program shares between its components, reduced
    to the two append-only tables the core writes: `cached_token` and
    `solar_data_tsdb`. Rows are kept in insertion order. */
module Db {
  import opened Common
  import opened GoodWeTypes

  class Database {
    var cachedToken: seq<TokenRow>
    var solarDataTsdb: seq<SolarRow>

    constructor ()
      ensures cachedToken == [] && solarDataTsdb == []
    {
      cachedToken := [];
      solarDataTsdb := [];
    }

    /** `INSERT INTO cached_token`: one row more, the other table untouched. */
    method InsertToken(row: TokenRow)
      modifies this
      ensures cachedToken == old(cachedToken) + [row]
      ensures solarDataTsdb == old(solarDataTsdb)
    {
      cachedToken := cachedToken + [row];
    }

    /** `INSERT INTO solar_data_tsdb`: one row more, the other table untouched. */
    method InsertSolar(row: SolarRow)
      modifies this
      ensures solarDataTsdb == old(solarDataTsdb) + [row]
      ensures cachedToken == old(cachedToken)
    {
      solarDataTsdb := solarDataTsdb + [row];
    }
  }

  /** The position of a row with the greatest key, as `ORDER BY key DESC
      LIMIT 1` picks it. Among rows with equal keys the last inserted one is
      taken (SQL leaves that choice open). */
  function Newest<T>(rows: seq<T>, key: T -> int): (i: nat)
    requires |rows| > 0
    ensures i < |rows|
    ensures forall j :: 0 <= j < |rows| ==> key(rows[j]) <= key(rows[i])
    ensures forall j :: i < j < |rows| ==> key(rows[j]) < key(rows[i])
    decreases |rows|
  {
    if |rows| == 1 then 0
    else
      var k := Newest(rows[..|rows| - 1], key);
      if key(rows[|rows| - 1]) >= key(rows[k]) then |rows| - 1 else k
  }

  /** Rows strictly older than the newest one do not change which row is the
      newest, wherever they are placed. */
  lemma {:induction false} NewestIgnoresOlder<T>(older: seq<T>, rows: seq<T>, key: T -> int)
    requires |rows| > 0
    requires forall j :: 0 <= j < |older| ==> key(older[j]) < key(rows[Newest(rows, key)])
    ensures (older + rows)[Newest(older + rows, key)] == rows[Newest(rows, key)]
    ensures (rows + older)[Newest(rows + older, key)] == rows[Newest(rows, key)]
  {
    var i := Newest(rows, key);
    UniqueNewest(older + rows, key, |older| + i);
    UniqueNewest(rows + older, key, i);
  }

  /** A position holding a greatest key that has no greater equal key after
      it is the one `Newest` picks. */
  lemma UniqueNewest<T>(rows: seq<T>, key: T -> int, i: nat)
    requires |rows| > 0 && i < |rows|
    requires forall j :: 0 <= j < |rows| ==> key(rows[j]) <= key(rows[i])
    requires forall j :: i < j < |rows| ==> key(rows[j]) < key(rows[i])
    ensures Newest(rows, key) == i
  {
  }
}
