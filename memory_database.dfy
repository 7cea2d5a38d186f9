/**
 * MemoryDatabase (mycqrs/util/MemoryDatabase.java): named tables mapping an id to a stored
 * object, a registry fixing each table's object class at its first save, and one id counter
 * shared by all tables.
 */
module MemoryDb {
  import opened Wrappers
  import opened CqrsDomain

  /**
   * The rows with ids 1..hi, in ascending id order. The Java store streams the values of a
   * ConcurrentHashMap, whose order is unspecified; every property stated below about a listing
   * is one that does not depend on its order.
   */
  function Listing(m: map<int, Record>, hi: nat): seq<Record>
    decreases hi
  {
    if hi == 0 then [] else Listing(m, hi - 1) + (if hi in m then [m[hi]] else [])
  }

  /** A stream filter: the elements satisfying p, in order. */
  function Filter(p: Record -> bool, s: seq<Record>): (r: seq<Record>)
    ensures |r| <= |s|
    ensures forall x :: x in r <==> x in s && p(x)
    ensures forall x :: x in r ==> p(x)
  {
    if s == [] then [] else (if p(s[0]) then [s[0]] else []) + Filter(p, s[1..])
  }

  /** The ids among 1..hi whose row satisfies p. */
  ghost function IdsWhere(p: Record -> bool, m: map<int, Record>, hi: nat): set<int>
  {
    set id | id in m && 1 <= id <= hi && p(m[id])
  }

  /** All ids of m lie in 1..hi. */
  ghost predicate IdsWithin(m: map<int, Record>, hi: nat)
  {
    forall id :: id in m ==> 1 <= id <= hi
  }

  lemma {:induction false} FilterAppend(p: Record -> bool, a: seq<Record>, b: seq<Record>)
    ensures Filter(p, a + b) == Filter(p, a) + Filter(p, b)
    decreases |a|
  {
    if a == [] {
      assert a + b == b;
    } else {
      assert (a + b)[1..] == a[1..] + b;
      FilterAppend(p, a[1..], b);
    }
  }

  lemma IdsWhereStep(p: Record -> bool, m: map<int, Record>, hi: nat)
    requires hi > 0
    ensures IdsWhere(p, m, hi) == IdsWhere(p, m, hi - 1) + (if hi in m && p(m[hi]) then {hi} else {})
    ensures hi !in IdsWhere(p, m, hi - 1)
  {
  }

  /** Filtering a listing keeps one element per matching row: the count is the number of ids. */
  lemma {:induction false} FilterListingCount(p: Record -> bool, m: map<int, Record>, hi: nat)
    ensures |Filter(p, Listing(m, hi))| == |IdsWhere(p, m, hi)|
    decreases hi
  {
    if hi == 0 {
      assert IdsWhere(p, m, 0) == {};
    } else {
      FilterListingCount(p, m, hi - 1);
      var prev := Listing(m, hi - 1);
      var tail := if hi in m then [m[hi]] else [];
      assert Listing(m, hi) == prev + tail;
      FilterAppend(p, prev, tail);
      IdsWhereStep(p, m, hi);
      var step: set<int> := if hi in m && p(m[hi]) then {hi} else {};
      assert |Filter(p, tail)| == |step|;
      assert |IdsWhere(p, m, hi)| == |IdsWhere(p, m, hi - 1)| + |step|;
    }
  }

  /** An element is listed exactly when some row with id in 1..hi holds it. */
  lemma {:induction false} ListingMembers(m: map<int, Record>, hi: nat, x: Record)
    ensures x in Listing(m, hi) <==> exists id :: id in m && 1 <= id <= hi && m[id] == x
    decreases hi
  {
    if hi > 0 {
      ListingMembers(m, hi - 1, x);
      if hi in m && m[hi] == x {
        assert x in Listing(m, hi);
      }
    }
  }

  /**
   * When every id is in 1..hi, the listing is the table's contents as a multiset: each object
   * occurs as many times as rows hold it, so the length is the number of rows.
   */
  lemma ListingIsTable(m: map<int, Record>, hi: nat)
    requires IdsWithin(m, hi)
    ensures |Listing(m, hi)| == |m|
    ensures forall x :: x in Listing(m, hi) <==> exists id :: id in m && m[id] == x
    ensures forall x :: multiset(Listing(m, hi))[x] == |set id | id in m && m[id] == x|
  {
    ListingLength(m, hi);
    forall x
      ensures x in Listing(m, hi) <==> exists id :: id in m && m[id] == x
    {
      ListingValues(m, hi, x);
    }
    forall x
      ensures multiset(Listing(m, hi))[x] == |set id | id in m && m[id] == x|
    {
      ListingMultiplicity(m, hi, x);
    }
  }

  lemma ListingValues(m: map<int, Record>, hi: nat, x: Record)
    requires IdsWithin(m, hi)
    ensures x in Listing(m, hi) <==> exists id :: id in m && m[id] == x
  {
    ListingMembers(m, hi, x);
  }

  lemma ListingLength(m: map<int, Record>, hi: nat)
    requires IdsWithin(m, hi)
    ensures |Listing(m, hi)| == |m|
  {
    var all := (r: Record) => true;
    FilterListingCount(all, m, hi);
    FilterAll(Listing(m, hi));
    assert IdsWhere(all, m, hi) == m.Keys;
  }

  lemma ListingMultiplicity(m: map<int, Record>, hi: nat, x: Record)
    requires IdsWithin(m, hi)
    ensures multiset(Listing(m, hi))[x] == |set id | id in m && m[id] == x|
  {
    var same := (r: Record) => r == x;
    FilterListingCount(same, m, hi);
    Multiplicity(Listing(m, hi), x);
    assert IdsWhere(same, m, hi) == set id | id in m && m[id] == x;
  }

  lemma {:induction false} FilterAll(s: seq<Record>)
    ensures Filter((r: Record) => true, s) == s
    decreases |s|
  {
    if s != [] {
      FilterAll(s[1..]);
      assert s == [s[0]] + s[1..];
    }
  }

  lemma {:induction false} Multiplicity(s: seq<Record>, x: Record)
    ensures multiset(s)[x] == |Filter((r: Record) => r == x, s)|
    decreases |s|
  {
    if s != [] {
      Multiplicity(s[1..], x);
      assert s == [s[0]] + s[1..];
      assert multiset(s) == multiset{s[0]} + multiset(s[1..]);
    }
  }

  /**
   * Ids are 1..lastId and no id is used in two tables; every stored object has the class
   * its table was fixed to.
   */
  ghost predicate Consistent(tables: map<string, map<int, Record>>, types: map<string, RecordClass>, lastId: nat)
  {
    && (forall t, id :: t in tables && id in tables[t] ==> 1 <= id <= lastId)
    && (forall t, u, id :: t in tables && u in tables && id in tables[t] && id in tables[u] ==> t == u)
    && (forall t, id :: t in tables && id in tables[t] ==> t in types && ClassOf(tables[t][id]) == types[t])
  }

  /** Storing a record of the table's class under the next id keeps the store consistent. */
  lemma AddRowKeepsConsistent(tables: map<string, map<int, Record>>, types: map<string, RecordClass>, lastId: nat,
                              name: string, record: Record)
    requires Consistent(tables, types, lastId)
    requires name in types && types[name] == ClassOf(record)
    ensures var rows := if name in tables then tables[name] else map[];
      Consistent(tables[name := rows[lastId + 1 := record]], types, lastId + 1)
  {
    var rows := if name in tables then tables[name] else map[];
    var tables' := tables[name := rows[lastId + 1 := record]];
    forall t, u, id | t in tables' && u in tables' && id in tables'[t] && id in tables'[u]
      ensures t == u
    {
      if id != lastId + 1 {
        assert id in (if t in tables then tables[t] else map[]);
        assert id in (if u in tables then tables[u] else map[]);
      }
    }
  }

  class MemoryDatabase {
    var tables: map<string, map<int, Record>>
    var tableTypes: map<string, RecordClass>
    var lastId: nat

    ghost predicate Valid()
      reads this
    {
      Consistent(tables, tableTypes, lastId)
    }

    /** The single store behind db(): no tables, no fixed classes, counter at 0. */
    constructor ()
      ensures Valid() && tables == map[] && tableTypes == map[] && lastId == 0
    {
      tables := map[];
      tableTypes := map[];
      lastId := 0;
    }

    /** What getTable yields for a name: its rows, or an empty table when it has none yet. */
    function Rows(name: string): (rows: map<int, Record>)
      reads this
      requires Valid()
      ensures IdsWithin(rows, lastId)
      ensures forall id :: id in rows ==> name in tableTypes && ClassOf(rows[id]) == tableTypes[name]
    {
      if name in tables then tables[name] else map[]
    }

    /**
     * checkTableType: the first class seen for a table is fixed; another class is rejected
     * with IllegalArgumentException and the registry is left as it was.
     */
    method CheckTableType(name: string, cls: RecordClass) returns (r: Result<()>)
      requires Valid()
      modifies this
      ensures Valid()
      ensures name in old(tableTypes) && old(tableTypes)[name] != cls ==>
        r == Failure(IllegalArgument) && tableTypes == old(tableTypes)
      ensures !(name in old(tableTypes) && old(tableTypes)[name] != cls) ==>
        r == Success(()) && tableTypes == old(tableTypes)[name := cls]
      ensures tables == old(tables) && lastId == old(lastId)
    {
      if name !in tableTypes {
        tableTypes := tableTypes[name := cls];
      }
      if tableTypes[name] != cls {
        return Failure(IllegalArgument);
      }
      return Success(());
    }

    /** getTable: the named table, created empty when absent; no row changes. */
    method GetTable(name: string) returns (rows: map<int, Record>)
      requires Valid()
      modifies this
      ensures Valid()
      ensures rows == old(Rows(name)) && name in tables
      ensures tables == old(tables)[name := old(Rows(name))]
      ensures tableTypes == old(tableTypes) && lastId == old(lastId)
      ensures forall t :: Rows(t) == old(Rows(t))
    {
      if name !in tables {
        tables := tables[name := map[]];
      }
      return tables[name];
    }

    /**
     * save: a record of the wrong class for the table is rejected and nothing changes, not
     * even the counter; otherwise the counter advances and the record is stored under the new
     * id, which no table used before.
     */
    method Save(name: string, record: Record) returns (r: Result<()>)
      requires Valid()
      modifies this
      ensures Valid()
      ensures r.Failure? <==> name in old(tableTypes) && old(tableTypes)[name] != ClassOf(record)
      ensures r.Failure? ==> r.error == IllegalArgument
      ensures r.Failure? ==> tables == old(tables) && tableTypes == old(tableTypes) && lastId == old(lastId)
      ensures r.Success? ==> lastId == old(lastId) + 1
      ensures r.Success? ==> forall t, id :: t in old(tables) && id in old(tables)[t] ==> id != lastId
      ensures r.Success? ==> tables == old(tables)[name := old(Rows(name))[lastId := record]]
      ensures r.Success? ==> tableTypes == old(tableTypes)[name := ClassOf(record)]
    {
      r := CheckTableType(name, ClassOf(record));
      if r.Failure? {
        return;
      }
      // getTable followed by put: the table, created when absent, gains the row
      var rows := if name in tables then tables[name] else map[];
      AddRowKeepsConsistent(tables, tableTypes, lastId, name, record);
      lastId := lastId + 1;
      tables := tables[name := rows[lastId := record]];
    }

    /** get: the object saved under id in the table, or null; creates the table when absent. */
    method Get(name: string, id: int) returns (r: Option<Record>)
      requires Valid()
      modifies this
      ensures Valid()
      ensures r.Some? <==> id in old(Rows(name))
      ensures r.Some? ==> r.value == old(Rows(name))[id]
      ensures tables == old(tables)[name := old(Rows(name))]
      ensures tableTypes == old(tableTypes) && lastId == old(lastId)
    {
      var rows := GetTable(name);
      if id in rows {
        return Some(rows[id]);
      }
      return None;
    }

    /**
     * getList: every object of the table, each as often as rows hold it; creates the table
     * when absent.
     */
    method GetList(name: string) returns (rows: seq<Record>)
      requires Valid()
      modifies this
      ensures Valid()
      ensures rows == Listing(old(Rows(name)), lastId)
      ensures |rows| == |old(Rows(name))|
      ensures forall x :: x in rows <==> exists id :: id in old(Rows(name)) && old(Rows(name))[id] == x
      ensures forall x :: multiset(rows)[x] == |set id | id in old(Rows(name)) && old(Rows(name))[id] == x|
      ensures tables == old(tables)[name := old(Rows(name))]
      ensures tableTypes == old(tableTypes) && lastId == old(lastId)
    {
      var table := GetTable(name);
      ListingIsTable(table, lastId);
      rows := Listing(table, lastId);
    }

    /**
     * The effect of a setter (Author.setName, Book.setTitle, ...) on a stored object: the
     * table holds the object itself, so the row changes in place. The class stays the same.
     */
    method SetRow(name: string, id: int, record: Record)
      requires Valid() && id in Rows(name) && ClassOf(record) == ClassOf(Rows(name)[id])
      modifies this
      ensures Valid()
      ensures tables == old(tables)[name := old(Rows(name))[id := record]]
      ensures tableTypes == old(tableTypes) && lastId == old(lastId)
    {
      tables := tables[name := tables[name][id := record]];
    }
  }
}
