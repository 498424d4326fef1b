/**
  The `-X/--request` option: the six-entry method table matched without
  regard to case, and the default method chosen when `-X` is absent.
*/
module HttpMethods {
  import opened Wrappers

  /** The request methods the command line accepts. */
  datatype Method = GET | POST | DELETE | PUT | HEAD | PATCH

  /** The option's name-to-method table. */
  const MethodTable: seq<(string, Method)> :=
    [("GET", GET), ("POST", POST), ("DELETE", DELETE), ("PUT", PUT), ("HEAD", HEAD), ("PATCH", PATCH)]

  /** ASCII lower-casing of one character; every other character is kept. */
  function LowerChar(c: char): char
  {
    if 'A' <= c <= 'Z' then (c as int + 32) as char else c
  }

  function Lower(s: string): string
  {
    seq(|s|, i requires 0 <= i < |s| => LowerChar(s[i]))
  }

  /** Equality of two names after lower-casing both. */
  predicate SameIgnoringCase(a: string, b: string)
  {
    Lower(a) == Lower(b)
  }

  /** True when entry `i` of `table` has a name matching `s` and maps to `m`. */
  predicate EntryMatches(table: seq<(string, Method)>, i: int, s: string, m: Method)
  {
    0 <= i < |table| && table[i].1 == m && SameIgnoringCase(table[i].0, s)
  }

  /** Scans `table` for the first entry whose name matches `s` ignoring case. */
  function Lookup(table: seq<(string, Method)>, s: string): (r: Option<Method>)
    ensures r.Some? ==> exists i :: EntryMatches(table, i, s, r.value)
    ensures r.None? ==> forall i :: 0 <= i < |table| ==> !SameIgnoringCase(table[i].0, s)
  {
    if table == [] then None
    else if SameIgnoringCase(table[0].0, s) then
      assert EntryMatches(table, 0, s, table[0].1);
      Some(table[0].1)
    else
      var r := Lookup(table[1..], s);
      if r.Some? then
        var i :| EntryMatches(table[1..], i, s, r.value);
        assert EntryMatches(table, i + 1, s, r.value);
        r
      else
        assert forall i :: 1 <= i < |table| ==> table[i] == table[1..][i - 1];
        r
  }

  /** The names in the table stay distinct after lower-casing. */
  predicate DistinctIgnoringCase(table: seq<(string, Method)>)
  {
    forall i, j :: 0 <= i < |table| && 0 <= j < |table| && i != j ==> !SameIgnoringCase(table[i].0, table[j].0)
  }

  /** True when some entry of the table maps to `m`. */
  predicate InTable(m: Method)
  {
    exists i :: 0 <= i < |MethodTable| && MethodTable[i].1 == m
  }

  /** The table names after lower-casing. */
  lemma LowerNames()
    ensures Lower(MethodTable[0].0) == "get"
    ensures Lower(MethodTable[1].0) == "post"
    ensures Lower(MethodTable[2].0) == "delete"
    ensures Lower(MethodTable[3].0) == "put"
    ensures Lower(MethodTable[4].0) == "head"
    ensures Lower(MethodTable[5].0) == "patch"
  {
  }

  /**
    The table has exactly six entries, one per method, whose names differ
    even ignoring case.
  */
  lemma MethodTableShape()
    ensures |MethodTable| == 6
    ensures forall m: Method :: InTable(m)
    ensures forall i, j :: 0 <= i < j < |MethodTable| ==> MethodTable[i].1 != MethodTable[j].1
    ensures DistinctIgnoringCase(MethodTable)
  {
    forall m: Method ensures InTable(m) {
      match m
      case GET => assert MethodTable[0].1 == m;
      case POST => assert MethodTable[1].1 == m;
      case DELETE => assert MethodTable[2].1 == m;
      case PUT => assert MethodTable[3].1 == m;
      case HEAD => assert MethodTable[4].1 == m;
      case PATCH => assert MethodTable[5].1 == m;
    }
    LowerNames();
    var lowered := ["get", "post", "delete", "put", "head", "patch"];
    assert forall i :: 0 <= i < 6 ==> Lower(MethodTable[i].0) == lowered[i];
    assert forall i, j :: 0 <= i < 6 && 0 <= j < 6 && i != j ==> lowered[i] != lowered[j];
  }

  /**
    The transformed `-X` argument: the method whose table name equals `s`
    ignoring case, or `None` when no entry matches (a command-line error).
  */
  function ParseMethod(s: string): (r: Option<Method>)
    ensures forall m :: r == Some(m) <==> exists i :: EntryMatches(MethodTable, i, s, m)
  {
    MethodTableShape();
    var r := Lookup(MethodTable, s);
    assert forall m, i :: EntryMatches(MethodTable, i, s, m) ==> r.Some? && r.value == m by {
      forall m, i | EntryMatches(MethodTable, i, s, m) ensures r.Some? && r.value == m {
        var k :| EntryMatches(MethodTable, k, s, r.value);
      }
    }
    r
  }

  /** Every method's own table name parses back to it, in any case. */
  lemma {:induction false} ParseMethodNames(i: int)
    requires 0 <= i < |MethodTable|
    ensures ParseMethod(MethodTable[i].0) == Some(MethodTable[i].1)
    ensures ParseMethod(Lower(MethodTable[i].0)) == Some(MethodTable[i].1)
  {
    assert EntryMatches(MethodTable, i, MethodTable[i].0, MethodTable[i].1);
    assert Lower(Lower(MethodTable[i].0)) == Lower(MethodTable[i].0);
    assert EntryMatches(MethodTable, i, Lower(MethodTable[i].0), MethodTable[i].1);
  }

  /** A name outside the table, such as OPTIONS, is refused. */
  lemma UnknownMethodRejected()
    ensures ParseMethod("OPTIONS") == None
  {
  }

  /** Two arguments equal up to case parse to the same result. */
  lemma {:induction false} ParseMethodIgnoresCase(s: string, t: string)
    requires SameIgnoringCase(s, t)
    ensures ParseMethod(s) == ParseMethod(t)
  {
    forall m, i ensures EntryMatches(MethodTable, i, s, m) <==> EntryMatches(MethodTable, i, t, m) {
    }
  }

  /**
    The method used when `-X` is absent: POST when data was given (even
    empty data), otherwise GET; an explicit method is never replaced.
  */
  function DefaultMethod<D>(requested: Option<Method>, data: Option<D>): (m: Method)
    ensures requested.Some? ==> m == requested.value
    ensures requested.None? ==> (m == POST <==> data.Some?)
    ensures requested.None? ==> (m == GET <==> data.None?)
  {
    match requested
    case Some(explicit) => explicit
    case None => if data.Some? then POST else GET
  }
}
