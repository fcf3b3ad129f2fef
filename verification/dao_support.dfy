/** What the two data-access classes share: Java's 32-bit `int`, the id-allocation rule
    of `getNextId`, and the SQL text and parameter list handed to the query executor. */
module DaoSupport {
  import opened Wrappers

  const IntMin: int := -0x8000_0000
  const IntMax: int := 0x7fff_ffff

  /** A Java `int`. */
  type Int32 = x: int | IntMin <= x <= IntMax

  /** Java's `x++` on an `int`: Integer.MAX_VALUE wraps to Integer.MIN_VALUE. */
  function Increment(x: Int32): Int32 {
    if x == IntMax then IntMin else x + 1
  }

  /** The larger of the in-memory counter and the table's MAX(id), when that is not NULL. */
  function HighWater(current: Int32, dbMax: Option<Int32>): Int32 {
    if dbMax.Some? && current < dbMax.value then dbMax.value else current
  }

  /** The id `getNextId` hands out, given the counter and the result of the
      `SELECT MAX(...)` query (None when the table is empty). Below the 32-bit
      limit it is the least id above both the counter and the table's maximum;
      at the limit Java's increment wraps around. */
  function NextId(current: Int32, dbMax: Option<Int32>): (id: Int32)
    ensures HighWater(current, dbMax) < IntMax ==>
              id > current && (dbMax.Some? ==> id > dbMax.value)
    ensures HighWater(current, dbMax) < IntMax ==>
              id - 1 == current || (dbMax.Some? && id - 1 == dbMax.value)
    ensures HighWater(current, dbMax) == IntMax ==> id == IntMin
  {
    Increment(HighWater(current, dbMax))
  }

  /** Two allocations in a row hand out strictly increasing ids, whatever the table's
      maximum was at each call, as long as the counter stays below Integer.MAX_VALUE. */
  lemma NextIdStrictlyIncreases(current: Int32, max1: Option<Int32>, max2: Option<Int32>)
    requires HighWater(current, max1) < IntMax
    requires HighWater(NextId(current, max1), max2) < IntMax
    ensures NextId(NextId(current, max1), max2) > NextId(current, max1) > current
  {
  }

  /** The wrap-around: once the counter or the table holds Integer.MAX_VALUE, the next id
      is Integer.MIN_VALUE. While the table's maximum stays Integer.MAX_VALUE, every later
      call hands out Integer.MIN_VALUE again, so successive ids repeat. */
  lemma NextIdWrapsAtIntMax(current: Int32, dbMax: Option<Int32>)
    ensures NextId(IntMax, dbMax) == IntMin
    ensures NextId(NextId(current, Some(IntMax)), Some(IntMax)) == NextId(current, Some(IntMax)) == IntMin
  {
  }

  // ----- SQL handed to the executor -----

  /** A bound parameter of a prepared statement: the Java `Integer` or `String` objects. */
  datatype SqlParam = IntParam(i: int) | StrParam(s: string)

  /** The statement text: written inline in the DAO, or loaded by the SQL manager from
      a resource file whose contents are not part of this model. */
  datatype SqlText = Inline(text: string) | Resource(path: string)

  /** What a DAO hands to `executeQuerySingle` / `executeQueryList`. */
  datatype Query = Query(sql: SqlText, params: seq<SqlParam>)

  /** The number of `?` placeholders in a statement text. */
  function CountPlaceholders(s: string): nat {
    if s == [] then 0 else (if s[0] == '?' then 1 else 0) + CountPlaceholders(s[1..])
  }

  /** Counting distributes over concatenation. */
  lemma {:induction false} CountPlaceholdersAppend(a: string, b: string)
    ensures CountPlaceholders(a + b) == CountPlaceholders(a) + CountPlaceholders(b)
  {
    if a == [] {
      assert a + b == b;
    } else {
      assert (a + b)[1..] == a[1..] + b;
      CountPlaceholdersAppend(a[1..], b);
    }
  }

  /** A text without a `?` holds no placeholder. */
  lemma {:induction false} NoPlaceholders(s: string)
    requires '?' !in s
    ensures CountPlaceholders(s) == 0
  {
    if s != [] {
      NoPlaceholders(s[1..]);
    }
  }

  /** Fixed text around one placeholder. */
  lemma OnePlaceholderBetween(a: string, b: string)
    ensures CountPlaceholders(a + "?" + b) == CountPlaceholders(a) + 1 + CountPlaceholders(b)
  {
    assert CountPlaceholders("?") == 1;
    CountPlaceholdersAppend(a, "?");
    CountPlaceholdersAppend(a + "?", b);
  }

  /** Fixed text around two placeholders. */
  lemma TwoPlaceholdersBetween(a: string, b: string, c: string)
    ensures CountPlaceholders(a + "?" + b + "?" + c)
         == CountPlaceholders(a) + CountPlaceholders(b) + CountPlaceholders(c) + 2
  {
    OnePlaceholderBetween(a, b);
    OnePlaceholderBetween(a + "?" + b, c);
  }

  /** One placeholder between two texts without any. */
  lemma ExactlyOnePlaceholder(a: string, b: string)
    requires '?' !in a && '?' !in b
    ensures CountPlaceholders(a + "?" + b) == 1
  {
    NoPlaceholders(a);
    NoPlaceholders(b);
    OnePlaceholderBetween(a, b);
  }

  /** Two placeholders separating three texts without any. */
  lemma ExactlyTwoPlaceholders(a: string, b: string, c: string)
    requires '?' !in a && '?' !in b && '?' !in c
    ensures CountPlaceholders(a + "?" + b + "?" + c) == 2
  {
    NoPlaceholders(a);
    NoPlaceholders(b);
    NoPlaceholders(c);
    TwoPlaceholdersBetween(a, b, c);
  }

  /** A query is well formed when its inline text has exactly one placeholder per parameter. */
  predicate BindsEveryPlaceholder(q: Query) {
    q.sql.Inline? ==> CountPlaceholders(q.sql.text) == |q.params|
  }

  /** A paged query binds its own leading parameters, then LIMIT, then OFFSET. */
  predicate PagedBinding(params: seq<SqlParam>, head: seq<SqlParam>, limit: int, offset: int) {
    params == head + [IntParam(limit), IntParam(offset)]
  }

  /** The parameters of a Java `List<Integer>.toArray()`, in list order. */
  function IntParams(ids: seq<int>): (ps: seq<SqlParam>)
    ensures |ps| == |ids|
    ensures forall i :: 0 <= i < |ids| ==> ps[i] == IntParam(ids[i])
  {
    if ids == [] then [] else IntParams(ids[..|ids| - 1]) + [IntParam(ids[|ids| - 1])]
  }

  /** The placeholder list an `IN (...)` clause gets for n ids, as the StringBuilder loop
      produces it: before every mark but the first, a comma. */
  function Placeholders(n: nat): string {
    if n == 0 then "" else Placeholders(n - 1) + (if n > 1 then "," else "") + "?"
  }

  /** The list alternates `?` and `,`, starting and ending with `?`: n marks, n - 1
      commas, no leading or trailing comma. */
  lemma {:induction false} PlaceholdersShape(n: nat)
    ensures |Placeholders(n)| == if n == 0 then 0 else 2 * n - 1
    ensures forall i :: 0 <= i < |Placeholders(n)| ==>
              Placeholders(n)[i] == if i % 2 == 0 then '?' else ','
  {
    if n > 0 {
      PlaceholdersShape(n - 1);
      var prev := Placeholders(n - 1);
      var s := Placeholders(n);
      forall i | 0 <= i < |s|
        ensures s[i] == if i % 2 == 0 then '?' else ','
      {
        if i < |prev| {
          assert s[i] == prev[i];
        }
      }
    }
  }

  /** The list holds exactly n placeholders. */
  lemma {:induction false} PlaceholdersCount(n: nat)
    ensures CountPlaceholders(Placeholders(n)) == n
  {
    if n > 0 {
      PlaceholdersCount(n - 1);
      var sep := if n > 1 then "," else "";
      assert Placeholders(n) == Placeholders(n - 1) + sep + "?";
      NoPlaceholders(sep);
      CountPlaceholdersAppend(Placeholders(n - 1), sep);
      OnePlaceholderBetween(Placeholders(n - 1) + sep, "");
      assert Placeholders(n - 1) + sep + "?" + "" == Placeholders(n);
      NoPlaceholders("");
    }
  }

  /** The text of `... IN (` + list + `) ...` has exactly n placeholders when the
      surrounding fixed text has none. */
  lemma InClausePlaceholders(prefix: string, n: nat, suffix: string)
    requires CountPlaceholders(prefix) == 0 && CountPlaceholders(suffix) == 0
    ensures CountPlaceholders(prefix + Placeholders(n) + suffix) == n
  {
    PlaceholdersCount(n);
    CountPlaceholdersAppend(prefix, Placeholders(n));
    CountPlaceholdersAppend(prefix + Placeholders(n), suffix);
  }
}
