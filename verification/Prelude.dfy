/** Shared vocabulary: optional values, identifiers, instants, token digests,
    64-bit integers, and sums over the rows of a table. */
module Prelude {

  datatype Option<+T> = None | Some(value: T)

  /** Row ids (UUIDs) and raw tokens (random strings) are opaque; both are drawn
      from a counter so that a freshly minted one differs from all earlier ones. */
  type Id = nat
  type Token = nat

  /** An instant, in nanoseconds. */
  type Time = int

  /** What a token column holds. Hashing is injective, and neither the empty
      column nor a sentinel is ever equal to a hashed token. */
  datatype Digest =
    | NoDigest
    | Sha(raw: Token)
    | PendingSentinel(reservation: Id)
    | AccountSentinel(reservation: Id)

  const MIN_INT64: int := -0x8000_0000_0000_0000
  const MAX_INT64: int := 0x7fff_ffff_ffff_ffff

  predicate FitsInt64(x: int) {
    MIN_INT64 <= x <= MAX_INT64
  }

  /** Two's complement wrap-around of a 64-bit addition. */
  function Wrap64(x: int): (r: int)
    ensures FitsInt64(r)
    ensures FitsInt64(x) ==> r == x
  {
    (x + 0x8000_0000_0000_0000) % 0x1_0000_0000_0000_0000 - 0x8000_0000_0000_0000
  }

  /** Wrapping after every addition of a running sum is wrapping once at the end. */
  lemma WrapSum(a: int, b: int)
    ensures Wrap64(Wrap64(a) + b) == Wrap64(a + b)
  {
    var m := 0x1_0000_0000_0000_0000;
    var h := 0x8000_0000_0000_0000;
    var q := (a + h) / m;
    assert Wrap64(a) == a - q * m;
    ModShift(a + b + h, -q);
  }

  lemma ModShift(x: int, q: int)
    ensures (x + q * 0x1_0000_0000_0000_0000) % 0x1_0000_0000_0000_0000 == x % 0x1_0000_0000_0000_0000
  {
    var m := 0x1_0000_0000_0000_0000;
    var d := x / m;
    var y := x + q * m;
    assert y == (d + q) * m + x % m;
  }

  /** The sum of a column over the rows of a table. */
  ghost function Total(column: map<Id, int>): int {
    if column == map[] then 0
    else
      var k :| k in column;
      column[k] + Total(column - {k})
  }

  /** Rows can be summed in any order. */
  lemma {:induction false} TotalRemove(column: map<Id, int>, k: Id)
    requires k in column
    ensures Total(column) == column[k] + Total(column - {k})
    decreases |column|
  {
    var j :| j in column && Total(column) == column[j] + Total(column - {j});
    if j != k {
      TotalRemove(column - {j}, k);
      TotalRemove(column - {k}, j);
      assert column - {j} - {k} == column - {k} - {j};
    }
  }

  lemma TotalInsert(column: map<Id, int>, k: Id, v: int)
    requires k !in column
    ensures Total(column[k := v]) == Total(column) + v
  {
    TotalRemove(column[k := v], k);
    assert column[k := v] - {k} == column;
  }

  /** Part of a table of positive amounts sums to no more than the whole table,
      and to as much only when it is the whole table. */
  lemma {:induction false} TotalOfPart(part: map<Id, int>, whole: map<Id, int>)
    requires forall k :: k in part ==> k in whole && whole[k] == part[k]
    requires forall k :: k in whole ==> whole[k] > 0
    ensures 0 <= Total(part) <= Total(whole)
    ensures Total(part) == Total(whole) ==> part == whole
    decreases |whole|
  {
    if whole == map[] {
      assert part == map[];
    } else {
      var k :| k in whole;
      TotalRemove(whole, k);
      if k in part {
        TotalRemove(part, k);
        TotalOfPart(part - {k}, whole - {k});
        if part - {k} == whole - {k} {
          SameBut(part, whole, k);
        }
      } else {
        assert part == part - {k};
        TotalOfPart(part, whole - {k});
      }
    }
  }

  lemma SameBut(a: map<Id, int>, b: map<Id, int>, k: Id)
    requires a - {k} == b - {k} && k in a && k in b && a[k] == b[k]
    ensures a == b
  {
    assert forall j :: j in a <==> j == k || j in a - {k};
    assert forall j :: j in b <==> j == k || j in b - {k};
    assert forall j :: j in a && j != k ==> a[j] == (a - {k})[j];
    assert forall j :: j in b && j != k ==> b[j] == (b - {k})[j];
  }
}
