/** File ids as 64-bit numbers and as 8-byte store keys.

    The store orders keys bytewise; the conversions are big-endian, so its first key is the
    smallest file id. */
module Keys {
  import opened Bytes

  const KEY_SIZE := 8

  type Key = k: Bytes | |k| == KEY_SIZE witness seq(KEY_SIZE, _ => 0)

  const TWO_TO_THE_64 := 0x1_0000_0000_0000_0000

  type u64 = n: nat | n < TWO_TO_THE_64

  function Pow256(len: nat): nat {
    if len == 0 then 1 else 256 * Pow256(len - 1)
  }

  function BigEndian(n: nat, len: nat): (b: Bytes)
    ensures |b| == len
  {
    if len == 0 then [] else BigEndian(n / 256, len - 1) + [(n % 256) as byte]
  }

  function FromBigEndian(b: Bytes): nat {
    if b == [] then 0 else FromBigEndian(b[..|b| - 1]) * 256 + b[|b| - 1] as nat
  }

  lemma {:induction false} FromToBigEndian(n: nat, len: nat)
    requires n < Pow256(len)
    ensures FromBigEndian(BigEndian(n, len)) == n
  {
    if len > 0 {
      FromToBigEndian(n / 256, len - 1);
      var b := BigEndian(n, len);
      assert b[..|b| - 1] == BigEndian(n / 256, len - 1);
    }
  }

  lemma {:induction false} ToFromBigEndian(b: Bytes)
    ensures FromBigEndian(b) < Pow256(|b|)
    ensures BigEndian(FromBigEndian(b), |b|) == b
  {
    if b != [] {
      ToFromBigEndian(b[..|b| - 1]);
      assert b == b[..|b| - 1] + [b[|b| - 1]];
    }
  }

  lemma PowKeySize()
    ensures Pow256(KEY_SIZE) == TWO_TO_THE_64
  {
    assert Pow256(3) == 256 * Pow256(2) && Pow256(2) == 256 * Pow256(1) && Pow256(1) == 256;
    assert Pow256(6) == 256 * Pow256(5) && Pow256(5) == 256 * Pow256(4) && Pow256(4) == 256 * Pow256(3);
    assert Pow256(8) == 256 * Pow256(7) && Pow256(7) == 256 * Pow256(6);
  }

  function KeyOf(id: u64): Key {
    BigEndian(id, KEY_SIZE)
  }

  function IdOf(key: Key): u64 {
    ToFromBigEndian(key);
    PowKeySize();
    FromBigEndian(key)
  }

  /** The two conversions undo each other. */
  lemma RoundTrip(id: u64, key: Key)
    ensures IdOf(KeyOf(id)) == id
    ensures KeyOf(IdOf(key)) == key
  {
    PowKeySize();
    FromToBigEndian(id, KEY_SIZE);
    ToFromBigEndian(key);
  }

  /** The bytewise order of the store. */
  predicate Before(a: Bytes, b: Bytes) {
    b != [] && (a == [] || a[0] < b[0] || (a[0] == b[0] && Before(a[1..], b[1..])))
  }

  lemma {:induction false} BeforeSnoc(a: Bytes, x: byte, b: Bytes, y: byte)
    requires |a| == |b|
    ensures Before(a + [x], b + [y]) <==> Before(a, b) || (a == b && x < y)
  {
    if a == [] {
      assert a + [x] == [x] && b + [y] == [y];
    } else {
      BeforeSnoc(a[1..], x, b[1..], y);
      assert (a + [x])[1..] == a[1..] + [x] && (b + [y])[1..] == b[1..] + [y];
      assert a == [a[0]] + a[1..] && b == [b[0]] + b[1..];
    }
  }

  /** Between keys of one length the bytewise order is the order of the numbers. */
  lemma {:induction false} BeforeIsLess(a: Bytes, b: Bytes)
    requires |a| == |b|
    ensures Before(a, b) <==> FromBigEndian(a) < FromBigEndian(b)
    ensures FromBigEndian(a) == FromBigEndian(b) ==> a == b
  {
    if a != [] {
      var a', x, b', y := a[..|a| - 1], a[|a| - 1], b[..|b| - 1], b[|b| - 1];
      BeforeIsLess(a', b');
      BeforeSnoc(a', x, b', y);
      assert a == a' + [x] && b == b' + [y];
    }
  }

  /** `k` is the key an iteration from the start of the store meets first. */
  predicate First(k: Key, keys: set<Key>) {
    k in keys && forall j :: j in keys && j != k ==> Before(k, j)
  }

  /** The first key of the store is the one with the least file id. */
  lemma FirstIsLeastId(k: Key, keys: set<Key>)
    requires k in keys
    ensures First(k, keys) <==> forall j :: j in keys ==> IdOf(k) <= IdOf(j)
  {
    forall j: Key | j in keys
      ensures (j == k || Before(k, j)) <==> IdOf(k) <= IdOf(j)
    {
      BeforeIsLess(k, j);
    }
  }

  /** Some key of a non-empty set comes first. */
  lemma {:induction false} FirstKey(keys: set<Key>) returns (first: Key)
    requires keys != {}
    ensures First(first, keys)
    decreases |keys|
  {
    var some :| some in keys;
    var rest := keys - {some};
    first := some;
    if rest != {} {
      var other := FirstKey(rest);
      BeforeIsLess(some, other);
      BeforeIsLess(other, some);
      first := if Before(other, some) then other else some;
      forall k: Key | k in keys && k != first
        ensures Before(first, k)
      {
        BeforeIsLess(some, k);
        BeforeIsLess(other, k);
        assert k == some || k in rest;
      }
    }
    assert forall k :: k in keys && k != some ==> k in rest;
  }
}
