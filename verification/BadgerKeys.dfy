/** The ordered event keys of the Badger store (badger.go): what a byte-wise ordered
    database does with them. */
module BadgerKeys {
  import opened Bytes

  const MAX_UINT64: nat := 0xFFFF_FFFF_FFFF_FFFF

  type uint64 = x: int | 0 <= x <= MAX_UINT64

  const COLON: byte := 0x3A

  const EVT: seq<byte> := [0x65, 0x76, 0x74, COLON]  // "evt:"
  const REV: seq<byte> := [0x72, 0x65, 0x76, COLON]  // "rev:"

  /** bytes.Compare(a, b) < 0. */
  predicate Less(a: seq<byte>, b: seq<byte>) {
    if b == [] then false
    else if a == [] then true
    else a[0] < b[0] || (a[0] == b[0] && Less(a[1..], b[1..]))
  }

  function EncodeBlock(block: uint64): seq<byte> {
    BigEndian(block, 8)
  }

  function InvertBlock(block: uint64): uint64 {
    MAX_UINT64 - block
  }

  function EvtKey(table: seq<byte>, block: uint64, log: uint64): seq<byte> {
    EVT + table + [COLON] + EncodeBlock(block) + [COLON] + EncodeBlock(log)
  }

  function RevKey(table: seq<byte>, block: uint64, log: uint64): seq<byte> {
    REV + table + [COLON] + EncodeBlock(InvertBlock(block)) + [COLON] + EncodeBlock(log)
  }

  // ---- Order ---------------------------------------------------------------------

  lemma {:induction false} LessConcat(a: seq<byte>, b: seq<byte>, c: seq<byte>, d: seq<byte>)
    requires |a| == |b|
    ensures Less(a + c, b + d) <==> Less(a, b) || (a == b && Less(c, d))
  {
    if a == [] {
      assert a + c == c && b + d == d;
    } else {
      LessConcat(a[1..], b[1..], c, d);
      assert (a + c)[1..] == a[1..] + c && (b + d)[1..] == b[1..] + d;
    }
  }

  lemma {:induction false} LessIrreflexive(a: seq<byte>)
    ensures !Less(a, a)
  {
    if a != [] {
      LessIrreflexive(a[1..]);
    }
  }

  lemma {:induction false} BigEndianOrder(m: nat, n: nat, k: nat)
    requires m < Power(k) && n < Power(k)
    ensures Less(BigEndian(m, k), BigEndian(n, k)) <==> m < n
    ensures BigEndian(m, k) == BigEndian(n, k) <==> m == n
  {
    if k > 0 {
      BigEndianOrder(m / 256, n / 256, k - 1);
      LessConcat(BigEndian(m / 256, k - 1), BigEndian(n / 256, k - 1), [m % 256], [n % 256]);
      assert BigEndian(m, k)[..k - 1] == BigEndian(m / 256, k - 1) &&
             BigEndian(n, k)[..k - 1] == BigEndian(n / 256, k - 1);
      assert BigEndian(m, k)[k - 1] == m % 256 && BigEndian(n, k)[k - 1] == n % 256;
    }
  }

  lemma Uint64Fits(n: uint64)
    ensures n < Power(8)
  {
    assert Power(4) == 0x1_0000_0000;
    assert Power(8) == 256 * (256 * (256 * (256 * Power(4))));
  }

  lemma SuffixOrder(p: seq<byte>, b1: uint64, l1: uint64, b2: uint64, l2: uint64)
    ensures Less(p + EncodeBlock(b1) + [COLON] + EncodeBlock(l1), p + EncodeBlock(b2) + [COLON] + EncodeBlock(l2)) <==>
            b1 < b2 || (b1 == b2 && l1 < l2)
  {
    Uint64Fits(b1);
    Uint64Fits(b2);
    Uint64Fits(l1);
    Uint64Fits(l2);
    BigEndianOrder(b1, b2, 8);
    BigEndianOrder(l1, l2, 8);
    var e1, e2, f1, f2 := EncodeBlock(b1), EncodeBlock(b2), EncodeBlock(l1), EncodeBlock(l2);
    LessConcat(p + e1 + [COLON], p + e2 + [COLON], f1, f2);
    LessConcat(p + e1, p + e2, [COLON], [COLON]);
    LessConcat(p, p, e1, e2);
    LessIrreflexive(p);
    assert (p + e1 + [COLON])[|p|..|p| + 8] == e1 && (p + e2 + [COLON])[|p|..|p| + 8] == e2;
  }

  /** In one table, the primary keys are in (block, log index) order. */
  lemma EvtKeyOrder(table: seq<byte>, b1: uint64, l1: uint64, b2: uint64, l2: uint64)
    ensures Less(EvtKey(table, b1, l1), EvtKey(table, b2, l2)) <==> b1 < b2 || (b1 == b2 && l1 < l2)
  {
    SuffixOrder(EVT + table + [COLON], b1, l1, b2, l2);
  }

  /** The reverse keys put later blocks first, but keep log indices ascending. */
  lemma RevKeyOrder(table: seq<byte>, b1: uint64, l1: uint64, b2: uint64, l2: uint64)
    ensures Less(RevKey(table, b1, l1), RevKey(table, b2, l2)) <==> b1 > b2 || (b1 == b2 && l1 < l2)
  {
    SuffixOrder(REV + table + [COLON], InvertBlock(b1), l1, InvertBlock(b2), l2);
  }

  // ---- Prefix scans -----------------------------------------------------------------

  /** A scan of one table sees no other table's keys, if names have no separator. */
  lemma ScanSeesOneTable(table: seq<byte>, other: seq<byte>, block: uint64, log: uint64)
    requires COLON !in table && COLON !in other
    ensures EVT + table + [COLON] <= EvtKey(other, block, log) <==> table == other
    ensures REV + table + [COLON] <= RevKey(other, block, log) <==> table == other
  {
    NamesEnd(EVT, table, other, EncodeBlock(block) + [COLON] + EncodeBlock(log));
    NamesEnd(REV, table, other, EncodeBlock(InvertBlock(block)) + [COLON] + EncodeBlock(log));
    assert EvtKey(other, block, log) == EVT + other + [COLON] + (EncodeBlock(block) + [COLON] + EncodeBlock(log));
    assert RevKey(other, block, log) == REV + other + [COLON] +
           (EncodeBlock(InvertBlock(block)) + [COLON] + EncodeBlock(log));
  }

  lemma NamesEnd(p: seq<byte>, table: seq<byte>, other: seq<byte>, rest: seq<byte>)
    requires COLON !in table && COLON !in other
    ensures p + table + [COLON] <= p + other + [COLON] + rest <==> table == other
  {
    var scan, key := p + table + [COLON], p + other + [COLON] + rest;
    assert scan[|p| + |table|] == key[|p| + |other|] == COLON;
    assert forall i | 0 <= i < |table| :: scan[|p| + i] == table[i] && table[i] in table;
    assert forall i | 0 <= i < |other| :: key[|p| + i] == other[i] && other[i] in other;
    if scan <= key {
      assert forall i | 0 <= i < |scan| :: scan[i] == key[i];
    }
  }

  // ---- Reading a key back ----------------------------------------------------------

  class IndexedEvent {
    var block: uint64
    var log: uint64

    constructor ()
      ensures block == 0 && log == 0
    {
      block, log := 0, 0;
    }

    /** parseEventKey, up to the fields copied from the event's own data. */
    method ParseKey(key: seq<byte>, reverse: bool)
      requires |key| >= |EVT|
      modifies this
      ensures |key| - |EVT| < 18 ==> block == old(block) && log == old(log)
      ensures forall table, b, l | key == EvtKey(table, b, l) && !reverse :: block == b && log == l
      ensures forall table, b, l | key == RevKey(table, b, l) && reverse :: block == b && log == l
    {
      var prefixLen := if reverse then |REV| else |EVT|;
      var rest := key[prefixLen..];
      if |rest| < 18 {
        return;
      }
      var n := |rest|;
      var logBytes, blockBytes := rest[n - 8..], rest[n - 17..n - 9];
      FitsUint64(blockBytes);
      FitsUint64(logBytes);
      block := FromBigEndian(blockBytes);
      if reverse {
        block := InvertBlock(block);
      }
      log := FromBigEndian(logBytes);
      forall table, b, l | key == EvtKey(table, b, l) && !reverse ensures block == b && log == l {
        SuffixParses(EVT + table + [COLON], b, l, rest, EVT);
      }
      forall table, b, l | key == RevKey(table, b, l) && reverse ensures block == b && log == l {
        SuffixParses(REV + table + [COLON], InvertBlock(b), l, rest, REV);
      }
    }
  }

  lemma SuffixParses(p: seq<byte>, b: uint64, l: uint64, rest: seq<byte>, prefix: seq<byte>)
    requires |p| > |prefix| && prefix + rest == p + EncodeBlock(b) + [COLON] + EncodeBlock(l)
    ensures |rest| >= 18
    ensures FromBigEndian(rest[|rest| - 17..|rest| - 9]) == b && FromBigEndian(rest[|rest| - 8..]) == l
  {
    var whole := prefix + rest;
    var n := |whole|;
    assert whole[n - 8..] == EncodeBlock(l) && whole[n - 17..n - 9] == EncodeBlock(b);
    assert rest[|rest| - 8..] == whole[n - 8..] && rest[|rest| - 17..|rest| - 9] == whole[n - 17..n - 9];
    Uint64Fits(b);
    Uint64Fits(l);
    BigEndianDecodes(b, 8);
    BigEndianDecodes(l, 8);
  }

  lemma FitsUint64(s: seq<byte>)
    requires |s| == 8
    ensures FromBigEndian(s) <= MAX_UINT64
  {
    Bounded(s);
    assert Power(4) == 0x1_0000_0000;
    assert Power(8) == 256 * (256 * (256 * (256 * Power(4))));
  }
}
