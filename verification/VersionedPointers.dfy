/** struct versioned_pointer of mpmc_queue.h, and when reading it one word at a time is sound. */
module VersionedPointers {

  type Addr = nat

  const NULL: Addr := 0

  datatype VersionedPointer = VersionedPointer(ptr: Addr, version: nat)

  /** One event leaves the cell alone or swings it: any pointer, the next version. */
  predicate Swing(before: VersionedPointer, after: VersionedPointer) {
    after == before || after.version == before.version + 1
  }

  /** The values of one cell over time. Pointers may come back as often as the allocator likes. */
  ghost predicate CellHistory(h: seq<VersionedPointer>) {
    forall i :: 0 <= i && i + 1 < |h| ==> Swing(h[i], h[i + 1])
  }

  /** What the machine keeps of a version in a word with modulus values. */
  function Stored(version: nat, modulus: nat): nat
    requires modulus > 0
  {
    version % modulus
  }

  /** vp_assign loads the pointer at time a and the version at time b; vp_equal loads them again at
      times c and d, and finds both words as they were. */
  ghost predicate ReadPasses(h: seq<VersionedPointer>, a: nat, b: nat, c: nat, d: nat, modulus: nat) {
    && modulus > 0 && a <= b <= c <= d < |h|
    && h[c].ptr == h[a].ptr && Stored(h[d].version, modulus) == Stored(h[b].version, modulus)
  }

  /** The pair read was the cell's value from the load of its version to the second load of it. */
  ghost predicate ReadExact(h: seq<VersionedPointer>, a: nat, b: nat, d: nat)
    requires a < |h| && b < |h| && d < |h|
  {
    forall i :: b <= i <= d ==> h[i] == VersionedPointer(h[a].ptr, h[b].version)
  }

  lemma {:induction false} VersionsGrow(h: seq<VersionedPointer>, i: nat, j: nat)
    requires CellHistory(h) && i <= j < |h|
    ensures h[i].version <= h[j].version
    ensures h[i].version == h[j].version ==> h[i] == h[j]
    decreases j - i
  {
    if i == j {
    } else {
      VersionsGrow(h, i, j - 1);
      assert Swing(h[j - 1], h[j - 1 + 1]);
    }
  }

  lemma Multiples(modulus: nat, k: int)
    requires modulus > 0
    ensures k >= 1 ==> modulus * k >= modulus
    ensures k <= -1 ==> modulus * k < 0
  {
  }

  lemma SameResidue(low: nat, high: nat, modulus: nat)
    requires modulus > 0 && low <= high < low + modulus && low % modulus == high % modulus
    ensures low == high
  {
    var k := high / modulus - low / modulus;
    assert high - low == modulus * k;
    Multiples(modulus, k);
  }

  /** Two-word read validation (mpmc_queue.h:54-64, 139-143, 185-190): a read that passes is exact if
      and only if the cell swung fewer times than a word has values between the two version loads. */
  lemma TwoWordRead(h: seq<VersionedPointer>, a: nat, b: nat, c: nat, d: nat, modulus: nat)
    requires CellHistory(h) && ReadPasses(h, a, b, c, d, modulus)
    ensures ReadExact(h, a, b, d) <==> h[d].version - h[b].version < modulus
  {
    VersionsGrow(h, b, d);
    if h[d].version - h[b].version < modulus {
      SameResidue(h[b].version, h[d].version, modulus);
      forall i | b <= i <= d ensures h[i] == VersionedPointer(h[a].ptr, h[b].version) {
        VersionsGrow(h, b, i);
        VersionsGrow(h, i, d);
        VersionsGrow(h, b, c);
        VersionsGrow(h, c, d);
      }
    }
  }

  /** The bound is met: after exactly that many swings a read can pass with a different node in between. */
  lemma WrapIsPossible(p: Addr, other: Addr, modulus: nat)
    requires modulus > 1 && p != other
    ensures exists h: seq<VersionedPointer>, d: nat ::
      CellHistory(h) && ReadPasses(h, 0, 0, d, d, modulus) && h[d].version - h[0].version == modulus
      && h[1].ptr != h[0].ptr
  {
    var h := seq(modulus + 1, (i: nat) => VersionedPointer(if i == 0 || i == modulus then p else other, i));
    assert CellHistory(h);
    assert ReadPasses(h, 0, 0, modulus, modulus, modulus);
  }
}
