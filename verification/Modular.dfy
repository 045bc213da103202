/** Indices that go round a ring of fixed size. */
module Modular {
  lemma Multiple(d: int, size: nat)
    requires 1 <= size
    ensures 1 <= d ==> size <= d * size
    ensures d <= -1 ==> d * size + size <= 0
  {
    if 1 <= d {
      assert 0 <= (d - 1) * size;
    } else if d <= -1 {
      assert (d + 1) * size <= 0;
    }
  }

  lemma ModIs(k: nat, q: nat, r: nat, size: nat)
    requires r < size && k == q * size + r
    ensures k % size == r
  {
    var d := k / size - q;
    assert k == (k / size) * size + k % size;
    assert d * size == (k / size) * size - q * size;
    Multiple(d, size);
  }

  lemma Succ(k: nat, size: nat)
    requires 1 <= size
    ensures (k % size + 1) % size == (k + 1) % size
  {
    var q, x := k / size, k % size;
    assert k == q * size + x;
    if x + 1 == size {
      assert (q + 1) * size == q * size + size;
      ModIs(k + 1, q + 1, 0, size);
      ModIs(size, 1, 0, size);
    } else {
      ModIs(k + 1, q, x + 1, size);
      ModIs(x + 1, 0, x + 1, size);
    }
  }

  /** Indices less than a full round apart fall on different slots. */
  lemma Apart(a: nat, b: nat, size: nat)
    requires a < b < a + size
    ensures a % size != b % size
  {
    var d := b / size - a / size;
    assert a == (a / size) * size + a % size && b == (b / size) * size + b % size;
    assert d * size == (b / size) * size - (a / size) * size;
    Multiple(d, size);
  }

  lemma Round(k: nat, size: nat)
    requires 1 <= size
    ensures (k + size) % size == k % size
  {
    assert (k / size + 1) * size == (k / size) * size + size;
    ModIs(k + size, k / size + 1, k % size, size);
  }
}
