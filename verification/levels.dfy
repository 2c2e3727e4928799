/** Volume levels and the output level sent to an audio element. */
module Levels {

  /** A slider position: channel and master volumes are integers 0..100. */
  type Level = v: int | 0 <= v <= 100

  /** The audio element's volume for a channel at `volume` under master
      `master`: `(volume * master) / 100`, then divided by 100 again. The
      divisions are exact; nothing is floored. */
  function OutputLevel(volume: Level, master: Level): (r: real)
    ensures 0.0 <= r <= 1.0
    ensures r * 10000.0 == (volume * master) as real
    ensures r == 0.0 <==> volume == 0 || master == 0
  {
    ProductBounds(volume, master);
    var r := ((volume * master) as real / 100.0) / 100.0;
    assert r == (volume * master) as real / 10000.0;
    r
  }

  /** The product of two levels is at most 100 times the first, and is 0
      exactly when one of them is. */
  lemma {:induction false} ProductBounds(a: Level, b: Level)
    ensures 0 <= a * b <= 100 * a
    ensures a * b == 0 <==> a == 0 || b == 0
    decreases a
  {
    if a > 0 {
      ProductBounds(a - 1, b);
      MulSucc(a - 1, b);
    }
  }

  lemma MulSucc(a: int, b: int)
    ensures (a + 1) * b == a * b + b
  {
  }

  /** At full master volume the output is the channel volume as a fraction. */
  lemma FullMasterIsIdentity(volume: Level)
    ensures OutputLevel(volume, 100) == volume as real / 100.0
  {
  }

  /** A louder channel or a louder master never gives a quieter output. */
  lemma OutputMonotonic(v1: Level, v2: Level, m1: Level, m2: Level)
    requires v1 <= v2 && m1 <= m2
    ensures OutputLevel(v1, m1) <= OutputLevel(v2, m2)
  {
    MulMonotone(v1, v2, m1);
    MulMonotone(m1, m2, v2);
    assert v1 * m1 <= v2 * m1 <= v2 * m2;
  }

  lemma {:induction false} MulMonotone(a: nat, b: nat, c: nat)
    requires a <= b
    ensures a * c <= b * c
    decreases b - a
  {
    if a < b {
      MulMonotone(a, b - 1, c);
      MulSucc(b - 1, c);
    }
  }
}
