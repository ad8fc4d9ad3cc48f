/**
  Volume forwarding from speaker to speaker: prepareVolume, printed with "%f" by the sender
  (player/forwarding/forwardingPlayer.go:149-177, 346-363), parsed as a 32-bit float and passed
  through normalizeVolume by the receiver (raop/airplay.go:316-339, 406-421).

  The two roundings are arbitrary nearest roundings, with any rule for ties. The 64-bit arithmetic
  in between is taken to be exact.
 */
module Volume {

  /** From [0,1] to the scale of the wire: -144 for mute, otherwise -30 to 0. */
  function PrepareVolume(vol: real): real {
    if vol == 0.0 then -144.0
    else if vol == 1.0 then 0.0
    else vol * 30.0 - 30.0
  }

  function NormalizeVolume(volume: real): real {
    if volume == -144.0 then 0.0
    else if volume == 0.0 then 1.0
    else (volume + 30.0) / 30.0
  }

  /** Without rounding the receiver sets exactly the sender's volume. */
  lemma NormalizeUndoesPrepare(vol: real)
    requires 0.0 <= vol <= 1.0
    ensures NormalizeVolume(PrepareVolume(vol)) == vol
  {
  }

  // ---------------------------------------------------------------------------
  // The two grids
  // ---------------------------------------------------------------------------

  function Abs(x: real): real {
    if x < 0.0 then -x else x
  }

  /** Six decimals: what "%f" can print. */
  ghost predicate OnMicro(x: real) {
    exists n: int :: x == Micro(n)
  }

  function Micro(n: int): real {
    n as real / 1000000.0
  }

  function Pow2(p: nat): (r: int)
    ensures r >= 1
  {
    if p == 0 then 1 else 2 * Pow2(p - 1)
  }

  const MANTISSA := 16777216   // 2^24

  /** A 24-bit mantissa over a power of two: the 32-bit floats of this size. */
  ghost predicate OnFloat32(x: real) {
    exists m: int, p: nat :: -MANTISSA < m < MANTISSA && x == Float(m, p)
  }

  function Float(m: int, p: nat): real {
    m as real / Pow2(p) as real
  }

  type Rounding = real -> real

  ghost predicate PrintsSixDecimals(show: Rounding) {
    forall x :: OnMicro(show(x)) && Abs(show(x) - x) <= 0.0000005
  }

  /** On everything that can be printed, the result is a 32-bit float and no 32-bit float is nearer. */
  ghost predicate ParsesFloat32(parse: Rounding) {
    forall x | OnMicro(x) :: OnFloat32(parse(x)) && forall y | OnFloat32(y) :: Abs(parse(x) - x) <= Abs(y - x)
  }

  lemma MicroApart(x: real, y: real)
    requires OnMicro(x) && OnMicro(y) && Abs(x - y) < 0.000001
    ensures x == y
  {
    var m: int :| x == Micro(m);
    var n: int :| y == Micro(n);
    assert Abs((m - n) as real) < 1.0;
    assert m == n;
  }

  lemma PrintsExactly(show: Rounding, x: real)
    requires PrintsSixDecimals(show) && OnMicro(x)
    ensures show(x) == x
  {
    MicroApart(show(x), x);
  }

  lemma ParsesExactly(parse: Rounding, x: real)
    requires ParsesFloat32(parse) && OnMicro(x) && OnFloat32(x)
    ensures parse(x) == x
  {
  }

  /** Whole numbers below 2^24 are on both grids. */
  lemma WholeNumber(n: int)
    requires -16777216 < n < 16777216
    ensures OnMicro(n as real) && OnFloat32(n as real)
  {
    assert n as real == Micro(n * 1000000);
    assert n as real == Float(n, 0);
  }

  lemma Pow2Twenty()
    ensures Pow2(19) == 524288 && Pow2(20) == 1048576
  {
    assert Pow2(5) == 32;
    assert Pow2(10) == 1024;
    assert Pow2(15) == 32768;
  }

  lemma {:induction false} Pow2Large(p: nat)
    requires p >= 20
    ensures Pow2(p) >= 1048576
    decreases p
  {
    Pow2Twenty();
    if p > 20 {
      Pow2Large(p - 1);
    }
  }

  lemma {:induction false} Pow2Divides(p: nat) returns (q: int)
    requires p <= 19
    ensures q * Pow2(p) == 524288
    decreases 19 - p
  {
    if p == 19 {
      Pow2Twenty();
      q := 1;
    } else {
      var half := Pow2Divides(p + 1);
      q := 2 * half;
      Doubled(half, Pow2(p));
    }
  }

  lemma Doubled(q: int, x: int)
    ensures (2 * q) * x == q * (2 * x)
  {
  }

  lemma SmallExponent(m: int, p: nat)
    requires -MANTISSA < m < MANTISSA && Abs(Float(m, p)) >= 16.0
    ensures p <= 19
  {
    if p >= 20 {
      Pow2Large(p);
      var d := Pow2(p) as real;
      QuotientBelow(m as real, d);
      assert false;
    }
  }

  lemma QuotientBelow(m: real, d: real)
    requires -16777216.0 < m < 16777216.0 && d >= 1048576.0
    ensures -16.0 < m / d < 16.0
  {
  }

  lemma ScaledFloat(m: int, p: nat, q: int)
    requires q * Pow2(p) == 524288
    ensures Float(m, p) * 524288.0 == (m * q) as real
  {
  }

  /** From 16 on, floats are multiples of 2^-19. */
  lemma CoarseFloat(x: real) returns (n: int)
    requires OnFloat32(x) && Abs(x) >= 16.0
    ensures x * 524288.0 == n as real
  {
    var m: int, p: nat :| -MANTISSA < m < MANTISSA && x == Float(m, p);
    SmallExponent(m, p);
    var q := Pow2Divides(p);
    ScaledFloat(m, p, q);
    n := m * q;
  }

  /** Below 16 every multiple of 2^-20 is a float. */
  lemma FineFloat(n: int)
    requires -16777216 < n < 16777216
    ensures OnFloat32(n as real / 1048576.0)
  {
    Pow2Twenty();
    assert n as real / 1048576.0 == Float(n, 20);
  }

  /** Below 16, parsing moves a printed number by less than half a unit of the last printed digit. */
  lemma FineParse(parse: Rounding, r: real)
    requires ParsesFloat32(parse) && OnMicro(r) && -16.0 < r <= 0.0
    ensures Abs(parse(r) - r) < 0.0000005
  {
    var n := (r * 1048576.0 + 0.5).Floor;
    var z := n as real / 1048576.0;
    assert Abs(z * 1048576.0 - r * 1048576.0) <= 0.5;
    assert Abs(z - r) <= 0.5 / 1048576.0;
    if n == -16777216 {
      assert z == -16.0;
      WholeNumber(-16);
    } else {
      FineFloat(n);
    }
    assert OnFloat32(z);
  }

  // ---------------------------------------------------------------------------
  // Hops
  // ---------------------------------------------------------------------------

  /** The volume the next speaker sets when this one's volume is `vol`. */
  function Hop(show: Rounding, parse: Rounding, vol: real): real {
    NormalizeVolume(parse(show(PrepareVolume(vol))))
  }

  function Iterate(f: real -> real, x: real, n: nat): real {
    if n == 0 then x else f(Iterate(f, x, n - 1))
  }

  /** The volume after `n` hops. */
  function Hops(show: Rounding, parse: Rounding, vol: real, n: nat): real {
    Iterate(x => Hop(show, parse, x), vol, n)
  }

  lemma {:induction false} IterateSettled(f: real -> real, x: real, n: nat)
    requires n >= 1 && f(f(x)) == f(x)
    ensures Iterate(f, x, n) == f(x)
  {
    if n == 1 {
      assert Iterate(f, x, 0) == x;
    } else {
      IterateSettled(f, x, n - 1);
    }
  }

  /** Printing and parsing stay between two whole numbers. */
  lemma StaysInRange(show: Rounding, parse: Rounding, p: real)
    requires PrintsSixDecimals(show) && ParsesFloat32(parse) && -30.0 <= p <= 0.0
    ensures -30.0 <= show(p) <= 0.0
    ensures -30.0 <= parse(show(p)) <= 0.0
  {
    WholeNumber(-30);
    WholeNumber(0);
    var r := show(p);
    if r < -30.0 {
      MicroApart(r, -30.0);
    }
    if r > 0.0 {
      MicroApart(r, 0.0);
    }
    assert Abs(parse(r) - r) <= Abs(-30.0 - r);
    assert Abs(parse(r) - r) <= Abs(0.0 - r);
  }

  /**
    A value that has been printed and parsed once comes through printing and parsing unchanged:
    from 16 on because floats are coarser than six decimals, below 16 because they are finer.
   */
  lemma ParsedIsStable(show: Rounding, parse: Rounding, r: real)
    requires PrintsSixDecimals(show) && ParsesFloat32(parse)
    requires OnMicro(r) && -30.0 <= r <= 0.0 && parse(r) <= 0.0
    ensures parse(show(parse(r))) == parse(r)
  {
    var q := parse(r);
    if q <= -16.0 {
      CoarseStable(show, parse, q);
    } else {
      WholeNumber(-16);
      assert Abs(q - r) <= Abs(-16.0 - r);
      assert r > -16.0;
      FineParse(parse, r);
      MicroApart(show(q), r);
    }
  }

  lemma CoarseStable(show: Rounding, parse: Rounding, q: real)
    requires PrintsSixDecimals(show) && ParsesFloat32(parse)
    requires OnFloat32(q) && q <= -16.0
    ensures parse(show(q)) == q
  {
    var y := parse(show(q));
    assert Abs(y - show(q)) <= Abs(q - show(q));
    assert Abs(y - q) <= 0.000001;
    var n := CoarseFloat(q);
    if y <= -16.0 {
      var m := CoarseFloat(y);
      assert Abs((m - n) as real) < 1.0;
      assert m == n;
    } else {
      assert -8388608 - n < 1;
      assert q == -16.0;
      WholeNumber(-16);
      PrintsExactly(show, q);
      assert false;
    }
  }

  lemma HopTwice(show: Rounding, parse: Rounding, vol: real)
    requires PrintsSixDecimals(show) && ParsesFloat32(parse) && 0.0 <= vol <= 1.0
    ensures 0.0 <= Hop(show, parse, vol) <= 1.0
    ensures Hop(show, parse, Hop(show, parse, vol)) == Hop(show, parse, vol)
  {
    WholeNumber(-144);
    PrintsExactly(show, -144.0);
    ParsesExactly(parse, -144.0);
    WholeNumber(0);
    PrintsExactly(show, 0.0);
    ParsesExactly(parse, 0.0);
    if vol != 0.0 && vol != 1.0 {
      var p := PrepareVolume(vol);
      StaysInRange(show, parse, p);
      var q := parse(show(p));
      ParsedIsStable(show, parse, show(p));
      assert (q + 30.0) / 30.0 * 30.0 - 30.0 == q;
    }
  }

  /** However long the chain of speakers, every speaker after the first hop gets the volume of the first. */
  lemma EveryHopAlike(show: Rounding, parse: Rounding, vol: real, n: nat)
    requires PrintsSixDecimals(show) && ParsesFloat32(parse) && 0.0 <= vol <= 1.0 && n >= 1
    ensures Hops(show, parse, vol, n) == Hop(show, parse, vol)
  {
    HopTwice(show, parse, vol);
    IterateSettled(x => Hop(show, parse, x), vol, n);
  }

  // ---------------------------------------------------------------------------
  // The two scales
  // ---------------------------------------------------------------------------

  /** Silence, half and full volume on the wire, and louder is louder in between. */
  lemma PreparedScale(v: real, w: real)
    ensures PrepareVolume(0.0) == -144.0 && PrepareVolume(0.5) == -15.0 && PrepareVolume(1.0) == 0.0
    ensures 0.0 < v < w <= 1.0 ==> -30.0 < PrepareVolume(v) < PrepareVolume(w) <= 0.0
  {
  }

  /**
    The same from the wire: -144 and -30 are silence, -15 is half, 0 is full volume, and louder is
    louder in between.
   */
  lemma NormalizedScale(v: real, w: real)
    ensures NormalizeVolume(-144.0) == 0.0 && NormalizeVolume(-30.0) == 0.0
    ensures NormalizeVolume(-15.0) == 0.5 && NormalizeVolume(0.0) == 1.0
    ensures -30.0 <= v < w <= 0.0 ==> 0.0 <= NormalizeVolume(v) < NormalizeVolume(w) <= 1.0
  {
  }
}
