/** The seeded roll generator: a 32-bit state folded from the seed string,
    advanced by Marsaglia's xorshift32 step. */
module Rng {
  import opened EngineTypes

  const TwoTo32: int := 0x1_0000_0000
  /** The divisor of `float()`: the largest 32-bit value. */
  const MaxState: int := 0xffff_ffff
  const FoldStart: int := 0x9e37_79b9

  /** `charCodeAt(0)`: the character's first UTF-16 code unit (its high
      surrogate when it lies outside the basic plane). */
  function FirstCodeUnit(ch: char): (u: nat)
    ensures u < 0x1_0000
    ensures ch as int < 0x1_0000 ==> u == ch as int
  {
    if ch as int < 0x1_0000 then ch as int else 0xD800 + (ch as int - 0x1_0000) / 0x400
  }

  /** The codes `[...s.slice(0, budget)]` hands to the fold: one per code
      point within the first `budget` UTF-16 units; a pair the slice cuts in
      two leaves its high surrogate, which has the same code. */
  function SeedCodes(s: string, budget: nat): (codes: seq<nat>)
    ensures |codes| <= budget && |codes| <= |s|
    decreases |s|
  {
    if s == [] || budget == 0 then []
    else
      var rest := if budget >= Utf16Length(s[0]) then budget - Utf16Length(s[0]) else 0;
      [FirstCodeUnit(s[0])] + SeedCodes(s[1..], rest)
  }

  /** The `reduce`: `acc * 33 + code`, cut to 32 bits by `>>> 0`. */
  function Fold(acc: int, codes: seq<nat>): (r: int)
    requires 0 <= acc < TwoTo32
    ensures 0 <= r < TwoTo32
    decreases |codes|
  {
    if codes == [] then acc else Fold((acc * 33 + codes[0]) % TwoTo32, codes[1..])
  }

  /** `>>> 0` on a value already in [0, 2^32): the same number as an
      unsigned 32-bit word. */
  function Word(n: int): bv32
    requires 0 <= n < TwoTo32
  {
    n as bv32
  }

  /** The state `makeRng(seedHex)` starts from. */
  function SeedState(seedHex: string): (r: bv32)
    ensures |seedHex| >= 8 ==> r == Word(Fold(FoldStart, SeedCodes(seedHex[..8], 8)))
  {
    if |seedHex| >= 8 then
      SeedCodesPrefix(seedHex, 8, 8);
      Word(Fold(FoldStart, SeedCodes(seedHex, 8)))
    else Word(Fold(FoldStart, SeedCodes(seedHex, 8)))
  }

  /** The three steps of xorshift32; each keeps the state an unsigned
      32-bit value, as the source's `>>>= 0` does. */
  function ShiftLeft13(s: bv32): bv32 { s ^ (s << 13) }
  function ShiftRight17(s: bv32): bv32 { s ^ (s >> 17) }
  function ShiftLeft5(s: bv32): bv32 { s ^ (s << 5) }

  /** One xorshift32 step: shifts 13 left, 17 right, 5 left. */
  function Xorshift(s: bv32): (r: bv32)
    ensures Unxorshift(r) == s
  {
    var a := ShiftLeft13(s);
    var b := ShiftRight17(a);
    Left13Undone(s);
    Right17SelfInverse(a);
    Left5Undone(b);
    ShiftLeft5(b)
  }

  function UnshiftLeft13(s: bv32): bv32 { s ^ (s << 13) ^ (s << 26) }
  function UnshiftLeft5(s: bv32): bv32 {
    s ^ (s << 5) ^ (s << 10) ^ (s << 15) ^ (s << 20) ^ (s << 25) ^ (s << 30)
  }

  /** The inverse of `Xorshift`, undoing the three steps in reverse order
      (the right shift by 17 undoes itself). */
  function Unxorshift(s: bv32): bv32 {
    UnshiftLeft13(ShiftRight17(UnshiftLeft5(s)))
  }

  /** `Math.floor(state / 0xffffffff * n)`, with the quotient taken exactly. */
  function ScaledFloor(s: int, n: int): int {
    (s * n) / MaxState
  }

  /** The generator `makeRng` returns; `state` is its closure variable. */
  class Generator {
    var state: bv32

    constructor (seedHex: string)
      ensures state == SeedState(seedHex)
    {
      var acc := FoldStart;
      var codes := SeedCodes(seedHex, 8);
      for i := 0 to |codes|
        invariant 0 <= acc < TwoTo32
        invariant Fold(acc, codes[i..]) == Fold(FoldStart, codes)
      {
        assert codes[i..][1..] == codes[i + 1..];
        acc := (acc * 33 + codes[i]) % TwoTo32;
      }
      assert codes[|codes|..] == [];
      state := Word(acc);
    }

    /** `next()`. */
    method Next() returns (r: bv32)
      modifies this
      ensures state == Xorshift(old(state)) && r == state
    {
      state := ShiftLeft13(state);
      state := ShiftRight17(state);
      state := ShiftLeft5(state);
      r := state;
    }

    /** `float()`: the next state over 0xffffffff. */
    method Float() returns (f: real)
      modifies this
      ensures state == Xorshift(old(state))
      ensures f == state as int as real / MaxState as real
      ensures 0.0 <= f <= 1.0
      ensures f < 1.0 <==> state as int < MaxState
    {
      var s := Next();
      f := s as int as real / MaxState as real;
    }

    /** `intBetween(min, max)`. */
    method IntBetween(min: int, max: int) returns (r: int)
      modifies this
      ensures state == Xorshift(old(state))
      ensures r == ScaledFloor(state as int, max - min + 1) + min
    {
      var f := Float();
      var n := max - min + 1;
      var scaled := f * n as real;
      ghost var s := state as int;
      FloorOfScaled(f, s, n);
      assert scaled.Floor == ScaledFloor(s, n);
      r := scaled.Floor + min;
    }
  }

  lemma FloorOfQuotient(x: int, d: int)
    requires d > 0
    ensures (x as real / d as real).Floor == x / d
  {
    var q := x / d;
    var r := x % d;
    assert x == q * d + r;
    assert x as real == q as real * d as real + r as real;
    assert x as real / d as real == q as real + r as real / d as real;
    assert 0.0 <= r as real / d as real < 1.0;
  }

  /** The real floor the source takes is the integer quotient. */
  lemma FloorOfScaled(f: real, s: int, n: int)
    requires f == s as real / MaxState as real
    ensures (f * n as real).Floor == ScaledFloor(s, n)
  {
    assert f * n as real == (s * n) as real / MaxState as real;
    FloorOfQuotient(s * n, MaxState);
  }

  /** `rollFaces(seedHex, faces)`: the face at the first output's index, or
      nothing (`undefined`) when the index falls outside the list. */
  function Roll(seedHex: string, faces: seq<int>): Option<int> {
    Pick(Xorshift(SeedState(seedHex)) as int, faces)
  }

  /** `faces[Math.floor(s / 0xffffffff * faces.length)]`. */
  function Pick(s: int, faces: seq<int>): Option<int> {
    var idx := ScaledFloor(s, |faces|);
    if 0 <= idx < |faces| then Some(faces[idx]) else None
  }

  /** `rollFaces` with the generator. */
  method RollFaces(seedHex: string, faces: seq<int>) returns (r: Option<int>)
    ensures r == Roll(seedHex, faces)
  {
    var rng := new Generator(seedHex);
    ghost var first := Xorshift(rng.state);
    assert first == Xorshift(SeedState(seedHex));
    var f := rng.Float();
    assert rng.state == first;
    var n := |faces|;
    var scaled := f * n as real;
    ghost var s := rng.state as int;
    FloorOfScaled(f, s, n);
    assert scaled.Floor == ScaledFloor(s, n);
    var idx := scaled.Floor;
    r := if 0 <= idx < |faces| then Some(faces[idx]) else None;
    assert r == Pick(s, faces);
    assert Roll(seedHex, faces) == Pick(first as int, faces);
  }

  // ---------------------------------------------------------------------------
  // Properties

  /** The seed codes read no further than the first `budget` characters. */
  lemma {:induction false} SeedCodesPrefix(s: string, n: nat, budget: nat)
    requires budget <= n <= |s|
    ensures SeedCodes(s, budget) == SeedCodes(s[..n], budget)
    decreases |s|
  {
    if s != [] && budget != 0 {
      var rest := if budget >= Utf16Length(s[0]) then budget - Utf16Length(s[0]) else 0;
      assert s[..n][1..] == s[1..][..n - 1];
      SeedCodesPrefix(s[1..], n - 1, rest);
    }
  }

  /** The initial state depends only on the first 8 characters of the seed. */
  lemma SeedStateFirstEight(s: string, t: string)
    requires |s| >= 8 && |t| >= 8 && s[..8] == t[..8]
    ensures SeedState(s) == SeedState(t)
  {
    SeedCodesPrefix(s, 8, 8);
    SeedCodesPrefix(t, 8, 8);
  }

  /** For a seed of basic-plane characters (a hex string is one) the fold
      reads the codes of its first 8 characters. */
  lemma {:induction false} SeedCodesBasicPlane(s: string, budget: nat)
    requires forall i | 0 <= i < |s| :: s[i] as int < 0x1_0000
    ensures var n := if |s| < budget then |s| else budget;
            SeedCodes(s, budget) == seq(n, i requires 0 <= i < n => s[i] as int as nat)
    decreases |s|
  {
    if s != [] && budget != 0 {
      SeedCodesBasicPlane(s[1..], budget - 1);
    }
  }

  lemma Left13Undone(s: bv32)
    ensures UnshiftLeft13(ShiftLeft13(s)) == s
  {
    var y := s ^ (s << 13);
    assert ShiftLeft13(s) == y;
    assert UnshiftLeft13(y) == s;
  }

  lemma Left13Redone(s: bv32)
    ensures ShiftLeft13(UnshiftLeft13(s)) == s
  {
    var z := s ^ (s << 13) ^ (s << 26);
    assert UnshiftLeft13(s) == z;
    assert ShiftLeft13(z) == s;
  }

  lemma Right17SelfInverse(s: bv32)
    ensures ShiftRight17(ShiftRight17(s)) == s
  {
    var y := s ^ (s >> 17);
    assert ShiftRight17(s) == y;
    assert ShiftRight17(y) == s;
  }

  lemma Left5Undone(s: bv32)
    ensures UnshiftLeft5(ShiftLeft5(s)) == s
  {
    var y := s ^ (s << 5);
    assert ShiftLeft5(s) == y;
    assert UnshiftLeft5(y) == s;
  }

  lemma Left5Redone(s: bv32)
    ensures ShiftLeft5(UnshiftLeft5(s)) == s
  {
    var z := s ^ (s << 5) ^ (s << 10) ^ (s << 15) ^ (s << 20) ^ (s << 25) ^ (s << 30);
    assert UnshiftLeft5(s) == z;
    assert ShiftLeft5(z) == s;
  }

  /** The step is a bijection on 32-bit states: `Unxorshift` undoes it. */
  lemma XorshiftInverse(s: bv32)
    ensures Unxorshift(Xorshift(s)) == s
    ensures Xorshift(Unxorshift(s)) == s
  {
    var a := ShiftLeft13(s);
    var b := ShiftRight17(a);
    Left13Undone(s);
    Right17SelfInverse(a);
    Left5Undone(b);
    var c := UnshiftLeft5(s);
    var d := ShiftRight17(c);
    Left5Redone(s);
    Right17SelfInverse(c);
    Left13Redone(d);
  }

  /** A zero state stays zero and a non-zero state never reaches zero. */
  lemma XorshiftZero(s: bv32)
    ensures Xorshift(s) == 0 <==> s == 0
  {
    XorshiftInverse(s);
    assert ShiftLeft13(0) == 0;
    assert ShiftRight17(0) == 0;
    assert ShiftLeft5(0) == 0;
  }

  /** The scaled index lies in [0, n) for a state below 0xffffffff, and is
      n for the state 0xffffffff. */
  lemma ScaledBounds(s: int, n: nat)
    requires 0 <= s <= MaxState
    ensures 0 <= ScaledFloor(s, n) <= n
    ensures ScaledFloor(s, n) == n <==> (s == MaxState || n == 0)
  {
    var p := s * n;
    MulBelow(s, MaxState, n);
    assert 0 <= p <= MaxState * n;
    var q := p / MaxState;
    assert q * MaxState <= p < q * MaxState + MaxState;
    if s < MaxState && n > 0 {
      MulBelow(s, MaxState - 1, n);
      assert p <= MaxState * n - n;
    }
  }

  lemma MulBelow(s: int, m: int, n: nat)
    requires 0 <= s <= m
    ensures 0 <= s * n <= m * n
  {
  }

  /** `intBetween` is at least `min` and, when `float()` is below 1, at most `max`. */
  lemma IntBetweenBounds(s: int, min: int, max: int)
    requires 0 <= s <= MaxState && min <= max
    ensures min <= ScaledFloor(s, max - min + 1) + min
    ensures s < MaxState ==> ScaledFloor(s, max - min + 1) + min <= max
  {
    var n := max - min + 1;
    ScaledBounds(s, n);
    var q := ScaledFloor(s, n);
  }

  /** The roll is a face exactly when the list is non-empty and the first
      output is below 0xffffffff; it is then an element of the list, and two
      seeds with the same first 8 characters give the same roll. */
  lemma PickIsFace(s: int, faces: seq<int>)
    requires 0 <= s <= MaxState
    ensures Pick(s, faces).Some? <==> faces != [] && s < MaxState
    ensures Pick(s, faces).Some? ==> Pick(s, faces).value in faces
  {
    ScaledBounds(s, |faces|);
  }

  lemma RollIsFace(seedHex: string, faces: seq<int>)
    ensures Roll(seedHex, faces).Some? <==> faces != [] && (Xorshift(SeedState(seedHex)) as int) < MaxState
    ensures Roll(seedHex, faces).Some? ==> Roll(seedHex, faces).value in faces
  {
    PickIsFace(Xorshift(SeedState(seedHex)) as int, faces);
  }

  lemma RollDeterministic(s: string, t: string, faces: seq<int>)
    requires |s| >= 8 && |t| >= 8 && s[..8] == t[..8]
    ensures Roll(s, faces) == Roll(t, faces)
  {
    SeedStateFirstEight(s, t);
  }

  // ---------------------------------------------------------------------------
  // The top state

  /** A hex seed whose first 8 characters are "7ceeca24" (a 16-character
      `randomHex(8)` such as "7ceeca2400000000" is one) starts the generator
      at 0x5e6cfce7, whose successor is 0xffffffff: the first `float()` is
      exactly 1, so `rollFaces` reads one past the end of the faces and
      `intBetween(min, max)` returns `max + 1`. */
  lemma SeedWithTopState(seed: string, faces: seq<int>, min: int, max: int)
    requires |seed| >= 8 && seed[..8] == "7ceeca24"
    ensures SeedState(seed) == 0x5e6c_fce7
    ensures Xorshift(SeedState(seed)) == 0xffff_ffff
    ensures Roll(seed, faces) == None
    ensures min <= max ==> ScaledFloor(MaxState, max - min + 1) + min == max + 1
  {
    var t := seed[..8];
    TopSeedCodes(t);
    TopSeedFold(t);
    StateOfFold(t);
    assert t[..8] == seed[..8];
    SeedStateFirstEight(seed, t);
    TopSuccessor(SeedState(seed));
    PickIsFace(MaxState, faces);
    if min <= max {
      ScaledBounds(MaxState, max - min + 1);
    }
  }

  lemma TopSeedCodes(seed: string)
    requires seed == "7ceeca24"
    ensures SeedCodes(seed, 8) == [55, 99, 101, 101, 99, 97, 50, 52]
  {
    SeedCodesBasicPlane(seed, 8);
  }

  lemma TopSeedFold(seed: string)
    requires SeedCodes(seed, 8) == [55, 99, 101, 101, 99, 97, 50, 52]
    ensures Fold(FoldStart, SeedCodes(seed, 8)) == 0x5e6c_fce7
  {
    FoldSteps(SeedCodes(seed, 8));
  }

  lemma StateOfFold(seed: string)
    requires Fold(FoldStart, SeedCodes(seed, 8)) == 0x5e6c_fce7
    ensures SeedState(seed) == 0x5e6c_fce7
  {
    assert Word(0x5e6c_fce7) == 0x5e6c_fce7;
  }

  lemma TopSuccessor(s: bv32)
    requires s == 0x5e6c_fce7
    ensures Xorshift(s) == 0xffff_ffff
  {
    var a := ShiftLeft13(s);
    var b := ShiftRight17(a);
    assert ShiftLeft5(b) == 0xffff_ffff;
  }

  /** The fold over the seed's codes, one step at a time. */
  lemma FoldSteps(codes: seq<nat>)
    requires codes == [55, 99, 101, 101, 99, 97, 50, 52]
    ensures Fold(FoldStart, codes) == 0x5e6c_fce7
  {
    var c := codes;
    FoldNext(FoldStart, c, 0x6526_b110); c := c[1..];
    FoldNext(0x6526_b110, c, 0x09fc_d373); c := c[1..];
    FoldNext(0x09fc_d373, c, 0x4997_4238); c := c[1..];
    FoldNext(0x4997_4238, c, 0x7c7f_899d); c := c[1..];
    FoldNext(0x7c7f_899d, c, 0x0c70_bda0); c := c[1..];
    FoldNext(0x0c70_bda0, c, 0x9a88_7201); c := c[1..];
    FoldNext(0x9a88_7201, c, 0xeb96_b253); c := c[1..];
    FoldNext(0xeb96_b253, c, 0x5e6c_fce7); c := c[1..];
    assert c == [];
  }

  lemma FoldNext(acc: int, codes: seq<nat>, next: int)
    requires 0 <= acc < TwoTo32 && codes != []
    requires next == (acc * 33 + codes[0]) % TwoTo32
    ensures Fold(acc, codes) == Fold(next, codes[1..])
  {
  }

  /** The index the roll evidently means: the state over 2^32, a fraction
      that is always below 1. */
  function PickIntended(s: int, faces: seq<int>): Option<int> {
    var idx := (s * |faces|) / TwoTo32;
    if 0 <= idx < |faces| then Some(faces[idx]) else None
  }

  function RollIntended(seedHex: string, faces: seq<int>): Option<int> {
    PickIntended(Xorshift(SeedState(seedHex)) as int, faces)
  }

  /** With the divisor 2^32 every seed rolls a face of a non-empty list. */
  lemma RollIntendedIsFace(seedHex: string, faces: seq<int>)
    ensures RollIntended(seedHex, faces).Some? <==> faces != []
    ensures RollIntended(seedHex, faces).Some? ==> RollIntended(seedHex, faces).value in faces
  {
    PickIntendedIsFace(Xorshift(SeedState(seedHex)), faces);
  }

  lemma PickIntendedIsFace(s: bv32, faces: seq<int>)
    ensures PickIntended(s as int, faces).Some? <==> faces != []
    ensures PickIntended(s as int, faces).Some? ==> PickIntended(s as int, faces).value in faces
  {
    IntendedBounds(s as int, |faces|);
  }

  /** With the divisor 2^32, `intBetween(min, max)` stays within [min, max]. */
  lemma IntBetweenIntended(s: bv32, min: int, max: int)
    requires min <= max
    ensures min <= (s as int * (max - min + 1)) / TwoTo32 + min <= max
  {
    IntendedBounds(s as int, max - min + 1);
  }

  lemma IntendedBounds(s: int, n: nat)
    requires 0 <= s < TwoTo32
    ensures 0 <= (s * n) / TwoTo32 && (n > 0 ==> (s * n) / TwoTo32 < n)
  {
    var p := s * n;
    MulBelow(s, TwoTo32 - 1, n);
    assert 0 <= p <= TwoTo32 * n - n;
  }
}
