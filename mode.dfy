/**
 * The playing mode, an option set over a 64-bit unsigned raw value. The set is
 * kept as the positions of its one bits; `normal` has none, `shuffle`,
 * `repeat` and `repeatAll` are the single bits 0, 1 and 2.
 */
module Mode {
  /** A bit position of the 64-bit raw value. */
  type Bit = i: nat | i < 64

  datatype PlayerMode = PlayerMode(bits: set<Bit>)

  const Normal := PlayerMode({})
  const Shuffle := PlayerMode({0})
  const Repeat := PlayerMode({1})
  const RepeatAll := PlayerMode({2})

  /** The three named flags. */
  predicate IsFlag(f: PlayerMode)
  {
    f == Shuffle || f == Repeat || f == RepeatAll
  }

  function Pow2(i: nat): (r: nat)
    ensures r >= 1
  {
    if i == 0 then 1 else 2 * Pow2(i - 1)
  }

  /** The raw value contributed by the bits at positions `i` and above. */
  function RawFrom(bits: set<Bit>, i: nat): nat
    decreases 64 - i
  {
    if i >= 64 then 0 else (if i in bits then Pow2(i) else 0) + RawFrom(bits, i + 1)
  }

  /** `rawValue`: the sum of the powers of two of the set bits. */
  function RawValue(m: PlayerMode): nat
  {
    RawFrom(m.bits, 0)
  }

  /** No bit at or above `i` contributes nothing. */
  lemma {:induction false} RawFromNoBitsAbove(bits: set<Bit>, i: nat)
    requires forall b | b in bits :: b < i
    ensures RawFrom(bits, i) == 0
    decreases 64 - i
  {
    if i < 64 {
      RawFromNoBitsAbove(bits, i + 1);
    }
  }

  /** `contains`: every bit of `member` is set in `m`. */
  predicate Contains(m: PlayerMode, member: PlayerMode)
  {
    member.bits <= m.bits
  }

  /** `union` / `insert`: the bitwise or. */
  function Union(a: PlayerMode, b: PlayerMode): (r: PlayerMode)
    ensures Contains(r, a) && Contains(r, b)
    ensures forall f :: Contains(r, f) && IsFlag(f) ==> Contains(a, f) || Contains(b, f)
  {
    PlayerMode(a.bits + b.bits)
  }

  /** `subtracting` / `remove`: clears the bits of `b`. */
  function Subtract(a: PlayerMode, b: PlayerMode): (r: PlayerMode)
    ensures Contains(a, r)
    ensures forall f :: IsFlag(f) && Contains(b, f) ==> !Contains(r, f)
  {
    PlayerMode(a.bits - b.bits)
  }

  /** The raw values of the constants: 0, 1, 2 and 4. */
  lemma {:induction false} RawValues()
    ensures RawValue(Normal) == 0
    ensures RawValue(Shuffle) == 1 && RawValue(Repeat) == 2 && RawValue(RepeatAll) == 4
  {
    RawFromNoBitsAbove(Normal.bits, 0);
    RawFromNoBitsAbove(Shuffle.bits, 1);
    RawFromNoBitsAbove(Repeat.bits, 2);
    RawFromNoBitsAbove(RepeatAll.bits, 3);
  }

  /** `normal` contains no flag, and every mode contains `normal`. */
  lemma NormalHasNoFlag(m: PlayerMode)
    ensures !Contains(Normal, Shuffle) && !Contains(Normal, Repeat) && !Contains(Normal, RepeatAll)
    ensures Contains(m, Normal)
  {
  }

  /** The three flags are distinct single bits: none contains another. */
  lemma FlagsAreDistinctBits(f: PlayerMode, g: PlayerMode)
    requires IsFlag(f) && IsFlag(g)
    ensures |f.bits| == 1
    ensures Contains(f, g) <==> f == g
  {
  }

  /** Shuffle combined with repeatAll contains both and not repeat. */
  lemma ShuffleRepeatAll()
    ensures Contains(Union(Shuffle, RepeatAll), Shuffle)
    ensures Contains(Union(Shuffle, RepeatAll), RepeatAll)
    ensures !Contains(Union(Shuffle, RepeatAll), Repeat)
  {
  }

  /** Inserting or removing one flag leaves the membership of every other flag as it was. */
  lemma InsertRemoveKeepOthers(m: PlayerMode, f: PlayerMode, g: PlayerMode)
    requires IsFlag(f) && IsFlag(g) && f != g
    ensures Contains(Union(m, f), g) == Contains(m, g)
    ensures Contains(Subtract(m, f), g) == Contains(m, g)
    ensures Contains(Union(m, f), f) && !Contains(Subtract(m, f), f)
  {
  }
}
