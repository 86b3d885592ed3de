/** The 64-bit word that packs the process IDs of both shards. */
module PidWord {
  datatype Pid = Pid(bits: bv32)

  datatype Word = Word(bits: bv64)

  const NO_PID := Pid(0)

  const LOW_HALF: bv64 := 0x0000_0000_FFFF_FFFF
  const HIGH_HALF: bv64 := 0xFFFF_FFFF_0000_0000

  function HighBits(bits: bv64): bv32 {
    (bits >> 32) as bv32
  }

  function LowBits(bits: bv64): bv32 {
    (bits & LOW_HALF) as bv32
  }

  function SetHigh(bits: bv64, half: bv32): (w: bv64)
    ensures HighBits(w) == half && LowBits(w) == LowBits(bits)
  {
    (bits & LOW_HALF) | (half as bv64 << 32)
  }

  function SetLow(bits: bv64, half: bv32): (w: bv64)
    ensures LowBits(w) == half && HighBits(w) == HighBits(bits)
  {
    (bits & HIGH_HALF) | half as bv64
  }

  function High(w: Word): Pid {
    Pid(HighBits(w.bits))
  }

  function Low(w: Word): Pid {
    Pid(LowBits(w.bits))
  }

  /** What the Master's loops compute from the word they loaded; NO_PID clears. */
  function WithHigh(w: Word, pid: Pid): (w': Word)
    ensures High(w') == pid && Low(w') == Low(w)
  {
    hide HighBits, LowBits, SetHigh;
    Word(SetHigh(w.bits, pid.bits))
  }

  /** What the Caves' loops compute from the word they loaded; NO_PID clears. */
  function WithLow(w: Word, pid: Pid): (w': Word)
    ensures Low(w') == pid && High(w') == High(w)
  {
    hide HighBits, LowBits, SetLow;
    Word(SetLow(w.bits, pid.bits))
  }

  lemma BitsAreHalves(bits: bv64)
    ensures HighBits(bits) == 0 && LowBits(bits) == 0 <==> bits == 0
  {
  }

  /** The word holds nothing but the two halves. */
  lemma WordIsItsHalves(w: Word)
    ensures High(w) == NO_PID && Low(w) == NO_PID <==> w == Word(0)
  {
    BitsAreHalves(w.bits);
    hide HighBits, LowBits;
  }
}
