/**
 The 64-bit words of kernel/riscv.h behind the records of PageTable: a page
 table entry holds its page address and flags apart, and the three indices and
 the offset determine the virtual address they were taken from.
 */
module Sv39 {
  const MAXVA: bv64 := 1 << 38

  function Pa2Pte(pa: bv64): bv64 {
    (pa >> 12) << 10
  }

  function Pte2Pa(pte: bv64): bv64 {
    (pte >> 10) << 12
  }

  function PteFlags(pte: bv64): bv64 {
    pte & 0x3FF
  }

  function Px(level: nat, va: bv64): bv64
    requires level <= 2
  {
    (if level == 0 then va >> 12 else if level == 1 then va >> 21 else va >> 30) & 0x1FF
  }

  /** Packing a page address and flags and taking them out again; addresses have 56 bits. */
  lemma PteRoundTrip(pa: bv64, flags: bv64)
    requires pa & 0xFFF == 0 && pa < 0x100_0000_0000_0000 && flags <= 0x3FF
    ensures Pte2Pa(Pa2Pte(pa) | flags) == pa
    ensures PteFlags(Pa2Pte(pa) | flags) == flags
  {
  }

  /** Below MAXVA two addresses with the same indices and offset are the same address. */
  lemma IndicesDetermineAddress(va: bv64)
    requires va < MAXVA
    ensures va == (Px(2, va) << 30) | (Px(1, va) << 21) | (Px(0, va) << 12) | (va & 0xFFF)
  {
  }
}
