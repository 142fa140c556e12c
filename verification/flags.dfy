/**
 * The renderer's global flag word (`UINT flags`) and the `GlobalFlag` bits
 * that `SetFlag`, `ClearFlag` and `TestFlag` act on.
 */
module Flags {

  /** `GlobalFlag`; its one member is `TerminateRenderer`. */
  datatype GlobalFlag = TerminateRenderer

  /** The bit position a flag occupies in the flag word. */
  function BitIndex(flag: GlobalFlag): (i: nat)
    ensures i < 32
  {
    match flag
    case TerminateRenderer => 0
  }

  /** `static_cast<UINT>(flag)`: `1u << 0u` for `TerminateRenderer`. */
  function Mask(flag: GlobalFlag): (m: bv32)
    ensures m == 1 << BitIndex(flag)
  {
    match flag
    case TerminateRenderer => 1 << 0
  }

  /** `flags |= flag`: the flag's own bit becomes 1, every bit outside it keeps its value. */
  function WithFlag(word: bv32, flag: GlobalFlag): (r: bv32)
    ensures r & Mask(flag) == Mask(flag)
    ensures r & !Mask(flag) == word & !Mask(flag)
  {
    word | Mask(flag)
  }

  /** `flags &= ~flag`: the flag's own bit becomes 0, every bit outside it keeps its value. */
  function WithoutFlag(word: bv32, flag: GlobalFlag): (r: bv32)
    ensures r & Mask(flag) == 0
    ensures r & !Mask(flag) == word & !Mask(flag)
  {
    word & !Mask(flag)
  }

  /** `(flags & flag) != 0`: true exactly when the flag's whole bit is on. */
  function IsSet(word: bv32, flag: GlobalFlag): (b: bool)
    ensures b <==> word & Mask(flag) == Mask(flag)
  {
    word & Mask(flag) != 0
  }

  /** After setting a flag, testing it answers true; after clearing it, false. */
  lemma SetClearTest(word: bv32, flag: GlobalFlag)
    ensures IsSet(WithFlag(word, flag), flag)
    ensures !IsSet(WithoutFlag(word, flag), flag)
  {
  }
}
