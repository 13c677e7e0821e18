/**
 * `JfrTraceFlag`: the 16-bit trace flag word that HotSpot embeds in classes
 * and methods, with two one-byte views of it (`flags_addr` for the low-order
 * byte, `meta_addr` for the high-order byte) that must not depend on the
 * platform's byte order.
 */
module TraceIdExtension {

  /** `cleared_epoch_bits`: the value of a freshly constructed flag word. */
  const ClearedEpochBits: bv16 := 512 | 256

  function LowByte(v: bv16): bv8 {
    (v & 0xFF) as bv8
  }

  function HighByte(v: bv16): bv8 {
    (v >> 8) as bv8
  }

  /** The two bytes of a `uint16_t` in memory order, on a little- or big-endian machine. */
  function MemoryBytes(v: bv16, littleEndian: bool): (b: seq<bv8>)
    ensures |b| == 2
  {
    if littleEndian then [LowByte(v), HighByte(v)] else [HighByte(v), LowByte(v)]
  }

  /** How far `flags_addr()` lies past `&_flags`. */
  function FlagsOffset(littleEndian: bool): nat {
    if littleEndian then 0 else 1
  }

  /** How far `meta_addr()` lies past `&_flags`. */
  function MetaOffset(littleEndian: bool): nat {
    if littleEndian then 1 else 0
  }

  /** The two views are distinct bytes of the word and together they determine it. */
  lemma ByteViewsPartitionWord(v: bv16, littleEndian: bool)
    ensures FlagsOffset(littleEndian) != MetaOffset(littleEndian)
    ensures FlagsOffset(littleEndian) < 2 && MetaOffset(littleEndian) < 2
    ensures (HighByte(v) as bv16 << 8) | LowByte(v) as bv16 == v
  {
  }

  class TraceFlag {
    var flags: bv16

    constructor ()
      ensures flags == ClearedEpochBits
    {
      flags := ClearedEpochBits;
    }

    /**
     * `is_set(flag)`: some bit of `flag` is set in the word, that is, in the
     * byte `flags_addr` views or in the byte `meta_addr` views.
     */
    predicate IsSet(flag: bv16): (isSet: bool)
      reads this
      ensures forall littleEndian: bool ::
        isSet <==> FlagsByte(littleEndian) & LowByte(flag) != 0 || MetaByte(littleEndian) & HighByte(flag) != 0
    {
      flags & flag != 0
    }

    /** `flags()`: the whole word, the byte `meta_addr` views above the byte `flags_addr` views. */
    function Flags(): (f: bv16)
      reads this
      ensures forall littleEndian: bool :: (MetaByte(littleEndian) as bv16 << 8) | FlagsByte(littleEndian) as bv16 == f
    {
      flags
    }

    /** `set_flags(f)`: a later `flags()` returns `f`. */
    method SetFlags(f: bv16)
      modifies this
      ensures Flags() == f
    {
      flags := f;
    }

    /** The byte `flags_addr()` points at: the low-order byte on either byte order. */
    function FlagsByte(littleEndian: bool): (b: bv8)
      reads this
      ensures b == LowByte(flags)
    {
      MemoryBytes(flags, littleEndian)[FlagsOffset(littleEndian)]
    }

    /** The byte `meta_addr()` points at: the high-order byte on either byte order. */
    function MetaByte(littleEndian: bool): (b: bv8)
      reads this
      ensures b == HighByte(flags)
    {
      MemoryBytes(flags, littleEndian)[MetaOffset(littleEndian)]
    }

    /** `copy_trace_flags(rhm)`: this word takes the value of `source`'s. */
    method CopyTraceFlags(source: TraceFlag)
      modifies this
      ensures flags == old(source.flags)
      ensures source != this ==> source.flags == old(source.flags)
    {
      SetFlags(source.Flags());
    }
  }

  /**
   * A fresh word has both epoch bits set, both in the byte `meta_addr`
   * views, and nothing in the byte `flags_addr` views.
   */
  lemma ClearedEpochBitsLayout(t: TraceFlag, littleEndian: bool)
    requires t.flags == ClearedEpochBits
    ensures t.IsSet(256) && t.IsSet(512) && !t.IsSet(0xFF) && !t.IsSet(0xFC00)
    ensures t.FlagsByte(littleEndian) == 0 && t.MetaByte(littleEndian) == 3
  {
  }
}
