/** The size of the buffer the channel reserves for a hex dump of `len`
    bytes (the `memsize` arithmetic of `inject(const void*, len, true)`). */
module MemDump {
  import opened IOFormat

  /** `unsigned int` arithmetic wraps modulo 2^32. */
  const UintMod: nat := 0x1_0000_0000

  predicate ByteSpacing(memformat: bv8) {
    memformat & MemByteSep != 0
  }

  predicate WordSpacing(memformat: bv8) {
    memformat & MemWordSep != 0
  }

  /** Width the `memsize` arithmetic reserves for the separator after the
      `g`-th byte of a dump (`g` >= 1): a space under byte spacing, and at
      every 8-byte word boundary under word spacing room for a bar, with one
      more character beside it when byte spacing is on too. The dump text
      itself comes from the opaque `memdump` converter. */
  function Gap(g: nat, memformat: bv8): nat {
    (if ByteSpacing(memformat) then 1 else 0)
    + (if WordSpacing(memformat) && g % 8 == 0
       then (if ByteSpacing(memformat) then 2 else 1)
       else 0)
  }

  /** Width reserved for the dump of `len` bytes: two hex digits per byte
      and the separators between consecutive bytes, none after the last. */
  function LayoutLength(len: nat, memformat: bv8): nat {
    if len == 0 then 0
    else if len == 1 then 2
    else LayoutLength(len - 1, memformat) + Gap(len - 1, memformat) + 2
  }

  /** The reserved width of a dump of `len` >= 1 bytes, summed separator by
      separator, in the closed form the `memsize` arithmetic computes: two
      digits per byte, a space per gap under byte spacing, and room for a bar
      (two characters under byte spacing) per 8-byte word boundary. */
  lemma {:induction false} LayoutLengthClosed(len: nat, memformat: bv8)
    requires len >= 1
    ensures LayoutLength(len, memformat)
            == 2 * len
               + (if ByteSpacing(memformat) then len - 1 else 0)
               + (if WordSpacing(memformat)
                  then (len - 1) / 8 * (if ByteSpacing(memformat) then 2 else 1)
                  else 0)
  {
    if len > 1 {
      LayoutLengthClosed(len - 1, memformat);
      assert (len - 1) / 8 == (len - 2) / 8 + (if (len - 1) % 8 == 0 then 1 else 0);
    }
  }

  /** `x + y` in 32-bit unsigned arithmetic. */
  function AddU32(x: nat, y: nat): (r: nat)
    ensures r < UintMod
    ensures x + y < UintMod ==> r == x + y
    ensures x < UintMod && y < UintMod && UintMod <= x + y ==> r == x + y - UintMod
  {
    (x + y) % UintMod
  }

  /** `x - 1` in 32-bit unsigned arithmetic (0 - 1 wraps to 2^32 - 1). */
  function DecU32(x: nat): (r: nat)
    requires x < UintMod
    ensures r < UintMod
  {
    if x == 0 then UintMod - 1 else x - 1
  }

  /** The buffer size exactly as `inject` computes it, in `unsigned int`.
      For a non-empty dump it is the layout length plus the terminator; for
      `len == 0` the unsigned `len - 1` and the trailing decrements wrap. */
  method BufferSizeAsWritten(len: nat, memformat: bv8) returns (memsize: nat)
    requires len < UintMod
    ensures memsize < UintMod
    ensures 1 <= len && 4 * len < UintMod ==> memsize == LayoutLength(len, memformat) + 1
    ensures len == 0 ==> memsize == (if ByteSpacing(memformat) && WordSpacing(memformat) then UintMod - 2
                                     else if ByteSpacing(memformat) || WordSpacing(memformat) then 0
                                     else 1)
  {
    memsize := AddU32(len * 2, 1);
    var bytespacing := ByteSpacing(memformat);
    var wordspacing := WordSpacing(memformat);
    if bytespacing {
      memsize := AddU32(memsize, DecU32(len));
    }
    if wordspacing {
      memsize := AddU32(memsize, len / 8);
      if bytespacing {
        memsize := AddU32(memsize, len / 8);
      }
      if len % 8 == 0 {
        memsize := DecU32(memsize);
        if bytespacing {
          memsize := DecU32(memsize);
        }
      }
    }
    if 1 <= len && 4 * len < UintMod {
      LayoutLengthClosed(len, memformat);
    }
  }

  /** The buffer size with the empty dump handled: the separator
      adjustments apply only when there is at least one byte, so the size is
      the width the arithmetic reserves, plus the terminator. */
  method DumpBufferSize(len: nat, memformat: bv8) returns (memsize: nat)
    ensures memsize == LayoutLength(len, memformat) + 1
  {
    memsize := (len * 2) + 1;
    if len > 0 {
      var bytespacing := ByteSpacing(memformat);
      var wordspacing := WordSpacing(memformat);
      if bytespacing {
        memsize := memsize + (len - 1);
      }
      if wordspacing {
        memsize := memsize + (len / 8);
        if bytespacing {
          memsize := memsize + (len / 8);
        }
        if len % 8 == 0 {
          memsize := memsize - 1;
          if bytespacing {
            memsize := memsize - 1;
          }
        }
      }
      LayoutLengthClosed(len, memformat);
    }
  }

  /** The buffer size as a value, for the specification of the channel. */
  function DumpSize(len: nat, memformat: bv8): nat {
    LayoutLength(len, memformat) + 1
  }
}
