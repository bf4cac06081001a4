/**
 * Reads over the disassembler's view of memory. The loaded bytes are a
 * finite map from address to byte (an address outside its domain is one for
 * which the host's byte read returns `None`); the addresses whose flags say
 * they hold a value form a set.
 */
module Memory {

  newtype byte = x: int | 0 <= x < 256

  /**
   * `s` is the C string at `addr`: loaded, non-NUL bytes read from `addr`
   * on, ending where the next byte is NUL or not loaded.
   */
  ghost predicate IsCStringAt(mem: map<int, byte>, addr: int, s: seq<byte>) {
    IsNonNulRun(mem, addr, s) && (addr + |s| !in mem || mem[addr + |s|] == 0)
  }

  /** Every byte of `s` is the loaded, non-NUL byte at its offset from `addr`. */
  ghost predicate IsNonNulRun(mem: map<int, byte>, addr: int, s: seq<byte>) {
    forall i :: 0 <= i < |s| ==> s[i] != 0 && addr + i in mem && mem[addr + i] == s[i]
  }

  lemma ExtendRun(mem: map<int, byte>, addr: int, s: seq<byte>)
    requires IsNonNulRun(mem, addr, s)
    requires addr + |s| in mem && mem[addr + |s|] != 0
    ensures IsNonNulRun(mem, addr, s + [mem[addr + |s|]])
  {
    var t := s + [mem[addr + |s|]];
    forall i | 0 <= i < |t|
      ensures t[i] != 0 && addr + i in mem && mem[addr + i] == t[i]
    {
      if i < |s| {
        assert t[i] == s[i] && s[i] != 0;
      } else {
        assert i == |s| && t[i] == mem[addr + |s|];
      }
    }
    assert IsNonNulRun(mem, addr, t);
  }

  lemma RunByteAt(mem: map<int, byte>, addr: int, s: seq<byte>, k: int)
    requires IsNonNulRun(mem, addr, s) && 0 <= k < |s|
    ensures addr + k in mem && mem[addr + k] != 0
  {
    assert s[k] != 0;
  }

  /** The loaded addresses at or above `a`; a reading loop stays inside them. */
  function LoadedFrom(mem: map<int, byte>, a: int): set<int> {
    set k | k in mem.Keys && k >= a
  }

  lemma LoadedFromShrinks(mem: map<int, byte>, a: int)
    requires a in mem
    ensures |LoadedFrom(mem, a + 1)| < |LoadedFrom(mem, a)|
  {
    assert LoadedFrom(mem, a) == LoadedFrom(mem, a + 1) + {a};
  }

  /** `getCString`: reads bytes one by one from `addr` until a NUL or an unloaded byte. */
  method GetCString(mem: map<int, byte>, addr: int) returns (buf: seq<byte>)
    ensures IsCStringAt(mem, addr, buf)
    ensures buf == [] <==> addr !in mem || mem[addr] == 0
  {
    buf := [];
    var a := addr;
    while a in mem && mem[a] != 0
      invariant a == addr + |buf|
      invariant IsNonNulRun(mem, addr, buf)
      decreases |LoadedFrom(mem, a)|
    {
      LoadedFromShrinks(mem, a);
      ExtendRun(mem, addr, buf);
      buf := buf + [mem[a]];
      a := a + 1;
    }
    if buf != [] {
      assert buf[0] != 0 && addr + 0 in mem;
    }
  }

  /** The C string at an address is unique: it is the longest run of loaded non-NUL bytes there. */
  lemma {:induction false} CStringUnique(mem: map<int, byte>, addr: int, s: seq<byte>, t: seq<byte>)
    requires IsCStringAt(mem, addr, s) && IsCStringAt(mem, addr, t)
    ensures s == t
  {
    if |s| < |t| {
      RunByteAt(mem, addr, t, |s|);
    }
    if |t| < |s| {
      RunByteAt(mem, addr, s, |t|);
    }
    assert |s| == |t|;
    forall i | 0 <= i < |s| ensures s[i] == t[i] {
      assert s[i] != 0 && t[i] != 0;
      assert s[i] == mem[addr + i] && t[i] == mem[addr + i];
    }
  }

  /** What the host reports for the segment containing an address: its name, start and end. */
  datatype SegmentQuery = SegmentQuery(name: string, start: int, end: int)

  function SegmentName(seg: SegmentQuery): string { seg.name }
  function SegmentStart(seg: SegmentQuery): int { seg.start }
  function SegmentEnd(seg: SegmentQuery): int { seg.end }

  /** `getSegmentSize`: the segment spans `SegmentSize` addresses from its start to its end. */
  function SegmentSize(seg: SegmentQuery): (r: int)
    ensures SegmentStart(seg) + r == SegmentEnd(seg)
  {
    SegmentEnd(seg) - SegmentStart(seg)
  }

  function SectionName(seg: SegmentQuery): string { SegmentName(seg) }
  function SectionStart(seg: SegmentQuery): int { SegmentStart(seg) }
  function SectionEnd(seg: SegmentQuery): int { SegmentEnd(seg) }
  function SectionSize(seg: SegmentQuery): int { SegmentSize(seg) }

  /** The section accessors are the segment accessors under another name. */
  lemma SectionsAreSegments(seg: SegmentQuery)
    ensures SectionName(seg) == SegmentName(seg) && SectionStart(seg) == SegmentStart(seg)
    ensures SectionEnd(seg) == SegmentEnd(seg) && SectionSize(seg) == SegmentSize(seg)
  {
  }

  /**
   * The number of consecutive addresses from `a` that hold a value, counted
   * no further than `end`.
   */
  function DefinedSize(hasValue: set<int>, a: int, end: int): (n: nat)
    ensures n <= if end > a then end - a else 0
    ensures forall i :: a <= i < a + n ==> i in hasValue
    ensures n < end - a ==> a + n !in hasValue
    decreases end - a
  {
    if a in hasValue && a < end then 1 + DefinedSize(hasValue, a + 1, end) else 0
  }

  /**
   * `getSegmentDefinedSize`: counts the addresses from the segment's start
   * that hold a value, stopping at the first one that does not or at the
   * segment's end.
   */
  method GetSegmentDefinedSize(seg: SegmentQuery, hasValue: set<int>) returns (size: nat)
    ensures size == DefinedSize(hasValue, SegmentStart(seg), SegmentEnd(seg))
  {
    size := 0;
    var segEnd := SegmentEnd(seg);
    var a := SegmentStart(seg);
    while a in hasValue
      invariant a == SegmentStart(seg) + size
      invariant DefinedSize(hasValue, SegmentStart(seg), segEnd) == size + DefinedSize(hasValue, a, segEnd)
      decreases segEnd - a
    {
      if a >= segEnd {
        break;
      }
      size := size + 1;
      a := a + 1;
    }
  }

  /** A segment's defined size is its whole size exactly when every address of it holds a value. */
  lemma FullyDefined(seg: SegmentQuery, hasValue: set<int>)
    requires SegmentSize(seg) >= 0
    ensures DefinedSize(hasValue, SegmentStart(seg), SegmentEnd(seg)) == SegmentSize(seg) <==>
            forall i :: SegmentStart(seg) <= i < SegmentEnd(seg) ==> i in hasValue
  {
  }
}
