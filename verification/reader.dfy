/** A minimal model of the byte cursor the scanner reads through (the
    `Reader` capability and its `StrReader` implementation). Only the three
    operations the scanner calls are modelled: skipping spaces and tabs,
    testing the next byte, and reading past the end of a line. The position
    only ever moves forward. */
module Reader {

  newtype byte = b: int | 0 <= b < 256

  const TAB: byte := 0x09
  const LF: byte := 0x0A
  const CR: byte := 0x0D
  const SPACE: byte := 0x20
  const HASH: byte := 0x23

  /** The bytes `skip_space_tab` steps over. */
  predicate IsSpaceTab(b: byte) { b == SPACE || b == TAB }

  /** A line-break character (section 5.4 of YAML 1.2.2: line feed or carriage return). */
  predicate IsBreak(b: byte) { b == LF || b == CR }

  /** The first position at or after `p` that is not a space or a tab. */
  function SkipSpaceTabFrom(s: seq<byte>, p: nat): (q: nat)
    requires p <= |s|
    ensures p <= q <= |s|
    ensures forall k :: p <= k < q ==> IsSpaceTab(s[k])
    ensures q == |s| || !IsSpaceTab(s[q])
    decreases |s| - p
  {
    if p < |s| && IsSpaceTab(s[p]) then SkipSpaceTabFrom(s, p + 1) else p
  }

  /** The first position at or after `p` that holds a line break, or the end of input. */
  function LineEndFrom(s: seq<byte>, p: nat): (q: nat)
    requires p <= |s|
    ensures p <= q <= |s|
    ensures forall k :: p <= k < q ==> !IsBreak(s[k])
    ensures q == |s| || IsBreak(s[q])
    decreases |s| - p
  {
    if p < |s| && !IsBreak(s[p]) then LineEndFrom(s, p + 1) else p
  }

  /** Where `read_line` leaves the cursor: past the end of the current line
      and past the one line break that ends it (CR LF, CR or LF, the
      `b-break` production of YAML 1.2.2), or at the end of input. */
  function ReadLineFrom(s: seq<byte>, p: nat): (q: nat)
    requires p <= |s|
    ensures p <= q <= |s|
    // the line is complete: input is exhausted or the last byte read ends a line
    ensures q == |s| || (p < q && IsBreak(s[q - 1]) && !(s[q - 1] == CR && s[q] == LF))
    // no more than one line is read: the only breaks passed are the final terminator
    ensures forall k :: p <= k < q && IsBreak(s[k]) ==>
              k == q - 1 || (k == q - 2 && s[k] == CR && s[k + 1] == LF)
  {
    var e := LineEndFrom(s, p);
    if e == |s| then e
    else if s[e] == CR && e + 1 < |s| && s[e + 1] == LF then e + 2
    else e + 1
  }

  /** The cursor over an immutable input buffer. */
  class StrReader {
    const input: seq<byte>
    var pos: nat

    predicate Valid()
      reads this
    {
      pos <= |input|
    }

    constructor (input: seq<byte>)
      ensures Valid()
      ensures this.input == input && pos == 0
    {
      this.input := input;
      pos := 0;
    }

    /** `skip_space_tab`: advances past every leading space and tab. */
    method SkipSpaceTab()
      requires Valid()
      modifies this`pos
      ensures Valid()
      ensures pos == SkipSpaceTabFrom(input, old(pos))
    {
      while pos < |input| && IsSpaceTab(input[pos])
        invariant old(pos) <= pos <= |input|
        invariant SkipSpaceTabFrom(input, pos) == SkipSpaceTabFrom(input, old(pos))
        decreases |input| - pos
      {
        pos := pos + 1;
      }
    }

    /** `peek_byte_is`: whether the byte under the cursor is `b`; false at end of input. */
    method PeekByteIs(b: byte) returns (r: bool)
      requires Valid()
      ensures r <==> pos < |input| && input[pos] == b
    {
      r := pos < |input| && input[pos] == b;
    }

    /** `read_line`: advances past the rest of the current line and its line break. */
    method ReadLine()
      requires Valid()
      modifies this`pos
      ensures Valid()
      ensures pos == ReadLineFrom(input, old(pos))
    {
      while pos < |input| && !IsBreak(input[pos])
        invariant old(pos) <= pos <= |input|
        invariant LineEndFrom(input, pos) == LineEndFrom(input, old(pos))
        decreases |input| - pos
      {
        pos := pos + 1;
      }
      if pos < |input| {
        if input[pos] == CR && pos + 1 < |input| && input[pos + 1] == LF {
          pos := pos + 2;
        } else {
          pos := pos + 1;
        }
      }
    }
  }
}
