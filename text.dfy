/**
 The text buffer of the `Running` state and the selection range kept beside it.

 Rust's `String::len` counts UTF-8 bytes, not characters, and the selection
 range (`Range<usize>`) is a pair of byte offsets. The model keeps the text as
 a sequence of Unicode scalar values and measures it in UTF-8 bytes.
 */
module Text {

  /** A half-open byte range `start..end`, as `std::ops::Range<usize>`. */
  datatype Range = Range(start: nat, end: nat)

  /** Number of bytes `c` takes in UTF-8 (`char::len_utf8`). */
  function CharLen(c: char): (n: nat)
    ensures 1 <= n <= 4
    ensures n == 1 <==> c as int < 0x80
  {
    if c as int < 0x80 then 1
    else if c as int < 0x800 then 2
    else if c as int < 0x1_0000 then 3
    else 4
  }

  /** Length in bytes of the UTF-8 encoding of `s` (`String::len`). */
  function ByteLen(s: string): (n: nat)
    ensures |s| <= n <= 4 * |s|
    ensures n == 0 <==> s == []
    decreases |s|
  {
    if s == [] then 0 else ByteLen(s[..|s| - 1]) + CharLen(s[|s| - 1])
  }

  /** Every character of `s` is ASCII. */
  predicate IsAscii(s: string) {
    forall i :: 0 <= i < |s| ==> s[i] as int < 0x80
  }

  /** An ASCII text takes one byte per character. */
  lemma {:induction false} AsciiByteLen(s: string)
    requires IsAscii(s)
    ensures ByteLen(s) == |s|
    decreases |s|
  {
    if s != [] {
      AsciiByteLen(s[..|s| - 1]);
    }
  }

  /** Byte offset `k` of `s` lies between two characters (`str::is_char_boundary`). */
  predicate IsCharBoundary(s: string, k: nat) {
    exists i :: 0 <= i <= |s| && ByteLen(s[..i]) == k
  }

  /** Offset 0 is a character boundary of every text. */
  lemma ZeroIsCharBoundary(s: string)
    ensures IsCharBoundary(s, 0)
  {
    assert s[..0] == [];
    assert ByteLen(s[..0]) == 0;
  }

  /** A character boundary is never past the end of the text. */
  lemma {:induction false} CharBoundaryInText(s: string, k: nat)
    requires IsCharBoundary(s, k)
    ensures k <= ByteLen(s)
  {
    var i :| 0 <= i <= |s| && ByteLen(s[..i]) == k;
    PrefixByteLen(s, i);
  }

  /** A prefix never takes more bytes than the whole text. */
  lemma {:induction false} PrefixByteLen(s: string, i: nat)
    requires i <= |s|
    ensures ByteLen(s[..i]) <= ByteLen(s)
    decreases |s|
  {
    if i < |s| {
      assert s[..|s| - 1][..i] == s[..i];
      PrefixByteLen(s[..|s| - 1], i);
    } else {
      assert s[..i] == s;
    }
  }

  /**
   The hint text of the editor is cut with `split_at_mut(position.start)` and the
   second part once more with `split_at_mut(position.start)`. Both cuts stay
   inside the text and fall between characters (otherwise Rust panics) exactly
   when offsets `start` and `2 * start` are character boundaries.
   */
  predicate SplitsInBounds(s: string, position: Range) {
    IsCharBoundary(s, position.start) && IsCharBoundary(s, 2 * position.start)
  }

  /**
   The selection assigned after every edit:
   `0.min(text.len())..text.len().min(text.len().saturating_sub(1))`.
   For a non-empty text this is `0..len-1`, not an empty range.
   */
  function ResetSelection(s: string): (r: Range)
    ensures r.start == 0 && r.end <= ByteLen(s)
    ensures r.start < r.end <==> ByteLen(s) >= 2
    ensures s != [] ==> r.end + 1 == ByteLen(s)
    ensures SplitsInBounds(s, r)
  {
    var len := ByteLen(s);
    var saturated := if len >= 1 then len - 1 else 0;
    ZeroIsCharBoundary(s);
    Range(Min(0, len), Min(len, saturated))
  }

  function Min(a: nat, b: nat): nat {
    if a <= b then a else b
  }

  /** "hello world" (11 bytes) is selected as `0..10`. */
  lemma HelloWorldSelection()
    ensures ResetSelection("hello world") == Range(0, 10)
  {
    AsciiByteLen("hello world");
  }

  /**
   The end of the reset selection may fall inside a character: "é" takes two
   bytes, so its selection is `0..1`, and offset 1 is not a boundary. Only
   `start` is ever used to cut the text, so this does not panic.
   */
  lemma EndMayFallInsideCharacter()
    ensures ResetSelection("é") == Range(0, 1)
    ensures !IsCharBoundary("é", 1)
  {
  }
}
