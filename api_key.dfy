/**
 * `mask_api_key` of src-tauri/src/lib.rs, which shortens a key for logging.
 * Rust measures and slices a `str` by its UTF-8 bytes, so the key is modelled
 * as those bytes; slicing at a byte that is not the start of a character
 * panics, which is the `None` result here.
 */
module ApiKey {
  import opened Wrappers
  import opened Text

  /** The bytes of a string whose characters are all ASCII. */
  function Ascii(s: string): (b: seq<Byte>)
    requires forall i :: 0 <= i < |s| ==> s[i] as int < 128
    ensures |b| == |s| && forall i :: 0 <= i < |s| ==> b[i] == s[i] as int
  {
    if s == [] then [] else [s[0] as int as Byte] + Ascii(s[1..])
  }

  /** The mask characters, `****`. */
  const Stars: string := "****"
  /** The bytes of `****`. */
  const StarBytes: seq<Byte> := [42, 42, 42, 42]
  const VisibleBytes: nat := 4

  lemma {:induction false} StarsAreAscii()
    ensures Ascii(Stars) == StarBytes
  {
  }

  /**
   * `mask_api_key`, on the key's UTF-8 bytes: the stars alone for a key of at
   * most four bytes, otherwise the stars then the last four bytes, or a panic
   * when those four bytes start inside a character.
   */
  function MaskApiKey(key: seq<Byte>): (m: Option<seq<Byte>>)
    ensures m.None? <==> |key| > VisibleBytes && IsContinuation(key[|key| - VisibleBytes])
    ensures m.Some? ==> |m.value| >= 4 && m.value[..4] == StarBytes
  {
    if |key| <= VisibleBytes then Some(StarBytes)
    else if IsContinuation(key[|key| - VisibleBytes]) then None
    else Some(StarBytes + key[|key| - VisibleBytes..])
  }

  /** A mask reveals at most the last four bytes of the key, and all four of a longer key. */
  lemma {:induction false} MaskRevealsOnlyTail(key: seq<Byte>)
    requires MaskApiKey(key).Some?
    ensures var m := MaskApiKey(key).value;
            |m| == (if |key| <= VisibleBytes then 4 else 8) &&
            m[4..] == (if |key| <= VisibleBytes then [] else key[|key| - VisibleBytes..])
  {
  }

  /** Changing any byte before the last four does not change the mask. */
  lemma {:induction false} MaskHidesPrefix(key: seq<Byte>, i: nat, b: Byte)
    requires i + VisibleBytes < |key|
    ensures MaskApiKey(key[i := b]) == MaskApiKey(key)
  {
    assert key[i := b][|key| - VisibleBytes..] == key[|key| - VisibleBytes..];
  }

  /** An ASCII key never makes the mask panic. */
  lemma {:induction false} AsciiKeyIsMasked(key: string)
    requires forall i :: 0 <= i < |key| ==> key[i] as int < 128
    ensures MaskApiKey(Ascii(key)).Some?
  {
  }

  /**
   * The masking the doc comment describes, on characters: the stars alone for a
   * key of at most four characters, otherwise the stars then the last four
   * characters. It is total.
   */
  function MaskByChars(key: string): (m: string)
    ensures |m| == if |key| <= 4 then 4 else 8
    ensures m[..4] == Stars
  {
    if |key| <= 4 then Stars else Stars + key[|key| - 4..]
  }

  /** The character masking hides every character before the last four. */
  lemma {:induction false} MaskByCharsHidesPrefix(key: string, i: nat, c: char)
    requires i + 4 < |key|
    ensures MaskByChars(key[i := c]) == MaskByChars(key)
  {
    assert key[i := c][|key| - 4..] == key[|key| - 4..];
  }

  lemma {:induction false} AsciiAppend(s: string, t: string)
    requires forall i :: 0 <= i < |s| ==> s[i] as int < 128
    requires forall i :: 0 <= i < |t| ==> t[i] as int < 128
    ensures forall i :: 0 <= i < |s + t| ==> (s + t)[i] as int < 128
    ensures Ascii(s + t) == Ascii(s) + Ascii(t)
  {
    var st := s + t;
    assert forall i :: 0 <= i < |st| ==> st[i] as int < 128 by {
      forall i | 0 <= i < |st| ensures st[i] as int < 128 {
        if i < |s| { assert st[i] == s[i]; } else { assert st[i] == t[i - |s|]; }
      }
    }
    assert Ascii(st) == Ascii(s) + Ascii(t);
  }

  /** On ASCII keys the byte masking is the character masking. */
  lemma {:induction false} AsciiMaskAgrees(key: string)
    requires forall i :: 0 <= i < |key| ==> key[i] as int < 128
    ensures MaskApiKey(Ascii(key)) == Some(Ascii(MaskByChars(key)))
  {
    if |key| > 4 {
      var tail := key[|key| - 4..];
      assert key == key[..|key| - 4] + tail;
      AsciiAppend(key[..|key| - 4], tail);
      AsciiAppend(Stars, tail);
    }
    StarsAreAscii();
  }

  /** On an ASCII string, UTF-8 is the one-byte-per-character encoding. */
  lemma {:induction false} Utf8OfAscii(s: string)
    requires forall i :: 0 <= i < |s| ==> s[i] as int < 128
    ensures Utf8(s) == Ascii(s)
    decreases |s|
  {
    if s != [] {
      assert forall i :: 0 <= i < |s[1..]| ==> s[1..][i] == s[i + 1];
      Utf8OfAscii(s[1..]);
    }
  }

  /** The UTF-8 bytes of "€€": E2 82 AC twice. */
  const EuroEuro: seq<Byte> := [0xE2, 0x82, 0xAC, 0xE2, 0x82, 0xAC]

  lemma {:induction false} EuroEuroBytes()
    ensures Utf8("€€") == EuroEuro
  {
    assert Utf8Char('€') == [0xE2, 0x82, 0xAC];
    assert "€€"[1..] == "€";
  }

  /**
   * The key "€€" is six bytes whose last four start inside the first euro
   * sign, so masking it panics, where the character masking gives "****".
   */
  lemma {:induction false} NonAsciiKeyPanics()
    ensures MaskApiKey(Utf8("€€")) == None
    ensures MaskByChars("€€") == Stars
  {
    EuroEuroBytes();
  }

  lemma {:induction false} MaskByCharsExamples()
    ensures MaskByChars(LongKey) == "****9999"
    ensures MaskByChars("12345") == "****2345"
  {
    assert LongKey[12..] == "9999";
    assert "12345"[1..] == "2345";
  }

  const LongKey: string := "sk-abc123xyz9999"

  /** The long key of the source's unit tests is ASCII, so its byte mask is the character mask `****9999`. */
  lemma {:induction false} MaskLongKeyExample()
    ensures forall i :: 0 <= i < |LongKey| ==> LongKey[i] as int < 128
    ensures MaskByChars(LongKey) == "****9999"
    ensures MaskApiKey(Ascii(LongKey)) == Some(StarBytes + [57, 57, 57, 57])
  {
    MaskByCharsExamples();
    NinesTailMask(LongKey);
  }

  /** A longer ASCII key ending in "9999", like the test key, masks to the bytes of `****9999`. */
  lemma {:induction false} NinesTailMask(key: string)
    requires forall i :: 0 <= i < |key| ==> key[i] as int < 128
    requires |key| > 4 && key[|key| - 4..] == "9999"
    ensures MaskApiKey(Ascii(key)) == Some(StarBytes + [57, 57, 57, 57])
  {
    var b, start := Ascii(key), |key| - 4;
    forall j | start <= j < |b|
      ensures b[j] == 57
    {
      assert key[j] == key[start..][j - start];
    }
    assert b[start..] == [57, 57, 57, 57];
  }

  lemma {:induction false} MaskFiveByteKeyExample()
    ensures MaskApiKey(Ascii("12345")) == Some(Ascii("****2345"))
  {
    MaskByCharsExamples();
    AsciiMaskAgrees("12345");
  }

  lemma {:induction false} MaskShortKeyExamples()
    ensures MaskApiKey(Ascii("ab")) == Some(StarBytes)
    ensures MaskApiKey(Ascii("abcd")) == Some(StarBytes)
    ensures MaskApiKey(Ascii("")) == Some(StarBytes)
  {
  }
}
