/**
 * `remove_emojis(text)` of unit_converter.py, written as Python runs it:
 * `text.encode('ascii', 'ignore')` drops every character outside ASCII and
 * turns the rest into bytes, and `.decode('ascii')` turns the bytes back
 * into characters (and would fail on a byte of 128 or more).
 */
module Ascii {
  import opened Wrappers

  newtype byte = x: int | 0 <= x < 256

  predicate IsAsciiChar(c: char)
  {
    c as int < 128
  }

  predicate IsAscii(s: string)
  {
    forall i :: 0 <= i < |s| ==> IsAsciiChar(s[i])
  }

  predicate IsAsciiBytes(b: seq<byte>)
  {
    forall i :: 0 <= i < |b| ==> b[i] < 128
  }

  /** `s.encode('ascii', 'ignore')`: one byte per ASCII character, the others dropped. */
  function EncodeIgnore(s: string): (b: seq<byte>)
    ensures |b| <= |s|
    ensures IsAsciiBytes(b)
  {
    if s == [] then []
    else if IsAsciiChar(s[0]) then [s[0] as int as byte] + EncodeIgnore(s[1..])
    else EncodeIgnore(s[1..])
  }

  /** `b.decode('ascii')`: `None` stands for the UnicodeDecodeError raised on a byte >= 128. */
  function Decode(b: seq<byte>): (r: Option<string>)
    ensures r.Some? <==> IsAsciiBytes(b)
    ensures r.Some? ==> |r.value| == |b| && IsAscii(r.value)
  {
    if b == [] then Some([])
    else if b[0] >= 128 then None
    else
      var rest := Decode(b[1..]);
      if rest.None? then None else Some([b[0] as int as char] + rest.value)
  }

  /** Each byte decodes to the character with the same code. */
  lemma {:induction false} DecodeAt(b: seq<byte>, i: nat)
    requires IsAsciiBytes(b) && i < |b|
    ensures Decode(b).Some? && Decode(b).value[i] as int == b[i] as int
    decreases i
  {
    if i > 0 {
      DecodeAt(b[1..], i - 1);
    }
  }

  /** `remove_emojis(text)`: the decode cannot fail, since the encoder only emits ASCII bytes. */
  function RemoveEmojis(text: string): (r: string)
    ensures IsAscii(r)
    ensures |r| <= |text|
  {
    Decode(EncodeIgnore(text)).value
  }

  /** Encoding works character by character, so it distributes over concatenation. */
  lemma {:induction false} EncodeConcat(a: string, b: string)
    ensures EncodeIgnore(a + b) == EncodeIgnore(a) + EncodeIgnore(b)
    decreases |a|
  {
    if a != [] {
      assert (a + b)[0] == a[0];
      assert (a + b)[1..] == a[1..] + b;
      EncodeConcat(a[1..], b);
    } else {
      assert a + b == b;
    }
  }

  /** Decoding valid ASCII bytes distributes over concatenation. */
  lemma {:induction false} DecodeConcat(a: seq<byte>, b: seq<byte>)
    requires Decode(a).Some? && Decode(b).Some?
    ensures Decode(a + b) == Some(Decode(a).value + Decode(b).value)
    decreases |a|
  {
    if a != [] {
      assert (a + b)[0] == a[0];
      assert (a + b)[1..] == a[1..] + b;
      DecodeConcat(a[1..], b);
      var c := a[0] as int as char;
      assert Decode(a).value == [c] + Decode(a[1..]).value;
      assert Decode(a + b).value == [c] + Decode(a[1..] + b).value;
      assert [c] + (Decode(a[1..]).value + Decode(b).value)
          == ([c] + Decode(a[1..]).value) + Decode(b).value;
    } else {
      assert a + b == b;
      assert Decode(a).value + Decode(b).value == Decode(b).value;
    }
  }

  /**
   * The cleaned text is the input's ASCII characters in their original order:
   * cleaning a concatenation cleans each part, one ASCII character is kept
   * and one other character is dropped.
   */
  lemma RemoveEmojisConcat(a: string, b: string)
    ensures RemoveEmojis(a + b) == RemoveEmojis(a) + RemoveEmojis(b)
  {
    EncodeConcat(a, b);
    DecodeConcat(EncodeIgnore(a), EncodeIgnore(b));
  }

  lemma RemoveEmojisChar(c: char)
    ensures RemoveEmojis([c]) == if IsAsciiChar(c) then [c] else []
  {
    assert [c][1..] == [];
    if IsAsciiChar(c) {
      assert RemoveEmojis([c])[0] as int == c as int;
    }
  }

  /** Text that is already ASCII comes back unchanged. */
  lemma {:induction false} RemoveEmojisAscii(text: string)
    requires IsAscii(text)
    ensures RemoveEmojis(text) == text
    decreases |text|
  {
    if text != [] {
      assert text == [text[0]] + text[1..];
      RemoveEmojisConcat([text[0]], text[1..]);
      RemoveEmojisChar(text[0]);
      RemoveEmojisAscii(text[1..]);
    }
  }

  /** Cleaning twice is the same as cleaning once. */
  lemma RemoveEmojisIdempotent(text: string)
    ensures RemoveEmojis(RemoveEmojis(text)) == RemoveEmojis(text)
  {
    RemoveEmojisAscii(RemoveEmojis(text));
  }
}
