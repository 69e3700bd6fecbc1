/**
 C strings held in fixed byte buffers: where a string ends, and what `strncpy`
 (section 7.21.2.4 of C99, ISO/IEC 9899:1999) leaves behind in the destination.
 */
module CText {

  newtype Byte = x: int | 0 <= x < 256
  type Text = seq<Byte>

  const NUL: Byte := 0

  /** The size of every array that holds a name with its terminator. */
  const NAME_ARRAY: nat := 32

  datatype Option<+T> = None | Some(value: T)

  /** The bytes before the first NUL, or all of them when there is none. */
  function CStr(buffer: Text): (name: Text)
    ensures NUL !in name
    ensures name <= buffer
    ensures |name| < |buffer| ==> buffer[|name|] == NUL
  {
    if buffer == [] || buffer[0] == NUL then [] else [buffer[0]] + CStr(buffer[1..])
  }

  function Zeros(n: nat): (z: Text)
    ensures |z| == n && forall i :: 0 <= i < n ==> z[i] == NUL
  {
    seq(n, _ => NUL)
  }

  function Min(a: nat, b: nat): nat { if a < b then a else b }

  /** What the first `size` bytes of the destination hold after `strncpy(_, source, size)`. */
  function Copied(source: Text, size: nat): (bytes: Text)
    ensures |bytes| == size
  {
    var text := CStr(source);
    var kept := Min(|text|, size);
    text[..kept] + Zeros(size - kept)
  }

  /** The whole destination buffer after `strncpy(buffer, source, size)`. */
  function StrNCpy(buffer: Text, source: Text, size: nat): (result: Text)
    requires size <= |buffer|
    ensures |result| == |buffer|
  {
    Copied(source, size) + buffer[size..]
  }

  /** A C string is the longest NUL-free prefix; that pins it down. */
  lemma {:induction false} CStrUnique(buffer: Text, name: Text)
    requires NUL !in name && name <= buffer
    requires |name| < |buffer| ==> buffer[|name|] == NUL
    ensures CStr(buffer) == name
  {
    if name != [] {
      assert buffer[0] == name[0] && name[0] in name;
      CStrUnique(buffer[1..], name[1..]);
      assert name == [name[0]] + name[1..];
    }
  }

  lemma CStrIdentity(name: Text)
    requires NUL !in name
    ensures CStr(name) == name
  {
    CStrUnique(name, name);
  }

  /**
   The copied text reads back whole exactly when the copy placed its own terminator
   or the byte after the copied range already was one.
   */
  lemma StrNCpyReadsBack(buffer: Text, source: Text, size: nat)
    requires size < |buffer|
    requires |CStr(source)| <= size
    ensures CStr(StrNCpy(buffer, source, size)) == CStr(source)
            <==> |CStr(source)| < size || buffer[size] == NUL
  {
    var text := CStr(source);
    var result := StrNCpy(buffer, source, size);
    assert result[..|text|] == text;
    if |text| < size || buffer[size] == NUL {
      assert result[|text|] == NUL;
      CStrUnique(result, text);
    } else {
      assert result[|text|] == buffer[size] != NUL;
    }
  }

  /** What a reader sees of an array of which `strncpy` copied the first `size` bytes into zeros. */
  function Seen(buffer: Text, size: nat): Text {
    CStr(buffer)[..Min(|CStr(buffer)|, size)]
  }

  lemma SeenIsRead(buffer: Text, size: nat, pad: nat)
    ensures CStr(Copied(buffer, size) + Zeros(pad)) == Seen(buffer, size)
    ensures Copied(buffer, size) == Seen(buffer, size) + Zeros(size - |Seen(buffer, size)|)
  {
    var text, seen := CStr(buffer), Seen(buffer, size);
    assert forall b :: b in seen ==> b in text;
    var all := Copied(buffer, size) + Zeros(pad);
    assert all[..|seen|] == seen;
    CStrUnique(all, seen);
  }

  /** A string that starts with bytes other than NUL is at least as long. */
  lemma {:induction false} LongerThanPrefix(buffer: Text, text: Text)
    requires NUL !in text && text <= buffer
    ensures text <= CStr(buffer)
  {
    if text != [] {
      assert buffer[0] == text[0] && text[0] in text;
      LongerThanPrefix(buffer[1..], text[1..]);
      assert text == [text[0]] + text[1..];
    }
  }

  lemma CopyFront(buffer: Text, source: Text)
    requires |source| <= |buffer|
    ensures var text, result := CStr(source), StrNCpy(buffer, source, |source|);
      text <= result && (|text| < |source| ==> result[|text|] == NUL)
  {
    var text := CStr(source);
    assert Copied(source, |source|)[..|text|] == text;
  }

  lemma SeenIs(buffer: Text, text: Text, size: nat)
    requires NUL !in text && text <= buffer && |text| <= size <= |buffer|
    requires |text| < size ==> buffer[|text|] == NUL
    ensures Seen(buffer, size) == text
  {
    LongerThanPrefix(buffer, text);
    if |text| < size { CStrUnique(buffer, text); }
  }

  /** Whatever stands behind them, the bytes just copied in are seen as they were copied. */
  lemma SeenAfterCopy(buffer: Text, source: Text)
    requires |source| <= |buffer|
    ensures Seen(StrNCpy(buffer, source, |source|), |source|) == CStr(source)
  {
    CopyFront(buffer, source);
    SeenIs(StrNCpy(buffer, source, |source|), CStr(source), |source|);
  }
}
