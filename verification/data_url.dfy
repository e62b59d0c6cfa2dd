/** Base64 data URLs as the services handle them: removal of a leading
    `data:image/<word>;base64,` header, and the byte values a `Uint8Array`
    stores. */
module DataUrl {
  import opened Wrappers
  import opened Strings

  /** One element of a `Uint8Array`. */
  newtype Byte = x: int | 0 <= x < 256

  /** The value a `Uint8Array` element holds after `a[i] = n`: ToUint8, the low eight bits. */
  function ToUint8(n: int): Byte {
    (n % 256) as Byte
  }

  /** The regular-expression class `\w`. */
  predicate IsWordChar(c: char) {
    'A' <= c <= 'Z' || 'a' <= c <= 'z' || '0' <= c <= '9' || c == '_'
  }

  predicate IsWord(w: string) {
    forall i :: 0 <= i < |w| ==> IsWordChar(w[i])
  }

  const ImageHead: string := "data:image/"
  const Base64Tag: string := ";base64,"

  /** The length of the longest run of word characters at the start of `s`. */
  function WordRun(s: string): (n: nat)
    ensures n <= |s| && IsWord(s[..n])
    ensures n < |s| ==> !IsWordChar(s[n])
  {
    if |s| > 0 && IsWordChar(s[0]) then
      var n := 1 + WordRun(s[1..]);
      assert s[..n] == [s[0]] + s[1..][..n - 1];
      n
    else 0
  }

  /** The length of the text `/^data:image\/\w+;base64,/` matches at the
      start of `s`, if it matches. The greedy `\w+` cannot give back
      characters to let `;` match, since `;` is not a word character. */
  function ImageHeaderLength(s: string): Option<nat> {
    if !StartsWith(s, ImageHead) then None
    else
      var n := WordRun(s[|ImageHead|..]);
      if n > 0 && StartsWith(s[|ImageHead| + n..], Base64Tag) then Some(|ImageHead| + n + |Base64Tag|)
      else None
  }

  /** `s.replace(/^data:image\/\w+;base64,/, '')`. */
  function StripImageHeader(s: string): (r: string)
    ensures |r| <= |s| && r == s[|s| - |r|..]
    ensures !StartsWith(s, ImageHead) ==> r == s
  {
    match ImageHeaderLength(s)
    case Some(k) => s[k..]
    case None => s
  }

  /** A data URL with an image header strips to its payload. */
  lemma StripImageHeaderOf(word: string, payload: string)
    requires |word| > 0 && IsWord(word)
    ensures StripImageHeader(ImageHead + word + Base64Tag + payload) == payload
  {
    var t := Base64Tag + payload;
    var rest := word + t;
    var s := ImageHead + rest;
    assert s == ImageHead + word + Base64Tag + payload;
    Prefixed(ImageHead, rest);
    Prefixed(word, t);
    Prefixed(Base64Tag, payload);
    assert t[0] == ';';
    WordRunOf(word, t);
    assert s[|ImageHead| + |word|..] == t;
    assert ImageHeaderLength(s) == Some(|ImageHead| + |word| + |Base64Tag|);
    assert s[|ImageHead| + |word| + |Base64Tag|..] == t[|Base64Tag|..];
  }

  lemma Prefixed(a: string, b: string)
    ensures StartsWith(a + b, a) && (a + b)[|a|..] == b
  {
    assert (a + b)[..|a|] == a;
  }

  lemma {:induction false} WordRunOf(word: string, rest: string)
    requires IsWord(word)
    requires |rest| > 0 && !IsWordChar(rest[0])
    ensures WordRun(word + rest) == |word|
  {
    if |word| > 0 {
      assert (word + rest)[1..] == word[1..] + rest;
      WordRunOf(word[1..], rest);
    } else {
      assert word + rest == rest;
    }
  }

  /** The header the image generator writes, `data:image/png;base64,`, is one of them. */
  lemma StripPngPayload(payload: string)
    ensures StripImageHeader("data:image/png;base64," + payload) == payload
  {
    assert "data:image/png;base64," + payload == ImageHead + "png" + Base64Tag + payload;
    StripImageHeaderOf("png", payload);
  }

  /** The bytes a `Uint8Array` holds after copying the char codes of `binary`. */
  function CharCodes(binary: string): (r: seq<Byte>)
    ensures |r| == |binary|
  {
    seq(|binary|, i requires 0 <= i < |binary| => ToUint8(binary[i] as int))
  }
}
