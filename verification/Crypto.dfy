/** Authenticated encryption with the nonce in front, over an abstract GCM, an abstract
    base64 and an abstract text encoding, of which only the laws below are used. */
module Crypto {
  import opened Workflow

  /** What a client is shown instead of a secret. */
  const MASK := "***"

  const NONCE_SIZE := 12
  const TAG_SIZE := 16

  type Nonce = n: seq<byte> | |n| == NONCE_SIZE witness seq(NONCE_SIZE, _ => 0)

  /** Seal and open under one fixed key; the tag is part of what `seal` returns. */
  datatype Gcm = Gcm(seal: (Nonce, seq<byte>) -> seq<byte>, open: (Nonce, seq<byte>) -> Option<seq<byte>>)
  {
    ghost predicate Lawful()
    {
      && (forall n, t :: |seal(n, t)| == |t| + TAG_SIZE && open(n, seal(n, t)) == Some(t))
      && (forall n, c :: open(n, c).Some? ==> |c| == |open(n, c).value| + TAG_SIZE)
    }
  }

  /** The bytes of a string and the string of some bytes, which need not be valid text. */
  datatype TextCoding = TextCoding(bytes: string -> seq<byte>, text: seq<byte> -> string)
  {
    ghost predicate Lawful()
    {
      bytes("") == [] && (forall s :: text(bytes(s)) == s) && (forall b :: |text(b)| <= |b|)
    }
  }

  datatype Base64 = Base64(encode: seq<byte> -> string, decode: string -> Option<seq<byte>>)
  {
    ghost predicate Lawful()
    {
      (forall b :: decode(encode(b)) == Some(b)) && (forall s :: decode(s).Some? ==> |decode(s).value| <= |s|)
    }
  }

  datatype Cipher = Cipher(gcm: Gcm, coding: TextCoding)
  {
    ghost predicate Lawful()
    {
      gcm.Lawful() && coding.Lawful()
    }

    /** `nonce` is what the random source yields, or nothing when it fails. */
    function Encrypt(nonce: Option<Nonce>, plaintext: seq<byte>): Result<seq<byte>>
    {
      match nonce
      case None => Err("generate nonce")
      case Some(n) => Ok(n + gcm.seal(n, plaintext))
    }

    function Decrypt(data: seq<byte>): Result<seq<byte>>
    {
      if |data| < NONCE_SIZE then Err("ciphertext too short")
      else
        match gcm.open(data[..NONCE_SIZE], data[NONCE_SIZE..])
        case None => Err("decrypt")
        case Some(t) => Ok(t)
    }

    function EncryptText(nonce: Option<Nonce>, s: string): Result<seq<byte>>
    {
      Encrypt(nonce, coding.bytes(s))
    }

    function DecryptText(data: seq<byte>): Result<string>
    {
      match Decrypt(data)
      case Err(e) => Err(e)
      case Ok(t) => Ok(coding.text(t))
    }

    /** A ciphertext is the 12 bytes of the nonce followed by what was sealed under it, 28 bytes more than the
        plaintext, and decryption undoes encryption. */
    lemma DecryptEncrypt(nonce: Option<Nonce>, plaintext: seq<byte>)
      requires Lawful() && nonce.Some?
      ensures var c := Encrypt(nonce, plaintext);
        && c.Ok? && Decrypt(c.value) == Ok(plaintext) && |c.value| == |plaintext| + 28
        && c.value[..12] == nonce.value && c.value[12..] == gcm.seal(nonce.value, plaintext)
    {
      match nonce
      case Some(n) =>
        var body := gcm.seal(n, plaintext);
        assert (n + body)[..NONCE_SIZE] == n && (n + body)[NONCE_SIZE..] == body;
    }

    /** For texts: the round trip holds, and a ciphertext has at least 29 bytes unless the text is empty. */
    lemma TextRoundTrip(nonce: Option<Nonce>, s: string)
      requires Lawful() && nonce.Some?
      ensures var c := EncryptText(nonce, s);
        && c.Ok? && DecryptText(c.value) == Ok(s)
        && (|c.value| >= 29 <==> s != "") && |c.value| >= |s| + 28
    {
      DecryptEncrypt(nonce, coding.bytes(s));
      assert |coding.text(coding.bytes(s))| <= |coding.bytes(s)|;
    }

    /** What decrypts is shorter than its ciphertext. */
    lemma DecryptedLength(data: seq<byte>)
      requires Lawful() && DecryptText(data).Ok?
      ensures |data| >= NONCE_SIZE + |DecryptText(data).value| + TAG_SIZE
    {
    }
  }

  // ---- The laws can be met ----

  function PlainBytes(s: string): seq<byte>
  {
    if s == "" then []
    else
      Digits(s[0] as int) + PlainBytes(s[1..])
  }

  function Digits(n: int): (d: seq<byte>)
    requires 0 <= n < 0x100_0000
    ensures |d| == 3 && d[0] as int * 65536 + d[1] as int * 256 + d[2] as int == n
  {
    [(n / 256 / 256) as byte, (n / 256 % 256) as byte, (n % 256) as byte]
  }

  function PlainText(b: seq<byte>): (s: string)
    ensures |s| <= |b|
  {
    if |b| < 3 then ""
    else
      var n := b[0] as int * 65536 + b[1] as int * 256 + b[2] as int;
      (if n < 0xD800 || 0xE000 <= n < 0x11_0000 then [n as char] else "") + PlainText(b[3..])
  }

  lemma {:induction false} PlainRoundTrip(s: string)
    ensures PlainText(PlainBytes(s)) == s
  {
    if s != "" {
      PlainRoundTrip(s[1..]);
      assert PlainBytes(s)[3..] == PlainBytes(s[1..]);
    }
  }

  /** A cipher without any secrecy satisfies the laws, so they do not contradict each other. */
  lemma LawsCanBeMet() returns (cipher: Cipher, b64: Base64)
    ensures cipher.Lawful() && b64.Lawful()
  {
    var tag := seq(TAG_SIZE, _ => 0 as byte);
    var gcm := Gcm((n: Nonce, t: seq<byte>) => t + tag,
                   (n: Nonce, c: seq<byte>) => if |c| < TAG_SIZE then None else Some(c[..|c| - TAG_SIZE]));
    forall n: Nonce, t: seq<byte>
      ensures gcm.open(n, gcm.seal(n, t)) == Some(t)
    {
      assert (t + tag)[..|t + tag| - TAG_SIZE] == t;
    }
    forall s: string
      ensures PlainText(PlainBytes(s)) == s
    {
      PlainRoundTrip(s);
    }
    cipher := Cipher(gcm, TextCoding(PlainBytes, PlainText));
    b64 := Base64(SpelledOut, ReadBack);
    forall b: seq<byte>
      ensures ReadBack(SpelledOut(b)) == Some(b)
    {
      var s := SpelledOut(b);
      assert forall i :: 0 <= i < |b| ==> s[i] as int == b[i] as int;
      assert ReadBack(s).value == b;
    }
  }

  function SpelledOut(b: seq<byte>): string
  {
    seq(|b|, i requires 0 <= i < |b| => (b[i] as int) as char)
  }

  function ReadBack(s: string): Option<seq<byte>>
  {
    if forall i :: 0 <= i < |s| ==> s[i] as int < 256
    then Some(seq(|s|, i requires 0 <= i < |s| && s[i] as int < 256 => (s[i] as int) as byte)) else None
  }
}
