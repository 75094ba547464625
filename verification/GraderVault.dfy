/** Encryption at rest of the API keys in grader configurations. */
module GraderVault {
  import opened Workflow
  import opened Crypto

  const ENC_PREFIX := "enc:"
  const API_KEY := "api_key"
  const MIN_CIPHERTEXT := 29

  const SENSITIVE_TYPES: set<string> := {"llm_judge", "checklist"}

  datatype Grader = Grader(id: string, kind: string, details: nat, config: Option<Data>)
  {
    /** The API key as far as the vault looks at it: a string in a sensitive grader's configuration. */
    function Key(): Option<string>
    {
      if kind in SENSITIVE_TYPES && config.Some? && API_KEY in config.value && config.value[API_KEY].Text?
      then Some(config.value[API_KEY].text) else None
    }

    function WithKey(key: string): (g: Grader)
      requires Key().Some?
      ensures g.Key() == Some(key) && g.(config := config) == this
      ensures g.config.value.Keys == config.value.Keys
      ensures forall k :: k in config.value && k != API_KEY ==> g.config.value[k] == config.value[k]
    {
      this.(config := Some(config.value[API_KEY := Text(key)]))
    }
  }

  /** What the random source yields at each index of a list. */
  type Draws = nat -> Option<Nonce>

  predicate HasPrefix(s: string)
  {
    |s| >= 4 && s[..4] == ENC_PREFIX
  }

  class Vault {
    const cipher: Cipher
    const b64: Base64

    constructor (cipher: Cipher, b64: Base64)
      ensures this.cipher == cipher && this.b64 == b64
    {
      this.cipher, this.b64 := cipher, b64;
    }

    ghost predicate Lawful()
    {
      cipher.Lawful() && b64.Lawful()
    }

    /** Prefixed, and long enough after decoding to be a ciphertext of a non-empty text. */
    predicate Shaped(s: string)
    {
      HasPrefix(s) && b64.decode(s[4..]).Some? && |b64.decode(s[4..]).value| >= MIN_CIPHERTEXT
    }

    function EncryptValue(nonce: Option<Nonce>, plaintext: string): Result<string>
    {
      if Shaped(plaintext) then Ok(plaintext)
      else
        match cipher.EncryptText(nonce, plaintext)
        case Err(e) => Err(e)
        case Ok(c) => Ok(ENC_PREFIX + b64.encode(c))
    }

    function DecryptValue(encrypted: string): Result<string>
    {
      if !HasPrefix(encrypted) then Ok(encrypted)
      else
        match b64.decode(encrypted[4..])
        case None => Err("base64 decode")
        case Some(c) => cipher.DecryptText(c)
    }

    /** Keys that are empty or masked are left alone. */
    function EncryptOne(nonce: Option<Nonce>, g: Grader): Result<Grader>
    {
      match g.Key()
      case None => Ok(g)
      case Some(key) =>
        if key == "" || key == MASK then Ok(g)
        else
          match EncryptValue(nonce, key)
          case Err(e) => Err(e)
          case Ok(c) => Ok(g.WithKey(c))
    }

    function DecryptOne(g: Grader): Result<Grader>
    {
      match g.Key()
      case None => Ok(g)
      case Some(key) =>
        match DecryptValue(key)
        case Err(e) => Err(e)
        case Ok(t) => Ok(g.WithKey(t))
    }

    // ---- One value ----

    /** What a fresh encryption looks like and decrypts to. */
    lemma FreshCiphertext(nonce: Option<Nonce>, s: string)
      requires Lawful() && !Shaped(s) && nonce.Some?
      ensures var c := EncryptValue(nonce, s);
        && c.Ok? && HasPrefix(c.value) && DecryptValue(c.value) == Ok(s)
        && b64.decode(c.value[4..]).Some? && |b64.decode(c.value[4..]).value| >= NONCE_SIZE + |s| + TAG_SIZE
        && (Shaped(c.value) <==> s != "")
    {
      cipher.TextRoundTrip(nonce, s);
      var c := cipher.EncryptText(nonce, s).value;
      assert (ENC_PREFIX + b64.encode(c))[4..] == b64.encode(c);
    }

    /** Encrypting a value again changes nothing if and only if the value is not empty: the
        ciphertext of the empty string has 28 bytes and is taken for a plaintext. */
    lemma EncryptValueTwice(nonce: Option<Nonce>, again: Option<Nonce>, s: string)
      requires Lawful() && EncryptValue(nonce, s).Ok?
      ensures EncryptValue(again, EncryptValue(nonce, s).value) == EncryptValue(nonce, s) <==> s != ""
    {
      if !Shaped(s) {
        FreshCiphertext(nonce, s);
        var e := EncryptValue(nonce, s).value;
        if s == "" && again.Some? {
          FreshCiphertext(again, e);
        }
      }
    }

    /** Decryption undoes encryption if and only if the value did not look encrypted already. */
    lemma DecryptValueUndoes(nonce: Option<Nonce>, s: string)
      requires Lawful() && EncryptValue(nonce, s).Ok?
      ensures DecryptValue(EncryptValue(nonce, s).value) == Ok(s) <==> !Shaped(s)
    {
      if Shaped(s) {
        var c := b64.decode(s[4..]).value;
        if cipher.DecryptText(c).Ok? {
          cipher.DecryptedLength(c);
        }
      } else {
        FreshCiphertext(nonce, s);
      }
    }

    // ---- One grader ----

    predicate KeyShaped(g: Grader)
    {
      g.Key().Some? && Shaped(g.Key().value)
    }

    /** No readable key is left: what remains is empty, masked or ciphertext. */
    predicate Hidden(g: Grader)
    {
      g.Key().Some? ==> g.Key().value in {"", MASK} || Shaped(g.Key().value)
    }

    /** The API key that is there to be read and needs encryption. */
    function Readable(g: Grader): Option<string>
    {
      if g.kind !in {"llm_judge", "checklist"} || g.config == None || "api_key" !in g.config.value then None
      else
        match g.config.value["api_key"]
        case Text(key) =>
          if key == "" || key == "***" || Encrypted(key) then None else Some(key)
        case _ => None
    }

    /** "enc:" in front of base64 of at least 29 bytes. */
    predicate Encrypted(s: string)
    {
      "enc:" <= s && b64.decode(s[4..]).Some? && |b64.decode(s[4..]).value| >= 29
    }

    /** What encryption makes of one grader. Only a non-empty text under "api_key" of an "llm_judge" or a
        "checklist" that is neither the mask nor encrypted already is replaced, by "enc:" and the
        base64 form of a ciphertext that decrypts to it; without a nonce that fails. */
    lemma EncryptsKeyOnly(nonce: Option<Nonce>, g: Grader)
      requires Lawful()
      ensures var r, key := EncryptOne(nonce, g), Readable(g);
        if key.None? then r == Ok(g)
        else if nonce.None? then r.Err?
        else
          && r.Ok? && r.value.config.Some? && r.value.(config := g.config) == g
          && r.value.config.value.Keys == g.config.value.Keys
          && (forall k :: k in g.config.value && k != "api_key" ==> r.value.config.value[k] == g.config.value[k])
          && exists c :: r.value.config.value["api_key"] == Text("enc:" + b64.encode(c)) &&
                         cipher.DecryptText(c) == Ok(key.value)
    {
      if g.Key().Some? {
        KeyRestored(g, "");
      }
      if Readable(g).Some? && nonce.Some? {
        cipher.TextRoundTrip(nonce, g.Key().value);
      }
    }

    /** What decryption makes of one grader: a key behind "enc:" is decoded and decrypted, or that fails; nothing
        else changes. */
    lemma DecryptsPrefixedOnly(g: Grader)
      ensures var r, key := DecryptOne(g), g.Key();
        if key.None? || !("enc:" <= key.value) then r == Ok(g)
        else if b64.decode(key.value[4..]).None? then r.Err?
        else
          var plain := cipher.DecryptText(b64.decode(key.value[4..]).value);
          if plain.Err? then r == Err(plain.error) else r == Ok(g.WithKey(plain.value))
    {
      if g.Key().Some? {
        KeyRestored(g, "");
      }
    }

    lemma KeyRestored(g: Grader, c: string)
      requires g.Key().Some?
      ensures g.WithKey(g.Key().value) == g && g.WithKey(c).WithKey(g.Key().value) == g
    {
      var key := g.Key().value;
      assert g.config.value[API_KEY := Text(key)] == g.config.value;
      assert g.config.value[API_KEY := Text(c)][API_KEY := Text(key)] == g.config.value;
    }

    lemma EncryptOneTwice(nonce: Option<Nonce>, again: Option<Nonce>, g: Grader)
      requires Lawful() && EncryptOne(nonce, g).Ok?
      ensures var e := EncryptOne(nonce, g).value; Hidden(e) && EncryptOne(again, e) == Ok(e)
    {
      if g.Key().Some? && g.Key().value !in {"", MASK} {
        var key := g.Key().value;
        if !Shaped(key) {
          FreshCiphertext(nonce, key);
        }
        KeyRestored(EncryptOne(nonce, g).value, "");
      }
    }

    lemma DecryptOneUndoes(nonce: Option<Nonce>, g: Grader)
      requires Lawful() && EncryptOne(nonce, g).Ok?
      ensures DecryptOne(EncryptOne(nonce, g).value) == Ok(g) <==> !KeyShaped(g)
    {
      if g.Key().Some? {
        var key := g.Key().value;
        KeyRestored(g, "");
        if key !in {"", MASK} {
          DecryptValueUndoes(nonce, key);
          KeyRestored(g, EncryptValue(nonce, key).value);
        }
      }
    }

    // ---- A list of graders ----

    ghost predicate EncryptsTo(draws: Draws, graders: seq<Grader>, result: seq<Grader>)
    {
      |result| == |graders| && forall i :: 0 <= i < |graders| ==> EncryptOne(draws(i), graders[i]) == Ok(result[i])
    }

    ghost predicate DecryptsTo(graders: seq<Grader>, result: seq<Grader>)
    {
      |result| == |graders| && forall i :: 0 <= i < |graders| ==> DecryptOne(graders[i]) == Ok(result[i])
    }

    /** Encrypting twice equals encrypting once, whatever the random source does the second
        time, and leaves no readable key. */
    lemma EncryptTwice(draws: Draws, again: Draws, graders: seq<Grader>, encrypted: seq<Grader>)
      requires Lawful() && EncryptsTo(draws, graders, encrypted)
      ensures EncryptsTo(again, encrypted, encrypted)
      ensures forall i :: 0 <= i < |encrypted| ==> Hidden(encrypted[i])
    {
      forall i | 0 <= i < |graders|
        ensures EncryptOne(again(i), encrypted[i]) == Ok(encrypted[i]) && Hidden(encrypted[i])
      {
        EncryptOneTwice(draws(i), again(i), graders[i]);
      }
    }

    /** Decryption gives the graders back if and only if none of their keys looked encrypted. */
    lemma DecryptUndoes(draws: Draws, graders: seq<Grader>, encrypted: seq<Grader>)
      requires Lawful() && EncryptsTo(draws, graders, encrypted)
      ensures DecryptsTo(encrypted, graders) <==> forall i :: 0 <= i < |graders| ==> !KeyShaped(graders[i])
    {
      forall i | 0 <= i < |graders|
        ensures DecryptOne(encrypted[i]) == Ok(graders[i]) <==> !KeyShaped(graders[i])
      {
        DecryptOneUndoes(draws(i), graders[i]);
      }
    }

    /** Fails exactly when some grader cannot be encrypted. */
    method EncryptGraders(draws: Draws, graders: seq<Grader>) returns (r: Result<seq<Grader>>)
      ensures r.Ok? <==> forall i :: 0 <= i < |graders| ==> EncryptOne(draws(i), graders[i]).Ok?
      ensures r.Ok? ==> EncryptsTo(draws, graders, r.value)
    {
      var result := [];
      for i := 0 to |graders|
        invariant |result| == i
        invariant forall j :: 0 <= j < i ==> EncryptOne(draws(j), graders[j]) == Ok(result[j])
      {
        var g := graders[i];
        var key := g.Key();
        if key != None && key.value != "" && key.value != MASK && !Shaped(key.value) {
          var sealed := cipher.EncryptText(draws(i), key.value);
          if sealed.Err? {
            return Err(sealed.error);
          }
          g := g.WithKey(ENC_PREFIX + b64.encode(sealed.value));
        } else if key != None {
          KeyRestored(g, "");
        }
        result := result + [g];
      }
      return Ok(result);
    }

    /** Fails exactly when some prefixed key does not decode or does not decrypt. */
    method DecryptGraders(graders: seq<Grader>) returns (r: Result<seq<Grader>>)
      ensures r.Ok? <==> forall i :: 0 <= i < |graders| ==> DecryptOne(graders[i]).Ok?
      ensures r.Ok? ==> DecryptsTo(graders, r.value)
    {
      var result := [];
      for i := 0 to |graders|
        invariant |result| == i
        invariant forall j :: 0 <= j < i ==> DecryptOne(graders[j]) == Ok(result[j])
      {
        var g := graders[i];
        var key := g.Key();
        if key != None && HasPrefix(key.value) {
          var decoded := b64.decode(key.value[4..]);
          if decoded == None {
            return Err("base64 decode");
          }
          var plain := cipher.DecryptText(decoded.value);
          if plain.Err? {
            return Err(plain.error);
          }
          g := g.WithKey(plain.value);
        } else if key != None {
          KeyRestored(g, "");
        }
        result := result + [g];
      }
      return Ok(result);
    }
  }
}
