/** The configuration vault: sensitive values are encrypted on write, decrypted on read and
    masked towards clients, and a masked value sent back keeps the stored ciphertext. */
module ConfigVault {
  import opened Workflow
  import opened Crypto
  import opened Tables

  /** The random source, asked at most once for every key of a node. */
  type Draws = string -> Option<Nonce>

  /** What becomes of one configuration value on its way into the store. */
  datatype Fate = Untouched | Dropped | SealedAs(ciphertext: seq<byte>) | Failed(error: string)

  datatype Vault = Vault(cipher: Cipher, b64: Base64, registry: string -> set<string>)
  {
    ghost predicate Lawful()
    {
      cipher.Lawful() && b64.Lawful()
    }

    /** The text the vault would seal under `k`, if any. */
    predicate Secret(n: StoredNode, k: string)
    {
      k in n.Config() && k in registry(n.typeId) && n.Config()[k].Text?
    }

    /** An update (`existing` is given) treats the mask as "keep what is stored"; a create does not. */
    function FateOf(draws: Draws, existing: Option<StoredNode>, updating: bool, n: StoredNode, k: string): Fate
    {
      if !Secret(n, k) then Untouched
      else
        var text := n.Config()[k].text;
        if updating && text == MASK then
          if existing.Some? && k in existing.value.Config() && existing.value.Config()[k].Bytes?
          then SealedAs(existing.value.Config()[k].bytes) else Dropped
        else
          match cipher.EncryptText(draws(k), text)
          case Err(e) => Failed(e)
          case Ok(c) => SealedAs(c)
    }

    predicate Protectable(draws: Draws, existing: Option<StoredNode>, updating: bool, n: StoredNode)
    {
      forall k :: k in n.Config() ==> !FateOf(draws, existing, updating, n, k).Failed?
    }

    /** A node as the vault hands it to the store. */
    function Protected(draws: Draws, existing: Option<StoredNode>, updating: bool, n: StoredNode): StoredNode
      requires Protectable(draws, existing, updating, n)
    {
      if n.config == None then n
      else
        n.(config := Some(map k | k in n.Config() && !FateOf(draws, existing, updating, n, k).Dropped? ::
             match FateOf(draws, existing, updating, n, k) case SealedAs(c) => Bytes(c) case _ => n.Config()[k]),
           sensitive := n.sensitive +
                        map k | k in n.Config() && FateOf(draws, existing, updating, n, k).SealedAs? :: true)
    }

    // ---- Reading ----

    predicate Readable(n: StoredNode)
    {
      forall k :: k in n.Config() && n.Marks(k) && n.Config()[k].Bytes? ==> cipher.DecryptText(n.Config()[k].bytes).Ok?
    }

    function PlainValue(n: StoredNode, k: string): Value
      requires k in n.Config() && Readable(n)
    {
      if n.Marks(k) && n.Config()[k].Bytes? then Text(cipher.DecryptText(n.Config()[k].bytes).value) else n.Config()[k]
    }

    /** A node with its secrets decrypted. */
    function Opened(n: StoredNode): StoredNode
      requires Readable(n)
    {
      if n.config == None then n else n.(config := Some(map k | k in n.Config() :: PlainValue(n, k)))
    }

    /** What a client that changes nothing sends back: JSON carries neither the marks nor an
        empty configuration. */
    function Echo(n: StoredNode): StoredNode
    {
      n.(config := if n.Config() == map[] then None else Some(map k | k in n.Config() :: AsJson(b64, n.Config()[k])),
         sensitive := map[])
    }

    // ---- One masked round on one node ----

    function Incoming(s: StoredNode): StoredNode
      requires Readable(s)
    {
      Echo(Masked(Opened(s)))
    }

    lemma IncomingAt(s: StoredNode, k: string)
      requires IsStored(s) && Readable(s)
      ensures Incoming(s).Config().Keys == s.Config().Keys && Incoming(s).sensitive == map[]
      ensures Incoming(s).typeId == s.typeId
      ensures k in s.Config() ==> Incoming(s).Config()[k] == (if s.Marks(k) then Text(MASK) else s.Config()[k])
    {
      var m := Masked(Opened(s));
      assert m.Config().Keys == s.Config().Keys;
      assert m.Config() == map[] ==> s.Config().Keys == {};
      if k in s.Config() && m.Config() != map[] {
        assert m.Config()[k] == if s.Marks(k) then Text(MASK) else s.Config()[k];
      }
    }

    /** What the store holds for a node after it was read, masked, sent back and updated. */
    function AfterRound(draws: Draws, s: StoredNode): StoredNode
      requires Readable(s) && Protectable(draws, Some(s), true, Incoming(s))
    {
      Settled(b64, Protected(draws, Some(s), true, Incoming(s)))
    }

    /** Whether a value outlives a masked round. A sealed value does while its key is still
        declared sensitive; a plain one unless its key is declared sensitive and it is the mask. */
    predicate Survives(s: StoredNode, k: string)
      requires k in s.Config() && Readable(s)
    {
      if s.Marks(k) then k in registry(s.typeId) || PlainValue(s, k) == Text(MASK)
      else k in registry(s.typeId) ==> s.Config()[k] != Text(MASK)
    }

    lemma FateInRound(draws: Draws, s: StoredNode, k: string)
      requires Lawful() && IsStored(s) && Readable(s) && k in s.Config()
      requires Protectable(draws, Some(s), true, Incoming(s))
      ensures var fate := FateOf(draws, Some(s), true, Incoming(s), k);
        if k !in registry(s.typeId) then fate == Untouched
        else if s.Marks(k) then fate == SealedAs(s.Config()[k].bytes)
        else if !s.Config()[k].Text? then fate == Untouched
        else if s.Config()[k] == Text(MASK) then fate == Dropped
        else fate.SealedAs? && cipher.DecryptText(fate.ciphertext) == Ok(s.Config()[k].text)
    {
      IncomingAt(s, k);
      var fate := FateOf(draws, Some(s), true, Incoming(s), k);
      if k in registry(s.typeId) && !s.Marks(k) && s.Config()[k].Text? && s.Config()[k] != Text(MASK) {
        assert !fate.Failed?;
        cipher.TextRoundTrip(draws(k), s.Config()[k].text);
      }
    }

    lemma RoundAt(draws: Draws, s: StoredNode, k: string)
      requires Lawful() && IsStored(s) && Readable(s)
      requires Protectable(draws, Some(s), true, Incoming(s))
      ensures var t := AfterRound(draws, s); var fate := FateOf(draws, Some(s), true, Incoming(s), k);
        && (k in t.Config() <==> k in s.Config() && !fate.Dropped?)
        && (k in t.Config() ==> t.Marks(k) == fate.SealedAs?)
        && (k in t.Config() ==>
              t.Config()[k] ==
                if fate.SealedAs? then Bytes(fate.ciphertext) else if s.Marks(k) then Text(MASK) else s.Config()[k])
    {
      IncomingAt(s, k);
      var p := Protected(draws, Some(s), true, Incoming(s));
      assert k in p.Config() ==> p.Marks(k) == FateOf(draws, Some(s), true, Incoming(s), k).SealedAs?;
    }

    /** A masked round leaves every decrypted value of a node as it was if and only if every
        value survives. */
    lemma RoundExact(draws: Draws, s: StoredNode)
      requires Lawful() && IsStored(s) && Readable(s)
      requires Protectable(draws, Some(s), true, Incoming(s))
      ensures Readable(AfterRound(draws, s))
      ensures Opened(AfterRound(draws, s)).Config() == Opened(s).Config() <==>
        forall k :: k in s.Config() ==> Survives(s, k)
    {
      var t := AfterRound(draws, s);
      forall k
        ensures k in t.Config() ==> k in s.Config() && DecryptsAt(t, k)
      {
        RoundDecrypts(draws, s, k);
      }
      forall k | k in s.Config()
        ensures Survives(s, k) <==> k in t.Config() && PlainValue(t, k) == PlainValue(s, k)
      {
        RoundAt(draws, s, k);
        FateInRound(draws, s, k);
      }
      SamePlain(s, t);
    }

    predicate DecryptsAt(n: StoredNode, k: string)
    {
      k in n.Config() && n.Marks(k) && n.Config()[k].Bytes? ==> cipher.DecryptText(n.Config()[k].bytes).Ok?
    }

    lemma RoundDecrypts(draws: Draws, s: StoredNode, k: string)
      requires Lawful() && IsStored(s) && Readable(s)
      requires Protectable(draws, Some(s), true, Incoming(s))
      ensures k in AfterRound(draws, s).Config() ==> k in s.Config() && DecryptsAt(AfterRound(draws, s), k)
    {
      RoundAt(draws, s, k);
      if k in s.Config() {
        FateInRound(draws, s, k);
      }
    }

    /** Two nodes show the same decrypted values exactly when they do so key by key. */
    lemma SamePlain(s: StoredNode, t: StoredNode)
      requires Readable(s) && Readable(t) && forall k :: k in t.Config() ==> k in s.Config()
      ensures Opened(t).Config() == Opened(s).Config() <==>
        forall k :: k in s.Config() ==> k in t.Config() && PlainValue(t, k) == PlainValue(s, k)
    {
      var a, b := Opened(s).Config(), Opened(t).Config();
      assert forall k :: k in s.Config() ==> k in a && a[k] == PlainValue(s, k);
      assert forall k :: k in t.Config() ==> k in b && b[k] == PlainValue(t, k);
    }

    /** The store and the registry agree: exactly the texts under sensitive keys are sealed. */
    predicate InStep(s: StoredNode)
    {
      forall k :: k in s.Config() ==>
        if s.Marks(k) then k in registry(s.typeId) else k in registry(s.typeId) ==> !s.Config()[k].Text?
    }

    /** With an unchanged registry a masked round cannot fail, encrypts nothing, and leaves the
        stored row as it was, ciphertexts bit for bit. */
    lemma RoundKeepsRow(draws: Draws, s: StoredNode)
      requires Lawful() && IsStored(s) && Readable(s) && InStep(s)
      ensures Protectable(draws, Some(s), true, Incoming(s))
      ensures Protected(draws, Some(s), true, Incoming(s)).Sealed() && AfterRound(draws, s) == s
    {
      RoundCannotFail(draws, s);
      var t := AfterRound(draws, s);
      forall k
        ensures k in t.Config() <==> k in s.Config()
        ensures k in s.Config() ==> t.Config()[k] == s.Config()[k] && t.Marks(k) == s.Marks(k)
      {
        RoundKeepsAt(draws, s, k);
      }
      SameNode(s, t);
    }

    lemma RoundCannotFail(draws: Draws, s: StoredNode)
      requires Lawful() && IsStored(s) && Readable(s) && InStep(s)
      ensures Protectable(draws, Some(s), true, Incoming(s))
    {
      forall k | k in Incoming(s).Config()
        ensures !FateOf(draws, Some(s), true, Incoming(s), k).Failed?
      {
        IncomingAt(s, k);
      }
    }

    lemma RoundKeepsAt(draws: Draws, s: StoredNode, k: string)
      requires Lawful() && IsStored(s) && Readable(s) && InStep(s)
      requires Protectable(draws, Some(s), true, Incoming(s))
      ensures var t := AfterRound(draws, s);
        && (k in t.Config() <==> k in s.Config())
        && (k in s.Config() ==> t.Config()[k] == s.Config()[k] && t.Marks(k) == s.Marks(k))
    {
      RoundAt(draws, s, k);
      if k in s.Config() {
        FateInRound(draws, s, k);
      }
    }

    lemma SameNode(s: StoredNode, t: StoredNode)
      requires s.id == t.id && s.typeId == t.typeId && s.details == t.details && s.config.Some? && t.config.Some?
      requires s.sensitive.Keys == s.Config().Keys && t.sensitive.Keys == t.Config().Keys
      requires forall k :: k in t.Config() <==> k in s.Config()
      requires forall k :: k in s.Config() ==> t.Config()[k] == s.Config()[k] && t.Marks(k) == s.Marks(k)
      ensures s == t
    {
      assert t.Config() == s.Config();
      assert t.sensitive == s.sensitive;
    }

    // ---- Any update ----

    /** A node as it arrives in a request: decoded from JSON, without marks. */
    predicate IsRequest(n: StoredNode)
    {
      n.sensitive == map[] && forall k :: k in n.Config() ==> !n.Config()[k].Bytes? && !n.Config()[k].Int?
    }

    /** Whatever a client sends, what reaches the store is sealed and in step with the registry,
        and every secret in it is either the stored ciphertext or an encryption of what was
        sent. An update never encrypts the mask, and never stores it under a sensitive key. What
        is sent under other keys is stored as it was sent, and no other key is. */
    lemma UpdateSeals(draws: Draws, existing: Option<StoredNode>, updating: bool, n: StoredNode)
      requires Lawful() && IsRequest(n) && Protectable(draws, existing, updating, n)
      ensures var p := Protected(draws, existing, updating, n);
        && p.Sealed() && IsStored(Settled(b64, p)) && InStep(Settled(b64, p))
        && (forall k :: k in p.Config() && k !in registry(n.typeId) ==>
              k in n.Config() && p.Config()[k] == n.Config()[k] && !p.Marks(k))
        && (forall k :: k in n.Config() && k !in registry(n.typeId) ==> k in p.Config())
        && forall k :: k in p.Config() && k in registry(n.typeId) ==>
             k in n.Config() &&
             if p.Marks(k) then
               || (n.Config()[k] == Text(MASK) && updating && existing.Some? &&
                   k in existing.value.Config() && existing.value.Config()[k] == p.Config()[k])
               || (n.Config()[k].Text? && (updating ==> n.Config()[k].text != MASK) &&
                   cipher.DecryptText(p.Config()[k].bytes) == Ok(n.Config()[k].text))
             else p.Config()[k] == n.Config()[k] && !n.Config()[k].Text?
    {
      var p := Protected(draws, existing, updating, n);
      forall k | k in p.Config()
        ensures k in n.Config() && p.Marks(k) == FateOf(draws, existing, updating, n, k).SealedAs?
        ensures p.Marks(k) ==> p.Config()[k].Bytes? && k in registry(n.typeId)
        ensures p.Marks(k) && !(updating && n.Config()[k].text == MASK) ==>
          cipher.DecryptText(p.Config()[k].bytes) == Ok(n.Config()[k].text)
      {
        var fate := FateOf(draws, existing, updating, n, k);
        assert !fate.Failed?;
        if fate.SealedAs? && !(updating && n.Config()[k].text == MASK) {
          cipher.TextRoundTrip(draws(k), n.Config()[k].text);
        }
      }
    }
  }

  /** How a node looks when it is read from the tables. */
  predicate IsStored(s: StoredNode)
  {
    && s.config.Some? && s.sensitive.Keys == s.Config().Keys && s.Sealed()
    && SettledRetry(s.details.retry) == s.details.retry
    && forall k :: k in s.Config() && !s.Marks(k) ==> !s.Config()[k].Bytes? && !s.Config()[k].Int?
  }

  /** A node as clients are shown it: three asterisks for every value marked sensitive. */
  function Masked(n: StoredNode): (m: StoredNode)
    ensures m.Config().Keys == n.Config().Keys && m.(config := n.config) == n
    ensures forall k :: k in n.Config() ==> m.Config()[k] == if n.Marks(k) then Text("***") else n.Config()[k]
  {
    if n.config == None then n
    else n.(config := Some(map k | k in n.Config() :: if n.Marks(k) then Text(MASK) else n.Config()[k]))
  }
}
