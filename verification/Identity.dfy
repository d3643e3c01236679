/** The client's identity (client/src-tauri/src/identity.rs): a seed kept in the OS keyring and cached
    for the life of the process, and the one thing it signs. */
module Identity {
  import opened Protocol
  import opened Codec
  import opened Payload
  import opened Login

  datatype IdentityError =
    | KeyringInaccessible
    | KeyringUnreadable
    | KeyringNotSaved
    | StoredIdentityNotBase64
    | StoredIdentityWrongLength
    | NonceNotBase64
    | NonceWrongLength

  /** Which keyring calls fail, decided by the operating system. */
  datatype KeyringFaults = KeyringFaults(open: bool, read: bool, save: bool)

  function DecodeSeed(text: string): Result<Bytes32, IdentityError> {
    match Base64Decode(text)
    case None => Err(StoredIdentityNotBase64)
    case Some(bytes) => if |bytes| == 32 then Ok(bytes) else Err(StoredIdentityWrongLength)
  }

  function DecodeNonce(text: string): Result<Bytes32, IdentityError> {
    match Base64Decode(text)
    case None => Err(NonceNotBase64)
    case Some(bytes) => if |bytes| == 32 then Ok(bytes) else Err(NonceWrongLength)
  }

  /** A nonce or seed is accepted in its one canonical text only. */
  lemma SecretTextIsExact(text: string, bytes: Bytes32)
    ensures DecodeNonce(text) == Ok(bytes) <==> text == Base64Encode(bytes)
    ensures DecodeSeed(text) == Ok(bytes) <==> text == Base64Encode(bytes)
  {
    Base64IsExact(text, bytes);
  }

  /** A text that is not one of these is refused as no encoding at all, or as one of the wrong number of bytes. */
  lemma SecretTextErrors(text: string)
    ensures var encodesSome := exists bytes: seq<Byte> :: text == Base64Encode(bytes);
            && (DecodeNonce(text) == Err(NonceNotBase64) <==> !encodesSome)
            && (DecodeSeed(text) == Err(StoredIdentityNotBase64) <==> !encodesSome)
    ensures var encodesOther := exists bytes: seq<Byte> :: text == Base64Encode(bytes) && |bytes| != 32;
            && (DecodeNonce(text) == Err(NonceWrongLength) <==> encodesOther)
            && (DecodeSeed(text) == Err(StoredIdentityWrongLength) <==> encodesOther)
  {
    forall bytes: seq<Byte> {
      Base64IsExact(text, bytes);
    }
    if Base64Decode(text).Some? {
      assert text == Base64Encode(Base64Decode(text).value);
    }
  }

  datatype Loaded = Loaded(cached: Option<Bytes32>, password: Option<string>, seed: Result<Bytes32, IdentityError>)

  /** Cache first; then the keyring entry; only if there is none, a fresh seed that is saved before it is used. */
  function LoadOrCreateSeed(
    cached: Option<Bytes32>, password: Option<string>, drawn: Bytes32, faults: KeyringFaults): Loaded
  {
    if cached.Some? then Loaded(cached, password, Ok(cached.value))
    else if faults.open then Loaded(cached, password, Err(KeyringInaccessible))
    else if faults.read then Loaded(cached, password, Err(KeyringUnreadable))
    else match password
      case Some(text) =>
        var decoded := DecodeSeed(text);
        Loaded(if decoded.Ok? then Some(decoded.value) else cached, password, decoded)
      case None =>
        if faults.save then Loaded(cached, password, Err(KeyringNotSaved))
        else Loaded(Some(drawn), Some(Base64Encode(drawn)), Ok(drawn))
  }

  /** A cached seed is used as it is; the first use of an identity takes the seed that is stored, or else the one that was
      drawn, and stores it; and what stands in the way is the error. Only a seed that was drawn changes the entry. */
  lemma LoadsOrCreatesExactly(cached: Option<Bytes32>, password: Option<string>, drawn: Bytes32, faults: KeyringFaults)
    ensures var loaded := LoadOrCreateSeed(cached, password, drawn, faults);
            && (cached.Some? ==> loaded.seed == Ok(cached.value) && loaded.cached == cached && loaded.password == password)
            && (cached.None? ==>
                  && loaded.cached == (if loaded.seed.Ok? then Some(loaded.seed.value) else None)
                  && (faults.open ==> loaded.seed == Err(KeyringInaccessible))
                  && (!faults.open && faults.read ==> loaded.seed == Err(KeyringUnreadable))
                  && (!faults.open && !faults.read && password.None? ==>
                        && loaded.seed == (if faults.save then Err(KeyringNotSaved) else Ok(drawn)))
                  && (!faults.open && !faults.read && password.Some? ==>
                        && (forall stored: Bytes32 :: password.value == Base64Encode(stored) <==> loaded.seed == Ok(stored))))
            && (loaded.password != password <==>
                  cached.None? && password.None? && !faults.open && !faults.read && !faults.save)
            && (loaded.password != password ==>
                  loaded.password.Some? && Base64Decode(loaded.password.value) == Some(drawn))
  {
    DecodeOfEncode(drawn);
    if password.Some? {
      forall stored: Bytes32 ensures DecodeSeed(password.value) == Ok(stored) <==> password.value == Base64Encode(stored) {
        SecretTextIsExact(password.value, stored);
      }
    }
  }

  /** The keyring entry, which other processes may rewrite. */
  class Keyring {
    var password: Option<string>

    constructor ()
      ensures password == None
    {
      password := None;
    }
  }

  function SignWithSeed(ed: Ed25519, seed: Bytes32, protocolVersion: U16, nonceBase64: string, serverTimestamp: U64)
    : Result<string, IdentityError>
  {
    match DecodeNonce(nonceBase64)
    case Err(error) => Err(error)
    case Ok(nonce) =>
      Ok(Base64Encode(ed.sign(seed, AuthSignaturePayload(
        Claims(protocolVersion, nonce, serverTimestamp, UserUid(ed.publicKey(seed)))))))
  }

  class IdentityStore {
    var cachedSeed: Option<Bytes32>

    constructor ()
      ensures cachedSeed == None
    {
      cachedSeed := None;
    }

    method LoadOrCreate(keyring: Keyring, drawn: Bytes32, faults: KeyringFaults)
      returns (seed: Result<Bytes32, IdentityError>)
      modifies this, keyring
      ensures Loaded(cachedSeed, keyring.password, seed)
           == LoadOrCreateSeed(old(cachedSeed), old(keyring.password), drawn, faults)
    {
      if cachedSeed.Some? {
        return Ok(cachedSeed.value);
      }
      if faults.open {
        return Err(KeyringInaccessible);
      }
      if faults.read {
        return Err(KeyringUnreadable);
      }
      if keyring.password.Some? {
        seed := DecodeSeed(keyring.password.value);
        if seed.Err? {
          return;
        }
      } else {
        if faults.save {
          return Err(KeyringNotSaved);
        }
        keyring.password := Some(Base64Encode(drawn));
        seed := Ok(drawn);
      }
      cachedSeed := Some(seed.value);
    }

    /** Signs only the authentication payload of a well-formed challenge, under this client's own key. */
    method SignAuthChallenge(ed: Ed25519, keyring: Keyring, drawn: Bytes32, faults: KeyringFaults,
                             protocolVersion: U16, nonceBase64: string, serverTimestamp: U64)
      returns (signature: Result<string, IdentityError>)
      modifies this, keyring
      ensures DecodeNonce(nonceBase64).Err? ==>
        cachedSeed == old(cachedSeed) && keyring.password == old(keyring.password)
        && signature == Err(DecodeNonce(nonceBase64).error)
      ensures DecodeNonce(nonceBase64).Ok? ==>
        var loaded := LoadOrCreateSeed(old(cachedSeed), old(keyring.password), drawn, faults);
        && cachedSeed == loaded.cached && keyring.password == loaded.password
        && (loaded.seed.Err? ==> signature == Err(loaded.seed.error))
        && (loaded.seed.Ok? ==>
              signature == SignWithSeed(ed, loaded.seed.value, protocolVersion, nonceBase64, serverTimestamp))
    {
      var nonce := DecodeNonce(nonceBase64);
      if nonce.Err? {
        return Err(nonce.error);
      }
      var seed := LoadOrCreate(keyring, drawn, faults);
      if seed.Err? {
        return Err(seed.error);
      }
      var userUid := UserUid(ed.publicKey(seed.value));
      var payload := BuildAuthSignaturePayload(protocolVersion, nonce.value, serverTimestamp, userUid);
      signature := Ok(Base64Encode(ed.sign(seed.value, payload)));
    }
  }

  /** Once a process has an identity it keeps it and leaves the keyring alone, whatever happens there;
      and a process that had to create it left it where any later process finds the same one. */
  lemma IdentityIsStable(
    cached: Option<Bytes32>, password: Option<string>, drawn: Bytes32, faults: KeyringFaults,
    laterPassword: Option<string>, laterDrawn: Bytes32, laterFaults: KeyringFaults)
    ensures var loaded := LoadOrCreateSeed(cached, password, drawn, faults);
            && (loaded.seed.Ok? <==> loaded.cached.Some?)
            && (loaded.seed.Ok? ==>
                  LoadOrCreateSeed(loaded.cached, laterPassword, laterDrawn, laterFaults)
                  == Loaded(loaded.cached, laterPassword, loaded.seed))
            && (loaded.seed.Ok? && cached.None? && !laterFaults.open && !laterFaults.read ==>
                  LoadOrCreateSeed(None, loaded.password, laterDrawn, laterFaults).seed == loaded.seed)
            && (loaded.seed.Err? ==> loaded.password == password && loaded.cached == cached)
  {
    DecodeOfEncode(drawn);
  }
}
