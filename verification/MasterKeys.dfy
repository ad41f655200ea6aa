/**
 * Envelope encryption of provider keys (service/src/provider-keys/provider-key-crypto.ts): the master key set of
 * one process and the layout of a stored secret, over a cipher that is left abstract.
 */
module MasterKeys {
  import opened Json
  import opened Wrappers
  import Trimming = Text

  type Byte = b: int | 0 <= b < 256

  type Bytes = seq<Byte>

  const IV_LENGTH := 12
  const AUTH_TAG_LENGTH := 16
  const KEY_LENGTH := 32

  datatype Sealed = Sealed(tag: Bytes, ciphertext: Bytes)

  /** Base64 decoding and the authenticated cipher, UTF-8 included. */
  datatype Cipher = Cipher(
    base64: string -> Bytes,
    seal: (Bytes, Bytes, string) -> Sealed,
    open: (Bytes, Bytes, Sealed) -> Option<string>)

  /** What the service relies on: a tag of fixed length, and opening with the same key and nonce gives the text back. */
  ghost predicate Sound(c: Cipher) {
    forall key: Bytes, iv: Bytes, text: string :: |key| == KEY_LENGTH && |iv| == IV_LENGTH ==>
      |c.seal(key, iv, text).tag| == AUTH_TAG_LENGTH && c.open(key, iv, c.seal(key, iv, text)) == Some(text)
  }

  // A cipher that hides nothing, to show that the promise can be kept for every text.

  function Spelled(text: string): Bytes {
    if text == "" then [] else var c := text[0] as int; [c / 65536, c / 256 % 256, c % 256] + Spelled(text[1..])
  }

  ghost function Unspelled(bytes: Bytes): Option<string> {
    if exists text :: Spelled(text) == bytes then var text :| Spelled(text) == bytes; Some(text) else None
  }

  lemma {:induction false} SpellingIsInjective(s: string, t: string)
    requires Spelled(s) == Spelled(t)
    ensures s == t
  {
    if s != "" && t != "" {
      var bs, bt := Spelled(s), Spelled(t);
      assert bs[0] == bt[0] && bs[1] == bt[1] && bs[2] == bt[2];
      assert bs[3..] == Spelled(s[1..]) && bt[3..] == Spelled(t[1..]);
      SpellingIsInjective(s[1..], t[1..]);
      assert s == [s[0]] + s[1..] && t == [t[0]] + t[1..];
    }
  }

  lemma {:induction false} SoundCipherExists(base64: string -> Bytes) returns (c: Cipher)
    ensures Sound(c) && c.base64 == base64
  {
    var tag: Bytes := seq(AUTH_TAG_LENGTH, _ => 0);
    c := Cipher(
      base64,
      (key: Bytes, iv: Bytes, text: string) => Sealed(tag, Spelled(text)),
      (key: Bytes, iv: Bytes, s: Sealed) => Unspelled(s.ciphertext));
    forall text: string ensures Unspelled(Spelled(text)) == Some(text) {
      var read := Unspelled(Spelled(text)).value;
      SpellingIsInjective(read, text);
    }
  }

  // ---- The master key set ----

  /** PROVIDER_KEY_ENCRYPTION_KEYS; an empty value counts as unset. */
  datatype KeysVariable = Unset | NotJson | Decoded(value: Json)

  datatype Environment = Environment(keys: KeysVariable, activeKeyId: Option<string>)

  datatype MasterKeySet = MasterKeySet(activeKeyId: string, keys: map<string, Bytes>)

  datatype ConfigReason = KeysUnset | KeysNotAnObject | KeyRejected | NoKeys | ActiveIdUnset | ActiveIdUnknown

  datatype CryptoError = ConfigError(reason: ConfigReason) | UnknownMasterKey | BlobTooShort | AuthenticationFailed

  function KeyBytes(c: Cipher, v: Json): Bytes {
    if v.Str? then c.base64(v.s) else []
  }

  predicate AllUsable(c: Cipher, fields: map<string, Json>) {
    forall id :: id in fields ==> |KeyBytes(c, fields[id])| == KEY_LENGTH
  }

  function KeysIn(c: Cipher, fields: map<string, Json>): map<string, Bytes> {
    map id | id in fields :: KeyBytes(c, fields[id])
  }

  function ParsedKeys(c: Cipher, keys: KeysVariable): Result<map<string, Bytes>, CryptoError> {
    match keys
    case Unset => Failure(ConfigError(KeysUnset))
    case Decoded(Object(fields)) =>
      if !AllUsable(c, fields) then Failure(ConfigError(KeyRejected))
      else if fields == map[] then Failure(ConfigError(NoKeys))
      else Success(KeysIn(c, fields))
    case _ => Failure(ConfigError(KeysNotAnObject))
  }

  function KeySetOf(c: Cipher, env: Environment): Result<MasterKeySet, CryptoError> {
    match ParsedKeys(c, env.keys)
    case Failure(e) => Failure(e)
    case Success(keys) =>
      var activeKeyId := Trimming.Trim(env.activeKeyId.GetOr(""));
      if activeKeyId == "" then Failure(ConfigError(ActiveIdUnset))
      else if activeKeyId !in keys then Failure(ConfigError(ActiveIdUnknown))
      else Success(MasterKeySet(activeKeyId, keys))
  }

  lemma {:induction false} LoadedKeysAreUsable(c: Cipher, env: Environment)
    ensures var r := KeySetOf(c, env);
            r.Success? ==>
              && r.value.activeKeyId in r.value.keys
              && forall id :: id in r.value.keys ==> |r.value.keys[id]| == KEY_LENGTH
  {
  }

  // ---- Encryption ----

  datatype Encrypted = Encrypted(encryptedKey: Bytes, encryptionKeyId: string)

  function Packed(iv: Bytes, s: Sealed): Bytes {
    iv + s.tag + s.ciphertext
  }

  function Encryption(c: Cipher, env: Environment, iv: Bytes, plaintext: string): Result<Encrypted, CryptoError> {
    match KeySetOf(c, env)
    case Failure(e) => Failure(e)
    case Success(loaded) =>
      var key := if loaded.activeKeyId in loaded.keys then loaded.keys[loaded.activeKeyId] else [];
      Success(Encrypted(Packed(iv, c.seal(key, iv, plaintext)), loaded.activeKeyId))
  }

  function Unpacked(blob: Bytes): (Bytes, Sealed)
    requires |blob| >= IV_LENGTH + AUTH_TAG_LENGTH
  {
    (blob[..IV_LENGTH], Sealed(blob[IV_LENGTH..IV_LENGTH + AUTH_TAG_LENGTH], blob[IV_LENGTH + AUTH_TAG_LENGTH..]))
  }

  function Decryption(c: Cipher, env: Environment, blob: Bytes, keyId: string): Result<string, CryptoError> {
    match KeySetOf(c, env)
    case Failure(e) => Failure(e)
    case Success(loaded) =>
      if keyId !in loaded.keys then Failure(UnknownMasterKey)
      else if |blob| < IV_LENGTH + AUTH_TAG_LENGTH then Failure(BlobTooShort)
      else
        var (iv, s) := Unpacked(blob);
        match c.open(loaded.keys[keyId], iv, s)
        case Some(plaintext) => Success(plaintext)
        case None => Failure(AuthenticationFailed)
  }

  /** The two lengths are all it takes to split a stored secret, in both directions, whatever it holds. */
  lemma {:induction false} LayoutRoundTrip(iv: Bytes, s: Sealed, blob: Bytes)
    ensures |iv| == IV_LENGTH && |s.tag| == AUTH_TAG_LENGTH ==>
              |Packed(iv, s)| >= IV_LENGTH + AUTH_TAG_LENGTH && Unpacked(Packed(iv, s)) == (iv, s)
    ensures |blob| >= IV_LENGTH + AUTH_TAG_LENGTH ==>
              var (iv', s') := Unpacked(blob);
              Packed(iv', s') == blob && |iv'| == IV_LENGTH && |s'.tag| == AUTH_TAG_LENGTH
  {
    if |iv| == IV_LENGTH && |s.tag| == AUTH_TAG_LENGTH {
      var packed := Packed(iv, s);
      assert packed[..IV_LENGTH] == iv;
      assert packed[IV_LENGTH..IV_LENGTH + AUTH_TAG_LENGTH] == s.tag;
      assert packed[IV_LENGTH + AUTH_TAG_LENGTH..] == s.ciphertext;
    }
    if |blob| >= IV_LENGTH + AUTH_TAG_LENGTH {
      var (iv', s') := Unpacked(blob);
      assert Packed(iv', s') == blob;
    }
  }

  /**
   * A secret is read back under any later configuration that still has its master key, whichever key is active by
   * then; one that has retired the id says so.
   */
  lemma {:induction false} DecryptionInverts(
      c: Cipher, env: Environment, iv: Bytes, plaintext: string, later: Environment)
    requires Sound(c) && |iv| == IV_LENGTH
    requires Encryption(c, env, iv, plaintext).Success? && KeySetOf(c, later).Success?
    ensures var e := Encryption(c, env, iv, plaintext).value;
            var before, now := KeySetOf(c, env).value.keys, KeySetOf(c, later).value.keys;
            && (e.encryptionKeyId !in now <==>
                 Decryption(c, later, e.encryptedKey, e.encryptionKeyId) == Failure(UnknownMasterKey))
            && e.encryptionKeyId in before
            && (e.encryptionKeyId in now && now[e.encryptionKeyId] == before[e.encryptionKeyId] ==>
                  Decryption(c, later, e.encryptedKey, e.encryptionKeyId) == Success(plaintext))
  {
    LoadedKeysAreUsable(c, env);
    var loaded := KeySetOf(c, env).value;
    LayoutRoundTrip(iv, c.seal(loaded.keys[loaded.activeKeyId], iv, plaintext), []);
  }

  // ---- The configuration and the layout, literally ----

  /** An environment that gives master keys: an object of base64 texts of 32 bytes, one of them named as active. */
  predicate GivesKeys(c: Cipher, env: Environment) {
    && env.keys.Decoded? && env.keys.value.Object?
    && var fields, active := env.keys.value.fields, Trimming.Trim(env.activeKeyId.GetOr(""));
    && (forall id :: id in fields ==> fields[id].Str? && |c.base64(fields[id].s)| == 32)
    && active != "" && active in fields
  }

  /** The keys load exactly from such an environment, as they are given there. */
  lemma {:induction false} KeysAreAsGiven(c: Cipher, env: Environment)
    ensures KeySetOf(c, env).Success? <==> GivesKeys(c, env)
    ensures GivesKeys(c, env) ==>
              var loaded, fields := KeySetOf(c, env).value, env.keys.value.fields;
              && loaded.activeKeyId == Trimming.Trim(env.activeKeyId.GetOr(""))
              && loaded.keys.Keys == fields.Keys
              && forall id :: id in fields ==> loaded.keys[id] == c.base64(fields[id].s)
  {
    if GivesKeys(c, env) {
      assert AllUsable(c, env.keys.value.fields);
    }
  }

  /** A stored secret is twelve bytes of nonce, sixteen of tag, and the rest, sealed with the active key. */
  lemma {:induction false} StoredAsLaidOut(c: Cipher, env: Environment, iv: Bytes, plaintext: string)
    requires Sound(c) && |iv| == 12 && GivesKeys(c, env)
    ensures var e := Encryption(c, env, iv, plaintext);
            && e.Success? && e.value.encryptionKeyId == Trimming.Trim(env.activeKeyId.GetOr(""))
            && |e.value.encryptedKey| >= 28 && e.value.encryptedKey[..12] == iv
            && Sealed(e.value.encryptedKey[12..28], e.value.encryptedKey[28..]) ==
                 c.seal(c.base64(env.keys.value.fields[e.value.encryptionKeyId].s), iv, plaintext)
  {
    KeysAreAsGiven(c, env);
    LoadedKeysAreUsable(c, env);
    var id := Trimming.Trim(env.activeKeyId.GetOr(""));
    LayoutRoundTrip(iv, c.seal(c.base64(env.keys.value.fields[id].s), iv, plaintext), []);
  }

  /** Why a stored secret is not read: no keys, an unknown id, fewer than 28 bytes, or a cipher that does not open. */
  lemma {:induction false} UnreadableSays(c: Cipher, env: Environment, blob: Bytes, keyId: string)
    ensures var r := Decryption(c, env, blob, keyId);
            if !GivesKeys(c, env) then r.Failure? && r.error.ConfigError?
            else if keyId !in env.keys.value.fields then r == Failure(UnknownMasterKey)
            else if |blob| < 28 then r == Failure(BlobTooShort)
            else
              match c.open(c.base64(env.keys.value.fields[keyId].s), blob[..12], Sealed(blob[12..28], blob[28..]))
              case Some(text) => r == Success(text)
              case None => r == Failure(AuthenticationFailed)
  {
    KeysAreAsGiven(c, env);
  }

  // ---- One process ----

  /** The module's state in one process, whose environment is fixed. */
  class ProviderKeyCrypto {
    const cipher: Cipher
    const env: Environment
    var cachedKeySet: Option<MasterKeySet>

    ghost predicate Valid()
      reads this
    {
      cachedKeySet.Some? ==> KeySetOf(cipher, env) == Success(cachedKeySet.value)
    }

    constructor (cipher: Cipher, env: Environment)
      ensures Valid() && this.cipher == cipher && this.env == env
    {
      this.cipher := cipher;
      this.env := env;
      cachedKeySet := None;
    }

    /** Only a set that loaded is remembered, so the answer never differs from loading afresh. */
    method LoadMasterKeySet() returns (r: Result<MasterKeySet, CryptoError>)
      requires Valid()
      modifies this
      ensures Valid() && r == KeySetOf(cipher, env)
    {
      if cachedKeySet.Some? {
        return Success(cachedKeySet.value);
      }
      var keys := ParseMasterKeys(cipher, env.keys);
      if keys.Failure? {
        return Failure(keys.error);
      }
      var activeKeyId := Trimming.Trim(env.activeKeyId.GetOr(""));
      if activeKeyId == "" {
        return Failure(ConfigError(ActiveIdUnset));
      }
      if activeKeyId !in keys.value {
        return Failure(ConfigError(ActiveIdUnknown));
      }
      cachedKeySet := Some(MasterKeySet(activeKeyId, keys.value));
      return Success(cachedKeySet.value);
    }

    method EncryptProviderKey(iv: Bytes, plaintext: string) returns (r: Result<Encrypted, CryptoError>)
      requires Valid()
      modifies this
      ensures Valid() && r == Encryption(cipher, env, iv, plaintext)
    {
      LoadedKeysAreUsable(cipher, env);
      var loaded := LoadMasterKeySet();
      if loaded.Failure? {
        return Failure(loaded.error);
      }
      var id := loaded.value.activeKeyId;
      var s := cipher.seal(loaded.value.keys[id], iv, plaintext);
      return Success(Encrypted(iv + s.tag + s.ciphertext, id));
    }

    method DecryptProviderKey(blob: Bytes, keyId: string) returns (r: Result<string, CryptoError>)
      requires Valid()
      modifies this
      ensures Valid() && r == Decryption(cipher, env, blob, keyId)
    {
      var loaded := LoadMasterKeySet();
      if loaded.Failure? {
        return Failure(loaded.error);
      }
      if keyId !in loaded.value.keys {
        return Failure(UnknownMasterKey);
      }
      if |blob| < IV_LENGTH + AUTH_TAG_LENGTH {
        return Failure(BlobTooShort);
      }
      var iv := blob[..IV_LENGTH];
      var tag := blob[IV_LENGTH..IV_LENGTH + AUTH_TAG_LENGTH];
      var ciphertext := blob[IV_LENGTH + AUTH_TAG_LENGTH..];
      var plaintext := cipher.open(loaded.value.keys[keyId], iv, Sealed(tag, ciphertext));
      return if plaintext.Some? then Success(plaintext.value) else Failure(AuthenticationFailed);
    }
  }

  method ParseMasterKeys(c: Cipher, raw: KeysVariable) returns (r: Result<map<string, Bytes>, CryptoError>)
    ensures r == ParsedKeys(c, raw)
  {
    if raw.Unset? {
      return Failure(ConfigError(KeysUnset));
    }
    if raw.NotJson? || !raw.value.Object? {
      return Failure(ConfigError(KeysNotAnObject));
    }
    var keys := DecodeKeys(c, raw.value.fields);
    if keys.None? {
      return Failure(ConfigError(KeyRejected));
    }
    return if raw.value.fields == map[] then Failure(ConfigError(NoKeys)) else Success(keys.value);
  }

  method DecodeKeys(c: Cipher, fields: map<string, Json>) returns (decoded: Option<map<string, Bytes>>)
    ensures decoded == if AllUsable(c, fields) then Some(KeysIn(c, fields)) else None
  {
    var keys: map<string, Bytes> := map[];
    var pending := fields.Keys;
    while pending != {}
      invariant pending <= fields.Keys && keys.Keys == fields.Keys - pending
      invariant forall id :: id in keys ==> keys[id] == KeyBytes(c, fields[id]) && |keys[id]| == KEY_LENGTH
      decreases |pending|
    {
      var id :| id in pending;
      var buf := KeyBytes(c, fields[id]);
      if |buf| != KEY_LENGTH {
        return None;
      }
      keys := keys[id := buf];
      pending := pending - {id};
    }
    assert keys == KeysIn(c, fields);
    return Some(keys);
  }
}
