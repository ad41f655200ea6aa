/** The provider-key vault (service/src/provider-keys/provider-key.service.ts) over its two tables. */
module KeyVault {
  import opened Columns
  import opened Json
  import opened MasterKeys
  import opened Wrappers
  import Trimming = Text

  datatype Row = Row(
    id: string, providerCode: string, keyAlias: string, encryptedKey: Bytes, encryptionKeyId: string,
    keyScope: string, isActive: bool)

  datatype VaultError =
    | Required(field: string) | ScopeInvalid | AliasTaken | IdRefused | NotFound
    | CannotEncrypt(cause: CryptoError)
    | RowRefused
    | LogRefused

  datatype CreateBody = CreateBody(
    providerCode: Option<string>, keyAlias: Option<string>, plaintextKey: Option<string>, keyScope: Option<string>)

  /** `reason` comes from the request as it was sent, and `rotatedBy` from the operator's token. */
  datatype RotateBody = RotateBody(plaintextKey: Option<string>, rotatedBy: Option<Json>, reason: Option<Json>)

  /** The tables, and the environment of the running process. */
  datatype Vault = Vault(env: Environment, rows: seq<Row>, rotations: seq<string>)

  // ---- Queries ----

  function IndexById(rows: seq<Row>, id: string): (r: Option<nat>)
    ensures r.Some? ==> r.value < |rows| && rows[r.value].id == id
    ensures r.None? ==> forall i :: 0 <= i < |rows| ==> rows[i].id != id
  {
    if rows == [] then None
    else if rows[|rows| - 1].id == id then Some(|rows| - 1)
    else IndexById(rows[..|rows| - 1], id)
  }

  function IndexByAlias(rows: seq<Row>, providerCode: string, keyAlias: string): (r: Option<nat>)
    ensures r.Some? ==>
              && r.value < |rows|
              && rows[r.value].providerCode == providerCode && rows[r.value].keyAlias == keyAlias
    ensures r.None? ==> forall i :: 0 <= i < |rows| ==>
            !(rows[i].providerCode == providerCode && rows[i].keyAlias == keyAlias)
  {
    if rows == [] then None
    else if rows[|rows| - 1].providerCode == providerCode && rows[|rows| - 1].keyAlias == keyAlias then Some(|rows| - 1)
    else IndexByAlias(rows[..|rows| - 1], providerCode, keyAlias)
  }

  // ---- Operations ----

  /** A body that passed validation. */
  datatype NewKey = NewKey(providerCode: string, keyAlias: string, plaintext: string, keyScope: string)

  function Trimmed(s: Option<string>): string {
    Trimming.Trim(s.GetOr(""))
  }

  function Validated(body: CreateBody): Result<NewKey, VaultError> {
    var providerCode, keyAlias := Trimmed(body.providerCode), Trimmed(body.keyAlias);
    var keyScope := if Trimmed(body.keyScope) == "" then "shared" else Trimmed(body.keyScope);
    if providerCode == "" then Failure(Required("providerCode"))
    else if keyAlias == "" then Failure(Required("keyAlias"))
    else if Trimmed(body.plaintextKey) == "" then Failure(Required("plaintextKey"))
    else if keyScope !in {"shared", "dedicated"} then Failure(ScopeInvalid)
    else Success(NewKey(providerCode, keyAlias, body.plaintextKey.GetOr(""), keyScope))
  }

  /** The insert violates the primary key or the uniqueness of (provider code, alias). */
  predicate Clashes(rows: seq<Row>, id: string, key: NewKey) {
    IndexById(rows, id).Some? || IndexByAlias(rows, key.providerCode, key.keyAlias).Some?
  }

  /** The columns of a key row take these texts. */
  predicate RowFits(providerCode: string, keyAlias: string, encryptionKeyId: string) {
    FitsVarchar(providerCode, 64) && FitsVarchar(keyAlias, 128) && FitsVarchar(encryptionKeyId, 128)
  }

  /** The columns of a rotation entry take what is given: nothing, null, a reason that fits, a uuid. */
  predicate EntryFits(body: RotateBody) {
    && (body.reason.None? || body.reason.value.Null?
         || (body.reason.value.Str? && FitsVarchar(body.reason.value.s, 512)))
    && (body.rotatedBy.None? || body.rotatedBy.value.Null?
        || (body.rotatedBy.value.Str? && UuidOf(body.rotatedBy.value.s).Some?))
  }

  function Create(c: Cipher, v: Vault, id: string, iv: Bytes, body: CreateBody): (Vault, Option<VaultError>) {
    match Validated(body)
    case Failure(e) => (v, Some(e))
    case Success(key) =>
      match Encryption(c, v.env, iv, key.plaintext)
      case Failure(e) => (v, Some(CannotEncrypt(e)))
      case Success(secret) =>
        if !RowFits(key.providerCode, key.keyAlias, secret.encryptionKeyId) then (v, Some(RowRefused))
        else if Clashes(v.rows, id, key) then (v, Some(AliasTaken))
        else
          var row := Row(id, key.providerCode, key.keyAlias, secret.encryptedKey, secret.encryptionKeyId, key.keyScope,
            true);
          (v.(rows := v.rows + [row]), None)
  }

  /** The row is written first and the log entry after it; `live` says whether the database is there for the second. */
  function RotateRow(
      c: Cipher, v: Vault, id: string, iv: Bytes, body: RotateBody, live: bool): (Vault, Option<VaultError>)
  {
    match IndexById(v.rows, id)
    case None => (v, Some(NotFound))
    case Some(i) =>
      if Trimmed(body.plaintextKey) == "" then (v, Some(Required("plaintextKey")))
      else
        match Encryption(c, v.env, iv, body.plaintextKey.GetOr(""))
        case Failure(e) => (v, Some(CannotEncrypt(e)))
        case Success(secret) =>
          if !FitsVarchar(secret.encryptionKeyId, 128) then (v, Some(RowRefused))
          else
            var row := v.rows[i].(
              encryptedKey := secret.encryptedKey, encryptionKeyId := secret.encryptionKeyId, isActive := true);
            var rotated := v.(rows := v.rows[i := row]);
            if live && EntryFits(body) then (rotated.(rotations := v.rotations + [id]), None)
            else (rotated, Some(LogRefused))
  }

  /** A request names the row by any spelling of its uuid, and the query throws for anything else. */
  function Rotate(
      c: Cipher, v: Vault, providerKeyId: string, iv: Bytes, body: RotateBody, live: bool): (Vault, Option<VaultError>)
  {
    match UuidOf(providerKeyId)
    case None => (v, Some(IdRefused))
    case Some(id) => RotateRow(c, v, id, iv, body, live)
  }

  function SetActive(v: Vault, providerKeyId: string, isActive: bool): (Vault, Option<VaultError>) {
    match UuidOf(providerKeyId)
    case None => (v, Some(IdRefused))
    case Some(id) =>
      match IndexById(v.rows, id)
      case None => (v, Some(NotFound))
      case Some(i) => (v.(rows := v.rows[i := v.rows[i].(isActive := isActive)]), None)
  }

  function ResolveKey(
      c: Cipher, v: Vault, providerCode: string, keyAlias: string): Result<Option<string>, CryptoError>
  {
    match IndexByAlias(v.rows, providerCode, keyAlias)
    case None => Success(None)
    case Some(i) =>
      if !v.rows[i].isActive then Success(None)
      else
        match Decryption(c, v.env, v.rows[i].encryptedKey, v.rows[i].encryptionKeyId)
        case Success(plaintext) => Success(Some(plaintext))
        case Failure(e) => Failure(e)
  }

  class ProviderKeyService {
    var crypto: ProviderKeyCrypto
    var rows: seq<Row>
    var rotations: seq<string>

    ghost predicate Valid()
      reads this, crypto
    {
      crypto.Valid()
    }

    ghost function State(): Vault
      reads this, crypto
    {
      Vault(crypto.env, rows, rotations)
    }

    constructor (cipher: Cipher, env: Environment)
      ensures Valid() && fresh(crypto) && crypto.cipher == cipher && State() == Vault(env, [], [])
    {
      crypto := new ProviderKeyCrypto(cipher, env);
      rows := [];
      rotations := [];
    }

    /** A new process over the same tables. */
    method Restart(env: Environment)
      modifies this`crypto
      ensures Valid() && fresh(crypto) && crypto.cipher == old(crypto.cipher)
      ensures State() == old(State()).(env := env)
    {
      crypto := new ProviderKeyCrypto(crypto.cipher, env);
    }

    /** The database names the row, and the nonce is drawn at random. */
    method CreateKey(id: string, iv: Bytes, body: CreateBody) returns (error: Option<VaultError>)
      requires Valid()
      modifies this`rows, crypto
      ensures Valid() && crypto == old(crypto)
      ensures (State(), error) == Create(crypto.cipher, old(State()), id, iv, body)
    {
      var providerCode := Trimming.Trim(body.providerCode.GetOr(""));
      if providerCode == "" {
        return Some(Required("providerCode"));
      }
      var keyAlias := Trimming.Trim(body.keyAlias.GetOr(""));
      if keyAlias == "" {
        return Some(Required("keyAlias"));
      }
      if body.plaintextKey.None? || Trimming.Trim(body.plaintextKey.value) == "" {
        return Some(Required("plaintextKey"));
      }
      var keyScope := Trimming.Trim(body.keyScope.GetOr(""));
      if keyScope == "" {
        keyScope := "shared";
      }
      if keyScope != "shared" && keyScope != "dedicated" {
        return Some(ScopeInvalid);
      }
      var secret := crypto.EncryptProviderKey(iv, body.plaintextKey.value);
      if secret.Failure? {
        return Some(CannotEncrypt(secret.error));
      }
      if !RowFits(providerCode, keyAlias, secret.value.encryptionKeyId) {
        return Some(RowRefused);
      }
      if IndexById(rows, id).Some? || IndexByAlias(rows, providerCode, keyAlias).Some? {
        return Some(AliasTaken);
      }
      rows := rows + [
        Row(id, providerCode, keyAlias, secret.value.encryptedKey, secret.value.encryptionKeyId, keyScope, true)];
      return None;
    }

    method RotateKey(providerKeyId: string, iv: Bytes, body: RotateBody, live: bool)
      returns (error: Option<VaultError>)
      requires Valid()
      modifies this`rows, this`rotations, crypto
      ensures Valid() && crypto == old(crypto)
      ensures (State(), error) == Rotate(crypto.cipher, old(State()), providerKeyId, iv, body, live)
    {
      var id := UuidOf(providerKeyId);
      if id.None? {
        return Some(IdRefused);
      }
      var existing := IndexById(rows, id.value);
      if existing.None? {
        return Some(NotFound);
      }
      if body.plaintextKey.None? || Trimming.Trim(body.plaintextKey.value) == "" {
        return Some(Required("plaintextKey"));
      }
      var secret := crypto.EncryptProviderKey(iv, body.plaintextKey.value);
      if secret.Failure? {
        return Some(CannotEncrypt(secret.error));
      }
      if !FitsVarchar(secret.value.encryptionKeyId, 128) {
        return Some(RowRefused);
      }
      rows := rows[existing.value := rows[existing.value].(
        encryptedKey := secret.value.encryptedKey, encryptionKeyId := secret.value.encryptionKeyId, isActive := true)];
      if !live || !EntryFits(body) {
        return Some(LogRefused);
      }
      rotations := rotations + [id.value];
      return None;
    }

    method SetKeyActive(providerKeyId: string, isActive: bool) returns (error: Option<VaultError>)
      modifies this`rows
      ensures (State(), error) == SetActive(old(State()), providerKeyId, isActive)
    {
      var id := UuidOf(providerKeyId);
      if id.None? {
        return Some(IdRefused);
      }
      var existing := IndexById(rows, id.value);
      if existing.None? {
        return Some(NotFound);
      }
      rows := rows[existing.value := rows[existing.value].(isActive := isActive)];
      return None;
    }

    method Resolve(providerCode: string, keyAlias: string) returns (r: Result<Option<string>, CryptoError>)
      requires Valid()
      modifies crypto
      ensures Valid() && State() == old(State())
      ensures r == ResolveKey(crypto.cipher, State(), providerCode, keyAlias)
    {
      var existing := IndexByAlias(rows, providerCode, keyAlias);
      if existing.None? || !rows[existing.value].isActive {
        return Success(None);
      }
      var row := rows[existing.value];
      var plaintext := crypto.DecryptProviderKey(row.encryptedKey, row.encryptionKeyId);
      return if plaintext.Success? then Success(Some(plaintext.value)) else Failure(plaintext.error);
    }
  }
}
