/** The vault against a plain notebook of secrets, over every run of operations and restarts. */
module VaultLaws {
  import opened Columns
  import opened Json
  import opened KeyVault
  import opened MasterKeys
  import opened Wrappers
  import Trimming = Text

  datatype Op =
    | CreateOp(id: string, iv: Bytes, body: CreateBody)
    | RotateOp(providerKeyId: string, iv: Bytes, request: RotateBody, live: bool)
    | SetActiveOp(providerKeyId: string, isActive: bool)
    | RestartOp(env: Environment)

  function Step(c: Cipher, v: Vault, op: Op): (Vault, Option<VaultError>) {
    match op
    case CreateOp(id, iv, body) => Create(c, v, id, iv, body)
    case RotateOp(id, iv, body, live) => Rotate(c, v, id, iv, body, live)
    case SetActiveOp(id, isActive) => SetActive(v, id, isActive)
    case RestartOp(env) => (v.(env := env), None)
  }

  function Run(c: Cipher, env: Environment, ops: seq<Op>): Vault {
    if ops == [] then Vault(env, [], []) else Step(c, Run(c, env, ops[..|ops| - 1]), ops[|ops| - 1]).0
  }

  /** Every master key that a row still refers to is there, unchanged, after the restart. */
  predicate KeepsReferencedKeys(c: Cipher, v: Vault, env: Environment) {
    forall i :: 0 <= i < |v.rows| ==> SameKey(c, v.env, env, v.rows[i].encryptionKeyId)
  }

  predicate SameKey(c: Cipher, before: Environment, after: Environment, id: string) {
    var b, a := KeySetOf(c, before), KeySetOf(c, after);
    a.Success? && id in a.value.keys && (b.Success? && id in b.value.keys ==> a.value.keys[id] == b.value.keys[id])
  }

  /** The database makes the uuid of a new row, and nonces have their length. */
  predicate Allowed(c: Cipher, v: Vault, op: Op) {
    match op
    case CreateOp(id, iv, _) => |iv| == IV_LENGTH && UuidOf(id) == Some(id)
    case RotateOp(_, iv, _, _) => |iv| == IV_LENGTH
    case SetActiveOp(_, _) => true
    case RestartOp(env) => KeepsReferencedKeys(c, v, env)
  }

  predicate AllowedRun(c: Cipher, env: Environment, ops: seq<Op>) {
    ops != [] ==>
      var init := ops[..|ops| - 1];
      AllowedRun(c, env, init) && Allowed(c, Run(c, env, init), ops[|ops| - 1])
  }

  // ---- The notebook ----

  datatype Secret = Secret(
    providerCode: string, keyAlias: string, plaintext: string, keyScope: string, isActive: bool)

  /**
   * The secret that a request body asks to be kept: names trimmed, the key as it is, and shared unless said otherwise.
   */
  function Asked(body: CreateBody): Secret {
    var keyScope := Trimming.Trim(body.keyScope.GetOr(""));
    Secret(
      Trimming.Trim(body.providerCode.GetOr("")), Trimming.Trim(body.keyAlias.GetOr("")), body.plaintextKey.GetOr(""),
      if keyScope == "" then "shared" else keyScope, true)
  }

  predicate Acceptable(s: Secret) {
    && s.providerCode != "" && s.keyAlias != "" && Trimming.Trim(s.plaintext) != ""
    && (s.keyScope == "shared" || s.keyScope == "dedicated")
    && FitsVarchar(s.providerCode, 64) && FitsVarchar(s.keyAlias, 128)
  }

  /** A rotation that took effect, and what the request and the database gave its log entry to go by. */
  datatype Rotation = Rotation(id: string, body: RotateBody, live: bool)

  /** What an administrator would write down; `ready` says whether the process can seal a secret and store it. */
  datatype Notebook = Notebook(ready: bool, secrets: map<string, Secret>, rotated: seq<Rotation>)

  predicate CanSeal(c: Cipher, env: Environment) {
    KeySetOf(c, env).Success? && FitsVarchar(KeySetOf(c, env).value.activeKeyId, 128)
  }

  /** The rotations that can be logged, in order. */
  function Logged(rotated: seq<Rotation>): seq<string> {
    if rotated == [] then []
    else
      var last := rotated[|rotated| - 1];
      Logged(rotated[..|rotated| - 1]) + if last.live && EntryFits(last.body) then [last.id] else []
  }

  predicate Named(s: Secret, providerCode: string, keyAlias: string) {
    s.providerCode == providerCode && s.keyAlias == keyAlias
  }

  predicate Taken(n: Notebook, providerCode: string, keyAlias: string) {
    exists id :: id in n.secrets && Named(n.secrets[id], providerCode, keyAlias)
  }

  function Noted(c: Cipher, n: Notebook, op: Op): Notebook {
    match op
    case CreateOp(id, _, body) =>
      var s := Asked(body);
      if !n.ready || !Acceptable(s) || id in n.secrets || Taken(n, s.providerCode, s.keyAlias) then n
      else n.(secrets := n.secrets[id := s])
    case RotateOp(providerKeyId, _, body, live) =>
      var id := UuidOf(providerKeyId).GetOr("");
      if !n.ready || UuidOf(providerKeyId).None? || id !in n.secrets || Trimmed(body.plaintextKey) == "" then n
      else n.(secrets := n.secrets[id := n.secrets[id].(plaintext := body.plaintextKey.GetOr(""), isActive := true)],
              rotated := n.rotated + [Rotation(id, body, live)])
    case SetActiveOp(providerKeyId, isActive) =>
      var id := UuidOf(providerKeyId).GetOr("");
      if UuidOf(providerKeyId).None? || id !in n.secrets then n
      else n.(secrets := n.secrets[id := n.secrets[id].(isActive := isActive)])
    case RestartOp(env) => n.(ready := CanSeal(c, env))
  }

  function Notes(c: Cipher, env: Environment, ops: seq<Op>): Notebook {
    if ops == [] then Notebook(CanSeal(c, env), map[], [])
    else Noted(c, Notes(c, env, ops[..|ops| - 1]), ops[|ops| - 1])
  }

  // ---- The refinement ----

  /** The row's secret is readable under this environment, and reads as the plaintext. */
  predicate Readable(c: Cipher, env: Environment, blob: Bytes, keyId: string, plaintext: string) {
    && KeySetOf(c, env).Success? && keyId in KeySetOf(c, env).value.keys
    && |blob| >= IV_LENGTH + AUTH_TAG_LENGTH
    && c.open(KeySetOf(c, env).value.keys[keyId], Unpacked(blob).0, Unpacked(blob).1) == Some(plaintext)
  }

  predicate RowHolds(c: Cipher, env: Environment, row: Row, s: Secret) {
    && row.providerCode == s.providerCode && row.keyAlias == s.keyAlias && row.isActive == s.isActive
    && row.keyScope == s.keyScope
    && Readable(c, env, row.encryptedKey, row.encryptionKeyId, s.plaintext)
  }

  predicate Distinct(rows: seq<Row>) {
    forall i, j :: 0 <= i < j < |rows| ==>
      rows[i].id != rows[j].id && !(rows[i].providerCode == rows[j].providerCode
        && rows[i].keyAlias == rows[j].keyAlias)
  }

  ghost predicate Keeps(c: Cipher, v: Vault, n: Notebook) {
    && n.ready == CanSeal(c, v.env)
    && v.rotations == Logged(n.rotated)
    && Distinct(v.rows)
    && (forall i :: 0 <= i < |v.rows| ==>
         v.rows[i].id in n.secrets && RowHolds(c, v.env, v.rows[i], n.secrets[v.rows[i].id]))
    && (forall id :: id in n.secrets ==> IndexById(v.rows, id).Some?)
  }

  lemma {:induction false} FreshlyReadable(c: Cipher, env: Environment, iv: Bytes, plaintext: string)
    requires Sound(c) && |iv| == IV_LENGTH
    ensures var e := Encryption(c, env, iv, plaintext);
            && (e.Success? <==> KeySetOf(c, env).Success?)
            && (e.Success? ==> e.value.encryptionKeyId == KeySetOf(c, env).value.activeKeyId)
            && (e.Success? ==> Readable(c, env, e.value.encryptedKey, e.value.encryptionKeyId, plaintext))
  {
    LoadedKeysAreUsable(c, env);
    if KeySetOf(c, env).Success? {
      var loaded := KeySetOf(c, env).value;
      LayoutRoundTrip(iv, c.seal(loaded.keys[loaded.activeKeyId], iv, plaintext), []);
    }
  }

  lemma {:induction false} TakenIsFound(c: Cipher, v: Vault, n: Notebook, providerCode: string, keyAlias: string)
    requires Keeps(c, v, n)
    ensures Taken(n, providerCode, keyAlias) <==> IndexByAlias(v.rows, providerCode, keyAlias).Some?
  {
    if id :| id in n.secrets && Named(n.secrets[id], providerCode, keyAlias) {
      var i := IndexById(v.rows, id).value;
      assert RowHolds(c, v.env, v.rows[i], n.secrets[v.rows[i].id]);
    }
    var found := IndexByAlias(v.rows, providerCode, keyAlias);
    if found.Some? {
      var row := v.rows[found.value];
      assert RowHolds(c, v.env, row, n.secrets[row.id]);
      assert Named(n.secrets[row.id], providerCode, keyAlias);
    }
  }

  lemma {:induction false} AddingIsDistinct(rows: seq<Row>, row: Row)
    requires Distinct(rows) && IndexById(rows, row.id).None? && IndexByAlias(rows, row.providerCode, row.keyAlias).None?
    ensures Distinct(rows + [row])
  {
  }

  lemma {:induction false} AddedRowsHold(c: Cipher, v: Vault, n: Notebook, row: Row, s: Secret, rows: seq<Row>)
    requires Keeps(c, v, n) && RowHolds(c, v.env, row, s) && row.id !in n.secrets && rows == v.rows + [row]
    ensures forall i :: 0 <= i < |rows| ==>
              var secrets := n.secrets[row.id := s];
              rows[i].id in secrets && RowHolds(c, v.env, rows[i], secrets[rows[i].id])
  {
    forall i | 0 <= i < |v.rows| ensures rows[i] == v.rows[i] && rows[i].id != row.id {
      assert RowHolds(c, v.env, v.rows[i], n.secrets[v.rows[i].id]);
    }
  }

  lemma {:induction false} AddingKeeps(c: Cipher, v: Vault, n: Notebook, row: Row, s: Secret)
    requires Keeps(c, v, n) && RowHolds(c, v.env, row, s)
    requires row.id !in n.secrets && IndexById(v.rows, row.id).None?
    requires IndexByAlias(v.rows, row.providerCode, row.keyAlias).None?
    ensures Keeps(c, v.(rows := v.rows + [row]), n.(secrets := n.secrets[row.id := s]))
  {
    var rows := v.rows + [row];
    AddingIsDistinct(v.rows, row);
    AddedRowsHold(c, v, n, row, s, rows);
    assert rows[..|v.rows|] == v.rows;
  }

  lemma {:induction false} ReplacingKeeps(c: Cipher, v: Vault, n: Notebook, i: nat, row: Row, s: Secret)
    requires Keeps(c, v, n) && i < |v.rows| && RowHolds(c, v.env, row, s)
    requires row.id == v.rows[i].id && row.providerCode == v.rows[i].providerCode && row.keyAlias == v.rows[i].keyAlias
    ensures Keeps(c, v.(rows := v.rows[i := row]), n.(secrets := n.secrets[row.id := s]))
  {
    var rows, secrets := v.rows[i := row], n.secrets[row.id := s];
    assert Distinct(rows);
    forall j | 0 <= j < |rows| ensures rows[j].id in secrets && RowHolds(c, v.env, rows[j], secrets[rows[j].id]) {
      if j != i {
        assert RowHolds(c, v.env, v.rows[j], n.secrets[v.rows[j].id]);
      }
    }
    forall id | id in secrets ensures IndexById(rows, id).Some? {
      var j := IndexById(v.rows, id).value;
      assert rows[j].id == id;
    }
  }

  lemma {:induction false} ValidatedIsAsked(body: CreateBody)
    ensures var s := Asked(body);
            && (Validated(body).Success? <==>
                  && s.providerCode != "" && s.keyAlias != "" && Trimming.Trim(s.plaintext) != ""
                  && (s.keyScope == "shared" || s.keyScope == "dedicated"))
            && (Validated(body).Success? ==>
                  Validated(body).value == NewKey(s.providerCode, s.keyAlias, s.plaintext, s.keyScope))
  {}

  lemma {:induction false} CreateKeeps(c: Cipher, v: Vault, n: Notebook, op: Op)
    requires Sound(c) && Keeps(c, v, n) && op.CreateOp? && Allowed(c, v, op)
    ensures Keeps(c, Step(c, v, op).0, Noted(c, n, op))
  {
    ValidatedIsAsked(op.body);
    if Validated(op.body).Success? {
      var s := Asked(op.body);
      FreshlyReadable(c, v.env, op.iv, s.plaintext);
      TakenIsFound(c, v, n, s.providerCode, s.keyAlias);
      var i := IndexById(v.rows, op.id);
      assert i.Some? ==> v.rows[i.value].id in n.secrets;
      if n.ready && Acceptable(s) && !Clashes(v.rows, op.id, Validated(op.body).value) {
        var secret := Encryption(c, v.env, op.iv, s.plaintext).value;
        var row := Row(op.id, s.providerCode, s.keyAlias, secret.encryptedKey, secret.encryptionKeyId, s.keyScope,
          true);
        AddingKeeps(c, v, n, row, s);
      }
    }
  }

  lemma {:induction false} LoggedStep(rotated: seq<Rotation>, r: Rotation)
    ensures Logged(rotated + [r]) == Logged(rotated) + if r.live && EntryFits(r.body) then [r.id] else []
  {
    assert (rotated + [r])[..|rotated|] == rotated;
  }

  lemma {:induction false} RotateKeeps(c: Cipher, v: Vault, n: Notebook, op: Op)
    requires Sound(c) && Keeps(c, v, n) && op.RotateOp? && Allowed(c, v, op)
    ensures Keeps(c, Step(c, v, op).0, Noted(c, n, op))
  {
    if UuidOf(op.providerKeyId).None? {
      return;
    }
    var id := UuidOf(op.providerKeyId).value;
    var i := IndexById(v.rows, id);
    assert i.Some? <==> id in n.secrets;
    var plaintext := op.request.plaintextKey.GetOr("");
    FreshlyReadable(c, v.env, op.iv, plaintext);
    if i.Some? && n.ready && Trimmed(op.request.plaintextKey) != "" {
      var secret := Encryption(c, v.env, op.iv, plaintext).value;
      assert RowHolds(c, v.env, v.rows[i.value], n.secrets[id]);
      var row := v.rows[i.value].(
        encryptedKey := secret.encryptedKey, encryptionKeyId := secret.encryptionKeyId, isActive := true);
      var s := n.secrets[id].(plaintext := plaintext, isActive := true);
      ReplacingKeeps(c, v, n, i.value, row, s);
      LoggedStep(n.rotated, Rotation(id, op.request, op.live));
    }
  }

  lemma {:induction false} SetActiveKeeps(c: Cipher, v: Vault, n: Notebook, op: Op)
    requires Keeps(c, v, n) && op.SetActiveOp?
    ensures Keeps(c, Step(c, v, op).0, Noted(c, n, op))
  {
    if UuidOf(op.providerKeyId).None? {
      return;
    }
    var id := UuidOf(op.providerKeyId).value;
    var i := IndexById(v.rows, id);
    assert i.Some? <==> id in n.secrets;
    if i.Some? {
      assert RowHolds(c, v.env, v.rows[i.value], n.secrets[id]);
      ReplacingKeeps(c, v, n, i.value, v.rows[i.value].(isActive := op.isActive),
        n.secrets[id].(isActive := op.isActive));
    }
  }

  lemma {:induction false} RestartKeeps(c: Cipher, v: Vault, n: Notebook, op: Op)
    requires Keeps(c, v, n) && op.RestartOp? && Allowed(c, v, op)
    ensures Keeps(c, Step(c, v, op).0, Noted(c, n, op))
  {
    forall i | 0 <= i < |v.rows| ensures RowHolds(c, op.env, v.rows[i], n.secrets[v.rows[i].id]) {
      assert RowHolds(c, v.env, v.rows[i], n.secrets[v.rows[i].id]);
      assert SameKey(c, v.env, op.env, v.rows[i].encryptionKeyId);
    }
  }

  lemma {:induction false} VaultKeepsNotebook(c: Cipher, env: Environment, ops: seq<Op>)
    requires Sound(c) && AllowedRun(c, env, ops)
    ensures Keeps(c, Run(c, env, ops), Notes(c, env, ops))
  {
    if ops != [] {
      var init, op := ops[..|ops| - 1], ops[|ops| - 1];
      VaultKeepsNotebook(c, env, init);
      var v, n := Run(c, env, init), Notes(c, env, init);
      match op
      case CreateOp(_, _, _) => CreateKeeps(c, v, n, op);
      case RotateOp(_, _, _, _) => RotateKeeps(c, v, n, op);
      case SetActiveOp(_, _) => SetActiveKeeps(c, v, n, op);
      case RestartOp(_) => RestartKeeps(c, v, n, op);
    }
  }

  /** What the notebook says of a name: the plaintext of its active secret. */
  ghost predicate Says(n: Notebook, providerCode: string, keyAlias: string, answer: Option<string>) {
    match answer
    case Some(plaintext) =>
      exists id :: id in n.secrets && Named(n.secrets[id], providerCode, keyAlias) && n.secrets[id].isActive
        && n.secrets[id].plaintext == plaintext
    case None =>
      forall id :: id in n.secrets && Named(n.secrets[id], providerCode, keyAlias) ==> !n.secrets[id].isActive
  }

  lemma {:induction false} OneSecretOfAName(c: Cipher, v: Vault, n: Notebook, found: nat, id: string)
    requires Keeps(c, v, n) && found < |v.rows| && id in n.secrets
    requires Named(n.secrets[id], v.rows[found].providerCode, v.rows[found].keyAlias)
    ensures id == v.rows[found].id
  {
    var j := IndexById(v.rows, id).value;
    assert RowHolds(c, v.env, v.rows[j], n.secrets[v.rows[j].id]);
  }

  /** Kept tables answer as the notebook does. */
  lemma {:induction false} KeptNameResolves(c: Cipher, v: Vault, n: Notebook, providerCode: string, keyAlias: string)
    requires Keeps(c, v, n)
    ensures var r := ResolveKey(c, v, providerCode, keyAlias); r.Success? && Says(n, providerCode, keyAlias, r.value)
  {
    TakenIsFound(c, v, n, providerCode, keyAlias);
    var found := IndexByAlias(v.rows, providerCode, keyAlias);
    if found.Some? {
      var row := v.rows[found.value];
      assert RowHolds(c, v.env, row, n.secrets[row.id]);
      assert Named(n.secrets[row.id], providerCode, keyAlias);
      if row.isActive {
        assert ResolveKey(c, v, providerCode, keyAlias) == Success(Some(n.secrets[row.id].plaintext));
      } else {
        forall id | id in n.secrets && Named(n.secrets[id], providerCode, keyAlias) ensures !n.secrets[id].isActive {
          OneSecretOfAName(c, v, n, found.value, id);
        }
      }
    }
  }

  /**
   * After every allowed run, resolving a name gives the plaintext that was last created or rotated in exactly when it
   * is active, names stay unique, and the log lists in order the rotations made on a live database with an operator
   * and a reason that its columns take.
   */
  lemma {:induction false} VaultLifecycle(
      c: Cipher, env: Environment, ops: seq<Op>, providerCode: string, keyAlias: string)
    requires Sound(c) && AllowedRun(c, env, ops)
    ensures var v, n := Run(c, env, ops), Notes(c, env, ops);
            var r := ResolveKey(c, v, providerCode, keyAlias);
            && r.Success? && Says(n, providerCode, keyAlias, r.value)
            && v.rotations == Logged(n.rotated)
            && Distinct(v.rows)
  {
    VaultKeepsNotebook(c, env, ops);
    KeptNameResolves(c, Run(c, env, ops), Notes(c, env, ops), providerCode, keyAlias);
  }

  predicate UniquelyNamed(n: Notebook) {
    forall i, j :: i in n.secrets && j in n.secrets && i != j ==>
      n.secrets[i].providerCode != n.secrets[j].providerCode || n.secrets[i].keyAlias != n.secrets[j].keyAlias
  }

  lemma {:induction false} NamesAreUnique(c: Cipher, env: Environment, ops: seq<Op>)
    ensures UniquelyNamed(Notes(c, env, ops))
  {
    if ops != [] {
      NamesAreUnique(c, env, ops[..|ops| - 1]);
      NotingKeepsNames(c, Notes(c, env, ops[..|ops| - 1]), ops[|ops| - 1]);
    }
  }

  lemma {:induction false} NotingKeepsNames(c: Cipher, n: Notebook, op: Op)
    requires UniquelyNamed(n)
    ensures UniquelyNamed(Noted(c, n, op))
  {
    if op.CreateOp? {
      var s := Asked(op.body);
      if !Taken(n, s.providerCode, s.keyAlias) {
        assert forall id :: id in n.secrets ==> !Named(n.secrets[id], s.providerCode, s.keyAlias);
      }
    }
  }

  /** The notebook never holds two secrets of one name, so what it says is unambiguous. */
  lemma {:induction false} NotebookIsUnambiguous(
      c: Cipher, env: Environment, ops: seq<Op>, providerCode: string, keyAlias: string, a: Option<string>,
        b: Option<string>)
    requires Says(Notes(c, env, ops), providerCode, keyAlias, a) && Says(Notes(c, env, ops), providerCode, keyAlias, b)
    ensures a == b
  {
    NamesAreUnique(c, env, ops);
    var n := Notes(c, env, ops);
    if a.Some? && b.Some? {
      var i :| i in n.secrets && Named(n.secrets[i], providerCode, keyAlias) && n.secrets[i].isActive
        && n.secrets[i].plaintext == a.value;
      var j :| j in n.secrets && Named(n.secrets[j], providerCode, keyAlias) && n.secrets[j].isActive
        && n.secrets[j].plaintext == b.value;
      assert i == j;
    }
  }

  /**
   * Retiring a master key that a row still refers to makes exactly that row unreadable, and the failure says which way.
   */
  lemma {:induction false} RetiredKeyIsReported(c: Cipher, v: Vault, n: Notebook, env: Environment, i: nat)
    requires Sound(c) && Keeps(c, v, n) && i < |v.rows| && v.rows[i].isActive && KeySetOf(c, env).Success?
    requires v.rows[i].encryptionKeyId in KeySetOf(c, env).value.keys ==>
            SameKey(c, v.env, env, v.rows[i].encryptionKeyId)
    ensures var row := v.rows[i];
            ResolveKey(c, v.(env := env), row.providerCode, row.keyAlias) ==
              if row.encryptionKeyId in KeySetOf(c, env).value.keys then Success(Some(n.secrets[row.id].plaintext))
              else Failure(UnknownMasterKey)
  {
    var row := v.rows[i];
    assert RowHolds(c, v.env, row, n.secrets[row.id]);
    assert IndexByAlias(v.rows, row.providerCode, row.keyAlias) == Some(i);
  }

  lemma {:induction false} HeldSecretResolves(c: Cipher, v: Vault, n: Notebook, id: string)
    requires Keeps(c, v, n) && id in n.secrets && n.secrets[id].isActive
    ensures ResolveKey(c, v, n.secrets[id].providerCode, n.secrets[id].keyAlias) ==
            Success(Some(n.secrets[id].plaintext))
  {
    var i := IndexById(v.rows, id).value;
    assert RowHolds(c, v.env, v.rows[i], n.secrets[id]);
    assert IndexByAlias(v.rows, v.rows[i].providerCode, v.rows[i].keyAlias) == Some(i);
  }

  /**
   * What becomes of a create, in the body's own words: who is turned away and for what, in the order in which it is
   * looked at, and what is kept of the others.
   */
  lemma {:induction false} CreatedSaysTheBody(
      c: Cipher, v: Vault, n: Notebook, id: string, iv: Bytes, body: CreateBody)
    requires Sound(c) && Keeps(c, v, n) && |iv| == IV_LENGTH && UuidOf(id) == Some(id)
    ensures var (after, error) := Create(c, v, id, iv, body);
            var code, alias := Trimming.Trim(body.providerCode.GetOr("")), Trimming.Trim(body.keyAlias.GetOr(""));
            var keyScope := Trimming.Trim(body.keyScope.GetOr(""));
            && (error == Some(Required("providerCode")) <==> code == "")
            && (error == Some(Required("keyAlias")) <==> code != "" && alias == "")
            && (error == Some(Required("plaintextKey")) <==>
                  code != "" && alias != "" && Trimming.Trim(body.plaintextKey.GetOr("")) == "")
            && (error == Some(ScopeInvalid) ==> keyScope != "" && keyScope != "shared" && keyScope != "dedicated")
            && (error.Some? ==> after == v)
            && (error.None? ==>
                  && after.rows[..|after.rows| - 1] == v.rows && after.rotations == v.rotations
                  && after.rows[|after.rows| - 1].keyScope == (if keyScope == "" then "shared" else keyScope)
                  && after.rows[|after.rows| - 1].isActive
                  && ResolveKey(c, after, code, alias) == Success(body.plaintextKey))
  {
    var op := CreateOp(id, iv, body);
    ValidatedIsAsked(body);
    if Step(c, v, op).1.None? {
      CreatedIsKept(c, v, n, op);
    }
  }

  lemma {:induction false} CreatedIsKept(c: Cipher, v: Vault, n: Notebook, op: Op)
    requires Sound(c) && Keeps(c, v, n) && op.CreateOp? && Allowed(c, v, op) && Step(c, v, op).1.None?
    ensures var s := Asked(op.body);
            && op.body.plaintextKey == Some(s.plaintext)
            && ResolveKey(c, Step(c, v, op).0, s.providerCode, s.keyAlias) == Success(Some(s.plaintext))
  {
    var s, n' := Asked(op.body), Noted(c, n, op);
    ValidatedIsAsked(op.body);
    CreateKeeps(c, v, n, op);
    FreshlyReadable(c, v.env, op.iv, s.plaintext);
    TakenIsFound(c, v, n, s.providerCode, s.keyAlias);
    assert n'.secrets[op.id] == s;
    HeldSecretResolves(c, Step(c, v, op).0, n', op.id);
    assert Trimming.Trim("") == "";
  }

  /** An entry takes no reason or one that fits 512 characters, and no operator or a uuid. */
  lemma {:induction false} EntriesThatFit(body: RotateBody)
    ensures EntryFits(body) <==>
            && (body.reason.None? || body.reason == Some(Null)
                || exists text :: body.reason == Some(Str(text)) && FitsVarchar(text, 512))
            && (body.rotatedBy.None? || body.rotatedBy == Some(Null)
                || exists text :: body.rotatedBy == Some(Str(text)) && UuidOf(text).Some?)
  {}

  lemma {:induction false} LoggedCount(rotated: seq<Rotation>)
    ensures |Logged(rotated)| <= |rotated|
    ensures |Logged(rotated)| == |rotated| <==> forall r :: r in rotated ==> r.live && EntryFits(r.body)
  {
    if rotated != [] {
      var init, last := rotated[..|rotated| - 1], rotated[|rotated| - 1];
      LoggedCount(init);
      assert rotated == init + [last];
      assert forall r :: r in rotated <==> r in init || r == last;
    }
  }

  /** One log entry for each rotation, exactly when every rotation found the database live and its entry fit. */
  lemma {:induction false} OneEntryPerRotation(c: Cipher, env: Environment, ops: seq<Op>)
    requires Sound(c) && AllowedRun(c, env, ops)
    ensures var v, n := Run(c, env, ops), Notes(c, env, ops);
            && |v.rotations| <= |n.rotated|
            && (|v.rotations| == |n.rotated| <==> forall r :: r in n.rotated ==> r.live && EntryFits(r.body))
  {
    VaultKeepsNotebook(c, env, ops);
    LoggedCount(Notes(c, env, ops).rotated);
  }

  lemma {:induction false} RotationSucceeds(
      c: Cipher, v: Vault, n: Notebook, providerKeyId: string, id: string, iv: Bytes, body: RotateBody, live: bool)
    requires Sound(c) && Keeps(c, v, n) && n.ready && |iv| == IV_LENGTH
    requires UuidOf(providerKeyId) == Some(id) && id in n.secrets
    requires Trimmed(body.plaintextKey) != ""
    ensures var (after, error) := Rotate(c, v, providerKeyId, iv, body, live);
            && error == (if live && EntryFits(body) then None else Some(LogRefused))
            && after.rotations == v.rotations + (if live && EntryFits(body) then [id] else [])
  {
    FreshlyReadable(c, v.env, iv, body.plaintextKey.GetOr(""));
  }

  lemma {:induction false} RotationReplaces(
      c: Cipher, v: Vault, n: Notebook, op: Op, id: string, plaintext: string, n': Notebook)
    requires Sound(c) && Keeps(c, v, n) && n.ready && op.RotateOp? && Allowed(c, v, op) && n' == Noted(c, n, op)
    requires UuidOf(op.providerKeyId) == Some(id) && id in n.secrets
    requires op.request.plaintextKey == Some(plaintext) && Trimmed(Some(plaintext)) != ""
    ensures id in n'.secrets
            && n'.secrets[id] == n.secrets[id].(plaintext := plaintext, isActive := true)
            && Keeps(c, Step(c, v, op).0, n')
  {
    RotateKeeps(c, v, n, op);
  }

  /** A rotation on a live database is logged exactly when its entry fits; the secret is replaced either way. */
  lemma {:induction false} RotationIsLoggedIffItFits(
      c: Cipher, v: Vault, n: Notebook, providerKeyId: string, id: string, iv: Bytes, body: RotateBody, live: bool)
    requires Sound(c) && Keeps(c, v, n) && n.ready && |iv| == IV_LENGTH
    requires UuidOf(providerKeyId) == Some(id) && id in n.secrets
    requires Trimmed(body.plaintextKey) != ""
    ensures var (after, error) := Rotate(c, v, providerKeyId, iv, body, live);
            && error == (if live && EntryFits(body) then None else Some(LogRefused))
            && after.rotations == v.rotations + (if live && EntryFits(body) then [id] else [])
            && ResolveKey(c, after, n.secrets[id].providerCode, n.secrets[id].keyAlias) == Success(body.plaintextKey)
  {
    assert body.plaintextKey.Some? by {
      assert Trimmed(None) == "";
    }
    var op := RotateOp(providerKeyId, iv, body, live);
    var n' := Noted(c, n, op);
    RotationSucceeds(c, v, n, providerKeyId, id, iv, body, live);
    RotationReplaces(c, v, n, op, id, body.plaintextKey.value, n');
    HeldSecretResolves(c, Step(c, v, op).0, n', id);
  }

  /** A reason of 513 characters, on a live database: the caller is told of a failure, and the secret is replaced. */
  lemma {:induction false} LongReasonStillRotates(
      c: Cipher, v: Vault, n: Notebook, providerKeyId: string, id: string, iv: Bytes, plaintext: string)
    requires Sound(c) && Keeps(c, v, n) && n.ready && |iv| == IV_LENGTH
    requires UuidOf(providerKeyId) == Some(id) && id in n.secrets
    requires Trimmed(Some(plaintext)) != ""
    ensures var body := RotateBody(Some(plaintext), None, Some(Str(seq(513, _ => 'x'))));
            var (after, error) := Rotate(c, v, providerKeyId, iv, body, true);
            && error == Some(LogRefused) && after.rotations == v.rotations
            && ResolveKey(c, after, n.secrets[id].providerCode, n.secrets[id].keyAlias) == Success(Some(plaintext))
  {
    var reason := seq(513, _ => 'x');
    assert reason[512] == 'x' && !FitsVarchar(reason, 512);
    RotationIsLoggedIffItFits(c, v, n, providerKeyId, id, iv, RotateBody(Some(plaintext), None, Some(Str(reason))),
      true);
  }
}
