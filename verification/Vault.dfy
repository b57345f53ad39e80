/**
  The secrets vault over an abstract cipher and an abstract table. Every call into the
  database, the cipher or the random source takes its answer, good or bad, as a parameter.
*/
module Vault {
  import opened Entities
  import opened Strings

  type Bytes = seq<bv8>

  const SALT_LEN: nat := 32

  /** Key derivation, which also gives the stored password hash, and authenticated encryption under a nonce. */
  datatype Cipher = Cipher(
    derive: (string, Bytes) -> Bytes,
    encrypt: (Bytes, Bytes, Bytes) -> string,
    decrypt: (Bytes, string) -> Option<Bytes>)

  ghost predicate Lawful(c: Cipher) {
    forall key, nonce, plain :: c.decrypt(key, c.encrypt(key, nonce, plain)) == Some(plain)
  }

  type Table = map<string, string>

  type View = map<string, Bytes>

  /** The database, and the master key while unlocked. */
  datatype State = State(salt: Option<Bytes>, hash: Option<Bytes>, secrets: Table, crypto: Option<Bytes>)

  datatype Failure = Locked | NotInitialized | InvalidPassword | NotFound | Storage

  datatype Reply = Done | Value(plain: Bytes) | Keys(keys: seq<string>) | Failed(failure: Failure)

  /** The answers met by one change of password; `nonces(i)` is None when the i-th encryption fails. */
  datatype Luck = Luck(
    salt: Option<Bytes>,
    rows: Option<seq<string>>,
    loads: nat -> bool,
    begins: bool,
    nonces: nat -> Option<Bytes>,
    writes: nat -> bool,
    meta: bool,
    commits: bool)

  datatype Op =
    | Unlock(password: string)
    | Lock
    | Set(key: string, plain: Bytes, nonce: Option<Bytes>, stored: bool)
    | Get(key: string, loaded: bool)
    | Delete(key: string, executed: bool)
    | List(rows: Option<seq<string>>)
    | ChangePassword(oldPassword: string, newPassword: string, luck: Luck)

  /** The only answer a query ordered by key can give. */
  ghost predicate Listing(rows: seq<string>, keys: set<string>) {
    Sorted(rows) && forall k :: k in rows <==> k in keys
  }

  ghost predicate Listed(rows: Option<seq<string>>, keys: set<string>) {
    rows.Some? && Listing(rows.value, keys)
  }

  /* ---------- What each operation does ---------- */

  function UnlockStep(c: Cipher, s: State, password: string): (State, Reply) {
    if s.salt.None? then (s, Failed(NotInitialized))
    else if s.hash.None? then (s, Failed(Storage))
    else if c.derive(password, s.salt.value) != s.hash.value then (s, Failed(InvalidPassword))
    else if |s.salt.value| != SALT_LEN then (s, Failed(Storage))
    else (s.(crypto := Some(c.derive(password, s.salt.value))), Done)
  }

  function SetStep(c: Cipher, s: State, key: string, plain: Bytes, nonce: Option<Bytes>, stored: bool): (State, Reply) {
    if s.crypto.None? then (s, Failed(Locked))
    else if nonce.None? || !stored then (s, Failed(Storage))
    else (s.(secrets := s.secrets[key := c.encrypt(s.crypto.value, nonce.value, plain)]), Done)
  }

  function GetReply(c: Cipher, s: State, key: string, loaded: bool): Reply {
    if s.crypto.None? then Failed(Locked)
    else if !loaded then Failed(Storage)
    else if key !in s.secrets then Failed(NotFound)
    else match c.decrypt(s.crypto.value, s.secrets[key])
      case None => Failed(Storage)
      case Some(plain) => Value(plain)
  }

  function DeleteStep(s: State, key: string, executed: bool): (State, Reply) {
    if s.crypto.None? then (s, Failed(Locked))
    else if !executed then (s, Failed(Storage))
    else if key !in s.secrets then (s, Failed(NotFound))
    else (s.(secrets := s.secrets - {key}), Done)
  }

  /** The plaintexts of the rows from the i-th on, added to those read so far. */
  function ReadFrom(c: Cipher, secrets: Table, key: Bytes, rows: seq<string>, loads: nat -> bool, i: nat, plains: View): Option<View>
    requires i <= |rows|
    decreases |rows| - i
  {
    if i == |rows| then Some(plains)
    else if !loads(i) || rows[i] !in secrets then None
    else match c.decrypt(key, secrets[rows[i]])
      case None => None
      case Some(plain) => ReadFrom(c, secrets, key, rows, loads, i + 1, plains[rows[i] := plain])
  }

  /** The rows from the i-th on, encrypted again, in the transaction's copy of the table. */
  function WriteFrom(c: Cipher, table: Table, key: Bytes, rows: seq<string>, plains: View, luck: Luck, i: nat): Option<Table>
    requires i <= |rows|
    decreases |rows| - i
  {
    if i == |rows| then Some(table)
    else if rows[i] !in plains || luck.nonces(i).None? || !luck.writes(i) then None
    else WriteFrom(c, table[rows[i] := c.encrypt(key, luck.nonces(i).value, plains[rows[i]])], key, rows, plains, luck, i + 1)
  }

  /** The table a change of password commits, if it gets that far. */
  function Reencrypted(c: Cipher, s: State, newPassword: string, luck: Luck): Option<Table>
    requires s.crypto.Some?
  {
    if luck.salt.None? || |luck.salt.value| != SALT_LEN || luck.rows.None? then None
    else
      var plains := ReadFrom(c, s.secrets, s.crypto.value, luck.rows.value, luck.loads, 0, map[]);
      if plains.None? || !luck.begins then None
      else
        var table := WriteFrom(c, s.secrets, c.derive(newPassword, luck.salt.value), luck.rows.value, plains.value, luck, 0);
        if table.None? || !luck.meta || !luck.commits then None else table
  }

  function ChangeStep(c: Cipher, s: State, oldPassword: string, newPassword: string, luck: Luck): (State, Reply) {
    if s.crypto.None? then (s, Failed(Locked))
    else if s.salt.None? || s.hash.None? then (s, Failed(Storage))
    else if c.derive(oldPassword, s.salt.value) != s.hash.value then (s, Failed(InvalidPassword))
    else
      var table := Reencrypted(c, s, newPassword, luck);
      if table.None? then (s, Failed(Storage))
      else
        var key := c.derive(newPassword, luck.salt.value);
        (State(luck.salt, Some(key), table.value, Some(key)), Done)
  }

  ghost function Step(c: Cipher, s: State, op: Op): (State, Reply) {
    match op
    case Unlock(password) => UnlockStep(c, s, password)
    case Lock => (s.(crypto := None), Done)
    case Set(key, plain, nonce, stored) => SetStep(c, s, key, plain, nonce, stored)
    case Get(key, loaded) => (s, GetReply(c, s, key, loaded))
    case Delete(key, executed) => DeleteStep(s, key, executed)
    case List(rows) =>
      (s, if s.crypto.None? then Failed(Locked)
          else if !Listed(rows, s.secrets.Keys) then Failed(Storage)
          else Keys(rows.value))
    case ChangePassword(oldPassword, newPassword, luck) =>
      if s.crypto.Some? && luck.rows.Some? && !Listing(luck.rows.value, s.secrets.Keys)
      then ChangeStep(c, s, oldPassword, newPassword, luck.(rows := None))
      else ChangeStep(c, s, oldPassword, newPassword, luck)
  }

  ghost function Replies(c: Cipher, s: State, ops: seq<Op>): seq<Reply>
    decreases |ops|
  {
    if ops == [] then [] else [Step(c, s, ops[0]).1] + Replies(c, Step(c, s, ops[0]).0, ops[1..])
  }

  /* ---------- The plain map the vault stands for ---------- */

  /** A map under a password: no ciphertext, no nonce, no master key. */
  datatype Plain = Plain(password: string, salt: Bytes, unlocked: bool, secrets: View)

  predicate Opens(c: Cipher, p: Plain, password: string) {
    c.derive(password, p.salt) == c.derive(p.password, p.salt)
  }

  /** Every answer was good: the listing, each read, each encryption, each write, and the commit. */
  ghost predicate Lucky(luck: Luck, keys: set<string>) {
    && luck.salt.Some? && |luck.salt.value| == SALT_LEN && Listed(luck.rows, keys)
    && (forall i: nat :: i < |luck.rows.value| ==> luck.loads(i))
    && (forall i: nat :: i < |luck.rows.value| ==> luck.nonces(i).Some?)
    && (forall i: nat :: i < |luck.rows.value| ==> luck.writes(i))
    && luck.begins && luck.meta && luck.commits
  }

  ghost function PlainStep(c: Cipher, p: Plain, op: Op): (Plain, Reply) {
    match op
    case Unlock(password) => if Opens(c, p, password) then (p.(unlocked := true), Done) else (p, Failed(InvalidPassword))
    case Lock => (p.(unlocked := false), Done)
    case _ => if !p.unlocked then (p, Failed(Locked)) else UnlockedStep(c, p, op)
  }

  ghost function UnlockedStep(c: Cipher, p: Plain, op: Op): (Plain, Reply) {
    match op
    case Set(key, plain, nonce, stored) =>
      if nonce.Some? && stored then (p.(secrets := p.secrets[key := plain]), Done) else (p, Failed(Storage))
    case Get(key, loaded) =>
      (p, if !loaded then Failed(Storage) else if key in p.secrets then Value(p.secrets[key]) else Failed(NotFound))
    case Delete(key, executed) =>
      if !executed then (p, Failed(Storage))
      else if key in p.secrets then (p.(secrets := p.secrets - {key}), Done)
      else (p, Failed(NotFound))
    case List(rows) => (p, if Listed(rows, p.secrets.Keys) then Keys(rows.value) else Failed(Storage))
    case ChangePassword(oldPassword, newPassword, luck) =>
      if !Opens(c, p, oldPassword) then (p, Failed(InvalidPassword))
      else if Lucky(luck, p.secrets.Keys) then (p.(password := newPassword, salt := luck.salt.value), Done)
      else (p, Failed(Storage))
    case _ => (p, Done)
  }

  ghost function PlainReplies(c: Cipher, p: Plain, ops: seq<Op>): seq<Reply>
    decreases |ops|
  {
    if ops == [] then [] else [PlainStep(c, p, ops[0]).1] + PlainReplies(c, PlainStep(c, p, ops[0]).0, ops[1..])
  }

  /** The table holds the view under one key. */
  ghost predicate Holds(c: Cipher, secrets: Table, key: Bytes, view: View) {
    && secrets.Keys == view.Keys
    && forall k :: k in secrets ==> c.decrypt(key, secrets[k]) == Some(view[k])
  }

  ghost predicate Represents(c: Cipher, s: State, p: Plain) {
    var key := c.derive(p.password, p.salt);
    && s.salt == Some(p.salt) && |p.salt| == SALT_LEN && s.hash == Some(key)
    && s.crypto == (if p.unlocked then Some(key) else None)
    && Holds(c, s.secrets, key, p.secrets)
  }

  /* ---------- Re-encryption ---------- */

  lemma {:induction false} ReadsTheView(c: Cipher, secrets: Table, key: Bytes, rows: seq<string>, loads: nat -> bool, i: nat, plains: View, view: View)
    requires i <= |rows| && Holds(c, secrets, key, view)
    requires forall k :: k in rows ==> k in secrets
    requires forall k :: k in plains <==> k in rows[..i]
    requires forall k :: k in plains ==> k in view && plains[k] == view[k]
    ensures var r := ReadFrom(c, secrets, key, rows, loads, i, plains);
            && (r.Some? <==> forall j: nat :: i <= j < |rows| ==> loads(j))
            && (r.Some? ==> (forall k :: k in r.value <==> k in rows)
                            && forall k :: k in r.value ==> k in view && r.value[k] == view[k])
    decreases |rows| - i
  {
    if i == |rows| {
      assert rows[..i] == rows;
    } else {
      assert rows[i] in rows;
      var k := rows[i];
      if loads(i) {
        assert rows[..i + 1] == rows[..i] + [k];
        ReadsTheView(c, secrets, key, rows, loads, i + 1, plains[k := view[k]], view);
      }
    }
  }

  /** Row by row: the part already written is under the new key, the rest untouched. */
  lemma {:induction false} WritesTheView(c: Cipher, before: Table, table: Table, key: Bytes, rows: seq<string>, plains: View, luck: Luck, i: nat)
    requires Lawful(c) && i <= |rows|
    requires forall k :: k in rows ==> k in plains && k in before
    requires table.Keys == before.Keys
    requires forall k :: k in rows[..i] ==> c.decrypt(key, table[k]) == Some(plains[k])
    ensures var r := WriteFrom(c, table, key, rows, plains, luck, i);
            && (r.Some? <==> forall j: nat :: i <= j < |rows| ==> luck.nonces(j).Some? && luck.writes(j))
            && (r.Some? ==> r.value.Keys == before.Keys
                            && forall k :: k in rows ==> c.decrypt(key, r.value[k]) == Some(plains[k]))
    decreases |rows| - i
  {
    if i == |rows| {
      assert rows[..i] == rows;
    } else {
      assert rows[i] in rows;
      var k := rows[i];
      if luck.nonces(i).Some? && luck.writes(i) {
        var next := table[k := c.encrypt(key, luck.nonces(i).value, plains[k])];
        assert rows[..i + 1] == rows[..i] + [k];
        assert next.Keys == table.Keys + {k} == before.Keys;
        WritesTheView(c, before, next, key, rows, plains, luck, i + 1);
      }
    }
  }

  /** The new table holds the same view under the new key, exactly when no answer was bad. */
  lemma ReencryptionKeepsView(c: Cipher, s: State, newPassword: string, luck: Luck, view: View)
    requires Lawful(c) && s.crypto.Some? && Holds(c, s.secrets, s.crypto.value, view)
    requires luck.rows.Some? ==> Listing(luck.rows.value, s.secrets.Keys)
    ensures var r := Reencrypted(c, s, newPassword, luck);
            && (r.Some? <==> Lucky(luck, view.Keys))
            && (r.Some? ==> Holds(c, r.value, c.derive(newPassword, luck.salt.value), view))
  {
    if luck.salt.Some? && |luck.salt.value| == SALT_LEN && luck.rows.Some? {
      var rows := luck.rows.value;
      ReadsTheView(c, s.secrets, s.crypto.value, rows, luck.loads, 0, map[], view);
      var plains := ReadFrom(c, s.secrets, s.crypto.value, rows, luck.loads, 0, map[]);
      if plains.Some? {
        WritesTheView(c, s.secrets, s.secrets, c.derive(newPassword, luck.salt.value), rows, plains.value, luck, 0);
      }
    }
  }

  /* ---------- The vault is the plain map ---------- */

  lemma ChangeRefines(c: Cipher, s: State, p: Plain, op: Op)
    requires Lawful(c) && Represents(c, s, p) && op.ChangePassword?
    ensures Represents(c, Step(c, s, op).0, PlainStep(c, p, op).0) && Step(c, s, op).1 == PlainStep(c, p, op).1
  {
    if p.unlocked && Opens(c, p, op.oldPassword) {
      var luck := if op.luck.rows.Some? && !Listing(op.luck.rows.value, s.secrets.Keys) then op.luck.(rows := None) else op.luck;
      ReencryptionKeepsView(c, s, op.newPassword, luck, p.secrets);
      assert Lucky(luck, p.secrets.Keys) <==> Lucky(op.luck, p.secrets.Keys);
    }
  }

  /**
    Over every sequence of operations, with failures at any point, the vault answers exactly
    as the plain map does.
   */
  lemma {:induction false} Refinement(c: Cipher, s: State, p: Plain, ops: seq<Op>)
    requires Lawful(c) && Represents(c, s, p)
    ensures Replies(c, s, ops) == PlainReplies(c, p, ops)
    decreases |ops|
  {
    if ops != [] {
      if ops[0].ChangePassword? { ChangeRefines(c, s, p, ops[0]); }
      Refinement(c, Step(c, s, ops[0]).0, PlainStep(c, p, ops[0]).0, ops[1..]);
    }
  }

  /**
    A change of password succeeds exactly when the vault is open, the old password is right
    and no answer on the way was bad; if it fails, wherever it failed, the table, salt, hash
    and master key are as they were.
   */
  lemma ChangeSucceedsExactlyWhen(c: Cipher, s: State, p: Plain, op: Op)
    requires Lawful(c) && Represents(c, s, p) && op.ChangePassword?
    ensures Step(c, s, op).1 == Done <==>
            p.unlocked && Opens(c, p, op.oldPassword) && Lucky(op.luck, p.secrets.Keys)
    ensures Step(c, s, op).1 != Done ==> Step(c, s, op).0 == s
  {
    ChangeRefines(c, s, p, op);
  }

  /**
    A change of password keeps every secret and, after a lock, the new password opens the
    vault again, as does exactly every password that derives the same key.
   */
  lemma ChangePasswordKeepsSecrets(c: Cipher, s: State, p: Plain, op: Op, password: string, key: string)
    requires Lawful(c) && Represents(c, s, p) && op.ChangePassword? && Step(c, s, op).1 == Done
    ensures var t := Step(c, s, op).0;
            var u := Step(c, t.(crypto := None), Unlock(password));
            && t.secrets.Keys == s.secrets.Keys
            && GetReply(c, t, key, true) == GetReply(c, s, key, true)
            && (u.1 == Done <==> c.derive(password, op.luck.salt.value) == c.derive(op.newPassword, op.luck.salt.value))
            && (u.1 == Done ==> u.0 == t)
  {
    ChangeRefines(c, s, p, op);
    var q := PlainStep(c, p, op).0;
    assert Represents(c, Step(c, s, op).0, q) && q.secrets == p.secrets;
  }

  /* ---------- The vault itself ---------- */

  class Vault {
    const cipher: Cipher
    var saltRow: Option<Bytes>
    var hashRow: Option<Bytes>
    var secrets: Table
    var crypto: Option<Bytes>
    var locked: bool

    ghost predicate Valid()
      reads this
    {
      locked <==> crypto.None?
    }

    ghost function Current(): State
      reads this
    {
      State(saltRow, hashRow, secrets, crypto)
    }

    constructor Open(cipher: Cipher, salt: Option<Bytes>, hash: Option<Bytes>, secrets: Table)
      ensures Valid() && this.cipher == cipher && Current() == State(salt, hash, secrets, None)
    {
      this.cipher, saltRow, hashRow, this.secrets := cipher, salt, hash, secrets;
      crypto, locked := None, true;
    }

    /** Sets up an empty vault; a salt that is already there is kept and is an error. */
    method Initialize(password: string, salt: Bytes, saltStored: bool, hashStored: bool) returns (ok: bool)
      requires Valid() && |salt| == SALT_LEN
      modifies this`saltRow, this`hashRow
      ensures ok == (old(saltRow).None? && saltStored && old(hashRow).None? && hashStored)
      ensures ok && locked && secrets == map[] ==> Represents(cipher, Current(), Plain(password, salt, false, map[]))
      ensures old(saltRow).Some? ==> Current() == old(Current())
    {
      if saltRow.Some? || !saltStored { return false; }
      saltRow := Some(salt);
      if hashRow.Some? || !hashStored { return false; }
      hashRow := Some(cipher.derive(password, salt));
      return true;
    }

    method Unlock(password: string) returns (r: Reply)
      requires Valid()
      modifies this`crypto, this`locked
      ensures Valid() && (Current(), r) == UnlockStep(cipher, old(Current()), password)
    {
      if saltRow.None? { return Failed(NotInitialized); }
      if hashRow.None? { return Failed(Storage); }
      if cipher.derive(password, saltRow.value) != hashRow.value { return Failed(InvalidPassword); }
      if |saltRow.value| != SALT_LEN { return Failed(Storage); }
      crypto := Some(cipher.derive(password, saltRow.value));
      locked := false;
      return Done;
    }

    method Lock()
      requires Valid()
      modifies this`crypto, this`locked
      ensures Valid() && Current() == Step(cipher, old(Current()), Op.Lock).0
    {
      crypto := None;
      locked := true;
    }

    method Set(key: string, plain: Bytes, nonce: Option<Bytes>, stored: bool) returns (r: Reply)
      requires Valid()
      modifies this`secrets
      ensures Valid() && (Current(), r) == SetStep(cipher, old(Current()), key, plain, nonce, stored)
    {
      if locked { return Failed(Locked); }
      if nonce.None? { return Failed(Storage); }
      if !stored { return Failed(Storage); }
      secrets := secrets[key := cipher.encrypt(crypto.value, nonce.value, plain)];
      return Done;
    }

    method Get(key: string, loaded: bool) returns (r: Reply)
      requires Valid()
      ensures r == GetReply(cipher, Current(), key, loaded)
    {
      if locked { return Failed(Locked); }
      if !loaded { return Failed(Storage); }
      if key !in secrets { return Failed(NotFound); }
      var plain := cipher.decrypt(crypto.value, secrets[key]);
      if plain.None? { return Failed(Storage); }
      return Value(plain.value);
    }

    method Delete(key: string, executed: bool) returns (r: Reply)
      requires Valid()
      modifies this`secrets
      ensures Valid() && (Current(), r) == DeleteStep(old(Current()), key, executed)
    {
      if locked { return Failed(Locked); }
      if !executed { return Failed(Storage); }
      if key !in secrets { return Failed(NotFound); }
      secrets := secrets - {key};
      return Done;
    }

    method ChangePassword(oldPassword: string, newPassword: string, luck: Luck) returns (r: Reply)
      requires Valid()
      modifies this
      ensures Valid() && (Current(), r) == ChangeStep(cipher, old(Current()), oldPassword, newPassword, luck)
    {
      if locked { return Failed(Locked); }
      if saltRow.None? || hashRow.None? { return Failed(Storage); }
      if cipher.derive(oldPassword, saltRow.value) != hashRow.value { return Failed(InvalidPassword); }
      if luck.salt.None? || |luck.salt.value| != SALT_LEN { return Failed(Storage); }
      var newKey := cipher.derive(newPassword, luck.salt.value);
      if luck.rows.None? { return Failed(Storage); }
      var rows := luck.rows.value;

      var plains: View := map[];
      var i := 0;
      while i < |rows|
        invariant i <= |rows| && Valid() && Current() == old(Current())
        invariant ReadFrom(cipher, secrets, crypto.value, rows, luck.loads, i, plains)
               == ReadFrom(cipher, secrets, crypto.value, rows, luck.loads, 0, map[])
      {
        var plain := Get(rows[i], luck.loads(i));
        if !plain.Value? { return Failed(Storage); }
        plains := plains[rows[i] := plain.plain];
        i := i + 1;
      }

      if !luck.begins { return Failed(Storage); }
      var transaction := secrets;
      i := 0;
      while i < |rows|
        invariant i <= |rows| && Valid() && Current() == old(Current())
        invariant WriteFrom(cipher, transaction, newKey, rows, plains, luck, i)
               == WriteFrom(cipher, secrets, newKey, rows, plains, luck, 0)
      {
        if rows[i] !in plains || luck.nonces(i).None? { return Failed(Storage); }
        if !luck.writes(i) { return Failed(Storage); }
        transaction := transaction[rows[i] := cipher.encrypt(newKey, luck.nonces(i).value, plains[rows[i]])];
        i := i + 1;
      }
      if !luck.meta { return Failed(Storage); }
      if !luck.commits { return Failed(Storage); }
      secrets, saltRow, hashRow := transaction, luck.salt, Some(newKey);
      crypto := Some(newKey);
      return Done;
    }
  }
}
