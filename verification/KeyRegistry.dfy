/**
 The push relay's key registry: one table of key records, filled by registration and by
 copying records out of the older KV namespace the first time they are used. The main
 results: copying on use answers every presented key exactly as if all KV records had been
 imported first, and no key that stopped being active ever becomes active again.
*/
module KeyRegistry {
  import opened Common

  type Hash = string
  type KeyId = string

  datatype Status = Active | Superseded | Revoked

  datatype Row = Row(
    id: KeyId,
    name: string,
    ip: Option<string>,
    createdAt: int,
    expiresAt: Option<int>,
    source: string,
    fromKv: bool,
    status: Status,
    endedAt: Option<int>)

  /** The `keys` table, by its primary key. */
  type Table = map<Hash, Row>

  datatype NewKey = NewKey(hash: Hash, id: KeyId, name: string, ip: string, createdAt: int)

  datatype LegacyKey = LegacyKey(
    id: KeyId,
    name: string,
    ip: Option<string>,
    createdAt: int,
    expiresAt: Option<int>,
    source: string,
    enabled: bool)

  /** The KV namespace, read only: the record stored for each key hash. */
  type Kv = map<Hash, LegacyKey>

  datatype Conflict = UniqueViolation

  // ---- the table's operations as functions of its contents -----------------------------

  ghost predicate IdTaken(t: Table, id: KeyId) {
    exists h :: h in t && t[h].id == id
  }

  ghost predicate UniqueIds(t: Table) {
    forall g, h :: g in t && h in t && t[g].id == t[h].id ==> g == h
  }

  function ByHash(t: Table, hash: Hash): Option<Row> {
    if hash in t then Some(t[hash]) else None
  }

  ghost function ById(t: Table, id: KeyId): Option<Row> {
    if h :| h in t && t[h].id == id then Some(t[h]) else None
  }

  predicate ActiveAt(row: Row, ip: string) {
    row.ip == Some(ip) && row.status == Active
  }

  function Ended(row: Row, at: int): Row {
    row.(status := Superseded, endedAt := Some(at))
  }

  function Supersede(t: Table, ip: string, at: int): Table {
    map h | h in t :: if ActiveAt(t[h], ip) then Ended(t[h], at) else t[h]
  }

  function NativeRow(k: NewKey): Row {
    Row(k.id, k.name, Some(k.ip), k.createdAt, None, "self", false, Active, None)
  }

  /** One registration transaction; a unique-key violation rolls all of it back. */
  ghost function Register(t: Table, k: NewKey): Result<Table, Conflict> {
    if k.hash in t || IdTaken(t, k.id) then Err(UniqueViolation)
    else Ok(Supersede(t, k.ip, k.createdAt)[k.hash := NativeRow(k)])
  }

  /** An address has registered here since `createdAt`. */
  ghost predicate RegisteredSince(t: Table, ip: string, createdAt: int) {
    exists h :: h in t && t[h].ip == Some(ip) && !t[h].fromKv && t[h].createdAt > createdAt
  }

  ghost function ImportStatus(t: Table, k: LegacyKey): Status {
    if !k.enabled then Revoked
    else if k.ip.Some? && k.ip.value != "" && RegisteredSince(t, k.ip.value, k.createdAt) then Superseded
    else Active
  }

  ghost function ImportedRow(t: Table, k: LegacyKey): Row {
    Row(k.id, k.name, k.ip, k.createdAt, k.expiresAt, k.source, true, ImportStatus(t, k), None)
  }

  /** The row carries the KV record's own columns. */
  predicate HoldsRecord(row: Row, k: LegacyKey) {
    && row.id == k.id && row.name == k.name && row.ip == k.ip && row.source == k.source
    && row.createdAt == k.createdAt && row.expiresAt == k.expiresAt && row.fromKv
  }

  /** Copying a KV record in: an existing row wins, and a taken id is ignored. */
  ghost function Import(t: Table, hash: Hash, k: LegacyKey): Table {
    if hash in t || IdTaken(t, k.id) then t else t[hash := ImportedRow(t, k)]
  }

  /** The operator's own UPDATE; a hash with no row matches nothing. */
  function Revoke(t: Table, hash: Hash): Table {
    if hash in t then t[hash := t[hash].(status := Revoked)] else t
  }

  lemma RegisterKeepsUniqueIds(t: Table, k: NewKey)
    requires UniqueIds(t) && Register(t, k).Ok?
    ensures UniqueIds(Register(t, k).value)
  {
    var t' := Register(t, k).value;
    forall h | h in t' && h != k.hash ensures h in t && t'[h].id == t[h].id {}
  }

  // ---- the coordinator instance that holds the table -----------------------------------

  class KeyTable {
    var rows: Table

    ghost predicate Valid() reads this { UniqueIds(rows) }

    constructor ()
      ensures Valid() && rows == map[]
    {
      rows := map[];
    }

    method FindByHash(hash: Hash) returns (row: Option<Row>)
      ensures row == ByHash(rows, hash)
    {
      row := if hash in rows then Some(rows[hash]) else None;
    }

    method FindById(id: KeyId) returns (row: Option<Row>)
      requires Valid()
      ensures row == ById(rows, id)
      ensures row == None <==> forall h :: h in rows ==> rows[h].id != id
      ensures row.Some? ==> row.value.id == id && exists h :: h in rows && rows[h] == row.value
    {
      row := None;
      var todo := rows.Keys;
      while todo != {}
        invariant todo <= rows.Keys
        invariant forall h :: h in rows && h !in todo ==> rows[h].id != id
      {
        var h :| h in todo;
        if rows[h].id == id {
          return Some(rows[h]);
        }
        todo := todo - {h};
      }
    }

    /** Makes `key` the one active key of its address and reports the keys it displaced. */
    method RegisterKey(key: NewKey) returns (displaced: Result<map<Hash, KeyId>, Conflict>)
      requires Valid()
      modifies this
      ensures Valid()
      ensures displaced.Ok? == Register(old(rows), key).Ok?
      ensures rows == match Register(old(rows), key) case Ok(t) => t case Err(_) => old(rows)
      ensures displaced.Ok? <==> key.hash !in old(rows) && forall h :: h in old(rows) ==> old(rows)[h].id != key.id
      ensures displaced.Err? ==> rows == old(rows)
      ensures displaced.Ok? ==>
                && key.hash in rows
                && rows[key.hash] == Row(key.id, key.name, Some(key.ip), key.createdAt, None, "self", false,
                                         Active, None)
      ensures displaced.Ok? ==>
                forall h :: h != key.hash ==>
                  && (h in rows <==> h in old(rows))
                  && (h in old(rows) ==>
                        var row := old(rows)[h];
                        if row.ip == Some(key.ip) && row.status == Active then
                          && rows[h] == row.(status := Superseded, endedAt := Some(key.createdAt))
                          && h in displaced.value && displaced.value[h] == row.id
                        else rows[h] == row && h !in displaced.value)
    {
      var taken := FindById(key.id);
      if key.hash in rows || taken.Some? {
        return Err(UniqueViolation);
      }
      displaced := Ok(map h | h in rows && ActiveAt(rows[h], key.ip) :: rows[h].id);
      RegisterKeepsUniqueIds(rows, key);
      ghost var before := rows;
      rows := map h | h in rows ::
        if ActiveAt(rows[h], key.ip) then rows[h].(status := Superseded, endedAt := Some(key.createdAt)) else rows[h];
      assert rows == Supersede(before, key.ip, key.createdAt);
      rows := rows[key.hash := NativeRow(key)];
    }

    /** Copies `key` in on first use and returns the row now on file for its hash. */
    method ImportKey(hash: Hash, key: LegacyKey) returns (row: Option<Row>)
      requires Valid()
      modifies this
      ensures Valid()
      ensures rows == Import(old(rows), hash, key)
      ensures row == if hash in rows then Some(rows[hash]) else None
      ensures forall h :: h != hash ==> (h in rows <==> h in old(rows)) && (h in rows ==> rows[h] == old(rows)[h])
      ensures hash in old(rows) ==> rows == old(rows)
      ensures hash !in old(rows) ==> (hash in rows <==> forall h :: h in old(rows) ==> old(rows)[h].id != key.id)
      ensures hash !in old(rows) && hash in rows ==>
                && rows[hash] == Row(key.id, key.name, key.ip, key.createdAt, key.expiresAt, key.source, true,
                                     rows[hash].status, None)
                && (rows[hash].status == Revoked <==> !key.enabled)
                && (rows[hash].status == Superseded <==>
                      && key.enabled && key.ip.Some? && key.ip.value != ""
                      && exists h :: h in old(rows) && old(rows)[h].ip == key.ip && !old(rows)[h].fromKv &&
                                     old(rows)[h].createdAt > key.createdAt)
    {
      if hash in rows {
        return Some(rows[hash]);
      }
      var status := if key.enabled then Active else Revoked;
      if status == Active && key.ip.Some? && key.ip.value != "" {
        if exists h :: h in rows && rows[h].ip == key.ip && !rows[h].fromKv && rows[h].createdAt > key.createdAt {
          status := Superseded;
        }
      }
      var taken := FindById(key.id);
      if taken == None {
        var row := Row(key.id, key.name, key.ip, key.createdAt, key.expiresAt, key.source, true, status, None);
        rows := rows[hash := row];
      }
      row := if hash in rows then Some(rows[hash]) else None;
    }
  }

  // ---- what a presented key resolves to --------------------------------------------------

  /** A lookup past the cache: the table first, then KV, copied in; the answer is what Resolve says. */
  method LookupUncached(table: KeyTable, kv: Kv, hash: Hash) returns (row: Option<Row>)
    requires table.Valid()
    modifies table
    ensures table.Valid()
    ensures row == Resolve(old(table.rows), kv, hash)
    ensures table.rows == Apply(old(table.rows), kv, ImportOp(hash))
    ensures hash in old(table.rows) ==> row == Some(old(table.rows)[hash])
    ensures hash !in old(table.rows) ==>
              && (row.Some? <==>
                    hash in kv && forall h :: h in old(table.rows) ==> old(table.rows)[h].id != kv[hash].id)
              && (row.Some? ==> HoldsRecord(row.value, kv[hash]))
  {
    row := table.FindByHash(hash);
    if row == None && hash in kv {
      row := table.ImportKey(hash, kv[hash]);
    }
  }

  /** The row a hash resolves to with no cache in between: the table first, then KV, copied in. */
  ghost function Resolve(t: Table, kv: Kv, hash: Hash): Option<Row> {
    if hash in t then Some(t[hash])
    else if hash in kv then ByHash(Import(t, hash, kv[hash]), hash)
    else None
  }

  function StatusOf(row: Option<Row>): Option<Status> {
    match row
    case Some(r) => Some(r.status)
    case None => None
  }

  /** An id names one key: no two hashes, in the table or in KV, share one, and a hash on file in both has one id. */
  ghost predicate Coherent(t: Table, kv: Kv) {
    && UniqueIds(t)
    && (forall g, h :: g in kv && h in kv && kv[g].id == kv[h].id ==> g == h)
    && (forall g, h :: g in t && h in kv ==> (g == h <==> t[g].id == kv[h].id))
  }

  ghost predicate IdKnown(t: Table, kv: Kv, id: KeyId) {
    IdTaken(t, id) || exists h :: h in kv && kv[h].id == id
  }

  /** A freshly minted key: neither its hash nor its id is on file anywhere. */
  ghost predicate Minted(t: Table, kv: Kv, k: NewKey) {
    k.hash !in t && k.hash !in kv && !IdKnown(t, kv, k.id) && k.ip != ""
  }

  datatype Op =
    | RegisterOp(key: NewKey)
    | ImportOp(hash: Hash)
    | RevokeOp(hash: Hash)

  ghost function Apply(t: Table, kv: Kv, op: Op): Table {
    match op
    case RegisterOp(k) => (match Register(t, k) case Ok(t') => t' case Err(_) => t)
    case ImportOp(h) => if h in kv then Import(t, h, kv[h]) else t
    case RevokeOp(h) => Revoke(t, h)
  }

  ghost function Run(t: Table, kv: Kv, ops: seq<Op>): Table
    decreases |ops|
  {
    if ops == [] then t else Run(Apply(t, kv, ops[0]), kv, ops[1..])
  }

  /**
   A registration outdates KV when every record of its address that would still be copied in as
   active was created before it.
  */
  ghost predicate Outdates(t: Table, kv: Kv, k: NewKey) {
    forall h :: h in kv && h !in t && kv[h].ip == Some(k.ip) && ImportStatus(t, kv[h]) == Active ==>
                  kv[h].createdAt < k.createdAt
  }

  /** Registrations only ever bring freshly minted keys. */
  ghost predicate Genuine(t: Table, kv: Kv, op: Op) {
    op.RegisterOp? ==> Minted(t, kv, op.key)
  }

  ghost predicate GenuineRun(t: Table, kv: Kv, ops: seq<Op>)
    decreases |ops|
  {
    ops == [] || (Genuine(t, kv, ops[0]) && GenuineRun(Apply(t, kv, ops[0]), kv, ops[1..]))
  }

  /** The operator's UPDATE finds the key's row, or KV holds no enabled record it would miss. */
  predicate FindsTheKey(t: Table, kv: Kv, hash: Hash) {
    hash in t || hash !in kv || !kv[hash].enabled
  }

  ghost predicate Sound(t: Table, kv: Kv, op: Op) {
    && Genuine(t, kv, op)
    && match op
       case RegisterOp(k) => Outdates(t, kv, k)
       case ImportOp(_) => true
       case RevokeOp(h) => FindsTheKey(t, kv, h)
  }

  ghost predicate SoundRun(t: Table, kv: Kv, ops: seq<Op>)
    decreases |ops|
  {
    ops == [] || (Sound(t, kv, ops[0]) && SoundRun(Apply(t, kv, ops[0]), kv, ops[1..]))
  }

  // ---- the answer for one key, step by step ----------------------------------------------

  /** Equal in every column but `ended_at`. */
  predicate SameKey(a: Option<Row>, b: Option<Row>) {
    match (a, b)
    case (Some(x), Some(y)) => x == y.(endedAt := x.endedAt)
    case (None, None) => true
    case _ => false
  }

  /** What the table and KV together hold for a hash. */
  ghost function OnFile(t: Table, kv: Kv, hash: Hash): Option<Row> {
    if hash in t then Some(t[hash])
    else if hash in kv then Some(ImportedRow(t, kv[hash]))
    else None
  }

  lemma ResolveIsOnFile(t: Table, kv: Kv, hash: Hash)
    requires Coherent(t, kv)
    ensures Resolve(t, kv, hash) == OnFile(t, kv, hash)
  {
    if hash in kv && hash !in t {
      assert !IdTaken(t, kv[hash].id);
    }
  }

  /** What an operation does to one key's answer, with no table around it. */
  ghost function RowStep(op: Op, hash: Hash, row: Option<Row>): Option<Row> {
    match op
    case RegisterOp(k) =>
      if hash == k.hash then Some(NativeRow(k))
      else if row.Some? && ActiveAt(row.value, k.ip) then Some(Ended(row.value, k.createdAt))
      else row
    case ImportOp(_) => row
    case RevokeOp(h) => if hash == h && row.Some? then Some(row.value.(status := Revoked)) else row
  }

  lemma RegisteredSinceAfterRegister(t: Table, k: NewKey, ip: string, at: int)
    requires Register(t, k).Ok?
    ensures RegisteredSince(Register(t, k).value, ip, at) <==>
            RegisteredSince(t, ip, at) || (ip == k.ip && k.createdAt > at)
  {
    var t' := Register(t, k).value;
    if RegisteredSince(t, ip, at) {
      var h :| h in t && t[h].ip == Some(ip) && !t[h].fromKv && t[h].createdAt > at;
      assert h in t' && t'[h].ip == Some(ip) && !t'[h].fromKv && t'[h].createdAt > at;
    }
    if ip == k.ip && k.createdAt > at {
      assert k.hash in t' && t'[k.hash].ip == Some(ip);
    }
    if RegisteredSince(t', ip, at) {
      var h :| h in t' && t'[h].ip == Some(ip) && !t'[h].fromKv && t'[h].createdAt > at;
      if h != k.hash {
        assert h in t && t[h].ip == Some(ip) && !t[h].fromKv && t[h].createdAt > at;
      }
    }
  }

  lemma RegisteredSinceAfterOther(t: Table, kv: Kv, op: Op, ip: string, at: int)
    requires !op.RegisterOp?
    ensures RegisteredSince(Apply(t, kv, op), ip, at) == RegisteredSince(t, ip, at)
  {
    var t' := Apply(t, kv, op);
    if RegisteredSince(t, ip, at) {
      var h :| h in t && t[h].ip == Some(ip) && !t[h].fromKv && t[h].createdAt > at;
      assert h in t' && t'[h].ip == Some(ip) && !t'[h].fromKv && t'[h].createdAt > at;
    }
    if RegisteredSince(t', ip, at) {
      var h :| h in t' && t'[h].ip == Some(ip) && !t'[h].fromKv && t'[h].createdAt > at;
      assert h in t && t[h].ip == Some(ip) && !t[h].fromKv && t[h].createdAt > at;
    }
  }

  /** How a record that is still only in KV would be copied in after one more operation. */
  lemma ImportStatusStep(t: Table, kv: Kv, op: Op, l: LegacyKey)
    requires op.RegisterOp? ==> Register(t, op.key).Ok? && op.key.ip != ""
    ensures ImportStatus(Apply(t, kv, op), l) ==
            if op.RegisterOp? && ImportStatus(t, l) == Active && l.ip == Some(op.key.ip) &&
               l.createdAt < op.key.createdAt then Superseded
            else ImportStatus(t, l)
  {
    if l.ip.Some? {
      if op.RegisterOp? {
        RegisteredSinceAfterRegister(t, op.key, l.ip.value, l.createdAt);
      } else {
        RegisteredSinceAfterOther(t, kv, op, l.ip.value, l.createdAt);
      }
    }
  }

  lemma StepKeepsCoherent(t: Table, kv: Kv, op: Op)
    requires Coherent(t, kv) && Genuine(t, kv, op)
    ensures Coherent(Apply(t, kv, op), kv)
  {
    if op.RegisterOp? {
      var k := op.key;
      var t' := Apply(t, kv, op);
      forall h | h in t' && h != k.hash ensures h in t && t'[h].id == t[h].id && t'[h].id != k.id {}
    }
  }

  lemma RegisterOnFile(t: Table, kv: Kv, k: NewKey, hash: Hash)
    requires Coherent(t, kv) && Minted(t, kv, k) && Outdates(t, kv, k)
    ensures SameKey(OnFile(Apply(t, kv, RegisterOp(k)), kv, hash), RowStep(RegisterOp(k), hash, OnFile(t, kv, hash)))
  {
    if hash in kv {
      ImportStatusStep(t, kv, RegisterOp(k), kv[hash]);
    }
  }

  /** The lazily filled registry answers each key as RowStep says, though it copies on use. */
  lemma OnFileStep(t: Table, kv: Kv, op: Op, hash: Hash)
    requires Coherent(t, kv) && Sound(t, kv, op)
    ensures SameKey(OnFile(Apply(t, kv, op), kv, hash), RowStep(op, hash, OnFile(t, kv, hash)))
  {
    if op.RegisterOp? {
      RegisterOnFile(t, kv, op.key, hash);
    } else if hash in kv {
      ImportStatusStep(t, kv, op, kv[hash]);
    }
  }

  // ---- lazy migration simulates eager migration ------------------------------------------

  /** The registry after importing every KV record into an empty table. */
  ghost function EagerStart(kv: Kv): Table {
    map h | h in kv :: ImportedRow(map[], kv[h])
  }

  /** `e` holds the answer `t` and KV give together, and nothing is left to copy into it. */
  ghost predicate Mirrors(t: Table, e: Table, kv: Kv) {
    && kv.Keys <= e.Keys
    && forall h :: SameKey(OnFile(t, kv, h), ByHash(e, h))
  }

  lemma MirrorsStatus(t: Table, e: Table, kv: Kv, hash: Hash)
    requires Coherent(t, kv) && Mirrors(t, e, kv)
    ensures StatusOf(Resolve(t, kv, hash)) == StatusOf(Resolve(e, kv, hash))
  {
    ResolveIsOnFile(t, kv, hash);
    assert SameKey(OnFile(t, kv, hash), ByHash(e, hash));
  }

  lemma MintedInMirror(t: Table, e: Table, kv: Kv, k: NewKey)
    requires Mirrors(t, e, kv) && Minted(t, kv, k)
    ensures Register(t, k).Ok? && Register(e, k).Ok?
  {
    assert SameKey(OnFile(t, kv, k.hash), ByHash(e, k.hash));
    forall h | h in e ensures e[h].id != k.id {
      assert SameKey(OnFile(t, kv, h), ByHash(e, h));
    }
  }

  lemma StepKeepsMirror(t: Table, e: Table, kv: Kv, op: Op)
    requires Coherent(t, kv) && Mirrors(t, e, kv) && Sound(t, kv, op)
    ensures Mirrors(Apply(t, kv, op), Apply(e, kv, op), kv)
  {
    var t', e' := Apply(t, kv, op), Apply(e, kv, op);
    if op.RegisterOp? {
      MintedInMirror(t, e, kv, op.key);
    }
    forall h
      ensures SameKey(OnFile(t', kv, h), ByHash(e', h))
    {
      OnFileStep(t, kv, op, h);
      assert SameKey(OnFile(t, kv, h), ByHash(e, h));
      assert ByHash(e', h) == RowStep(op, h, ByHash(e, h));
    }
  }

  lemma {:induction false} RunKeepsMirror(t: Table, e: Table, kv: Kv, ops: seq<Op>)
    requires Coherent(t, kv) && Mirrors(t, e, kv) && SoundRun(t, kv, ops)
    ensures Coherent(Run(t, kv, ops), kv)
    ensures Mirrors(Run(t, kv, ops), Run(e, kv, ops), kv)
    decreases |ops|
  {
    if ops != [] {
      StepKeepsCoherent(t, kv, ops[0]);
      StepKeepsMirror(t, e, kv, ops[0]);
      RunKeepsMirror(Apply(t, kv, ops[0]), Apply(e, kv, ops[0]), kv, ops[1..]);
    }
  }

  /**
   For every interleaving of registrations that outdate KV, copy-on-use imports and revocations that
   find their key, each presented key resolves to the same status as in a registry that imported all
   of KV first. RegistrationAgreesIff and RevocationAgreesIff show both conditions to be exact.
  */
  lemma LazySimulatesEager(kv: Kv, ops: seq<Op>, hash: Hash)
    requires Coherent(map[], kv) && SoundRun(map[], kv, ops)
    ensures StatusOf(Resolve(Run(map[], kv, ops), kv, hash)) ==
            StatusOf(Resolve(Run(EagerStart(kv), kv, ops), kv, hash))
  {
    RunKeepsMirror(map[], EagerStart(kv), kv, ops);
    MirrorsStatus(Run(map[], kv, ops), Run(EagerStart(kv), kv, ops), kv, hash);
  }

  /** Importing all of KV in any order, with repeats, gives the eager table. */
  lemma {:induction false} ImportAllIsEagerStart(kv: Kv, t: Table, order: seq<Hash>)
    requires Coherent(map[], kv)
    requires t.Keys <= kv.Keys && forall h :: h in t ==> t[h] == EagerStart(kv)[h]
    requires forall h :: h in kv && h !in t ==> h in order
    ensures Run(t, kv, seq(|order|, i requires 0 <= i < |order| => ImportOp(order[i]))) == EagerStart(kv)
    decreases |order|
  {
    var ops := seq(|order|, i requires 0 <= i < |order| => ImportOp(order[i]));
    if order == [] {
      assert t.Keys == kv.Keys;
    } else {
      var t' := Apply(t, kv, ops[0]);
      if order[0] in kv && order[0] !in t {
        assert !IdTaken(t, kv[order[0]].id);
      }
      assert forall h :: h in t' ==> t'[h] == EagerStart(kv)[h];
      ImportAllIsEagerStart(kv, t', order[1..]);
      assert ops[1..] == seq(|order[1..]|, i requires 0 <= i < |order[1..]| => ImportOp(order[1..][i]));
    }
  }

  /**
   Whether one registration keeps the lazy and the eager registry in agreement is decided exactly
   by Outdates: the guard `created_at > ?` is strict, so a KV record of the same millisecond, or a
   younger one, would be copied in as active beside its replacement.
  */
  lemma RegistrationAgreesIff(t: Table, e: Table, kv: Kv, k: NewKey)
    requires Coherent(t, kv) && Mirrors(t, e, kv) && Minted(t, kv, k)
    ensures Outdates(t, kv, k) <==>
            forall h :: StatusOf(Resolve(Apply(t, kv, RegisterOp(k)), kv, h)) ==
                        StatusOf(Resolve(Apply(e, kv, RegisterOp(k)), kv, h))
  {
    var t', e' := Apply(t, kv, RegisterOp(k)), Apply(e, kv, RegisterOp(k));
    StepKeepsCoherent(t, kv, RegisterOp(k));
    if Outdates(t, kv, k) {
      StepKeepsMirror(t, e, kv, RegisterOp(k));
      forall h
        ensures StatusOf(Resolve(t', kv, h)) == StatusOf(Resolve(e', kv, h))
      {
        MirrorsStatus(t', e', kv, h);
      }
    } else {
      var h := Unoutdated(t, e, kv, k);
      assert StatusOf(Resolve(t', kv, h)) != StatusOf(Resolve(e', kv, h));
    }
  }

  /** A record the registration does not outdate stays active in the lazy registry only. */
  lemma Unoutdated(t: Table, e: Table, kv: Kv, k: NewKey) returns (h: Hash)
    requires Coherent(t, kv) && Mirrors(t, e, kv) && Minted(t, kv, k) && !Outdates(t, kv, k)
    ensures StatusOf(Resolve(Apply(t, kv, RegisterOp(k)), kv, h)) == Some(Active)
    ensures StatusOf(Resolve(Apply(e, kv, RegisterOp(k)), kv, h)) == Some(Superseded)
  {
    MintedInMirror(t, e, kv, k);
    StepKeepsCoherent(t, kv, RegisterOp(k));
    h :| h in kv && h !in t && kv[h].ip == Some(k.ip) && ImportStatus(t, kv[h]) == Active &&
         kv[h].createdAt >= k.createdAt;
    ResolveIsOnFile(Apply(t, kv, RegisterOp(k)), kv, h);
    ImportStatusStep(t, kv, RegisterOp(k), kv[h]);
    assert SameKey(OnFile(t, kv, h), ByHash(e, h));
  }

  /**
   Whether one revocation keeps the two in agreement is decided exactly by FindsTheKey: the operator's
   UPDATE matches no row of a key still only in KV, and the key is copied in unrevoked later.
  */
  lemma RevocationAgreesIff(t: Table, e: Table, kv: Kv, hash: Hash)
    requires Coherent(t, kv) && Mirrors(t, e, kv)
    ensures FindsTheKey(t, kv, hash) <==>
            forall h :: StatusOf(Resolve(Apply(t, kv, RevokeOp(hash)), kv, h)) ==
                        StatusOf(Resolve(Apply(e, kv, RevokeOp(hash)), kv, h))
  {
    var t', e' := Apply(t, kv, RevokeOp(hash)), Apply(e, kv, RevokeOp(hash));
    if FindsTheKey(t, kv, hash) {
      StepKeepsCoherent(t, kv, RevokeOp(hash));
      StepKeepsMirror(t, e, kv, RevokeOp(hash));
      forall h
        ensures StatusOf(Resolve(t', kv, h)) == StatusOf(Resolve(e', kv, h))
      {
        MirrorsStatus(t', e', kv, h);
      }
    } else {
      MissedRevocation(t, e, kv, hash);
    }
  }

  /** A revocation that misses its key leaves it as active, or as superseded, as it was. */
  lemma MissedRevocation(t: Table, e: Table, kv: Kv, hash: Hash)
    requires Coherent(t, kv) && Mirrors(t, e, kv) && !FindsTheKey(t, kv, hash)
    ensures StatusOf(Resolve(Apply(t, kv, RevokeOp(hash)), kv, hash)) == Some(ImportStatus(t, kv[hash]))
    ensures ImportStatus(t, kv[hash]) != Revoked
    ensures StatusOf(Resolve(Apply(e, kv, RevokeOp(hash)), kv, hash)) == Some(Revoked)
  {
    ResolveIsOnFile(t, kv, hash);
    assert SameKey(OnFile(t, kv, hash), ByHash(e, hash));
  }

  // ---- registration and import commute, and importing again changes nothing --------------

  lemma ReimportChangesNothing(t: Table, kv: Kv, hash: Hash)
    requires hash in kv
    ensures Import(Import(t, hash, kv[hash]), hash, kv[hash]) == Import(t, hash, kv[hash])
  {
  }

  lemma ImportKeepsSound(t: Table, kv: Kv, k: NewKey, hash: Hash)
    requires Coherent(t, kv) && Sound(t, kv, RegisterOp(k)) && hash in kv
    ensures Sound(Import(t, hash, kv[hash]), kv, RegisterOp(k))
  {
    forall h | h in kv
      ensures ImportStatus(Import(t, hash, kv[hash]), kv[h]) == ImportStatus(t, kv[h])
    {
      ImportStatusStep(t, kv, ImportOp(hash), kv[h]);
    }
  }

  /** Two operations in a row, seen from one key: RowStep twice. */
  lemma TwoSteps(t: Table, kv: Kv, first: Op, second: Op, probe: Hash)
    requires Coherent(t, kv) && Sound(t, kv, first) && Sound(Apply(t, kv, first), kv, second)
    ensures SameKey(Resolve(Apply(Apply(t, kv, first), kv, second), kv, probe),
                    RowStep(second, probe, OnFile(Apply(t, kv, first), kv, probe)))
    ensures SameKey(OnFile(Apply(t, kv, first), kv, probe), RowStep(first, probe, OnFile(t, kv, probe)))
  {
    StepKeepsCoherent(t, kv, first);
    StepKeepsCoherent(Apply(t, kv, first), kv, second);
    OnFileStep(t, kv, first, probe);
    OnFileStep(Apply(t, kv, first), kv, second, probe);
    ResolveIsOnFile(Apply(Apply(t, kv, first), kv, second), kv, probe);
  }

  /** Copying a record in before or after a registration gives every key the same answer. */
  lemma RegisterImportCommute(t: Table, kv: Kv, k: NewKey, hash: Hash, probe: Hash)
    requires Coherent(t, kv) && Sound(t, kv, RegisterOp(k)) && hash in kv
    ensures
      var importFirst := Apply(Apply(t, kv, ImportOp(hash)), kv, RegisterOp(k));
      var registerFirst := Apply(Apply(t, kv, RegisterOp(k)), kv, ImportOp(hash));
      SameKey(Resolve(importFirst, kv, probe), Resolve(registerFirst, kv, probe))
  {
    ImportKeepsSound(t, kv, k, hash);
    TwoSteps(t, kv, ImportOp(hash), RegisterOp(k), probe);
    TwoSteps(t, kv, RegisterOp(k), ImportOp(hash), probe);
  }

  // ---- a key that stopped being active never returns --------------------------------------

  /** The row an id resolves to: the table first, then the KV record of that id, copied in. */
  ghost function ResolveId(t: Table, kv: Kv, id: KeyId): Option<Row> {
    if IdTaken(t, id) then ById(t, id)
    else if h :| h in kv && kv[h].id == id then Resolve(t, kv, h)
    else None
  }

  /** The key may hold a claim: on file, active and not expired. */
  ghost predicate Live(row: Option<Row>, now: int) {
    && row.Some?
    && row.value.status == Active
    && !(row.value.expiresAt.Some? && row.value.expiresAt.value <= now)
  }

  ghost predicate Names(t: Table, kv: Kv, h: Hash, id: KeyId) {
    (h in t && t[h].id == id) || (h in kv && kv[h].id == id)
  }

  lemma ResolveIdIsResolve(t: Table, kv: Kv, id: KeyId, h: Hash)
    requires Coherent(t, kv) && Names(t, kv, h, id)
    ensures ResolveId(t, kv, id) == Resolve(t, kv, h)
  {
  }

  lemma UnnamedIsUnknown(t: Table, kv: Kv, id: KeyId)
    requires forall h :: !Names(t, kv, h, id)
    ensures ResolveId(t, kv, id) == None
  {
    forall h | h in t ensures t[h].id != id {
      assert !Names(t, kv, h, id);
    }
    forall h | h in kv ensures kv[h].id != id {
      assert !Names(t, kv, h, id);
    }
  }

  /** One operation never reactivates a key, nor moves its address or its expiry. */
  lemma InactiveStaysInactive(t: Table, kv: Kv, op: Op, hash: Hash)
    requires Coherent(t, kv) && Genuine(t, kv, op)
    requires op.RegisterOp? ==> op.key.hash != hash
    ensures
      match (Resolve(t, kv, hash), Resolve(Apply(t, kv, op), kv, hash))
      case (Some(before), Some(after)) =>
        && (after.status == Active ==> before.status == Active)
        && after.ip == before.ip && after.expiresAt == before.expiresAt && after.fromKv == before.fromKv
      case (None, None) => true
      case _ => false
  {
    StepKeepsCoherent(t, kv, op);
    ResolveIsOnFile(t, kv, hash);
    ResolveIsOnFile(Apply(t, kv, op), kv, hash);
    if hash in kv {
      ImportStatusStep(t, kv, op, kv[hash]);
    }
  }

  /**
   The question asked about a token's owner is one-way: once the key an id names is not live, no
   operation and no later clock makes it live again.
  */
  lemma DeadOwnerStaysDead(t: Table, kv: Kv, op: Op, id: KeyId, now: int, later: int)
    requires Coherent(t, kv) && Genuine(t, kv, op) && now <= later
    requires op.RegisterOp? ==> op.key.id != id
    requires !Live(ResolveId(t, kv, id), now)
    ensures !Live(ResolveId(Apply(t, kv, op), kv, id), later)
  {
    var t' := Apply(t, kv, op);
    StepKeepsCoherent(t, kv, op);
    if h :| Names(t', kv, h, id) {
      assert Names(t, kv, h, id);
      ResolveIdIsResolve(t, kv, id, h);
      ResolveIdIsResolve(t', kv, id, h);
      InactiveStaysInactive(t, kv, op, h);
    } else {
      UnnamedIsUnknown(t', kv, id);
    }
  }

  ghost predicate EndedKey(row: Option<Row>) {
    row.Some? && row.value.status != Active
  }

  /** Over any run at all: superseded and revoked are final for every key that resolves. */
  lemma {:induction false} EndedIsFinal(t: Table, kv: Kv, ops: seq<Op>, hash: Hash)
    requires Coherent(t, kv) && GenuineRun(t, kv, ops)
    requires EndedKey(Resolve(t, kv, hash))
    ensures EndedKey(Resolve(Run(t, kv, ops), kv, hash))
    decreases |ops|
  {
    if ops != [] {
      assert ops[0].RegisterOp? ==> ops[0].key.hash != hash;
      StepKeepsCoherent(t, kv, ops[0]);
      InactiveStaysInactive(t, kv, ops[0], hash);
      EndedIsFinal(Apply(t, kv, ops[0]), kv, ops[1..], hash);
    }
  }

  // ---- what copied rows hold --------------------------------------------------------------------

  /** Every row whose hash KV knows carries that record's own columns. */
  ghost predicate CopiesAreTrue(t: Table, kv: Kv) {
    forall h :: h in t && h in kv ==> HoldsRecord(t[h], kv[h])
  }

  lemma StepKeepsCopies(t: Table, kv: Kv, op: Op)
    requires CopiesAreTrue(t, kv) && Genuine(t, kv, op)
    ensures CopiesAreTrue(Apply(t, kv, op), kv)
  {
  }

  /** Over any run a copied key keeps its record's id, address, age and, above all, its expiry. */
  lemma {:induction false} CopiesStayTrue(t: Table, kv: Kv, ops: seq<Op>)
    requires CopiesAreTrue(t, kv) && GenuineRun(t, kv, ops)
    ensures CopiesAreTrue(Run(t, kv, ops), kv)
    decreases |ops|
  {
    if ops != [] {
      StepKeepsCopies(t, kv, ops[0]);
      CopiesStayTrue(Apply(t, kv, ops[0]), kv, ops[1..]);
    }
  }

  // ---- who may hold a claim, told by the columns --------------------------------------------------

  /** A key of this address registered here after `createdAt`. */
  ghost predicate RegisteredAfter(t: Table, ip: Option<string>, createdAt: int) {
    ip.Some? && ip.value != "" && exists g :: g in t && t[g].ip == ip && !t[g].fromKv && t[g].createdAt > createdAt
  }

  /** An id in the table may hold a claim while its row is active and its expiry, if any, lies ahead. */
  lemma LiveInTable(t: Table, kv: Kv, h: Hash, now: int)
    requires Coherent(t, kv) && h in t
    ensures Live(ResolveId(t, kv, t[h].id), now) <==>
            t[h].status == Active && (t[h].expiresAt == None || t[h].expiresAt.value > now)
  {
    ResolveIdIsResolve(t, kv, t[h].id, h);
  }

  /** One still in KV while its record is enabled, not outdated by a registration, and not expired. */
  lemma LiveInKv(t: Table, kv: Kv, h: Hash, now: int)
    requires Coherent(t, kv) && h in kv && h !in t
    ensures Live(ResolveId(t, kv, kv[h].id), now) <==>
            && kv[h].enabled && !RegisteredAfter(t, kv[h].ip, kv[h].createdAt)
            && (kv[h].expiresAt == None || kv[h].expiresAt.value > now)
  {
    ResolveIdIsResolve(t, kv, kv[h].id, h);
    ResolveIsOnFile(t, kv, h);
  }

  /** And one on no record never. */
  lemma LiveNowhere(t: Table, kv: Kv, id: KeyId, now: int)
    requires forall h :: (h in t ==> t[h].id != id) && (h in kv ==> kv[h].id != id)
    ensures !Live(ResolveId(t, kv, id), now)
  {
    assert forall h :: !Names(t, kv, h, id);
    UnnamedIsUnknown(t, kv, id);
  }

  // ---- one active key per address ---------------------------------------------------------

  /** `hash` answers as an active key registered from `ip`. */
  ghost predicate ActiveFrom(t: Table, kv: Kv, hash: Hash, ip: string) {
    var row := Resolve(t, kv, hash);
    row.Some? && ActiveAt(row.value, ip)
  }

  /**
   A self-registered active key is the only active key of its address, whether the others are on
   file here or still only in KV.
  */
  ghost predicate OneActivePerAddress(t: Table, kv: Kv) {
    forall g, h, ip :: g in t && !t[g].fromKv && ActiveAt(t[g], ip) && ActiveFrom(t, kv, h, ip) ==> g == h
  }

  /** Registrations outdate KV; the operator may revoke anything. */
  ghost predicate Outdating(t: Table, kv: Kv, op: Op) {
    Genuine(t, kv, op) && (op.RegisterOp? ==> Outdates(t, kv, op.key))
  }

  ghost predicate OutdatingRun(t: Table, kv: Kv, ops: seq<Op>)
    decreases |ops|
  {
    ops == [] || (Outdating(t, kv, ops[0]) && OutdatingRun(Apply(t, kv, ops[0]), kv, ops[1..]))
  }

  lemma StepKeepsOneActive(t: Table, kv: Kv, op: Op)
    requires Coherent(t, kv) && Outdating(t, kv, op) && OneActivePerAddress(t, kv)
    ensures OneActivePerAddress(Apply(t, kv, op), kv)
  {
    var t' := Apply(t, kv, op);
    forall g, h, ip | g in t' && !t'[g].fromKv && ActiveAt(t'[g], ip) && ActiveFrom(t', kv, h, ip)
      ensures g == h
    {
      if op.RegisterOp? && ip == op.key.ip {
        RegistrationLeavesOne(t, kv, op.key, g);
        RegistrationLeavesOne(t, kv, op.key, h);
      } else {
        ActiveWasActive(t, kv, op, g, ip);
        ActiveWasActive(t, kv, op, h, ip);
      }
    }
  }

  lemma ActiveWasActive(t: Table, kv: Kv, op: Op, h: Hash, ip: string)
    requires Coherent(t, kv) && Genuine(t, kv, op) && ActiveFrom(Apply(t, kv, op), kv, h, ip)
    requires op.RegisterOp? ==> ip != op.key.ip
    ensures ActiveFrom(t, kv, h, ip)
    ensures h in Apply(t, kv, op) && !Apply(t, kv, op)[h].fromKv ==> h in t && !t[h].fromKv
  {
    InactiveStaysInactive(t, kv, op, h);
    ResolveIsOnFile(t, kv, h);
  }

  /** After a registration the new key is the only one its address answers with. */
  lemma RegistrationLeavesOne(t: Table, kv: Kv, k: NewKey, h: Hash)
    requires Coherent(t, kv) && Minted(t, kv, k) && Outdates(t, kv, k)
    requires ActiveFrom(Apply(t, kv, RegisterOp(k)), kv, h, k.ip)
    ensures h == k.hash
  {
    StepKeepsCoherent(t, kv, RegisterOp(k));
    ResolveIsOnFile(Apply(t, kv, RegisterOp(k)), kv, h);
    OnFileStep(t, kv, RegisterOp(k), h);
  }

  lemma {:induction false} OneActiveOverRuns(t: Table, kv: Kv, ops: seq<Op>)
    requires Coherent(t, kv) && OutdatingRun(t, kv, ops) && OneActivePerAddress(t, kv)
    ensures OneActivePerAddress(Run(t, kv, ops), kv)
    decreases |ops|
  {
    if ops != [] {
      StepKeepsCoherent(t, kv, ops[0]);
      StepKeepsOneActive(t, kv, ops[0]);
      OneActiveOverRuns(Apply(t, kv, ops[0]), kv, ops[1..]);
    }
  }
}
