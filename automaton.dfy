/**
  The credential bookkeeping behind the service's HTTP handlers: a key table,
  an allocation table and an audit log, all held in memory and updated in
  place. Every handler first checks the caller's admin key; a refused or
  failed request changes nothing, and every successful change appends
  exactly one audit entry.
 */
module KeyAutomaton {
  import opened Wrappers
  import opened Ids
  import opened Records
  import opened Tables

  class Automaton {
    /** The admin keys the service accepts. */
    const adminKeys: set<string>
    var keys: seq<Key>
    var allocations: seq<Allocation>
    var auditLog: seq<AuditEntry>

    ghost predicate Valid()
      reads this
    {
      TablesValid(keys, allocations)
    }

    /** The service at start-up: the three seed keys, no allocations, an empty audit log. */
    constructor (adminKeys: set<string>)
      ensures Valid()
      ensures this.adminKeys == adminKeys
      ensures keys == SeedKeys() && allocations == [] && auditLog == []
    {
      this.adminKeys := adminKeys;
      keys := SeedKeys();
      allocations := [];
      auditLog := [];
      SeedKeysValid();
    }

    /**
      The admin guard. `apiKey` is the `x-admin-api-key` header as delivered
      to the handler, `None` when it is missing.
     */
    function RequireAdmin(apiKey: Option<string>): (r: Result<string>)
      ensures r.Ok? ==> r.value in adminKeys && apiKey == Some(r.value)
      ensures apiKey.Some? && apiKey.value in adminKeys ==> r.Ok?
      ensures apiKey.None? ==> r == Err(Unauthorized)
      ensures r.Err? ==> r.error == Unauthorized
    {
      if apiKey.Some? && apiKey.value in adminKeys then Ok(apiKey.value) else Err(Unauthorized)
    }

    /** The linear scan every key handler uses: the first key whose id matches. */
    method FindKey(id: string) returns (r: Option<nat>)
      ensures r == KeyIndex(keys, id)
    {
      var i := 0;
      while i < |keys|
        invariant 0 <= i <= |keys|
        invariant forall j :: 0 <= j < i ==> keys[j].id != id
      {
        if keys[i].id == id {
          return Some(i);
        }
        i := i + 1;
      }
      return None;
    }

    /** `POST /keys`: appends key `key-{n+1:03d}` and logs its creation. */
    method CreateKey(apiKey: Option<string>, payload: KeyCreate, now: DateTime) returns (r: Result<string>)
      requires Valid()
      modifies this
      ensures Valid()
      ensures r.Err? <==> RequireAdmin(apiKey).Err?
      ensures r.Err? ==> r.error == Unauthorized
      ensures r.Err? ==> keys == old(keys) && allocations == old(allocations) && auditLog == old(auditLog)
      ensures r.Ok? ==>
        && r.value == KeyId(|old(keys)| + 1)
        && keys == old(keys) + [Key(r.value, payload.name, payload.systemName, payload.systemType, payload.env,
                                    Active, None, now, [])]
        && allocations == old(allocations)
        && auditLog == old(auditLog) + [AuditEntry(now, CreateKeyAction, Some(r.value), "Created key '" + payload.name + "'")]
      ensures r.Ok? ==> KeyIndex(keys, r.value) == Some(|old(keys)|)
    {
      if RequireAdmin(apiKey).Err? {
        return Err(Unauthorized);
      }
      var keyId := KeyId(|keys| + 1);
      var newKey := Key(keyId, payload.name, payload.systemName, payload.systemType, payload.env, Active, None, now, []);
      CreatePreserves(keys, allocations, newKey);
      CreatedKeyFound(keys, newKey);
      keys := keys + [newKey];
      auditLog := auditLog + [AuditEntry(now, CreateKeyAction, Some(keyId), "Created key '" + payload.name + "'")];
      r := Ok(keyId);
    }

    /** `GET /keys`: the whole key table, in creation order. */
    function ListKeys(apiKey: Option<string>): (r: Result<seq<Key>>)
      requires Valid()
      reads this
      ensures r.Err? <==> RequireAdmin(apiKey).Err?
      ensures r.Err? ==> r.error == Unauthorized
      ensures r.Ok? ==> |r.value| == |keys|
      ensures r.Ok? ==> forall i :: 0 <= i < |r.value| ==> r.value[i] == keys[i] && r.value[i].id == KeyId(i + 1)
    {
      if RequireAdmin(apiKey).Err? then Err(Unauthorized) else Ok(keys)
    }

    /** `GET /keys/{key_id}`: the first key with that id, or NotFound. */
    method GetKey(apiKey: Option<string>, keyId: string) returns (r: Result<Key>)
      requires Valid()
      ensures RequireAdmin(apiKey).Err? ==> r == Err(Unauthorized)
      ensures RequireAdmin(apiKey).Ok? ==>
        match KeyIndex(keys, keyId)
        case None => r == Err(NotFound)
        case Some(i) => r == Ok(keys[i])
      ensures r.Ok? ==> r.value.id == keyId && r.value in keys
      ensures RequireAdmin(apiKey).Ok? ==> forall n :: 1 <= n <= |keys| && keyId == KeyId(n) ==> r == Ok(keys[n - 1])
    {
      if RequireAdmin(apiKey).Err? {
        return Err(Unauthorized);
      }
      var found := FindKey(keyId);
      if found.None? {
        return Err(NotFound);
      }
      r := Ok(keys[found.value]);
      forall n | 1 <= n <= |keys| && keyId == KeyId(n) ensures r == Ok(keys[n - 1]) {
        PositionalLookup(keys, n);
      }
    }

    /**
      `POST /allocations`: lists the consumer on the key unless it is already
      there, then always records a new allocation `alloc-{m+1:03d}`.
     */
    method AllocateKey(apiKey: Option<string>, payload: AllocationCreate, now: DateTime) returns (r: Result<string>)
      requires Valid()
      modifies this
      ensures Valid()
      ensures RequireAdmin(apiKey).Err? ==> r == Err(Unauthorized)
      ensures RequireAdmin(apiKey).Ok? && KeyIndex(old(keys), payload.keyId).None? ==> r == Err(NotFound)
      ensures RequireAdmin(apiKey).Ok? && KeyIndex(old(keys), payload.keyId).Some? ==> r.Ok?
      ensures r.Err? ==> keys == old(keys) && allocations == old(allocations) && auditLog == old(auditLog)
      ensures r.Ok? ==>
        var i := KeyIndex(old(keys), payload.keyId).value;
        && r.value == AllocId(|old(allocations)| + 1)
        && keys == old(keys)[i := old(keys)[i].(allocatedTo := AddConsumer(old(keys)[i].allocatedTo, payload.consumerId))]
        && multiset(keys[i].allocatedTo)[payload.consumerId] == 1
        && allocations == old(allocations) + [Allocation(r.value, payload.keyId, payload.consumerType, payload.consumerId,
                                                         payload.scope, now)]
        && auditLog == old(auditLog) + [AuditEntry(now, AllocateKeyAction, Some(payload.keyId), "Allocated to " + payload.consumerId)]
    {
      if RequireAdmin(apiKey).Err? {
        return Err(Unauthorized);
      }
      var found := FindKey(payload.keyId);
      if found.None? {
        return Err(NotFound);
      }
      var i := found.value;
      ghost var keys' := keys[i := keys[i].(allocatedTo := AddConsumer(keys[i].allocatedTo, payload.consumerId))];
      var allocationId := AllocId(|allocations| + 1);
      var allocation := Allocation(allocationId, payload.keyId, payload.consumerType, payload.consumerId, payload.scope, now);
      AllocatePreserves(keys, allocations, i, allocation);
      AddConsumerOnce(keys[i].allocatedTo, payload.consumerId);
      if payload.consumerId !in keys[i].allocatedTo {
        keys := keys[i := keys[i].(allocatedTo := keys[i].allocatedTo + [payload.consumerId])];
      }
      assert keys == keys';
      allocations := allocations + [allocation];
      auditLog := auditLog + [AuditEntry(now, AllocateKeyAction, Some(payload.keyId), "Allocated to " + payload.consumerId)];
      r := Ok(allocationId);
    }

    /** `GET /allocations`: every allocation ever recorded, in order. */
    function ListAllocations(apiKey: Option<string>): (r: Result<seq<Allocation>>)
      requires Valid()
      reads this
      ensures r.Err? <==> RequireAdmin(apiKey).Err?
      ensures r.Err? ==> r.error == Unauthorized
      ensures r.Ok? ==> |r.value| == |allocations|
      ensures r.Ok? ==> forall j :: 0 <= j < |r.value| ==>
        r.value[j] == allocations[j] && r.value[j].id == AllocId(j + 1) && Bound(keys, r.value[j])
    {
      if RequireAdmin(apiKey).Err? then Err(Unauthorized) else Ok(allocations)
    }

    /** `POST /keys/{key_id}/rotate`: restamps the key's rotation time and logs it. */
    method RotateKey(apiKey: Option<string>, keyId: string, now: DateTime) returns (r: Result<string>)
      requires Valid()
      modifies this
      ensures Valid()
      ensures RequireAdmin(apiKey).Err? ==> r == Err(Unauthorized)
      ensures RequireAdmin(apiKey).Ok? && KeyIndex(old(keys), keyId).None? ==> r == Err(NotFound)
      ensures RequireAdmin(apiKey).Ok? && KeyIndex(old(keys), keyId).Some? ==> r.Ok?
      ensures r.Err? ==> keys == old(keys) && allocations == old(allocations) && auditLog == old(auditLog)
      ensures r.Ok? ==>
        var i := KeyIndex(old(keys), keyId).value;
        && r.value == keyId
        && keys == old(keys)[i := old(keys)[i].(lastRotatedAt := now)]
        && keys[i].status == old(keys)[i].status && keys[i].allocatedTo == old(keys)[i].allocatedTo
        && allocations == old(allocations)
        && auditLog == old(auditLog) + [AuditEntry(now, RotateKeyAction, Some(keyId), "Rotated key '" + old(keys)[i].name + "'")]
    {
      if RequireAdmin(apiKey).Err? {
        return Err(Unauthorized);
      }
      var found := FindKey(keyId);
      if found.None? {
        return Err(NotFound);
      }
      var i := found.value;
      RotatePreserves(keys, allocations, i, now);
      keys := keys[i := keys[i].(lastRotatedAt := now)];
      auditLog := auditLog + [AuditEntry(now, RotateKeyAction, Some(keyId), "Rotated key '" + keys[i].name + "'")];
      r := Ok(keyId);
    }

    /** `GET /audit-log`: the most recent entries, at most `AuditWindow` of them, oldest first. */
    function GetAuditLog(apiKey: Option<string>): (r: Result<seq<AuditEntry>>)
      reads this
      ensures r.Err? <==> RequireAdmin(apiKey).Err?
      ensures r.Err? ==> r.error == Unauthorized
      ensures r.Ok? ==> |r.value| == if |auditLog| < AuditWindow then |auditLog| else AuditWindow
      ensures r.Ok? ==> auditLog[..|auditLog| - |r.value|] + r.value == auditLog
    {
      if RequireAdmin(apiKey).Err? then Err(Unauthorized) else Ok(LastN(auditLog, AuditWindow))
    }

    /** `POST /system-requests`: logs the serialized request body and nothing else. */
    method SystemRequest(apiKey: Option<string>, payloadJson: string, now: DateTime) returns (r: Result<()>)
      requires Valid()
      modifies this
      ensures Valid()
      ensures r.Err? <==> RequireAdmin(apiKey).Err?
      ensures r.Err? ==> r.error == Unauthorized && auditLog == old(auditLog)
      ensures r.Ok? ==> auditLog == old(auditLog) + [AuditEntry(now, SystemRequestAction, None, payloadJson)]
      ensures keys == old(keys) && allocations == old(allocations)
    {
      if RequireAdmin(apiKey).Err? {
        return Err(Unauthorized);
      }
      auditLog := auditLog + [AuditEntry(now, SystemRequestAction, None, payloadJson)];
      r := Ok(());
    }
  }
}
