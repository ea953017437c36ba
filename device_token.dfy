/**
 * `createDeviceToken` as a function of the storage it reads: read the key
 * "device_token" and, when its value is falsy, store a freshly generated UUID
 * under it.
 */
module DeviceToken {

  import opened Js

  /** The one key the gate reads and writes in `localStorage`. */
  const DEVICE_TOKEN_KEY: string := "device_token"

  /** `localStorage.getItem(key)`: the stored string, or `null` when the key is absent. */
  function GetItem(storage: map<string, string>, key: string): (r: JsValue)
    ensures key in storage ==> r == Str(storage[key])
    ensures key !in storage ==> r == Null
  {
    if key in storage then Str(storage[key]) else Null
  }

  /** True when the storage already holds a usable (truthy) device token. */
  predicate HasToken(storage: map<string, string>)
  {
    Truthy(GetItem(storage, DEVICE_TOKEN_KEY))
  }

  predicate IsLowerHexDigit(c: char)
  {
    '0' <= c <= '9' || 'a' <= c <= 'f'
  }

  /** The textual layout `xxxxxxxx-xxxx-xxxx-xxxx-xxxxxxxxxxxx` of a generated UUID. */
  predicate IsUuid(s: string)
  {
    && |s| == 36
    && forall i :: 0 <= i < 36 ==>
         if i == 8 || i == 13 || i == 18 || i == 23 then s[i] == '-' else IsLowerHexDigit(s[i])
  }

  /** What one call of `createDeviceToken` returns, leaves in storage, and whether it wrote. */
  datatype Provisioned = Provisioned(token: string, storage: map<string, string>, wrote: bool)

  /**
   * Read-or-create. An existing truthy value is returned as it is, whatever its
   * format, and nothing is written; an absent key or an empty string is
   * replaced by `uuid`, which is returned. Either way the returned token is the
   * value stored under the key afterwards, and no other key changes.
   */
  function Provision(storage: map<string, string>, uuid: string): (r: Provisioned)
    ensures DEVICE_TOKEN_KEY in r.storage && r.storage[DEVICE_TOKEN_KEY] == r.token
    ensures r.storage - {DEVICE_TOKEN_KEY} == storage - {DEVICE_TOKEN_KEY}
    ensures r.wrote <==> !HasToken(storage)
    ensures HasToken(storage) ==> r.token == storage[DEVICE_TOKEN_KEY] && r.storage == storage
    ensures !HasToken(storage) ==> r.token == uuid
  {
    var existing := GetItem(storage, DEVICE_TOKEN_KEY);
    if Truthy(existing) then Provisioned(existing.s, storage, false)
    else Provisioned(uuid, storage[DEVICE_TOKEN_KEY := uuid], true)
  }

  /** Every generated UUID is a non-empty, hence truthy, string. */
  lemma UuidIsTruthy(uuid: string)
    requires IsUuid(uuid)
    ensures Truthy(Str(uuid))
  {
  }

  /**
   * Provisioning twice in a row returns the same token, and the second call
   * neither writes nor changes storage, whatever UUID it would have generated.
   */
  lemma ProvisionIdempotent(storage: map<string, string>, first: string, second: string)
    requires first != ""
    ensures var p := Provision(storage, first);
            var q := Provision(p.storage, second);
            q.token == p.token && q.storage == p.storage && !q.wrote
  {
  }

  /** After provisioning with a non-empty UUID the storage holds a token. */
  lemma ProvisionEstablishesToken(storage: map<string, string>, uuid: string)
    requires uuid != ""
    ensures HasToken(Provision(storage, uuid).storage)
  {
  }

  /** A stored empty string counts as no token: it is overwritten by the fresh UUID. */
  lemma EmptyTokenIsReplaced(storage: map<string, string>, uuid: string)
    requires DEVICE_TOKEN_KEY in storage && storage[DEVICE_TOKEN_KEY] == ""
    ensures Provision(storage, uuid) == Provisioned(uuid, storage[DEVICE_TOKEN_KEY := uuid], true)
  {
  }

  /** A stored token that is not a UUID, such as "abc-123", is returned unchanged. */
  lemma CorruptTokenIsKept(storage: map<string, string>, uuid: string)
    requires DEVICE_TOKEN_KEY in storage && storage[DEVICE_TOKEN_KEY] == "abc-123"
    ensures !IsUuid(storage[DEVICE_TOKEN_KEY])
    ensures Provision(storage, uuid) == Provisioned("abc-123", storage, false)
  {
  }

  /** A fresh token is a UUID when the generator's output is one. */
  lemma FreshTokenIsUuid(storage: map<string, string>, uuid: string)
    requires !HasToken(storage) && IsUuid(uuid)
    ensures IsUuid(Provision(storage, uuid).token)
  {
  }
}
