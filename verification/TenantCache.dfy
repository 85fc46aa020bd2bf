/** `TenantCacheService`: one shared string-keyed cache with expiry, and when it behaves like a cache for each tenant. */
module TenantCache {
  import opened Api

  const TENANT_CACHE_TTL_MS: nat := 45_000

  datatype Entry = Entry(value: string, expires: nat)

  predicate ColonFree(s: string) {
    ':' !in s
  }

  function Scope(tenant: string, resource: string): string {
    "tenant:" + tenant + ":" + resource + ":"
  }

  function BuildKey(tenant: string, resource: string, params: string): string {
    Scope(tenant, resource) + params
  }

  // ---- Keys ----------------------------------------------------------------------------------------

  lemma FirstChar(a: string, x: string)
    requires ColonFree(a)
    ensures (a + ":" + x)[0] == ':' <==> a == ""
    ensures a != "" ==> (a + ":" + x)[0] == a[0] && (a + ":" + x)[1..] == a[1..] + ":" + x
  {
    assert a != "" ==> a[0] in a;
  }

  lemma {:induction false} FirstColonSplits(a: string, x: string, b: string, y: string)
    requires ColonFree(a) && ColonFree(b) && a + ":" + x == b + ":" + y
    ensures a == b && x == y
  {
    FirstChar(a, x);
    FirstChar(b, y);
    if a == "" {
      assert x == (a + ":" + x)[1..] == y;
    } else {
      FirstColonSplits(a[1..], x, b[1..], y);
      assert a == [a[0]] + a[1..] && b == [b[0]] + b[1..];
    }
  }

  /** With colon-free tenant ids and resource names a key names its tenant, resource and parameters. */
  lemma KeysAreInjective(t: string, r: string, p: string, t': string, r': string, p': string)
    requires ColonFree(t) && ColonFree(r) && ColonFree(t') && ColonFree(r')
    requires BuildKey(t, r, p) == BuildKey(t', r', p')
    ensures t == t' && r == r' && p == p'
  {
    var prefix := "tenant:";
    assert BuildKey(t, r, p)[|prefix|..] == t + ":" + (r + ":" + p);
    assert BuildKey(t', r', p')[|prefix|..] == t' + ":" + (r' + ":" + p');
    FirstColonSplits(t, r + ":" + p, t', r' + ":" + p');
    FirstColonSplits(r, p, r', p');
  }

  /** Without that, two scopes share a key exactly when one's key prefix begins with the other's. */
  lemma ScopesCollideIff(t: string, r: string, t': string, r': string)
    ensures (exists p, p' :: BuildKey(t, r, p) == BuildKey(t', r', p'))
      <==> Scope(t, r) <= Scope(t', r') || Scope(t', r') <= Scope(t, r)
  {
    var a, b := Scope(t, r), Scope(t', r');
    if exists p, p' :: BuildKey(t, r, p) == BuildKey(t', r', p') {
      var p, p' :| BuildKey(t, r, p) == BuildKey(t', r', p');
      var whole := BuildKey(t, r, p);
      assert a == whole[..|a|] && b == whole[..|b|];
      if |a| <= |b| { assert a == b[..|a|]; } else { assert b == a[..|b|]; }
    }
    if a <= b {
      assert BuildKey(t, r, b[|a|..]) == BuildKey(t', r', "");
    } else if b <= a {
      assert BuildKey(t, r, "") == BuildKey(t', r', a[|b|..]);
    }
  }

  /** Such scopes exist: a tenant id with a colon reads another tenant's entry. */
  lemma ColonLeaks()
    ensures BuildKey("a:b", "c", "d") == BuildKey("a", "b", "c:d") && "a:b" != "a"
  {
    assert BuildKey("a:b", "c", "d") == "tenant:a:b:c:d";
    assert BuildKey("a", "b", "c:d") == "tenant:a:b:c:d";
  }

  // ---- Runs ----------------------------------------------------------------------------------------

  /** One call of the service, at a time of the shared clock. */
  datatype Operation =
    | Get(now: nat, tenant: string, resource: string, params: string)
    | Set(now: nat, tenant: string, resource: string, params: string, value: string, ttlMs: nat)
    | Invalidate(now: nat, tenant: string, resource: string, params: string)

  function Live(found: Option<Entry>, now: nat): Option<string> {
    if found.Some? && now < found.value.expires then Some(found.value.value) else None
  }

  function Lookup<K>(m: map<K, Entry>, k: K): Option<Entry> {
    if k in m then Some(m[k]) else None
  }

  function Changed<K>(m: map<K, Entry>, k: K, op: Operation): map<K, Entry> {
    match op
    case Get(_, _, _, _) => m
    case Set(now, _, _, _, value, ttlMs) => m[k := Entry(value, now + ttlMs)]
    case Invalidate(_, _, _, _) => m - {k}
  }

  function Key(op: Operation): string {
    BuildKey(op.tenant, op.resource, op.params)
  }

  class Service {
    var cache: map<string, Entry>

    constructor ()
      ensures cache == map[]
    {
      cache := map[];
    }

    method Get(now: nat, tenant: string, resource: string, params: string) returns (value: Option<string>)
      ensures value == Live(Lookup(cache, BuildKey(tenant, resource, params)), now)
    {
      var key := BuildKey(tenant, resource, params);
      if key in cache && now < cache[key].expires {
        return Some(cache[key].value);
      }
      return None;
    }

    method Set(now: nat, tenant: string, resource: string, params: string, value: string,
               ttlMs: nat := TENANT_CACHE_TTL_MS)
      modifies this
      ensures var op := Operation.Set(now, tenant, resource, params, value, ttlMs);
        cache == Changed(old(cache), Key(op), op)
    {
      cache := cache[BuildKey(tenant, resource, params) := Entry(value, now + ttlMs)];
    }

    method Invalidate(now: nat, tenant: string, resource: string, params: string)
      modifies this
      ensures var op := Operation.Invalidate(now, tenant, resource, params);
        cache == Changed(old(cache), Key(op), op)
    {
      cache := cache - {BuildKey(tenant, resource, params)};
    }
  }

  /** The shared cache after a run. */
  function Shared(ops: seq<Operation>): map<string, Entry>
    decreases |ops|
  {
    if ops == [] then map[]
    else Changed(Shared(ops[..|ops| - 1]), Key(ops[|ops| - 1]), ops[|ops| - 1])
  }

  /** A tenant's own cache, which only its own operations touch. */
  function Own(ops: seq<Operation>, tenant: string): map<(string, string), Entry>
    decreases |ops|
  {
    if ops == [] then map[]
    else
      var before, op := Own(ops[..|ops| - 1], tenant), ops[|ops| - 1];
      if op.tenant == tenant then Changed(before, (op.resource, op.params), op) else before
  }

  predicate Plain(ops: seq<Operation>) {
    forall i | 0 <= i < |ops| :: ColonFree(ops[i].tenant) && ColonFree(ops[i].resource)
  }

  /** After any run the shared cache holds for each tenant, resource and parameters what that tenant's own cache would:
      no other tenant's operation can be seen. */
  lemma {:induction false} SharedActsPerTenant(ops: seq<Operation>, tenant: string, resource: string, params: string)
    requires Plain(ops) && ColonFree(tenant) && ColonFree(resource)
    ensures Lookup(Shared(ops), BuildKey(tenant, resource, params)) == Lookup(Own(ops, tenant), (resource, params))
  {
    if ops != [] {
      var op := ops[|ops| - 1];
      SharedActsPerTenant(ops[..|ops| - 1], tenant, resource, params);
      if Key(op) == BuildKey(tenant, resource, params) {
        KeysAreInjective(op.tenant, op.resource, op.params, tenant, resource, params);
      }
    }
  }

  /** Operation i changes the entry of this tenant, resource and parameters. */
  predicate Touches(op: Operation, tenant: string, resource: string, params: string) {
    (op.Set? || op.Invalidate?) && op.tenant == tenant && op.resource == resource && op.params == params
  }

  /** It is the last of the run that does. */
  predicate LastTouch(ops: seq<Operation>, i: nat, tenant: string, resource: string, params: string) {
    && i < |ops| && Touches(ops[i], tenant, resource, params)
    && forall j | i < j < |ops| :: !Touches(ops[j], tenant, resource, params)
  }

  /** And it sets v. */
  predicate LastSet(ops: seq<Operation>, i: nat, tenant: string, resource: string, params: string, v: string) {
    LastTouch(ops, i, tenant, resource, params) && ops[i].Set? && ops[i].value == v
  }

  lemma {:induction false} EntryIsLastSet(ops: seq<Operation>, tenant: string, resource: string, params: string, e: Entry)
    requires Plain(ops) && ColonFree(tenant) && ColonFree(resource)
    ensures Lookup(Shared(ops), BuildKey(tenant, resource, params)) == Some(e) <==>
      exists i :: 0 <= i < |ops| && LastSet(ops, i, tenant, resource, params, e.value)
        && ops[i].now + ops[i].ttlMs == e.expires
  {
    if ops != [] {
      var n := |ops| - 1;
      var before, op := ops[..n], ops[n];
      EntryIsLastSet(before, tenant, resource, params, e);
      if Key(op) == BuildKey(tenant, resource, params) {
        KeysAreInjective(op.tenant, op.resource, op.params, tenant, resource, params);
      }
      LastTouchOf(ops, tenant, resource, params);
    }
  }

  lemma LastTouchOf(ops: seq<Operation>, tenant: string, resource: string, params: string)
    requires ops != []
    ensures var n := |ops| - 1;
      if Touches(ops[n], tenant, resource, params) then
        forall i: nat :: LastTouch(ops, i, tenant, resource, params) <==> i == n
      else
        forall i: nat :: LastTouch(ops, i, tenant, resource, params) <==> LastTouch(ops[..n], i, tenant, resource, params)
  {
    var n := |ops| - 1;
    assert forall j | 0 <= j < n :: ops[..n][j] == ops[j];
  }

  /** What a read returns, from the operations alone: v exactly if the last Set or Invalidate of this tenant, resource and
      parameters is a Set of v whose time to live is not over. */
  lemma ReadReturnsLastSet(ops: seq<Operation>, now: nat, tenant: string, resource: string, params: string, v: string)
    requires Plain(ops) && ColonFree(tenant) && ColonFree(resource)
    ensures Live(Lookup(Shared(ops), BuildKey(tenant, resource, params)), now) == Some(v) <==>
      exists i :: 0 <= i < |ops| && LastSet(ops, i, tenant, resource, params, v) && now < ops[i].now + ops[i].ttlMs
  {
    var found := Lookup(Shared(ops), BuildKey(tenant, resource, params));
    if found.Some? { EntryIsLastSet(ops, tenant, resource, params, found.value); }
    if i :| 0 <= i < |ops| && LastSet(ops, i, tenant, resource, params, v) {
      EntryIsLastSet(ops, tenant, resource, params, Entry(v, ops[i].now + ops[i].ttlMs));
      OneLastTouch(ops, tenant, resource, params);
    }
  }

  lemma OneLastTouch(ops: seq<Operation>, tenant: string, resource: string, params: string)
    ensures forall i: nat, j: nat ::
      LastTouch(ops, i, tenant, resource, params) && LastTouch(ops, j, tenant, resource, params) ==> i == j
  {
  }

  function OnlyOf(ops: seq<Operation>, tenant: string): seq<Operation>
    decreases |ops|
  {
    if ops == [] then []
    else OnlyOf(ops[..|ops| - 1], tenant) + (if ops[|ops| - 1].tenant == tenant then [ops[|ops| - 1]] else [])
  }

  lemma {:induction false} OwnIgnoresOthers(ops: seq<Operation>, tenant: string)
    ensures Own(ops, tenant) == Own(OnlyOf(ops, tenant), tenant)
    decreases |ops|
  {
    if ops != [] {
      var init, op := ops[..|ops| - 1], ops[|ops| - 1];
      OwnIgnoresOthers(init, tenant);
      if op.tenant == tenant {
        assert OnlyOf(ops, tenant)[..|OnlyOf(ops, tenant)| - 1] == OnlyOf(init, tenant);
      } else {
        assert OnlyOf(ops, tenant) == OnlyOf(init, tenant);
      }
    }
  }

  lemma {:induction false} OnlyOfPlain(ops: seq<Operation>, tenant: string)
    requires Plain(ops)
    ensures Plain(OnlyOf(ops, tenant))
    decreases |ops|
  {
    if ops != [] { OnlyOfPlain(ops[..|ops| - 1], tenant); }
  }

  /** A tenant's read returns what it would if every other tenant's operations had never happened. */
  lemma TenantSeesOnlyItself(ops: seq<Operation>, now: nat, tenant: string, resource: string, params: string)
    requires Plain(ops) && ColonFree(tenant) && ColonFree(resource)
    ensures Live(Lookup(Shared(ops), BuildKey(tenant, resource, params)), now)
      == Live(Lookup(Shared(OnlyOf(ops, tenant)), BuildKey(tenant, resource, params)), now)
  {
    SharedActsPerTenant(ops, tenant, resource, params);
    OnlyOfPlain(ops, tenant);
    SharedActsPerTenant(OnlyOf(ops, tenant), tenant, resource, params);
    OwnIgnoresOthers(ops, tenant);
  }
}
