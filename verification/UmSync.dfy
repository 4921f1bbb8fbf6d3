/**
  The user-management sync: what it reads, the seven batches it computes from it, and the
  transaction that writes them.
 */
module UmSync {
  import opened Wrappers

  type Code = string
  type Time = nat

  datatype Manager = UserManagementSync | TxSync
  datatype Partner = Partner(managedBy: Option<Manager>, deletedOn: Option<Time>) {
    predicate Managed() { managedBy == Some(UserManagementSync) }
  }
  datatype TenantKey = TenantKey(partnerId: Code, code: Code)
  datatype Tenant = Tenant(isGlobal: bool, deletedOn: Option<Time>)

  datatype Tables = Tables(partners: map<Code, Partner>, tenants: map<TenantKey, Tenant>)

  // What findMany({ include: { tenant } }) returns: the rows, in some order.
  datatype Snapshot = Snapshot(tables: Tables, partnerIds: seq<Code>, tenantCodes: map<Code, seq<Code>>) {
    // Primary keys, and the foreign key from tenant to partner.
    ghost predicate Valid() {
      && NoDuplicates(partnerIds)
      && (forall p :: p in partnerIds <==> p in tables.partners)
      && tenantCodes.Keys == tables.partners.Keys
      && (forall p :: p in tenantCodes ==> NoDuplicates(tenantCodes[p]))
      && (forall p, c :: p in tenantCodes ==> (c in tenantCodes[p] <==> TenantKey(p, c) in tables.tenants))
      && (forall k :: k in tables.tenants ==> k.partnerId in tables.partners)
    }

    function CodesOf(p: Code): (codes: seq<Code>) {
      if p in tenantCodes then tenantCodes[p] else []
    }
  }

  datatype UmTenant = UmTenant(tenantCode: Code, isGlobal: bool)
  datatype Response<+T> = Answer(data: T) | Unavailable
  type Fetch = Code -> Response<seq<UmTenant>>

  datatype Upsert = Upsert(key: TenantKey, isGlobal: bool)

  datatype Batches = Batches(
    partnersToCreate: seq<Code>,
    partnersToDelete: seq<Code>,
    partnersToUndelete: seq<Code>,
    tenantsToCreate: seq<Upsert>,
    tenantsToDelete: seq<TenantKey>,
    tenantsToUndelete: seq<Upsert>,
    tenantsToUpdate: seq<Upsert>)

  const NO_BATCHES := Batches([], [], [], [], [], [], [])

  /* The diff */

  predicate IsDoomed(t: Tables, listed: seq<Code>, p: Code) {
    p in t.partners && t.partners[p].Managed() && t.partners[p].deletedOn.None? && p !in listed
  }

  predicate IsReturning(t: Tables, p: Code) {
    p in t.partners && t.partners[p].Managed() && t.partners[p].deletedOn.Some?
  }

  predicate IsKept(t: Tables, listed: seq<Code>, p: Code) {
    p in t.partners && t.partners[p].Managed() && !IsDoomed(t, listed, p)
  }

  function Filter<T>(keep: T -> bool, s: seq<T>): (r: seq<T>) {
    if s == [] then []
    else
      var r := Filter(keep, s[..|s| - 1]);
      if keep(s[|s| - 1]) then r + [s[|s| - 1]] else r
  }

  lemma {:induction false} FilterMembers<T>(keep: T -> bool, s: seq<T>, x: T)
    ensures x in Filter(keep, s) <==> x in s && keep(x)
  {
    if s != [] {
      assert s == s[..|s| - 1] + [s[|s| - 1]];
      FilterMembers(keep, s[..|s| - 1], x);
    }
  }

  function PartnersToCreate(t: Tables, listed: seq<Code>): seq<Code> {
    Filter((p: Code) => p !in t.partners, listed)
  }

  function PartnersToDelete(snap: Snapshot, listed: seq<Code>): seq<Code> {
    Filter((p: Code) => IsDoomed(snap.tables, listed, p), snap.partnerIds)
  }

  function PartnersToUndelete(t: Tables, listed: seq<Code>): seq<Code> {
    Filter((p: Code) => IsReturning(t, p), listed)
  }

  function PartnersToKeep(snap: Snapshot, listed: seq<Code>): seq<Code> {
    Filter((p: Code) => IsKept(snap.tables, listed, p), snap.partnerIds)
  }

  function PartnersForTenantSync(snap: Snapshot, listed: seq<Code>): seq<Code> {
    PartnersToKeep(snap, listed) + PartnersToCreate(snap.tables, listed)
  }

  datatype Kind = Create | Undelete | Update | Leave

  function Classify(t: Tables, p: Code, u: UmTenant): Kind {
    var key := TenantKey(p, u.tenantCode);
    if key !in t.tenants then Create
    else if t.tenants[key].deletedOn.Some? then Undelete
    else if t.tenants[key].isGlobal != u.isGlobal then Update
    else Leave
  }

  function ToUpsert(p: Code, u: UmTenant): Upsert {
    Upsert(TenantKey(p, u.tenantCode), u.isGlobal)
  }

  // The upserts of one kind for one partner, and for the partners whose tenants could be fetched.
  function Upserts(t: Tables, p: Code, data: seq<UmTenant>, kind: Kind): (r: seq<Upsert>) {
    if data == [] then []
    else
      var last := data[|data| - 1];
      Upserts(t, p, data[..|data| - 1], kind) + if Classify(t, p, last) == kind then [ToUpsert(p, last)] else []
  }

  function UpsertsFor(t: Tables, p: Code, fetch: Fetch, kind: Kind): seq<Upsert> {
    if fetch(p).Answer? then Upserts(t, p, fetch(p).data, kind) else []
  }

  function AllUpserts(t: Tables, ps: seq<Code>, fetch: Fetch, kind: Kind): (r: seq<Upsert>) {
    if ps == [] then []
    else
      var last := ps[|ps| - 1];
      AllUpserts(t, ps[..|ps| - 1], fetch, kind) + UpsertsFor(t, last, fetch, kind)
  }

  // The live tenants of a partner, among the given codes, that are not in the list `keep`.
  function Gone(t: Tables, p: Code, codes: seq<Code>, keep: set<Code>): (r: seq<TenantKey>) {
    if codes == [] then []
    else
      var last := codes[|codes| - 1];
      var key := TenantKey(p, last);
      Gone(t, p, codes[..|codes| - 1], keep)
      + if last !in keep && key in t.tenants && t.tenants[key].deletedOn.None? then [key] else []
  }

  function UmCodes(data: seq<UmTenant>): (codes: set<Code>) {
    set u | u in data :: u.tenantCode
  }

  function GoneFor(snap: Snapshot, p: Code, fetch: Fetch): seq<TenantKey> {
    if fetch(p).Answer? then Gone(snap.tables, p, snap.CodesOf(p), UmCodes(fetch(p).data)) else []
  }

  function AllGone(snap: Snapshot, ps: seq<Code>, fetch: Fetch): (r: seq<TenantKey>) {
    if ps == [] then []
    else
      var last := ps[|ps| - 1];
      AllGone(snap, ps[..|ps| - 1], fetch) + GoneFor(snap, last, fetch)
  }

  const NO_TENANTS: Fetch := (p: Code) => Answer([])

  function BatchesFor(snap: Snapshot, listed: seq<Code>, fetch: Fetch): Batches {
    var t := snap.tables;
    var synced := PartnersForTenantSync(snap, listed);
    Batches(
      PartnersToCreate(t, listed),
      PartnersToDelete(snap, listed),
      PartnersToUndelete(t, listed),
      AllUpserts(t, synced, fetch, Create),
      AllGone(snap, PartnersToDelete(snap, listed), NO_TENANTS) + AllGone(snap, synced, fetch),
      AllUpserts(t, synced, fetch, Undelete),
      AllUpserts(t, synced, fetch, Update))
  }

  lemma OneMoreUpserted(t: Tables, ps: seq<Code>, i: nat, fetch: Fetch, kind: Kind)
    requires i < |ps|
    ensures AllUpserts(t, ps[..i + 1], fetch, kind)
            == AllUpserts(t, ps[..i], fetch, kind) + UpsertsFor(t, ps[i], fetch, kind)
  {
    assert ps[..i + 1][..i] == ps[..i];
  }

  lemma OneMoreGone(snap: Snapshot, ps: seq<Code>, i: nat, fetch: Fetch, pushed: seq<TenantKey>)
    requires i < |ps|
    ensures pushed + AllGone(snap, ps[..i + 1], fetch)
            == pushed + AllGone(snap, ps[..i], fetch) + GoneFor(snap, ps[i], fetch)
  {
    assert ps[..i + 1][..i] == ps[..i];
  }

  method ComputeBatches(snap: Snapshot, listed: seq<Code>, fetch: Fetch) returns (b: Batches)
    ensures b == BatchesFor(snap, listed, fetch)
  {
    var t := snap.tables;
    var doomed := PartnersToDelete(snap, listed);
    var synced := PartnersForTenantSync(snap, listed);
    var creates, undeletes, updates := [], [], [];
    var doomedTenants := AllGone(snap, doomed, NO_TENANTS);
    var deletes := doomedTenants;
    for i := 0 to |synced|
      invariant creates == AllUpserts(t, synced[..i], fetch, Create)
      invariant undeletes == AllUpserts(t, synced[..i], fetch, Undelete)
      invariant updates == AllUpserts(t, synced[..i], fetch, Update)
      invariant deletes == doomedTenants + AllGone(snap, synced[..i], fetch)
    {
      var created, undeleted, updated, gone := DiffPartner(snap, synced[i], fetch);
      creates := creates + created;
      undeletes := undeletes + undeleted;
      updates := updates + updated;
      deletes := deletes + gone;
      OneMoreUpserted(t, synced, i, fetch, Create);
      OneMoreUpserted(t, synced, i, fetch, Undelete);
      OneMoreUpserted(t, synced, i, fetch, Update);
      OneMoreGone(snap, synced, i, fetch, doomedTenants);
    }
    assert synced[..|synced|] == synced;
    b := Batches(PartnersToCreate(t, listed), doomed, PartnersToUndelete(t, listed),
                 creates, deletes, undeletes, updates);
  }

  // The tenant sync of one partner, which skips the partner when its tenants cannot be fetched.
  method DiffPartner(snap: Snapshot, p: Code, fetch: Fetch)
    returns (creates: seq<Upsert>, undeletes: seq<Upsert>, updates: seq<Upsert>, deletes: seq<TenantKey>)
    ensures creates == UpsertsFor(snap.tables, p, fetch, Create)
    ensures undeletes == UpsertsFor(snap.tables, p, fetch, Undelete)
    ensures updates == UpsertsFor(snap.tables, p, fetch, Update)
    ensures deletes == GoneFor(snap, p, fetch)
  {
    creates, undeletes, updates, deletes := [], [], [], [];
    if fetch(p).Unavailable? {
      return;
    }
    var t, data := snap.tables, fetch(p).data;
    for j := 0 to |data|
      invariant creates == Upserts(t, p, data[..j], Create)
      invariant undeletes == Upserts(t, p, data[..j], Undelete)
      invariant updates == Upserts(t, p, data[..j], Update)
    {
      assert data[..j + 1][..j] == data[..j];
      var key, isGlobal := TenantKey(p, data[j].tenantCode), data[j].isGlobal;
      if key !in t.tenants {
        creates := creates + [Upsert(key, isGlobal)];
      } else if t.tenants[key].deletedOn.Some? {
        undeletes := undeletes + [Upsert(key, isGlobal)];
      } else if t.tenants[key].isGlobal != isGlobal {
        updates := updates + [Upsert(key, isGlobal)];
      }
    }
    assert data[..|data|] == data;
    var codes := snap.CodesOf(p);
    for j := 0 to |codes|
      invariant deletes == Gone(t, p, codes[..j], UmCodes(data))
    {
      assert codes[..j + 1][..j] == codes[..j];
      var key := TenantKey(p, codes[j]);
      if codes[j] !in UmCodes(data) && key in t.tenants && t.tenants[key].deletedOn.None? {
        deletes := deletes + [key];
      }
    }
    assert codes[..|codes|] == codes;
  }

  /* The transaction */

  // createMany: all rows or, on a primary or foreign key violation, an error.
  function CreatePartners(t: Tables, ids: seq<Code>): Option<Tables> {
    if NoDuplicates(ids) && forall id | id in ids :: id !in t.partners then
      Some(t.(partners := t.partners + map id | id in ids :: Partner(Some(UserManagementSync), None)))
    else None
  }

  function KeysOf(ups: seq<Upsert>): (keys: seq<TenantKey>) {
    seq(|ups|, i requires 0 <= i < |ups| => ups[i].key)
  }

  function CreateTenants(t: Tables, ups: seq<Upsert>): Option<Tables> {
    if NoDuplicates(KeysOf(ups)) && forall u | u in ups :: u.key !in t.tenants && u.key.partnerId in t.partners then
      var created := set u | u in ups :: u.key;
      Some(t.(tenants := t.tenants + map key | key in created :: Tenant(Upsert(key, true) in ups, None)))
    else None
  }

  // updateMany on partners, restricted to the managed ones.
  function StampPartners(t: Tables, ids: seq<Code>, stamp: Option<Time>): Tables {
    t.(partners := map p | p in t.partners ::
      if p in ids && t.partners[p].Managed() then t.partners[p].(deletedOn := stamp) else t.partners[p])
  }

  datatype TenantWrite =
    | Delete(key: TenantKey)
    | Restore(key: TenantKey, isGlobal: bool)
    | SetGlobal(key: TenantKey, isGlobal: bool)
  {
    function Apply(tenant: Tenant, now: Time): Tenant {
      match this
      case Delete(_) => tenant.(deletedOn := Some(now))
      case Restore(_, isGlobal) => Tenant(isGlobal, None)
      case SetGlobal(_, isGlobal) => tenant.(isGlobal := isGlobal)
    }

    // tenant.update fails when no row of a managed partner matches.
    predicate Matches(t: Tables) {
      key in t.tenants && key.partnerId in t.partners && t.partners[key.partnerId].Managed()
    }
  }

  function WriteTenants(t: Tables, ws: seq<TenantWrite>, now: Time): Option<Tables> {
    if ws == [] then Some(t)
    else
      var last := ws[|ws| - 1];
      match WriteTenants(t, ws[..|ws| - 1], now)
      case None => None
      case Some(t1) =>
        if last.Matches(t1) then
          Some(t1.(tenants := t1.tenants[last.key := last.Apply(t1.tenants[last.key], now)]))
        else None
  }

  function Deletes(b: Batches): seq<TenantWrite> {
    seq(|b.tenantsToDelete|, i requires 0 <= i < |b.tenantsToDelete| => Delete(b.tenantsToDelete[i]))
  }

  function Restores(b: Batches): seq<TenantWrite> {
    var ups := b.tenantsToUndelete;
    seq(|ups|, i requires 0 <= i < |ups| => Restore(ups[i].key, ups[i].isGlobal))
  }

  function GlobalChanges(b: Batches): seq<TenantWrite> {
    var ups := b.tenantsToUpdate;
    seq(|ups|, i requires 0 <= i < |ups| => SetGlobal(ups[i].key, ups[i].isGlobal))
  }

  function TenantWrites(b: Batches): seq<TenantWrite> {
    Deletes(b) + Restores(b) + GlobalChanges(b)
  }

  function Creations(t: Tables, b: Batches, now: Time): Option<Tables> {
    match CreatePartners(t, b.partnersToCreate)
    case None => None
    case Some(t1) =>
      var t2 := StampPartners(t1, b.partnersToDelete, Some(now));
      CreateTenants(StampPartners(t2, b.partnersToUndelete, None), b.tenantsToCreate)
  }

  function Transaction(t: Tables, b: Batches, now: Time): Option<Tables> {
    match Creations(t, b, now)
    case None => None
    case Some(t1) => WriteTenants(t1, TenantWrites(b), now)
  }

  class Database {
    var partners: map<Code, Partner>
    var tenants: map<TenantKey, Tenant>

    constructor (t: Tables)
      ensures Read() == t
    {
      partners, tenants := t.partners, t.tenants;
    }

    function Read(): Tables
      reads this
    {
      Tables(partners, tenants)
    }

    method UpdateTenant(w: TenantWrite, now: Time) returns (ok: bool)
      modifies this`tenants
      ensures ok == w.Matches(old(Read()))
      ensures tenants == if ok then old(tenants)[w.key := w.Apply(old(tenants)[w.key], now)] else old(tenants)
    {
      ok := w.Matches(Read());
      if ok {
        tenants := tenants[w.key := w.Apply(tenants[w.key], now)];
      }
    }

    // The loop of one batch of single-row updates, inside the transaction.
    method UpdateTenants(ws: seq<TenantWrite>, now: Time) returns (ok: bool)
      modifies this`tenants
      ensures ok ==> WriteTenants(old(Read()), ws, now) == Some(Read())
      ensures !ok ==> WriteTenants(old(Read()), ws, now) == None
    {
      ghost var before := Read();
      for i := 0 to |ws|
        invariant WriteTenants(before, ws[..i], now) == Some(Read())
      {
        assert ws[..i + 1][..i] == ws[..i];
        ok := UpdateTenant(ws[i], now);
        if !ok {
          WriteTenantsStops(before, ws, i + 1, now);
          return;
        }
      }
      assert ws[..|ws|] == ws;
      ok := true;
    }

    // Commits the batches, or leaves the tables as they were.
    method Transact(b: Batches, now: Time) returns (committed: bool)
      modifies this
      ensures committed == Transaction(old(Read()), b, now).Some?
      ensures Read() == if committed then Transaction(old(Read()), b, now).value else old(Read())
    {
      var rollback := Read();
      var created := CreatePartners(rollback, b.partnersToCreate);
      committed := created.Some?;
      if committed {
        partners := created.value.partners;
        partners := StampPartners(Read(), b.partnersToDelete, Some(now)).partners;
        partners := StampPartners(Read(), b.partnersToUndelete, None).partners;
        created := CreateTenants(Read(), b.tenantsToCreate);
        committed := created.Some?;
      }
      if committed {
        tenants := created.value.tenants;
        ghost var t1 := Read();
        WriteTenantsConcat(t1, Deletes(b), Restores(b), now);
        WriteTenantsConcat(t1, Deletes(b) + Restores(b), GlobalChanges(b), now);
        committed := UpdateTenants(Deletes(b), now);
        if committed {
          committed := UpdateTenants(Restores(b), now);
        }
        if committed {
          committed := UpdateTenants(GlobalChanges(b), now);
        }
      }
      if !committed {
        partners, tenants := rollback.partners, rollback.tenants;
      }
    }

    method Sync(listing: Response<seq<Code>>, fetch: Fetch, snap: Snapshot, now: Time) returns (committed: bool)
      requires snap.tables == Read()
      modifies this
      ensures Read() == Synced(snap, listing, fetch, now)
      ensures !committed || listing.Unavailable? ==> Read() == old(Read())
      ensures committed <==>
                listing.Answer? && Transaction(snap.tables, BatchesFor(snap, listing.data, fetch), now).Some?
    {
      committed := false;
      if listing.Unavailable? {
        return;
      }
      var batches := ComputeBatches(snap, listing.data, fetch);
      committed := Transact(batches, now);
    }
  }

  // The tables after a sync that read `snap`.
  function Synced(snap: Snapshot, listing: Response<seq<Code>>, fetch: Fetch, now: Time): Tables {
    match listing
    case Unavailable => snap.tables
    case Answer(listed) =>
      match Transaction(snap.tables, BatchesFor(snap, listed, fetch), now)
      case Some(t) => t
      case None => snap.tables
  }

  lemma {:induction false} WriteTenantsStops(t: Tables, ws: seq<TenantWrite>, i: nat, now: Time)
    requires i <= |ws| && WriteTenants(t, ws[..i], now) == None
    ensures WriteTenants(t, ws, now) == None
    decreases |ws| - i
  {
    if i < |ws| {
      assert ws[..i + 1][..i] == ws[..i];
      WriteTenantsStops(t, ws, i + 1, now);
    } else {
      assert ws[..i] == ws;
    }
  }

  lemma {:induction false} WriteTenantsConcat(t: Tables, a: seq<TenantWrite>, b: seq<TenantWrite>, now: Time)
    ensures WriteTenants(t, a + b, now) ==
            match WriteTenants(t, a, now)
            case None => None
            case Some(t1) => WriteTenants(t1, b, now)
  {
    if b == [] {
      assert a + b == a;
    } else {
      assert (a + b)[..|a + b| - 1] == a + b[..|b| - 1];
      WriteTenantsConcat(t, a, b[..|b| - 1], now);
    }
  }
}
