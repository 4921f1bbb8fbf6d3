/**
  What a sync achieves: when it commits, row by row what it writes, that it converges to what user
  management lists, exactly when a second sync finds nothing left to do, and what it never touches.
 */
module UmSyncProperties {
  import opened Wrappers
  import opened UmSync

  /* Who is in which batch */

  predicate IsNew(t: Tables, listed: seq<Code>, p: Code) {
    p !in t.partners && p in listed
  }

  lemma PartnerBatchMembers(snap: Snapshot, listed: seq<Code>, p: Code)
    requires snap.Valid()
    ensures p in PartnersToCreate(snap.tables, listed) <==> IsNew(snap.tables, listed, p)
    ensures p in PartnersToDelete(snap, listed) <==> IsDoomed(snap.tables, listed, p)
    ensures p in PartnersToUndelete(snap.tables, listed) <==> p in listed && IsReturning(snap.tables, p)
    ensures p in PartnersToKeep(snap, listed) <==> IsKept(snap.tables, listed, p)
    ensures p in PartnersForTenantSync(snap, listed)
       <==> IsKept(snap.tables, listed, p) || IsNew(snap.tables, listed, p)
  {
    FilterMembers((p: Code) => p !in snap.tables.partners, listed, p);
    FilterMembers((p: Code) => IsDoomed(snap.tables, listed, p), snap.partnerIds, p);
    FilterMembers((p: Code) => IsReturning(snap.tables, p), listed, p);
    FilterMembers((p: Code) => IsKept(snap.tables, listed, p), snap.partnerIds, p);
  }

  lemma {:induction false} UpsertsMembers(t: Tables, p: Code, data: seq<UmTenant>, kind: Kind, x: Upsert)
    ensures x in Upserts(t, p, data, kind)
       <==> x.key.partnerId == p && UmTenant(x.key.code, x.isGlobal) in data
            && Classify(t, p, UmTenant(x.key.code, x.isGlobal)) == kind
  {
    if data != [] {
      assert data == data[..|data| - 1] + [data[|data| - 1]];
      UpsertsMembers(t, p, data[..|data| - 1], kind, x);
    }
  }

  lemma {:induction false} AllUpsertsMembers(t: Tables, ps: seq<Code>, fetch: Fetch, kind: Kind, x: Upsert)
    ensures x in AllUpserts(t, ps, fetch, kind)
       <==> x.key.partnerId in ps && x in UpsertsFor(t, x.key.partnerId, fetch, kind)
  {
    if ps != [] {
      var last := ps[|ps| - 1];
      assert ps == ps[..|ps| - 1] + [last];
      AllUpsertsMembers(t, ps[..|ps| - 1], fetch, kind, x);
      if fetch(last).Answer? {
        UpsertsMembers(t, last, fetch(last).data, kind, x);
      }
    }
  }

  lemma {:induction false} GoneMembers(t: Tables, p: Code, codes: seq<Code>, keep: set<Code>, k: TenantKey)
    ensures k in Gone(t, p, codes, keep)
       <==> k.partnerId == p && k.code in codes && k.code !in keep
            && k in t.tenants && t.tenants[k].deletedOn.None?
  {
    if codes != [] {
      assert codes == codes[..|codes| - 1] + [codes[|codes| - 1]];
      GoneMembers(t, p, codes[..|codes| - 1], keep, k);
    }
  }

  lemma {:induction false} AllGoneMembers(snap: Snapshot, ps: seq<Code>, fetch: Fetch, k: TenantKey)
    ensures k in AllGone(snap, ps, fetch) <==> k.partnerId in ps && k in GoneFor(snap, k.partnerId, fetch)
  {
    if ps != [] {
      var last := ps[|ps| - 1];
      assert ps == ps[..|ps| - 1] + [last];
      AllGoneMembers(snap, ps[..|ps| - 1], fetch, k);
      if fetch(last).Answer? {
        GoneMembers(snap.tables, last, snap.CodesOf(last), UmCodes(fetch(last).data), k);
      }
    }
  }

  // What the sync intends for the tenants of a partner.
  datatype Plan = Untouched | Doomed | Mirror(data: seq<UmTenant>)

  function PlanFor(t: Tables, listed: seq<Code>, fetch: Fetch, p: Code): Plan {
    if IsDoomed(t, listed, p) then Doomed
    else if (IsKept(t, listed, p) || IsNew(t, listed, p)) && fetch(p).Answer? then Mirror(fetch(p).data)
    else Untouched
  }

  // In plain terms: live managed partners that are not listed lose their tenants; those that are listed,
  // those that were deleted before, and new ones get the tenants that user management answers with, if
  // it does; all others are left alone.
  lemma PlanIff(t: Tables, listed: seq<Code>, fetch: Fetch, p: Code)
    ensures var managed := p in t.partners && t.partners[p].managedBy == Some(UserManagementSync);
            var plan := PlanFor(t, listed, fetch, p);
            && (plan.Doomed? <==> managed && t.partners[p].deletedOn.None? && p !in listed)
            && (plan.Mirror? <==> fetch(p).Answer?
                                  && (if p in t.partners then managed && (t.partners[p].deletedOn.Some? || p in listed)
                                      else p in listed))
            && (plan.Mirror? ==> plan.data == fetch(p).data)
  {
  }

  // Likewise for partners: new ones are created, live managed ones that are not listed deleted, deleted
  // managed ones that are listed restored, and nobody else is in a batch.
  lemma PartnerBatchesIff(snap: Snapshot, listed: seq<Code>, fetch: Fetch, p: Code)
    requires snap.Valid()
    ensures var t, b := snap.tables, BatchesFor(snap, listed, fetch);
            var managed := p in t.partners && t.partners[p].managedBy == Some(UserManagementSync);
            && (p in b.partnersToCreate <==> p !in t.partners && p in listed)
            && (p in b.partnersToDelete <==> managed && t.partners[p].deletedOn.None? && p !in listed)
            && (p in b.partnersToUndelete <==> managed && t.partners[p].deletedOn.Some? && p in listed)
  {
    PartnerBatchMembers(snap, listed, p);
  }

  predicate Lists(data: seq<UmTenant>, code: Code, isGlobal: bool) {
    UmTenant(code, isGlobal) in data
  }

  predicate IsLive(t: Tables, k: TenantKey) {
    k in t.tenants && t.tenants[k].deletedOn.None?
  }

  // Each tenant batch, described by the plan of the tenant's partner.
  lemma TenantBatchMembers(snap: Snapshot, listed: seq<Code>, fetch: Fetch, k: TenantKey, isGlobal: bool)
    requires snap.Valid()
    ensures var t, b := snap.tables, BatchesFor(snap, listed, fetch);
            var plan := PlanFor(t, listed, fetch, k.partnerId);
            var answered := plan.Mirror? && Lists(plan.data, k.code, isGlobal);
            && (Upsert(k, isGlobal) in b.tenantsToCreate <==> answered && k !in t.tenants)
            && (Upsert(k, isGlobal) in b.tenantsToUndelete <==> answered && k in t.tenants && !IsLive(t, k))
            && (Upsert(k, isGlobal) in b.tenantsToUpdate
                <==> answered && IsLive(t, k) && t.tenants[k].isGlobal != isGlobal)
            && (k in b.tenantsToDelete
                <==> IsLive(t, k) && (plan.Doomed? || (plan.Mirror? && k.code !in UmCodes(plan.data))))
  {
    var t, p, x := snap.tables, k.partnerId, Upsert(k, isGlobal);
    var synced := PartnersForTenantSync(snap, listed);
    PartnerBatchMembers(snap, listed, p);
    AllUpsertsMembers(t, synced, fetch, Create, x);
    AllUpsertsMembers(t, synced, fetch, Undelete, x);
    AllUpsertsMembers(t, synced, fetch, Update, x);
    AllGoneMembers(snap, PartnersToDelete(snap, listed), NO_TENANTS, k);
    AllGoneMembers(snap, synced, fetch, k);
    GoneMembers(t, p, snap.CodesOf(p), {}, k);
    assert UmCodes([]) == {};
    if fetch(p).Answer? {
      var data := fetch(p).data;
      UpsertsMembers(t, p, data, Create, x);
      UpsertsMembers(t, p, data, Undelete, x);
      UpsertsMembers(t, p, data, Update, x);
      GoneMembers(t, p, snap.CodesOf(p), UmCodes(data), k);
    }
  }

  /* The transaction */

  ghost predicate AllMatch(t: Tables, ws: seq<TenantWrite>) {
    forall w :: w in ws ==> w.Matches(t)
  }

  // No row is written by two different writes.
  ghost predicate OneWritePerRow(ws: seq<TenantWrite>) {
    forall v, w :: v in ws && w in ws && v.key == w.key ==> v == w
  }

  lemma {:induction false} WriteTenantsSucceeds(t: Tables, ws: seq<TenantWrite>, now: Time)
    requires AllMatch(t, ws)
    ensures var r := WriteTenants(t, ws, now);
            r.Some? && r.value.partners == t.partners && r.value.tenants.Keys == t.tenants.Keys
  {
    if ws != [] {
      WriteTenantsSucceeds(t, ws[..|ws| - 1], now);
    }
  }

  lemma {:induction false} WriteTenantsAt(t: Tables, ws: seq<TenantWrite>, now: Time, k: TenantKey)
    requires AllMatch(t, ws) && OneWritePerRow(ws) && k in t.tenants
    ensures var r := WriteTenants(t, ws, now);
            && r.Some? && k in r.value.tenants
            && (forall w :: w in ws && w.key == k ==> r.value.tenants[k] == w.Apply(t.tenants[k], now))
            && ((forall w :: w in ws ==> w.key != k) ==> r.value.tenants[k] == t.tenants[k])
  {
    WriteTenantsSucceeds(t, ws, now);
    if ws != [] {
      var last, front := ws[|ws| - 1], ws[..|ws| - 1];
      assert ws == front + [last];
      WriteTenantsSucceeds(t, front, now);
      WriteTenantsAt(t, front, now, k);
    }
  }

  // Whatever the writes: they go through only if each is of an existing tenant of a managed partner, and
  // no partner changes.
  lemma {:induction false} WritesAreOfManaged(t: Tables, ws: seq<TenantWrite>, now: Time)
    requires WriteTenants(t, ws, now).Some?
    ensures WriteTenants(t, ws, now).value.partners == t.partners
    ensures WriteTenants(t, ws, now).value.tenants.Keys == t.tenants.Keys
    ensures forall w :: w in ws ==>
              && w.key in t.tenants && w.key.partnerId in t.partners
              && t.partners[w.key.partnerId].managedBy == Some(UserManagementSync)
  {
    if ws != [] {
      assert ws == ws[..|ws| - 1] + [ws[|ws| - 1]];
      WritesAreOfManaged(t, ws[..|ws| - 1], now);
    }
  }

  // Writes to distinct rows commute: any order of the same writes gives the same tables.
  lemma WritesCommute(t: Tables, ws: seq<TenantWrite>, ws': seq<TenantWrite>, now: Time)
    requires AllMatch(t, ws) && OneWritePerRow(ws)
    requires forall w :: w in ws <==> w in ws'
    ensures WriteTenants(t, ws, now) == WriteTenants(t, ws', now)
    ensures WriteTenants(t, ws, now).Some?
  {
    WriteTenantsSucceeds(t, ws, now);
    WriteTenantsSucceeds(t, ws', now);
    var r, r' := WriteTenants(t, ws, now).value, WriteTenants(t, ws', now).value;
    forall k | k in t.tenants
      ensures r.tenants[k] == r'.tenants[k]
    {
      WriteTenantsAt(t, ws, now, k);
      WriteTenantsAt(t, ws', now, k);
      if w :| w in ws && w.key == k {
        assert w in ws';
      }
    }
    assert r.tenants == r'.tenants;
  }

  lemma TenantWriteMembers(b: Batches, w: TenantWrite)
    ensures w in TenantWrites(b) <==>
            match w
            case Delete(k) => k in b.tenantsToDelete
            case Restore(k, isGlobal) => Upsert(k, isGlobal) in b.tenantsToUndelete
            case SetGlobal(k, isGlobal) => Upsert(k, isGlobal) in b.tenantsToUpdate
  {
    assert forall k :: k in b.tenantsToDelete ==> Delete(k) in Deletes(b) by {
      forall i | 0 <= i < |b.tenantsToDelete| ensures Deletes(b)[i] == Delete(b.tenantsToDelete[i]) {}
    }
    assert forall x :: x in b.tenantsToUndelete ==> Restore(x.key, x.isGlobal) in Restores(b) by {
      forall i | 0 <= i < |b.tenantsToUndelete|
        ensures Restores(b)[i] == Restore(b.tenantsToUndelete[i].key, b.tenantsToUndelete[i].isGlobal) {}
    }
    assert forall x :: x in b.tenantsToUpdate ==> SetGlobal(x.key, x.isGlobal) in GlobalChanges(b) by {
      forall i | 0 <= i < |b.tenantsToUpdate|
        ensures GlobalChanges(b)[i] == SetGlobal(b.tenantsToUpdate[i].key, b.tenantsToUpdate[i].isGlobal) {}
    }
  }

  lemma CreationsKeepRows(t: Tables, b: Batches, now: Time, w: TenantWrite)
    requires w.Matches(t)
    ensures Creations(t, b, now).Some? ==> w.Matches(Creations(t, b, now).value)
  {
    if CreatePartners(t, b.partnersToCreate).Some? {
      var t1 := CreatePartners(t, b.partnersToCreate).value;
      assert w.Matches(t1);
      assert w.Matches(StampPartners(t1, b.partnersToDelete, Some(now)));
    }
  }

  // Every update targets an existing tenant of a managed partner, also once partners and tenants
  // have been created.
  lemma WritesTargetManagedRows(snap: Snapshot, listed: seq<Code>, fetch: Fetch, now: Time, w: TenantWrite)
    requires snap.Valid() && w in TenantWrites(BatchesFor(snap, listed, fetch))
    ensures w.Matches(snap.tables)
    ensures Creations(snap.tables, BatchesFor(snap, listed, fetch), now).Some? ==>
              w.Matches(Creations(snap.tables, BatchesFor(snap, listed, fetch), now).value)
  {
    assert w.Matches(snap.tables) by {
      TenantWriteMembers(BatchesFor(snap, listed, fetch), w);
      TenantBatchMembers(snap, listed, fetch, w.key, if w.Delete? then false else w.isGlobal);
    }
    CreationsKeepRows(snap.tables, BatchesFor(snap, listed, fetch), now, w);
  }

  lemma CreatedTenantsHaveAPartner(snap: Snapshot, listed: seq<Code>, fetch: Fetch, x: Upsert)
    requires snap.Valid() && x in BatchesFor(snap, listed, fetch).tenantsToCreate
    ensures x.key !in snap.tables.tenants
    ensures x.key.partnerId in snap.tables.partners
            || x.key.partnerId in PartnersToCreate(snap.tables, listed)
  {
    TenantBatchMembers(snap, listed, fetch, x.key, x.isGlobal);
    PartnerBatchMembers(snap, listed, x.key.partnerId);
  }

  lemma CreationsIff(t: Tables, b: Batches, now: Time)
    requires forall p :: p in b.partnersToCreate ==> p !in t.partners
    requires forall x :: x in b.tenantsToCreate ==>
               x.key !in t.tenants && (x.key.partnerId in t.partners || x.key.partnerId in b.partnersToCreate)
    ensures Creations(t, b, now).Some?
       <==> NoDuplicates(b.partnersToCreate) && NoDuplicates(KeysOf(b.tenantsToCreate))
  {
    if CreatePartners(t, b.partnersToCreate).Some? {
      var t1 := CreatePartners(t, b.partnersToCreate).value;
      var t3 := StampPartners(StampPartners(t1, b.partnersToDelete, Some(now)), b.partnersToUndelete, None);
      assert t3.partners.Keys == t1.partners.Keys;
    }
  }

  // The transaction fails only where user management lists something new twice.
  lemma CommitsIff(snap: Snapshot, listed: seq<Code>, fetch: Fetch, now: Time)
    requires snap.Valid()
    ensures var b := BatchesFor(snap, listed, fetch);
            Transaction(snap.tables, b, now).Some?
            <==> NoDuplicates(b.partnersToCreate) && NoDuplicates(KeysOf(b.tenantsToCreate))
  {
    var t, b := snap.tables, BatchesFor(snap, listed, fetch);
    forall p ensures p in b.partnersToCreate ==> p !in t.partners {
      PartnerBatchMembers(snap, listed, p);
    }
    forall x | x in b.tenantsToCreate
      ensures x.key !in t.tenants && (x.key.partnerId in t.partners || x.key.partnerId in b.partnersToCreate)
    {
      CreatedTenantsHaveAPartner(snap, listed, fetch, x);
    }
    CreationsIff(t, b, now);
    if Creations(t, b, now).Some? {
      var t1 := Creations(t, b, now).value;
      forall w | w in TenantWrites(b)
        ensures w.Matches(t1)
      {
        WritesTargetManagedRows(snap, listed, fetch, now, w);
      }
      WriteTenantsSucceeds(t1, TenantWrites(b), now);
    }
  }

  /* Answers without repeated codes */

  ghost predicate DistinctCodes(data: seq<UmTenant>) {
    forall i, j :: 0 <= i < j < |data| ==> data[i].tenantCode != data[j].tenantCode
  }

  ghost predicate UniqueAnswers(listed: seq<Code>, fetch: Fetch) {
    && NoDuplicates(listed)
    && forall p :: fetch(p).Answer? ==> DistinctCodes(fetch(p).data)
  }

  lemma {:induction false} FilterKeepsDistinct<T>(keep: T -> bool, s: seq<T>)
    requires NoDuplicates(s)
    ensures NoDuplicates(Filter(keep, s))
  {
    if s != [] {
      FilterKeepsDistinct(keep, s[..|s| - 1]);
      FilterMembers(keep, s[..|s| - 1], s[|s| - 1]);
    }
  }

  lemma DistinctConcat<T>(a: seq<T>, b: seq<T>)
    requires NoDuplicates(a) && NoDuplicates(b)
    requires forall x :: x in a ==> x !in b
    ensures NoDuplicates(a + b)
  {
    forall i, j | 0 <= i < |a| && 0 <= j < |b|
      ensures a[i] != b[j]
    {
      assert a[i] in a && b[j] in b;
    }
  }

  lemma KeysOfConcat(a: seq<Upsert>, b: seq<Upsert>)
    requires NoDuplicates(KeysOf(a)) && NoDuplicates(KeysOf(b))
    requires forall x, y :: x in a && y in b ==> x.key != y.key
    ensures NoDuplicates(KeysOf(a + b))
  {
    assert KeysOf(a + b) == KeysOf(a) + KeysOf(b);
    forall i, j | 0 <= i < |a| && 0 <= j < |b|
      ensures KeysOf(a)[i] != KeysOf(b)[j]
    {
      assert a[i] in a && b[j] in b;
    }
  }

  lemma {:induction false} UpsertKeysDistinct(t: Tables, p: Code, data: seq<UmTenant>, kind: Kind)
    requires DistinctCodes(data)
    ensures NoDuplicates(KeysOf(Upserts(t, p, data, kind)))
  {
    if data != [] {
      var last, front := data[|data| - 1], data[..|data| - 1];
      UpsertKeysDistinct(t, p, front, kind);
      forall x | x in Upserts(t, p, front, kind)
        ensures x.key != TenantKey(p, last.tenantCode)
      {
        UpsertsMembers(t, p, front, kind, x);
        var i :| 0 <= i < |front| && front[i] == UmTenant(x.key.code, x.isGlobal);
        assert data[i] == front[i];
      }
      if Classify(t, p, last) == kind {
        KeysOfConcat(Upserts(t, p, front, kind), [ToUpsert(p, last)]);
      } else {
        assert Upserts(t, p, data, kind) == Upserts(t, p, front, kind);
      }
    }
  }

  lemma {:induction false} AllUpsertKeysDistinct(t: Tables, ps: seq<Code>, fetch: Fetch, kind: Kind)
    requires NoDuplicates(ps)
    requires forall p :: fetch(p).Answer? ==> DistinctCodes(fetch(p).data)
    ensures NoDuplicates(KeysOf(AllUpserts(t, ps, fetch, kind)))
  {
    if ps != [] {
      var last, front := ps[|ps| - 1], ps[..|ps| - 1];
      AllUpsertKeysDistinct(t, front, fetch, kind);
      forall x | x in AllUpserts(t, front, fetch, kind)
        ensures x.key.partnerId != last
      {
        AllUpsertsMembers(t, front, fetch, kind, x);
      }
      if fetch(last).Answer? {
        UpsertKeysDistinct(t, last, fetch(last).data, kind);
        forall x | x in Upserts(t, last, fetch(last).data, kind)
          ensures x.key.partnerId == last
        {
          UpsertsMembers(t, last, fetch(last).data, kind, x);
        }
      }
      KeysOfConcat(AllUpserts(t, front, fetch, kind), UpsertsFor(t, last, fetch, kind));
    }
  }

  lemma UniqueAnswersCommit(snap: Snapshot, listed: seq<Code>, fetch: Fetch, now: Time)
    requires snap.Valid() && UniqueAnswers(listed, fetch)
    ensures Transaction(snap.tables, BatchesFor(snap, listed, fetch), now).Some?
  {
    var t := snap.tables;
    FilterKeepsDistinct((p: Code) => p !in t.partners, listed);
    FilterKeepsDistinct((p: Code) => IsKept(snap.tables, listed, p), snap.partnerIds);
    forall p | p in PartnersToKeep(snap, listed)
      ensures p !in PartnersToCreate(t, listed)
    {
      PartnerBatchMembers(snap, listed, p);
    }
    DistinctConcat(PartnersToKeep(snap, listed), PartnersToCreate(t, listed));
    AllUpsertKeysDistinct(t, PartnersForTenantSync(snap, listed), fetch, Create);
    CommitsIff(snap, listed, fetch, now);
  }

  // When an update batch writes a row.
  predicate WriteIsDue(t: Tables, plan: Plan, w: TenantWrite) {
    match w
    case Delete(k) => IsLive(t, k) && (plan.Doomed? || (plan.Mirror? && k.code !in UmCodes(plan.data)))
    case Restore(k, isGlobal) => plan.Mirror? && Lists(plan.data, k.code, isGlobal) && !IsLive(t, k)
    case SetGlobal(k, isGlobal) =>
      plan.Mirror? && Lists(plan.data, k.code, isGlobal) && IsLive(t, k) && t.tenants[k].isGlobal != isGlobal
  }

  lemma WritesAreDue(snap: Snapshot, listed: seq<Code>, fetch: Fetch, w: TenantWrite)
    requires snap.Valid() && w in TenantWrites(BatchesFor(snap, listed, fetch))
    ensures WriteIsDue(snap.tables, PlanFor(snap.tables, listed, fetch, w.key.partnerId), w)
  {
    TenantWriteMembers(BatchesFor(snap, listed, fetch), w);
    TenantBatchMembers(snap, listed, fetch, w.key, if w.Delete? then false else w.isGlobal);
  }

  lemma OneWriteIsDue(t: Tables, plan: Plan, v: TenantWrite, w: TenantWrite)
    requires WriteIsDue(t, plan, v) && WriteIsDue(t, plan, w) && v.key == w.key
    requires plan.Mirror? ==> DistinctCodes(plan.data)
    ensures v == w
  {
    if plan.Mirror? {
      NotBothGlobalAndLocal(plan.data, v.key.code);
    }
  }

  lemma SameRowSameWrite(snap: Snapshot, listed: seq<Code>, fetch: Fetch, v: TenantWrite, w: TenantWrite)
    requires snap.Valid() && UniqueAnswers(listed, fetch) && v.key == w.key
    requires v in TenantWrites(BatchesFor(snap, listed, fetch))
    requires w in TenantWrites(BatchesFor(snap, listed, fetch))
    ensures v == w
  {
    WritesAreDue(snap, listed, fetch, v);
    WritesAreDue(snap, listed, fetch, w);
    OneWriteIsDue(snap.tables, PlanFor(snap.tables, listed, fetch, v.key.partnerId), v, w);
  }

  // With unique codes, also each batch writes a row at most once.
  lemma RowsAreWrittenOnce(snap: Snapshot, listed: seq<Code>, fetch: Fetch)
    requires snap.Valid() && UniqueAnswers(listed, fetch)
    ensures OneWritePerRow(TenantWrites(BatchesFor(snap, listed, fetch)))
  {
    var ws := TenantWrites(BatchesFor(snap, listed, fetch));
    forall v, w | v in ws && w in ws && v.key == w.key
      ensures v == w
    {
      SameRowSameWrite(snap, listed, fetch, v, w);
    }
  }

  ghost predicate Touches(ups: seq<Upsert>, k: TenantKey) {
    exists isGlobal :: Upsert(k, isGlobal) in ups
  }

  // No tenant is in two of the tenant batches, and no partner in two of the partner batches.
  ghost predicate InOneBatch(b: Batches, k: TenantKey, p: Code) {
    && (Touches(b.tenantsToCreate, k) ==>
          k !in b.tenantsToDelete && !Touches(b.tenantsToUndelete, k) && !Touches(b.tenantsToUpdate, k))
    && (k in b.tenantsToDelete ==> !Touches(b.tenantsToUndelete, k) && !Touches(b.tenantsToUpdate, k))
    && (Touches(b.tenantsToUndelete, k) ==> !Touches(b.tenantsToUpdate, k))
    && (p in b.partnersToCreate ==> p !in b.partnersToDelete && p !in b.partnersToUndelete)
    && (p in b.partnersToDelete ==> p !in b.partnersToUndelete)
  }

  // The batches touch pairwise disjoint rows, whatever user management answers.
  lemma BatchesAreDisjoint(snap: Snapshot, listed: seq<Code>, fetch: Fetch, k: TenantKey, p: Code)
    requires snap.Valid()
    ensures InOneBatch(BatchesFor(snap, listed, fetch), k, p)
  {
    TenantBatchMembers(snap, listed, fetch, k, true);
    TenantBatchMembers(snap, listed, fetch, k, false);
    PartnerBatchMembers(snap, listed, p);
    var plan := PlanFor(snap.tables, listed, fetch, k.partnerId);
    if plan.Mirror? {
      ListedIsUmCode(plan.data, k.code);
    }
    BothValues(BatchesFor(snap, listed, fetch), k);
  }

  lemma ListedIsUmCode(data: seq<UmTenant>, code: Code)
    ensures Lists(data, code, true) || Lists(data, code, false) ==> code in UmCodes(data)
  {
    assert forall isGlobal :: UmTenant(code, isGlobal).tenantCode == code;
  }

  lemma BothValues(b: Batches, k: TenantKey)
    ensures Touches(b.tenantsToCreate, k) <==> Upsert(k, true) in b.tenantsToCreate || Upsert(k, false) in b.tenantsToCreate
    ensures Touches(b.tenantsToUndelete, k) <==> Upsert(k, true) in b.tenantsToUndelete || Upsert(k, false) in b.tenantsToUndelete
    ensures Touches(b.tenantsToUpdate, k) <==> Upsert(k, true) in b.tenantsToUpdate || Upsert(k, false) in b.tenantsToUpdate
  {
    TouchesIff(b.tenantsToCreate, k);
    TouchesIff(b.tenantsToUndelete, k);
    TouchesIff(b.tenantsToUpdate, k);
  }

  lemma TouchesIff(ups: seq<Upsert>, k: TenantKey)
    ensures Touches(ups, k) <==> Upsert(k, true) in ups || Upsert(k, false) in ups
  {
    if isGlobal: bool :| Upsert(k, isGlobal) in ups {
      assert isGlobal == true || isGlobal == false;
    }
  }

  /* The synced tables, row by row */

  // What a partner row becomes, given whether user management lists its code.
  function ExpectedPartner(before: Option<Partner>, isListed: bool, now: Time): Option<Partner> {
    match before
    case None => if isListed then Some(Partner(Some(UserManagementSync), None)) else None
    case Some(row) =>
      if !row.Managed() then before
      else if isListed then Some(row.(deletedOn := None))
      else if row.deletedOn.None? then Some(row.(deletedOn := Some(now)))
      else before
  }

  // What a tenant row becomes, given what is intended for its partner.
  function ExpectedTenant(before: Option<Tenant>, plan: Plan, code: Code, now: Time): Option<Tenant> {
    var buried := if before.Some? && before.value.deletedOn.None?
                  then Some(before.value.(deletedOn := Some(now))) else before;
    match plan
    case Untouched => before
    case Doomed => buried
    case Mirror(data) =>
      if Lists(data, code, true) then Some(Tenant(true, None))
      else if Lists(data, code, false) then Some(Tenant(false, None))
      else buried
  }

  lemma SyncedPartnerAt(snap: Snapshot, listed: seq<Code>, fetch: Fetch, now: Time, p: Code)
    requires snap.Valid() && UniqueAnswers(listed, fetch)
    ensures Get(Synced(snap, Answer(listed), fetch, now).partners, p)
            == ExpectedPartner(Get(snap.tables.partners, p), p in listed, now)
  {
    var b := BatchesFor(snap, listed, fetch);
    UniqueAnswersCommit(snap, listed, fetch, now);
    PartnerBatchMembers(snap, listed, p);
    var t1 := Creations(snap.tables, b, now).value;
    forall w | w in TenantWrites(b)
      ensures w.Matches(t1)
    {
      WritesTargetManagedRows(snap, listed, fetch, now, w);
    }
    WriteTenantsSucceeds(t1, TenantWrites(b), now);
  }

  // The rows that createMany adds, and those it keeps.
  lemma CreatedRow(t: Tables, ups: seq<Upsert>, k: TenantKey)
    requires CreateTenants(t, ups).Some?
    ensures Get(CreateTenants(t, ups).value.tenants, k) ==
            if Upsert(k, true) in ups then Some(Tenant(true, None))
            else if Upsert(k, false) in ups then Some(Tenant(false, None))
            else Get(t.tenants, k)
  {
    TouchesIff(ups, k);
    forall u | u in ups && u.key == k ensures Touches(ups, k) {
      assert u == Upsert(k, u.isGlobal);
    }
  }

  lemma CreatedTenantsAt(snap: Snapshot, listed: seq<Code>, fetch: Fetch, now: Time, k: TenantKey)
    requires snap.Valid() && UniqueAnswers(listed, fetch)
    ensures var b := BatchesFor(snap, listed, fetch);
            var created := Creations(snap.tables, b, now);
            created.Some? &&
            Get(created.value.tenants, k) ==
              if Upsert(k, true) in b.tenantsToCreate then Some(Tenant(true, None))
              else if Upsert(k, false) in b.tenantsToCreate then Some(Tenant(false, None))
              else Get(snap.tables.tenants, k)
  {
    UniqueAnswersCommit(snap, listed, fetch, now);
    CreatedAt(snap.tables, BatchesFor(snap, listed, fetch), now, k);
  }

  lemma CreatedAt(t: Tables, b: Batches, now: Time, k: TenantKey)
    requires Creations(t, b, now).Some?
    ensures Get(Creations(t, b, now).value.tenants, k) ==
            if Upsert(k, true) in b.tenantsToCreate then Some(Tenant(true, None))
            else if Upsert(k, false) in b.tenantsToCreate then Some(Tenant(false, None))
            else Get(t.tenants, k)
  {
    var t1 := CreatePartners(t, b.partnersToCreate).value;
    var t3 := StampPartners(StampPartners(t1, b.partnersToDelete, Some(now)), b.partnersToUndelete, None);
    CreatedRow(t3, b.tenantsToCreate, k);
  }

  lemma NotBothGlobalAndLocal(data: seq<UmTenant>, code: Code)
    requires DistinctCodes(data)
    ensures !(Lists(data, code, true) && Lists(data, code, false))
    ensures code in UmCodes(data) <==> Lists(data, code, true) || Lists(data, code, false)
  {
    if code in UmCodes(data) {
      var u :| u in data && u.tenantCode == code;
      assert u == UmTenant(code, u.isGlobal);
    }
  }

  lemma WrittenTenantAt(t: Tables, b: Batches, now: Time, k: TenantKey)
    requires AllMatch(t, TenantWrites(b)) && OneWritePerRow(TenantWrites(b))
    ensures var after := WriteTenants(t, TenantWrites(b), now);
            after.Some? && after.value.tenants.Keys == t.tenants.Keys
            && (k in t.tenants ==>
                  var row := t.tenants[k];
                  after.value.tenants[k] ==
                    if k in b.tenantsToDelete then row.(deletedOn := Some(now))
                    else if Upsert(k, true) in b.tenantsToUndelete then Tenant(true, None)
                    else if Upsert(k, false) in b.tenantsToUndelete then Tenant(false, None)
                    else if Upsert(k, true) in b.tenantsToUpdate then row.(isGlobal := true)
                    else if Upsert(k, false) in b.tenantsToUpdate then row.(isGlobal := false)
                    else row)
  {
    var ws := TenantWrites(b);
    WriteTenantsSucceeds(t, ws, now);
    if k in t.tenants {
      WriteTenantsAt(t, ws, now, k);
      TenantWriteMembers(b, Delete(k));
      TenantWriteMembers(b, Restore(k, true));
      TenantWriteMembers(b, Restore(k, false));
      TenantWriteMembers(b, SetGlobal(k, true));
      TenantWriteMembers(b, SetGlobal(k, false));
      if w :| w in ws && w.key == k {
        assert w == Delete(k) || w == Restore(k, true) || w == Restore(k, false)
            || w == SetGlobal(k, true) || w == SetGlobal(k, false);
      }
    }
  }

  lemma SyncedTenantAt(snap: Snapshot, listed: seq<Code>, fetch: Fetch, now: Time, k: TenantKey)
    requires snap.Valid() && UniqueAnswers(listed, fetch)
    ensures Get(Synced(snap, Answer(listed), fetch, now).tenants, k)
            == ExpectedTenant(Get(snap.tables.tenants, k), PlanFor(snap.tables, listed, fetch, k.partnerId), k.code, now)
  {
    var t, b := snap.tables, BatchesFor(snap, listed, fetch);
    var plan := PlanFor(t, listed, fetch, k.partnerId);
    if plan.Mirror? {
      NotBothGlobalAndLocal(plan.data, k.code);
    }
    CreatedTenantsAt(snap, listed, fetch, now, k);
    TenantBatchMembers(snap, listed, fetch, k, true);
    TenantBatchMembers(snap, listed, fetch, k, false);
    UniqueAnswersCommit(snap, listed, fetch, now);
    RowsAreWrittenOnce(snap, listed, fetch);
    var t1 := Creations(t, b, now).value;
    forall w | w in TenantWrites(b)
      ensures w.Matches(t1)
    {
      WritesTargetManagedRows(snap, listed, fetch, now, w);
    }
    WrittenTenantAt(t1, b, now, k);
  }

  /* Convergence */

  lemma Converges(snap: Snapshot, listed: seq<Code>, fetch: Fetch, now: Time)
    requires snap.Valid() && UniqueAnswers(listed, fetch)
    ensures var before, after := snap.tables, Synced(snap, Answer(listed), fetch, now);
            // every listed partner exists, and a managed one is live exactly when it is listed
            && (forall p :: p in listed ==> p in after.partners)
            && (forall p :: p in after.partners && after.partners[p].Managed() ==>
                  (after.partners[p].deletedOn.None? <==> p in listed))
            // the live tenants of a fetched partner are the ones in the answer, equally global
            && (forall k: TenantKey, isGlobal :: PlanFor(before, listed, fetch, k.partnerId).Mirror? ==>
                  (IsLive(after, k) && after.tenants[k].isGlobal == isGlobal
                   <==> Lists(fetch(k.partnerId).data, k.code, isGlobal)))
            // a partner deleted by this sync keeps no live tenant
            && (forall k: TenantKey :: IsDoomed(before, listed, k.partnerId) ==> !IsLive(after, k))
  {
    var before, after := snap.tables, Synced(snap, Answer(listed), fetch, now);
    forall p ensures p in listed ==> p in after.partners {
      SyncedPartnerAt(snap, listed, fetch, now, p);
    }
    forall p | p in after.partners && after.partners[p].Managed()
      ensures after.partners[p].deletedOn.None? <==> p in listed
    {
      SyncedPartnerAt(snap, listed, fetch, now, p);
    }
    forall k: TenantKey, isGlobal | PlanFor(before, listed, fetch, k.partnerId).Mirror?
      ensures IsLive(after, k) && after.tenants[k].isGlobal == isGlobal
         <==> Lists(fetch(k.partnerId).data, k.code, isGlobal)
    {
      SyncedTenantAt(snap, listed, fetch, now, k);
      NotBothGlobalAndLocal(fetch(k.partnerId).data, k.code);
      if !isGlobal { assert Lists(fetch(k.partnerId).data, k.code, isGlobal) ==> !Lists(fetch(k.partnerId).data, k.code, true); }
    }
    forall k: TenantKey | IsDoomed(before, listed, k.partnerId)
      ensures !IsLive(after, k)
    {
      SyncedTenantAt(snap, listed, fetch, now, k);
    }
  }

  lemma {:induction false} WriteTenantsKeeps(t: Tables, ws: seq<TenantWrite>, now: Time, k: TenantKey)
    requires forall w :: w in ws ==> w.key != k
    ensures var r := WriteTenants(t, ws, now);
            r.Some? ==> r.value.partners == t.partners && Get(r.value.tenants, k) == Get(t.tenants, k)
  {
    if ws != [] {
      assert ws == ws[..|ws| - 1] + [ws[|ws| - 1]];
      WriteTenantsKeeps(t, ws[..|ws| - 1], now, k);
    }
  }

  lemma {:induction false} WriteTenantsKeepsPartners(t: Tables, ws: seq<TenantWrite>, now: Time)
    ensures WriteTenants(t, ws, now).Some? ==> WriteTenants(t, ws, now).value.partners == t.partners
  {
    if ws != [] {
      WriteTenantsKeepsPartners(t, ws[..|ws| - 1], now);
    }
  }

  lemma CreationsKeep(t: Tables, b: Batches, now: Time, p: Code, k: TenantKey)
    requires Creations(t, b, now).Some?
    ensures p in t.partners && !t.partners[p].Managed() ==>
              Get(Creations(t, b, now).value.partners, p) == Some(t.partners[p])
    ensures !Touches(b.tenantsToCreate, k) ==> Get(Creations(t, b, now).value.tenants, k) == Get(t.tenants, k)
  {
    TouchesIff(b.tenantsToCreate, k);
    forall u | u in b.tenantsToCreate && u.key == k
      ensures Touches(b.tenantsToCreate, k)
    {
      assert u == Upsert(k, u.isGlobal);
    }
  }

  // A partner that is not managed, and a tenant whose partner is neither mirrored nor deleted, stay as
  // they are, whether or not the transaction commits.
  lemma UntouchedIsKept(snap: Snapshot, listed: seq<Code>, fetch: Fetch, now: Time, p: Code, k: TenantKey)
    requires snap.Valid()
    ensures var t, after := snap.tables, Synced(snap, Answer(listed), fetch, now);
            && (p in t.partners && !t.partners[p].Managed() ==> Get(after.partners, p) == Some(t.partners[p]))
            && (PlanFor(t, listed, fetch, k.partnerId).Untouched? ==> Get(after.tenants, k) == Get(t.tenants, k))
  {
    var t, b := snap.tables, BatchesFor(snap, listed, fetch);
    if Transaction(t, b, now).Some? {
      CreationsKeep(t, b, now, p, k);
      WriteTenantsKeepsPartners(Creations(t, b, now).value, TenantWrites(b), now);
      if PlanFor(t, listed, fetch, k.partnerId).Untouched? {
        UntouchedIsInNoBatch(snap, listed, fetch, k);
        WriteTenantsKeeps(Creations(t, b, now).value, TenantWrites(b), now, k);
      }
    }
  }

  lemma UntouchedIsInNoBatch(snap: Snapshot, listed: seq<Code>, fetch: Fetch, k: TenantKey)
    requires snap.Valid() && PlanFor(snap.tables, listed, fetch, k.partnerId).Untouched?
    ensures var b := BatchesFor(snap, listed, fetch);
            !Touches(b.tenantsToCreate, k) && forall w :: w in TenantWrites(b) ==> w.key != k
  {
    var b := BatchesFor(snap, listed, fetch);
    TenantBatchMembers(snap, listed, fetch, k, true);
    TenantBatchMembers(snap, listed, fetch, k, false);
    TouchesIff(b.tenantsToCreate, k);
    forall w | w in TenantWrites(b) ensures w.key != k {
      WritesAreDue(snap, listed, fetch, w);
    }
  }

  // What the sync leaves alone, whatever user management answers, if it answers: partners it does not
  // manage, all tenants of those, and the tenants of a surviving partner whose tenants could not be
  // fetched.  Without a list of partners it leaves everything alone; nobody is taken to be dropped.
  lemma LeavesTheRestAlone(snap: Snapshot, listing: Response<seq<Code>>, fetch: Fetch, now: Time, p: Code)
    requires snap.Valid() && p in snap.tables.partners
    ensures var before, after := snap.tables, Synced(snap, listing, fetch, now);
            && (listing.Unavailable? ==> after == before)
            && (!before.partners[p].Managed() ==> p in after.partners && after.partners[p] == before.partners[p])
            && (!before.partners[p].Managed()
                || (listing.Answer? && !IsDoomed(before, listing.data, p) && fetch(p).Unavailable?) ==>
                  forall c :: Get(after.tenants, TenantKey(p, c)) == Get(before.tenants, TenantKey(p, c)))
  {
    if listing.Answer? {
      AnswerLeavesTheRestAlone(snap, listing.data, fetch, now, p);
    }
  }

  lemma AnswerLeavesTheRestAlone(snap: Snapshot, listed: seq<Code>, fetch: Fetch, now: Time, p: Code)
    requires snap.Valid() && p in snap.tables.partners
    ensures var before, after := snap.tables, Synced(snap, Answer(listed), fetch, now);
            && (!before.partners[p].Managed() ==> p in after.partners && after.partners[p] == before.partners[p])
            && (!before.partners[p].Managed() || (!IsDoomed(before, listed, p) && fetch(p).Unavailable?) ==>
                  forall c :: Get(after.tenants, TenantKey(p, c)) == Get(before.tenants, TenantKey(p, c)))
  {
    UntouchedIsKept(snap, listed, fetch, now, p, TenantKey(p, ""));
    var before, after := snap.tables, Synced(snap, Answer(listed), fetch, now);
    if !before.partners[p].Managed() || (!IsDoomed(before, listed, p) && fetch(p).Unavailable?) {
      forall c ensures Get(after.tenants, TenantKey(p, c)) == Get(before.tenants, TenantKey(p, c)) {
        UntouchedIsKept(snap, listed, fetch, now, p, TenantKey(p, c));
      }
    }
  }

  /* A second sync against the same answers */

  // User management still answers with tenants for a partner it no longer lists, which this sync
  // deletes.  The next sync, seeing that partner already deleted, would bring its tenants back.
  ghost predicate AnswersForDoomed(t: Tables, listed: seq<Code>, fetch: Fetch) {
    exists p :: IsDoomed(t, listed, p) && fetch(p).Answer? && fetch(p).data != []
  }

  lemma SecondPlanAt(snap: Snapshot, listed: seq<Code>, fetch: Fetch, now: Time, p: Code)
    requires snap.Valid() && UniqueAnswers(listed, fetch)
    ensures var after := Synced(snap, Answer(listed), fetch, now);
            var plan := PlanFor(snap.tables, listed, fetch, p);
            PlanFor(after, listed, fetch, p) ==
              if plan.Doomed? then (if fetch(p).Answer? then Mirror(fetch(p).data) else Untouched) else plan
  {
    SyncedPartnerAt(snap, listed, fetch, now, p);
  }

  // No row is left to write for a tenant whose partner the first sync did not delete.
  lemma NothingLeftFor(snap: Snapshot, listed: seq<Code>, fetch: Fetch, now: Time, k: TenantKey, isGlobal: bool)
    requires snap.Valid() && UniqueAnswers(listed, fetch) && !AnswersForDoomed(snap.tables, listed, fetch)
    ensures var after := Synced(snap, Answer(listed), fetch, now);
            var plan := PlanFor(after, listed, fetch, k.partnerId);
            && !plan.Doomed?
            && (plan.Mirror? && Lists(plan.data, k.code, isGlobal) ==>
                  IsLive(after, k) && after.tenants[k].isGlobal == isGlobal)
            && (plan.Mirror? && k.code !in UmCodes(plan.data) ==> !IsLive(after, k))
  {
    SecondPlanAt(snap, listed, fetch, now, k.partnerId);
    SyncedTenantAt(snap, listed, fetch, now, k);
    if fetch(k.partnerId).Answer? {
      NotBothGlobalAndLocal(fetch(k.partnerId).data, k.code);
      if IsDoomed(snap.tables, listed, k.partnerId) {
        assert fetch(k.partnerId).data == [];
      }
    }
  }

  lemma NoBatchMembers(snap2: Snapshot, snap: Snapshot, listed: seq<Code>, fetch: Fetch, now: Time,
                       p: Code, k: TenantKey, isGlobal: bool)
    requires snap.Valid() && UniqueAnswers(listed, fetch) && !AnswersForDoomed(snap.tables, listed, fetch)
    requires snap2.Valid() && snap2.tables == Synced(snap, Answer(listed), fetch, now)
    ensures IsFree(BatchesFor(snap2, listed, fetch), p, k, isGlobal)
  {
    SyncedPartnerAt(snap, listed, fetch, now, p);
    PartnerBatchMembers(snap2, listed, p);
    NothingLeftFor(snap, listed, fetch, now, k, isGlobal);
    TenantBatchMembers(snap2, listed, fetch, k, isGlobal);
  }

  ghost predicate IsFree(b: Batches, p: Code, k: TenantKey, isGlobal: bool) {
    && p !in b.partnersToCreate && p !in b.partnersToDelete && p !in b.partnersToUndelete
    && Upsert(k, isGlobal) !in b.tenantsToCreate && Upsert(k, isGlobal) !in b.tenantsToUndelete
    && Upsert(k, isGlobal) !in b.tenantsToUpdate && k !in b.tenantsToDelete
  }

  lemma FreeOfAllIsEmpty(b: Batches)
    requires forall p, k, isGlobal :: IsFree(b, p, k, isGlobal)
    ensures b == NO_BATCHES
  {
    forall p ensures p !in b.partnersToCreate && p !in b.partnersToDelete && p !in b.partnersToUndelete {
      assert IsFree(b, p, TenantKey("", ""), true);
    }
    forall x: Upsert
      ensures x !in b.tenantsToCreate && x !in b.tenantsToUndelete && x !in b.tenantsToUpdate
      ensures x.key !in b.tenantsToDelete
    {
      assert IsFree(b, "", x.key, x.isGlobal);
    }
    assert b.tenantsToDelete == [] by {
      forall k: TenantKey ensures k !in b.tenantsToDelete { assert Upsert(k, true).key == k; }
      NonEmptyHasMember(b.tenantsToDelete);
    }
    NonEmptyHasMember(b.partnersToCreate);
    NonEmptyHasMember(b.partnersToDelete);
    NonEmptyHasMember(b.partnersToUndelete);
    NonEmptyHasMember(b.tenantsToCreate);
    NonEmptyHasMember(b.tenantsToUndelete);
    NonEmptyHasMember(b.tenantsToUpdate);
  }

  lemma NonEmptyHasMember<T(!new)>(s: seq<T>)
    ensures s != [] ==> exists x :: x in s
  {
    if s != [] { assert s[0] in s; }
  }

  lemma SecondSyncIsEmpty(snap: Snapshot, snap2: Snapshot, listed: seq<Code>, fetch: Fetch, now: Time)
    requires snap.Valid() && UniqueAnswers(listed, fetch) && !AnswersForDoomed(snap.tables, listed, fetch)
    requires snap2.Valid() && snap2.tables == Synced(snap, Answer(listed), fetch, now)
    ensures BatchesFor(snap2, listed, fetch) == NO_BATCHES
  {
    var b := BatchesFor(snap2, listed, fetch);
    forall p, k, isGlobal ensures IsFree(b, p, k, isGlobal) {
      NoBatchMembers(snap2, snap, listed, fetch, now, p, k, isGlobal);
    }
    FreeOfAllIsEmpty(b);
  }

  lemma DoomedThenMirrored(snap: Snapshot, listed: seq<Code>, fetch: Fetch, now: Time, k: TenantKey)
    requires snap.Valid() && UniqueAnswers(listed, fetch)
    requires IsDoomed(snap.tables, listed, k.partnerId) && fetch(k.partnerId).Answer?
    ensures var after := Synced(snap, Answer(listed), fetch, now);
            !IsLive(after, k) && PlanFor(after, listed, fetch, k.partnerId) == Mirror(fetch(k.partnerId).data)
  {
    SecondPlanAt(snap, listed, fetch, now, k.partnerId);
    SyncedTenantAt(snap, listed, fetch, now, k);
  }

  lemma SecondSyncRevives(snap: Snapshot, snap2: Snapshot, listed: seq<Code>, fetch: Fetch, now: Time, p: Code, u: UmTenant)
    requires snap.Valid() && UniqueAnswers(listed, fetch)
    requires snap2.Valid() && snap2.tables == Synced(snap, Answer(listed), fetch, now)
    requires IsDoomed(snap.tables, listed, p) && fetch(p).Answer? && u in fetch(p).data
    ensures var b, x := BatchesFor(snap2, listed, fetch), Upsert(TenantKey(p, u.tenantCode), u.isGlobal);
            x in b.tenantsToCreate || x in b.tenantsToUndelete
  {
    var k := TenantKey(p, u.tenantCode);
    assert u == UmTenant(k.code, u.isGlobal);
    DoomedThenMirrored(snap, listed, fetch, now, k);
    TenantBatchMembers(snap2, listed, fetch, k, u.isGlobal);
  }

  // The second sync finds nothing to do, and writes nothing, exactly when user management stays
  // silent about the partners the first one deleted.
  lemma SecondSyncIsSilentIff(snap: Snapshot, snap2: Snapshot, listed: seq<Code>, fetch: Fetch, now: Time, later: Time)
    requires snap.Valid() && UniqueAnswers(listed, fetch)
    requires snap2.Valid() && snap2.tables == Synced(snap, Answer(listed), fetch, now)
    ensures BatchesFor(snap2, listed, fetch) == NO_BATCHES <==> !AnswersForDoomed(snap.tables, listed, fetch)
    ensures !AnswersForDoomed(snap.tables, listed, fetch) ==>
              Synced(snap2, Answer(listed), fetch, later) == snap2.tables
  {
    var doomedAnswers := AnswersForDoomed(snap.tables, listed, fetch);
    var b := BatchesFor(snap2, listed, fetch);
    assert b == NO_BATCHES <==> !doomedAnswers by {
      if doomedAnswers {
        var p :| IsDoomed(snap.tables, listed, p) && fetch(p).Answer? && fetch(p).data != [];
        SecondSyncRevives(snap, snap2, listed, fetch, now, p, fetch(p).data[0]);
      } else {
        SecondSyncIsEmpty(snap, snap2, listed, fetch, now);
      }
    }
    EmptyTransaction(snap2.tables, later);
  }

  lemma EmptyTransaction(t: Tables, now: Time)
    ensures Transaction(t, NO_BATCHES, now) == Some(t)
  {
    assert CreatePartners(t, []).value.partners == t.partners;
    assert StampPartners(t, [], Some(now)).partners == t.partners;
    assert StampPartners(t, [], None).partners == t.partners;
    assert CreateTenants(t, []).value.tenants == t.tenants;
    assert TenantWrites(NO_BATCHES) == [];
  }

  // Two syncs after user management dropped a partner, the partner is deleted and yet every tenant
  // that user management still answers with for it is live.
  lemma DroppedPartnerComesBack(snap: Snapshot, snap2: Snapshot, listed: seq<Code>, fetch: Fetch, now: Time, later: Time,
                                p: Code, u: UmTenant)
    requires snap.Valid() && UniqueAnswers(listed, fetch)
    requires snap2.Valid() && snap2.tables == Synced(snap, Answer(listed), fetch, now)
    requires IsDoomed(snap.tables, listed, p) && fetch(p).Answer? && u in fetch(p).data
    ensures var after := Synced(snap2, Answer(listed), fetch, later);
            && p in after.partners && after.partners[p].deletedOn == Some(now)
            && IsLive(after, TenantKey(p, u.tenantCode))
  {
    assert u == UmTenant(u.tenantCode, u.isGlobal);
    SyncedPartnerAt(snap, listed, fetch, now, p);
    SecondPlanAt(snap, listed, fetch, now, p);
    SyncedPartnerAt(snap2, listed, fetch, later, p);
    SyncedTenantAt(snap2, listed, fetch, later, TenantKey(p, u.tenantCode));
  }

  // It happens: a managed partner without tenants is dropped, and then gets one.
  lemma DroppedPartnerHappens() returns (snap: Snapshot, fetch: Fetch, p: Code, u: UmTenant)
    ensures snap.Valid() && UniqueAnswers([], fetch)
    ensures IsDoomed(snap.tables, [], p) && fetch(p) == Answer([u])
    ensures AnswersForDoomed(snap.tables, [], fetch)
  {
    p, u := "partner", UmTenant("tenant", false);
    snap := Snapshot(Tables(map[p := Partner(Some(UserManagementSync), None)], map[]), [p], map[p := []]);
    var data := [u];
    fetch := (q: Code) => Answer(data);
    assert IsDoomed(snap.tables, [], p) && fetch(p).Answer? && fetch(p).data != [];
  }

  // It happens: a new partner is listed twice.
  lemma ListedTwiceAborts(p: Code, fetch: Fetch, now: Time)
    ensures var snap := Snapshot(Tables(map[], map[]), [], map[]);
            snap.Valid() && Transaction(snap.tables, BatchesFor(snap, [p, p], fetch), now) == None
            && Synced(snap, Answer([p, p]), fetch, now) == snap.tables
  {
    var t := Tables(map[], map[]);
    FilterKeepsAll((q: Code) => q !in t.partners, [p, p]);
    assert PartnersToCreate(t, [p, p]) == [p, p];
    assert [p, p][0] == [p, p][1];
  }

  lemma {:induction false} FilterKeepsAll<T>(keep: T -> bool, s: seq<T>)
    requires forall x :: x in s ==> keep(x)
    ensures Filter(keep, s) == s
  {
    if s != [] {
      FilterKeepsAll(keep, s[..|s| - 1]);
    }
  }
}
