/**
  Every interleaving of notifications, snapshots, discoveries, retries and prunes: only the newest
  refresh writes, a superseded one is invisible, and both tables always agree.
 */
module IdpRegistrationProperties {
  import opened Wrappers
  import opened IdpRegistrations

  function After(s: State, es: seq<Event>): State {
    if es == [] then s else Next(After(s, es[..|es| - 1]), es[|es| - 1])
  }

  /* What holds in every reachable state */

  // A registration and the strategy of the same IdP, made from the same eligible row.
  predicate Agree(reg: Registration, strategy: Strategy, id: IdpId) {
    && strategy.idp.id == id
    && Eligible(strategy.idp)
    && reg == Registration(id, strategy.idp.oidcConfig.value, strategy.client, strategy.idp.feHome)
  }

  ghost predicate TablesAgree(t: Tables) {
    && t.strategies.Keys == PassportKeys(t.registrations.Keys)
    && forall id :: id in t.registrations ==> Agree(t.registrations[id], t.strategies[PassportKey(id)], id)
  }

  predicate IsNewest(s: State, r: RefreshId) {
    s.current == Some(r)
  }

  // The newest refresh is the one that is not aborted.
  ghost predicate OneLiveRefresh(s: State) {
    && (s.refreshes == [] ==> s.current == None)
    && (s.refreshes != [] ==> IsNewest(s, |s.refreshes| - 1))
    && (forall r :: 0 <= r < |s.refreshes| ==> (s.refreshes[r].aborted <==> r != |s.refreshes| - 1))
  }

  // Discoveries and retries are about eligible rows, and retries are bounded.
  ghost predicate WellFormed(x: Refresh) {
    && (x.phase.Discovering? ==>
          forall id :: id in x.phase.pending ==> x.phase.pending[id].id == id && Eligible(x.phase.pending[id]))
    && (forall id :: id in x.retries ==>
          && x.retries[id].idp.id == id && Eligible(x.retries[id].idp)
          && 1 <= x.retries[id].retry <= MAX_RETRIES)
  }

  ghost predicate Inv(s: State) {
    && TablesAgree(s.tables)
    && OneLiveRefresh(s)
    && forall r :: 0 <= r < |s.refreshes| ==> WellFormed(s.refreshes[r])
  }

  lemma PassportKeysAreDistinct(a: IdpId, b: IdpId)
    ensures PassportKey(a) == PassportKey(b) ==> a == b
  {
    assert PassportKey(a)[|"portal-idp-"|..] == a;
    assert PassportKey(b)[|"portal-idp-"|..] == b;
  }

  lemma {:induction false} EligibleRowsAreTheRows(idps: seq<Idp>)
    requires DistinctIds(idps)
    ensures forall idp :: idp in idps && Eligible(idp) ==> Get(EligibleRows(idps), idp.id) == Some(idp)
    ensures forall id :: id in EligibleRows(idps) ==>
              var idp := EligibleRows(idps)[id]; idp in idps && Eligible(idp) && idp.id == id
  {
    if idps != [] {
      assert idps == idps[..|idps| - 1] + [idps[|idps| - 1]];
      EligibleRowsAreTheRows(idps[..|idps| - 1]);
    }
  }

  lemma ApplyKeepsTables(t: Tables, idp: Idp, client: Client)
    requires TablesAgree(t) && Eligible(idp)
    ensures TablesAgree(Apply(t, idp, client))
  {
    var t' := Apply(t, idp, client);
    assert t'.strategies.Keys == PassportKeys(t'.registrations.Keys);
    forall id | id in t'.registrations
      ensures Agree(t'.registrations[id], t'.strategies[PassportKey(id)], id)
    {
      PassportKeysAreDistinct(id, idp.id);
    }
  }

  lemma UnregisterKeepsTables(t: Tables, stale: set<IdpId>)
    requires TablesAgree(t)
    ensures TablesAgree(Unregister(t, stale))
  {
    var t' := Unregister(t, stale);
    forall id | id in t.registrations && id !in stale
      ensures PassportKey(id) !in PassportKeys(stale)
    {
      forall other | other in stale ensures PassportKey(other) != PassportKey(id) {
        PassportKeysAreDistinct(id, other);
      }
    }
    assert t'.strategies.Keys == PassportKeys(t'.registrations.Keys);
  }

  lemma WrittenKeepsTables(x: Refresh, t: Tables, e: Resumption)
    requires Due(x, e) && WellFormed(x) && TablesAgree(t)
    ensures TablesAgree(Written(x, t, e))
  {
    match e
    case Discovered(id, client) =>
      if client.Some? { ApplyKeepsTables(t, x.phase.pending[id], client.value); }
    case Retried(id, client) =>
      if client.Some? { ApplyKeepsTables(t, x.retries[id].idp, client.value); }
    case Prune => UnregisterKeepsTables(t, t.registrations.Keys - x.phase.valid);
    case _ =>
  }

  lemma ResumedIsWellFormed(x: Refresh, e: Resumption)
    requires Due(x, e) && WellFormed(x)
    ensures WellFormed(Resumed(x, e))
  {
    if e.Read? {
      EligibleRowsAreTheRows(e.idps);
    }
  }

  lemma NextKeepsInv(s: State, e: Event)
    requires Inv(s)
    ensures Inv(Next(s, e))
  {
    if Enabled(s, e) && e.Resume? {
      WrittenKeepsTables(s.refreshes[e.r], s.tables, e.with);
      ResumedIsWellFormed(s.refreshes[e.r], e.with);
    }
  }

  lemma {:induction false} AfterKeepsInv(s: State, es: seq<Event>)
    requires Inv(s)
    ensures Inv(After(s, es))
    ensures |s.refreshes| <= |After(s, es).refreshes|
  {
    if es != [] {
      AfterKeepsInv(s, es[..|es| - 1]);
      NextKeepsInv(After(s, es[..|es| - 1]), es[|es| - 1]);
    }
  }

  /* Logging in */

  datatype LoginError = PartnerClaimMissing | NoSinglePartner

  // The strategy callback's choice of partner, `claim` being the token's value of the partner claim.
  function ResolvePartner(idp: Idp, claim: Option<string>): Result<string, LoginError>
    requires idp.oidcConfig.Some?
  {
    if idp.oidcConfig.value.HasPartnerClaim() then
      if claim.Some? && claim.value != "" && claim.value in idp.partners then Success(claim.value)
      else Failure(PartnerClaimMissing)
    else if |idp.partners| == 1 then Success(idp.partners[0])
    else Failure(NoSinglePartner)
  }

  // A row is left out exactly when no login with it could ever be given a partner.
  lemma EligibleIffLoginIsPossible(idp: Idp)
    requires "" !in idp.partners
    ensures Eligible(idp) <==> idp.oidcConfig.Some? && exists claim :: ResolvePartner(idp, claim).Success?
  {
    if Eligible(idp) {
      assert idp.partners[0] in idp.partners;
      assert ResolvePartner(idp, Some(idp.partners[0])).Success?;
    }
  }

  // In every reachable state: Passport knows exactly the registered IdPs, with the same config and
  // client, and no login gets as far as an IdP with several partners and no partner claim.
  lemma LoginNeverMeetsAmbiguousPartner(es: seq<Event>, id: IdpId, claim: Option<string>)
    ensures var t := After(INITIAL, es).tables;
            && (id in t.registrations <==> PassportKey(id) in t.strategies)
            && (id in t.registrations ==>
                  var strategy := t.strategies[PassportKey(id)];
                  && Agree(t.registrations[id], strategy, id)
                  && ResolvePartner(strategy.idp, claim) != Failure(NoSinglePartner)
                  && (ResolvePartner(strategy.idp, claim).Success? ==>
                        ResolvePartner(strategy.idp, claim).value in strategy.idp.partners))
  {
    AfterKeepsInv(INITIAL, es);
    var t := After(INITIAL, es).tables;
    if PassportKey(id) in t.strategies {
      var other :| other in t.registrations && PassportKey(other) == PassportKey(id);
      PassportKeysAreDistinct(id, other);
    }
  }

  /* A superseded refresh is invisible */

  // In every reachable state, only steps of the newest refresh change a table.
  lemma OnlyNewestWrites(es: seq<Event>, e: Event)
    ensures var s := After(INITIAL, es);
            Next(s, e).tables != s.tables ==> e.Resume? && IsNewest(s, e.r)
  {
    AfterKeepsInv(INITIAL, es);
  }

  // And a step changes what is registered under an id only by a discovery of that id that succeeds, or
  // by a prune without such a first discovery.
  lemma OnlyItsDiscoveriesWrite(es: seq<Event>, e: Event, id: IdpId)
    ensures var s := After(INITIAL, es);
            Get(Next(s, e).tables.registrations, id) != Get(s.tables.registrations, id) ==>
              && e.Resume? && e.r < |s.refreshes|
              && match e.with
                 case Discovered(other, client) => other == id && client.Some?
                 case Retried(other, client) => other == id && client.Some?
                 case Prune => s.refreshes[e.r].phase.Discovering? && id !in s.refreshes[e.r].phase.valid
                 case _ => false
  {
    AfterKeepsInv(INITIAL, es);
    var s := After(INITIAL, es);
    if Enabled(s, e) && e.Resume? {
      var x := s.refreshes[e.r];
      assert WellFormed(x);
      if e.with.Discovered? { assert x.phase.pending[e.with.id].id == e.with.id; }
      if e.with.Retried? { assert x.retries[e.with.id].idp.id == e.with.id; }
    }
  }

  predicate Superseded(s: State, r: RefreshId) {
    r < |s.refreshes| && !IsNewest(s, r)
  }

  // A superseded refresh winds down: it starts no retry, and each of its retries ends at its next step.
  lemma SupersededWindsDown(es: seq<Event>, e: Resumption, r: RefreshId)
    requires Superseded(After(INITIAL, es), r) && Due(After(INITIAL, es).refreshes[r], e)
    ensures var before, after := After(INITIAL, es).refreshes[r], Next(After(INITIAL, es), Resume(r, e)).refreshes[r];
            && after.retries.Keys <= before.retries.Keys
            && (e.Woken? || e.Retried? ==> e.id !in after.retries)
            && (e.Discovered? ==> after.phase.Discovering? && after.phase.pending == before.phase.pending - {e.id})
  {
    AfterKeepsInv(INITIAL, es);
  }

  // Equal but for what the tasks of refresh r are waiting for.
  ghost predicate EqualButFor(s: State, t: State, r: RefreshId) {
    && s.tables == t.tables
    && s.current == t.current
    && |s.refreshes| == |t.refreshes|
    && forall i :: 0 <= i < |s.refreshes| && i != r ==> s.refreshes[i] == t.refreshes[i]
  }

  function Without(es: seq<Event>, r: RefreshId): seq<Event> {
    if es == [] then []
    else
      var front, last := Without(es[..|es| - 1], r), es[|es| - 1];
      if last.Resume? && last.r == r then front else front + [last]
  }

  lemma SupersededStaysSo(s: State, es: seq<Event>, r: RefreshId)
    requires Inv(s) && Superseded(s, r)
    ensures Superseded(After(s, es), r)
  {
    AfterKeepsInv(s, es);
    if es != [] {
      AfterKeepsInv(s, es[..|es| - 1]);
      SupersededStaysSo(s, es[..|es| - 1], r);
    }
  }

  lemma OtherStepsAgree(s: State, t: State, e: Event, r: RefreshId)
    requires Inv(s) && Inv(t) && Superseded(s, r) && EqualButFor(s, t, r) && !(e.Resume? && e.r == r)
    ensures EqualButFor(Next(s, e), Next(t, e), r)
  {
  }

  // Once refresh r is superseded, everything else goes as if none of its tasks ever resumed: nothing
  // it does adds, overwrites or prunes a registration, whatever else happens.
  lemma {:induction false} SupersededRefreshIsInvisible(s: State, es: seq<Event>, r: RefreshId)
    requires Inv(s) && Superseded(s, r)
    ensures EqualButFor(After(s, es), After(s, Without(es, r)), r)
  {
    if es != [] {
      var front, last := es[..|es| - 1], es[|es| - 1];
      SupersededRefreshIsInvisible(s, front, r);
      AfterKeepsInv(s, front);
      AfterKeepsInv(s, Without(front, r));
      SupersededStaysSo(s, front, r);
      if !(last.Resume? && last.r == r) {
        OtherStepsAgree(After(s, front), After(s, Without(front, r)), last, r);
        assert Without(es, r)[..|Without(es, r)| - 1] == Without(front, r);
      }
    }
  }
}
