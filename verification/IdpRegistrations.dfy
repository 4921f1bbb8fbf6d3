/**
  OIDC registrations of the identity-provider service: overlapping refreshes, concurrent discoveries,
  background retries and pruning, all writing one registration table and one Passport strategy table.

  Between two awaits the service runs without interruption, so each resumption of a suspended
  activation is one atomic step.  `Next` gives the steps on values; the class takes them on fields.
 */
module IdpRegistrations {
  import opened Wrappers

  type IdpId = string
  type Client = nat      // an OIDC client, as handed out by issuer discovery
  type RefreshId = nat

  datatype OidcConfig = OidcConfig(issuer: string, clientId: string, partnerClaim: Option<string>) {
    // An empty claim name counts as none.
    predicate HasPartnerClaim() { partnerClaim.Some? && partnerClaim.value != "" }
  }
  datatype Idp = Idp(id: IdpId, feHome: string, oidcConfig: Option<OidcConfig>, partners: seq<string>)

  datatype Registration = Registration(id: IdpId, config: OidcConfig, client: Client, feHome: string)
  // A Passport strategy closes over the client and the row it was registered from.
  datatype Strategy = Strategy(client: Client, idp: Idp)
  datatype Tables = Tables(registrations: map<IdpId, Registration>, strategies: map<string, Strategy>)

  const MAX_RETRIES := 10

  function PassportKey(id: IdpId): string {
    "portal-idp-" + id
  }

  function PassportKeys(ids: set<IdpId>): (keys: set<string>) {
    set id | id in ids :: PassportKey(id)
  }

  // Which rows refreshRegistrations tries to register.
  predicate Eligible(idp: Idp) {
    && idp.oidcConfig.Some?
    && |idp.partners| > 0
    && !(|idp.partners| > 1 && !idp.oidcConfig.value.HasPartnerClaim())
  }

  predicate DistinctIds(idps: seq<Idp>) {
    forall i, j :: 0 <= i < j < |idps| ==> idps[i].id != idps[j].id
  }

  // A refresh waiting for its snapshot, waiting for its first discoveries, or over.
  datatype Phase =
    | Reading
    | Discovering(pending: map<IdpId, Idp>, valid: set<IdpId>)
    | Over
  // A background retry: sleeping before attempt number `retry`, or waiting for its answer.
  datatype Retry = Retry(idp: Idp, retry: nat, asleep: bool)
  // One call of refreshRegistrations, with the retries it has left behind.
  datatype Refresh = Refresh(aborted: bool, phase: Phase, retries: map<IdpId, Retry>)

  datatype State = State(tables: Tables, current: Option<RefreshId>, refreshes: seq<Refresh>)

  const INITIAL := State(Tables(map[], map[]), None, [])

  // What a suspended activation of a refresh can be resumed with.
  datatype Resumption =
    | Read(idps: seq<Idp>)
    | ReadFailed
    | Discovered(id: IdpId, client: Option<Client>)
    | Woken(id: IdpId)
    | Retried(id: IdpId, client: Option<Client>)
    | Prune

  datatype Event = Boot | Notify | Resume(r: RefreshId, with: Resumption)

  predicate Due(x: Refresh, e: Resumption) {
    match e
    case Read(idps) => x.phase.Reading? && DistinctIds(idps)
    case ReadFailed => x.phase.Reading?
    case Discovered(id, _) => x.phase.Discovering? && id in x.phase.pending
    case Woken(id) => id in x.retries && x.retries[id].asleep
    case Retried(id, _) => id in x.retries && !x.retries[id].asleep
    case Prune => x.phase.Discovering? && x.phase.pending == map[]
  }

  predicate Enabled(s: State, e: Event) {
    match e
    case Boot => s.refreshes == []
    case Notify => true
    case Resume(r, with) => r < |s.refreshes| && Due(s.refreshes[r], with)
  }

  /* The steps */

  function EligibleRows(idps: seq<Idp>): (rows: map<IdpId, Idp>) {
    if idps == [] then map[]
    else
      var rows, last := EligibleRows(idps[..|idps| - 1]), idps[|idps| - 1];
      if Eligible(last) then rows[last.id := last] else rows
  }

  function Apply(t: Tables, idp: Idp, client: Client): Tables {
    if idp.oidcConfig.Some? then
      Tables(t.registrations[idp.id := Registration(idp.id, idp.oidcConfig.value, client, idp.feHome)],
             t.strategies[PassportKey(idp.id) := Strategy(client, idp)])
    else t
  }

  function Unregister(t: Tables, stale: set<IdpId>): Tables {
    Tables(t.registrations - stale, t.strategies - PassportKeys(stale))
  }

  lemma UnregisterOneMore(t: Tables, stale: set<IdpId>, id: IdpId)
    ensures Unregister(t, stale + {id}) ==
            Tables(Unregister(t, stale).registrations - {id}, Unregister(t, stale).strategies - {PassportKey(id)})
  {
    assert PassportKeys(stale + {id}) == PassportKeys(stale) + {PassportKey(id)};
    assert t.registrations - (stale + {id}) == t.registrations - stale - {id};
    assert t.strategies - PassportKeys(stale + {id}) == t.strategies - PassportKeys(stale) - {PassportKey(id)};
  }

  // What a resumption makes of its refresh ...
  function Resumed(x: Refresh, e: Resumption): Refresh
    requires Due(x, e)
  {
    match e
    case Read(idps) => x.(phase := Discovering(EligibleRows(idps), {}))
    case ReadFailed => x.(phase := Over)
    case Discovered(id, client) =>
      var settled := x.phase.(pending := x.phase.pending - {id});
      if x.aborted then x.(phase := settled)
      else if client.Some? then x.(phase := settled.(valid := x.phase.valid + {id}))
      else x.(phase := settled, retries := x.retries[id := Retry(x.phase.pending[id], 1, true)])
    case Woken(id) =>
      if x.aborted then x.(retries := x.retries - {id})
      else x.(retries := x.retries[id := x.retries[id].(asleep := false)])
    case Retried(id, client) =>
      var retry := x.retries[id].retry;
      if x.aborted || client.Some? || retry >= MAX_RETRIES then x.(retries := x.retries - {id})
      else x.(retries := x.retries[id := Retry(x.retries[id].idp, retry + 1, true)])
    case Prune => x.(phase := Over)
  }

  // ... and of the two tables.
  function Written(x: Refresh, t: Tables, e: Resumption): Tables
    requires Due(x, e)
  {
    if x.aborted then t
    else
      match e
      case Discovered(id, client) => if client.Some? then Apply(t, x.phase.pending[id], client.value) else t
      case Retried(id, client) => if client.Some? then Apply(t, x.retries[id].idp, client.value) else t
      case Prune => Unregister(t, t.registrations.Keys - x.phase.valid)
      case _ => t
  }

  const NEW_REFRESH := Refresh(false, Reading, map[])

  function StartRefresh(s: State): State {
    s.(current := Some(|s.refreshes|), refreshes := s.refreshes + [NEW_REFRESH])
  }

  function AbortCurrent(s: State): State {
    if s.current.Some? && s.current.value < |s.refreshes| then
      s.(refreshes := s.refreshes[s.current.value := s.refreshes[s.current.value].(aborted := true)])
    else s
  }

  // A resumption that is not due changes nothing.
  function Next(s: State, e: Event): State {
    if !Enabled(s, e) then s
    else
      match e
      case Boot => StartRefresh(s)
      case Notify => StartRefresh(AbortCurrent(s))
      case Resume(r, with) =>
        s.(tables := Written(s.refreshes[r], s.tables, with),
           refreshes := s.refreshes[r := Resumed(s.refreshes[r], with)])
  }

  /* The service */

  class IdentityProviderService {
    var idpRegistrations: map<IdpId, Registration>
    var strategies: map<string, Strategy>
    var refreshAbortController: Option<RefreshId>
    // The suspended activations of refreshRegistrations and retryRegistration.
    var refreshes: seq<Refresh>

    constructor ()
      ensures View() == INITIAL
    {
      idpRegistrations, strategies, refreshAbortController, refreshes := map[], map[], None, [];
    }

    function View(): State
      reads this
    {
      State(Tables(idpRegistrations, strategies), refreshAbortController, refreshes)
    }

    method OnApplicationBootstrap()
      requires Enabled(View(), Boot)
      modifies this
      ensures View() == Next(old(View()), Boot)
    {
      refreshAbortController := Some(|refreshes|);
      refreshes := refreshes + [NEW_REFRESH];
    }

    method OnNotification()
      modifies this
      ensures View() == Next(old(View()), Notify)
    {
      if refreshAbortController.Some? && refreshAbortController.value < |refreshes| {
        var r := refreshAbortController.value;
        refreshes := refreshes[r := refreshes[r].(aborted := true)];
      }
      refreshAbortController := Some(|refreshes|);
      refreshes := refreshes + [NEW_REFRESH];
    }

    // refreshRegistrations, from the arrival of its snapshot to Promise.allSettled.
    method SnapshotRead(r: RefreshId, idps: seq<Idp>)
      requires Enabled(View(), Resume(r, Read(idps)))
      modifies this
      ensures View() == Next(old(View()), Resume(r, Read(idps)))
    {
      var pending: map<IdpId, Idp> := map[];
      for i := 0 to |idps|
        invariant pending == EligibleRows(idps[..i])
      {
        var idp := idps[i];
        assert idps[..i + 1][..i] == idps[..i];
        if idp.oidcConfig.Some? && |idp.partners| > 0 {
          if |idp.partners| > 1 && !idp.oidcConfig.value.HasPartnerClaim() {
            // misconfigured: logged, not registered
          } else {
            pending := pending[idp.id := idp];
          }
        }
      }
      assert idps[..|idps|] == idps;
      refreshes := refreshes[r := refreshes[r].(phase := Discovering(pending, {}))];
    }

    method SnapshotFailed(r: RefreshId)
      requires Enabled(View(), Resume(r, ReadFailed))
      modifies this
      ensures View() == Next(old(View()), Resume(r, ReadFailed))
    {
      refreshes := refreshes[r := refreshes[r].(phase := Over)];
    }

    method ApplyIdpRegistration(idp: Idp, client: Client)
      modifies this`idpRegistrations, this`strategies
      ensures Tables(idpRegistrations, strategies) == Apply(old(View()).tables, idp, client)
    {
      if idp.oidcConfig.Some? {
        idpRegistrations := idpRegistrations[idp.id := Registration(idp.id, idp.oidcConfig.value, client, idp.feHome)];
        strategies := strategies[PassportKey(idp.id) := Strategy(client, idp)];
      }
    }

    // registerOidcIdp after its awaited discovery, and the bookkeeping of its caller.
    method DiscoverySettled(r: RefreshId, id: IdpId, client: Option<Client>)
      requires Enabled(View(), Resume(r, Discovered(id, client)))
      modifies this
      ensures View() == Next(old(View()), Resume(r, Discovered(id, client)))
    {
      var x := refreshes[r];
      var idp := x.phase.pending[id];
      x := x.(phase := x.phase.(pending := x.phase.pending - {id}));
      if !x.aborted {
        if client.Some? {
          ApplyIdpRegistration(idp, client.value);
          x := x.(phase := x.phase.(valid := x.phase.valid + {id}));
        } else {
          x := x.(retries := x.retries[id := Retry(idp, 1, true)]);
        }
      }
      refreshes := refreshes[r := x];
    }

    // retryRegistration after its sleep.
    method RetryWoken(r: RefreshId, id: IdpId)
      requires Enabled(View(), Resume(r, Woken(id)))
      modifies this
      ensures View() == Next(old(View()), Resume(r, Woken(id)))
    {
      var x := refreshes[r];
      if x.aborted {
        x := x.(retries := x.retries - {id});
      } else {
        x := x.(retries := x.retries[id := x.retries[id].(asleep := false)]);
      }
      refreshes := refreshes[r := x];
    }

    // retryRegistration after its awaited discovery.
    method RetrySettled(r: RefreshId, id: IdpId, client: Option<Client>)
      requires Enabled(View(), Resume(r, Retried(id, client)))
      modifies this
      ensures View() == Next(old(View()), Resume(r, Retried(id, client)))
    {
      var x := refreshes[r];
      var task := x.retries[id];
      if !x.aborted && client.Some? {
        ApplyIdpRegistration(task.idp, client.value);
      }
      if !x.aborted && client.None? && task.retry + 1 <= MAX_RETRIES {
        x := x.(retries := x.retries[id := Retry(task.idp, task.retry + 1, true)]);
      } else {
        x := x.(retries := x.retries - {id});
      }
      refreshes := refreshes[r := x];
    }

    // refreshRegistrations after Promise.allSettled.
    method FinishRefresh(r: RefreshId)
      requires Enabled(View(), Resume(r, Prune))
      modifies this
      ensures View() == Next(old(View()), Resume(r, Prune))
    {
      var x := refreshes[r];
      refreshes := refreshes[r := x.(phase := Over)];
      if x.aborted {
        return;
      }
      ghost var before := old(View()).tables;
      var todo := idpRegistrations.Keys;
      while todo != {}
        modifies this`idpRegistrations, this`strategies
        invariant todo <= before.registrations.Keys
        invariant Tables(idpRegistrations, strategies)
                  == Unregister(before, before.registrations.Keys - todo - x.phase.valid)
      {
        var existingId :| existingId in todo;
        ghost var done := before.registrations.Keys - todo - x.phase.valid;
        todo := todo - {existingId};
        if existingId !in x.phase.valid {
          UnregisterOneMore(before, done, existingId);
          strategies := strategies - {PassportKey(existingId)};
          idpRegistrations := idpRegistrations - {existingId};
          assert before.registrations.Keys - todo - x.phase.valid == done + {existingId};
        } else {
          assert before.registrations.Keys - todo - x.phase.valid == done;
        }
      }
      assert before.registrations.Keys - todo - x.phase.valid == before.registrations.Keys - x.phase.valid;
    }
  }
}
