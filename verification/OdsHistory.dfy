/**
  What versioned connections are for: seen from outside, an ODS configuration is one record that updates
  change in place.  The records are told from the events alone; the configurations and connections of
  `OdsConfigs` implement them.
 */
module OdsHistory {
  import opened Wrappers
  import opened OdsConfigs

  // A configuration with the connection that is used for it.
  datatype Standing = Standing(
    owner: Owner,
    credentials: Credentials,
    lastUseOn: Time,
    lastUseResult: AuthResult,
    retiredOn: Option<Time>,
    version: nat)   // how many updates have committed

  // An update that has found its configuration in some version; it is overtaken once another update that
  // has found the same version has committed.
  datatype Draft = Draft(id: ConfigId, version: nat, credentials: Credentials, overtaken: bool)

  datatype Records = Records(standings: seq<Standing>, drafts: seq<Option<Draft>>)

  const NO_RECORDS := Records([], [])

  predicate IsInUse(standings: seq<Standing>, id: ConfigId) {
    id < |standings| && standings[id].retiredOn.None?
  }

  predicate IsTaken(standings: seq<Standing>, owner: Owner) {
    exists id: ConfigId :: id < |standings| && IsInUse(standings, id) && standings[id].owner == owner
  }

  predicate SameVersion(a: Draft, b: Draft) {
    a.id == b.id && a.version == b.version
  }

  function Overtake(drafts: seq<Option<Draft>>, d: Draft): seq<Option<Draft>> {
    seq(|drafts|, i requires 0 <= i < |drafts| =>
      if drafts[i].Some? && SameVersion(drafts[i].value, d) then Some(drafts[i].value.(overtaken := true)) else drafts[i])
  }

  function Note(r: Records, e: Event): Records {
    match e
    case Create(owner, credentials, result, now) =>
      if IsTaken(r.standings, owner) then r
      else r.(standings := r.standings + [Standing(owner, credentials, now, result, None, 0)])
    case Read(id, credentials) =>
      if IsInUse(r.standings, id) then 
        r.(drafts := r.drafts + [Some(Draft(id, r.standings[id].version, credentials, false))])
      else r
    case Commit(k, result, now) =>
      if k < |r.drafts| && r.drafts[k].Some? && r.drafts[k].value.id < |r.standings| then
        var d := r.drafts[k].value;
        var before := r.standings[d.id];
        Records(
          r.standings[d.id := before.(credentials := d.credentials, lastUseOn := now, lastUseResult := result,
                                      version := before.version + 1)],
          Overtake(r.drafts[k := None], d))
      else r
    case UpdateStatus(id, result, now) =>
      if id < |r.standings| then
        r.(standings := r.standings[id := r.standings[id].(lastUseOn := now, lastUseResult := result)])
      else r
    case Retire(id, now) =>
      if id < |r.standings| then r.(standings := r.standings[id := r.standings[id].(retiredOn := Some(now))]) else r
  }

  function Noted(es: seq<Event>): Records {
    if es == [] then NO_RECORDS else Note(Noted(es[..|es| - 1]), es[|es| - 1])
  }

  /* The versions implement the records */

  // A configuration with its active connection, whose versions nobody sees.
  function StandingOf(db: Db, id: ConfigId, version: nat): Standing
    requires HasLiveConnection(db, id)
  {
    var connection := db.connections[db.configs[id].activeConnectionId.value];
    Standing(db.configs[id].owner, connection.credentials, connection.lastUseOn, connection.lastUseResult,
             db.configs[id].retiredOn, version)
  }

  predicate IsStandingOf(db: Db, id: ConfigId, x: Standing) {
    HasLiveConnection(db, id) && StandingOf(db, id, x.version) == x
  }

  ghost predicate StandingsAgree(s: State, r: Records) {
    && |r.standings| == |s.db.configs|
    && forall id: ConfigId :: id < |s.db.configs| ==> IsStandingOf(s.db, id, r.standings[id])
  }

  // A draft has read what is the active connection as long as it has the latest version; what it has
  // read is retired once it is overtaken.
  predicate DraftAgrees(s: State, r: Records, p: Pending, d: Draft) {
    && d.id == p.id && d.credentials == p.credentials
    && p.id < |s.db.configs| && p.id < |r.standings| && p.read < |s.db.connections|
    && s.db.connections[p.read].odsConfigId == p.id
    && d.version <= r.standings[d.id].version
    && (d.version == r.standings[d.id].version <==> s.db.configs[p.id].activeConnectionId == Some(p.read))
    && (d.overtaken <==> s.db.connections[p.read].Retired())
  }

  ghost predicate DraftsAgree(s: State, r: Records) {
    && |r.drafts| == |s.pending|
    && (forall k :: 0 <= k < |s.pending| ==>
          && (s.pending[k].Some? <==> r.drafts[k].Some?)
          && (s.pending[k].Some? ==> DraftAgrees(s, r, s.pending[k].value, r.drafts[k].value)))
    && (forall j, k :: 0 <= j < |s.pending| && 0 <= k < |s.pending| && s.pending[j].Some? && s.pending[k].Some? ==>
          (SameVersion(r.drafts[j].value, r.drafts[k].value) <==> s.pending[j].value.read == s.pending[k].value.read))
  }

  lemma TakenIff(s: State, r: Records, owner: Owner)
    requires StandingsAgree(s, r)
    ensures IsTaken(r.standings, owner) <==> HasActive(s.db, owner)
  {
    assert forall id: ConfigId :: id < |s.db.configs| ==> IsStandingOf(s.db, id, r.standings[id]);
    if HasActive(s.db, owner) {
      var i: ConfigId :| i < |s.db.configs| && s.db.configs[i].owner == owner && !s.db.configs[i].Retired();
      assert IsInUse(r.standings, i);
    }
  }

  predicate IsCommitOf(s: State, e: Event, q: Pending) {
    e.Commit? && e.k < |s.pending| && s.pending[e.k] == Some(q)
  }

  lemma CommitKeepsStandings(s: State, r: Records, e: Event, q: Pending)
    requires Inv(s) && StandingsAgree(s, r) && DraftsAgree(s, r) && IsCommitOf(s, e, q)
    ensures StandingsAgree(Next(s, e), Note(r, e))
  {
    var t := Next(s, e);
    NextKeepsInv(s, e);
    assert DraftAgrees(s, r, q, r.drafts[e.k].value);
    forall id: ConfigId | id < |s.db.configs| ensures IsStandingOf(t.db, id, Note(r, e).standings[id]) {
      assert IsStandingOf(s.db, id, r.standings[id]) && HasLiveConnection(t.db, id);
      if id != q.id {
        assert s.db.configs[id].activeConnectionId != Some(q.read);
      }
    }
  }

  lemma CommitKeepsDraft(s: State, r: Records, e: Event, q: Pending, k: nat)
    requires Inv(s) && StandingsAgree(s, r) && DraftsAgree(s, r) && IsCommitOf(s, e, q)
    requires k < |s.pending| && k != e.k && s.pending[k].Some?
    ensures k < |Note(r, e).drafts| && Note(r, e).drafts[k].Some?
    ensures DraftAgrees(Next(s, e), Note(r, e), s.pending[k].value, Note(r, e).drafts[k].value)
    ensures SameVersion(Note(r, e).drafts[k].value, r.drafts[k].value)
  {
    assert DraftAgrees(s, r, q, r.drafts[e.k].value);
    assert DraftAgrees(s, r, s.pending[k].value, r.drafts[k].value);
    assert SameVersion(r.drafts[k].value, r.drafts[e.k].value) <==> s.pending[k].value.read == q.read;
  }

  lemma CommitKeepsDrafts(s: State, r: Records, e: Event, q: Pending)
    requires Inv(s) && StandingsAgree(s, r) && DraftsAgree(s, r) && IsCommitOf(s, e, q)
    ensures DraftsAgree(Next(s, e), Note(r, e))
  {
    var t, r' := Next(s, e), Note(r, e);
    assert DraftAgrees(s, r, q, r.drafts[e.k].value);
    forall k: nat | k < |s.pending| && k != e.k && s.pending[k].Some?
      ensures r'.drafts[k].Some? && DraftAgrees(t, r', s.pending[k].value, r'.drafts[k].value)
      ensures SameVersion(r'.drafts[k].value, r.drafts[k].value)
    {
      CommitKeepsDraft(s, r, e, q, k);
    }
  }

  lemma OthersKeepStandings(s: State, r: Records, e: Event)
    requires Inv(s) && StandingsAgree(s, r) && !e.Commit?
    ensures StandingsAgree(Next(s, e), Note(r, e))
  {
    var t := Next(s, e);
    NextKeepsInv(s, e);
    if e.Create? {
      TakenIff(s, r, e.owner);
    }
    if e.UpdateStatus? && e.id < |s.db.configs| {
      assert HasLiveConnection(s.db, e.id);
    }
    forall id: ConfigId | id < |t.db.configs|
      ensures id < |Note(r, e).standings| && IsStandingOf(t.db, id, Note(r, e).standings[id])
    {
      assert HasLiveConnection(t.db, id);
      if id < |s.db.configs| {
        assert IsStandingOf(s.db, id, r.standings[id]);
      }
    }
  }

  lemma OthersKeepDrafts(s: State, r: Records, e: Event)
    requires Inv(s) && StandingsAgree(s, r) && DraftsAgree(s, r) && !e.Commit?
    ensures DraftsAgree(Next(s, e), Note(r, e))
  {
    if e.Create? {
      TakenIff(s, r, e.owner);
    } else if e.UpdateStatus? && e.id < |s.db.configs| {
      assert HasLiveConnection(s.db, e.id);
    } else if e.Read? && e.id < |s.db.configs| {
      assert IsStandingOf(s.db, e.id, r.standings[e.id]);
    }
  }

  lemma StepAgrees(s: State, r: Records, e: Event)
    requires Inv(s) && StandingsAgree(s, r) && DraftsAgree(s, r)
    ensures StandingsAgree(Next(s, e), Note(r, e)) && DraftsAgree(Next(s, e), Note(r, e))
  {
    if !e.Commit? {
      OthersKeepStandings(s, r, e);
      OthersKeepDrafts(s, r, e);
    } else if e.k < |s.pending| && s.pending[e.k].Some? {
      CommitKeepsStandings(s, r, e, s.pending[e.k].value);
      CommitKeepsDrafts(s, r, e, s.pending[e.k].value);
    }
  }

  // After every history, whatever interleaves: what a configuration and its active connection hold is
  // what its creation, the updates committed since and the recorded uses say.
  lemma {:induction false} VersionsImplementRecords(es: seq<Event>)
    ensures StandingsAgree(After(INITIAL, es), Noted(es)) && DraftsAgree(After(INITIAL, es), Noted(es))
  {
    if es != [] {
      var front, e := es[..|es| - 1], es[|es| - 1];
      VersionsImplementRecords(front);
      AfterKeepsInv(front);
      StepAgrees(After(INITIAL, front), Noted(front), e);
    }
  }

  // findOne finds exactly what has been created and not been retired.
  lemma FoundIff(es: seq<Event>, id: ConfigId)
    ensures var s := After(INITIAL, es);
            && (FindOne(s.db, id).Success? <==> IsInUse(Noted(es).standings, id))
            && (FindOne(s.db, id).Failure? ==> FindOne(s.db, id).error == NotFound)
            && (FindOne(s.db, id).Success? ==>
                  && HasLiveConnection(s.db, id)
                  && FindOne(s.db, id).value == s.db.configs[id].activeConnectionId.value)
  {
    VersionsImplementRecords(es);
    var s := After(INITIAL, es);
    if id < |s.db.configs| {
      assert IsStandingOf(s.db, id, Noted(es).standings[id]);
    }
  }

  predicate CommitsFor(r: Records, e: Event, id: ConfigId) {
    e.Commit? && e.k < |r.drafts| && r.drafts[e.k].Some? && r.drafts[e.k].value.id == id
  }

  // An update leaves a connection behind exactly when another one that had read the same version has
  // committed before it.
  lemma LeavesOneBehindIff(es: seq<Event>, e: Event, id: ConfigId)
    ensures IsStaleCommit(After(INITIAL, es), e, id)
       <==> CommitsFor(Noted(es), e, id) && Noted(es).drafts[e.k].value.overtaken
  {
    VersionsImplementRecords(es);
    var s := After(INITIAL, es);
    if e.Commit? && e.k < |s.pending| && s.pending[e.k].Some? {
      assert DraftAgrees(s, Noted(es), s.pending[e.k].value, Noted(es).drafts[e.k].value);
    }
  }

  // What a draft submits is what its update was called with.
  lemma {:induction false} DraftStays(es: seq<Event>, later: seq<Event>, k: nat)
    requires k < |Noted(es).drafts|
    ensures k < |Noted(es + later).drafts|
    ensures Noted(es + later).drafts[k].Some? ==>
              && Noted(es).drafts[k].Some?
              && Noted(es + later).drafts[k].value.id == Noted(es).drafts[k].value.id
              && Noted(es + later).drafts[k].value.credentials == Noted(es).drafts[k].value.credentials
  {
    if later == [] {
      assert es + later == es;
    } else {
      assert (es + later)[..|es + later| - 1] == es + later[..|later| - 1];
      DraftStays(es, later[..|later| - 1], k);
    }
  }

  predicate NoCommitSince(es: seq<Event>, later: seq<Event>, id: ConfigId) {
    later == []
    || (NoCommitSince(es, later[..|later| - 1], id)
        && !CommitsFor(Noted(es + later[..|later| - 1]), later[|later| - 1], id))
  }

  lemma CredentialsStayInStep(r: Records, e: Event, id: ConfigId)
    requires id < |r.standings| && !CommitsFor(r, e, id)
    ensures id < |Note(r, e).standings| && Note(r, e).standings[id].credentials == r.standings[id].credentials
  {
  }

  lemma {:induction false} CredentialsStay(es: seq<Event>, later: seq<Event>, id: ConfigId)
    requires id < |Noted(es).standings| && NoCommitSince(es, later, id)
    ensures id < |Noted(es + later).standings|
    ensures Noted(es + later).standings[id].credentials == Noted(es).standings[id].credentials
  {
    if later == [] {
      assert es + later == es;
    } else {
      var front := later[..|later| - 1];
      assert (es + later)[..|es + later| - 1] == es + front;
      CredentialsStay(es, front, id);
      CredentialsStayInStep(Noted(es + front), later[|later| - 1], id);
    }
  }

  // An update takes effect: from its commit until the next commit for the same configuration, the active
  // connection holds the credentials that its own read had been called with.
  lemma UpdateTakesEffect(before: seq<Event>, id: ConfigId, credentials: Credentials, between: seq<Event>, e: Event,
                          later: seq<Event>)
    requires IsInUse(Noted(before).standings, id)
    requires var read := before + [Read(id, credentials)];
             && e.Commit? && e.k == |Noted(before).drafts| && CommitsFor(Noted(read + between), e, id)
             && NoCommitSince(read + between + [e], later, id)
    ensures var s := After(INITIAL, before + [Read(id, credentials)] + between + [e] + later);
            HasLiveConnection(s.db, id) && StandingOf(s.db, id, 0).credentials == credentials
  {
    var read := before + [Read(id, credentials)];
    var committed := read + between + [e];
    assert read[..|before|] == before;
    assert committed[..|read + between|] == read + between;
    DraftStays(read, between, e.k);
    VersionsImplementRecords(read + between);
    AfterKeepsInv(read + between);
    assert IsSound(After(INITIAL, read + between).db, After(INITIAL, read + between).pending[e.k].value);
    assert Noted(committed).standings[id].credentials == credentials;
    CredentialsStay(committed, later, id);
    VersionsImplementRecords(committed + later);
  }

  /* Retired connections */

  // When a connection was last retired: at the last commit of an update that had read it.
  function RetiredOn(es: seq<Event>, c: ConnectionId): Option<Time> {
    if es == [] then None
    else
      var s, e := After(INITIAL, es[..|es| - 1]), es[|es| - 1];
      if e.Commit? && e.k < |s.pending| && s.pending[e.k].Some? && s.pending[e.k].value.read == c then Some(e.now)
      else RetiredOn(es[..|es| - 1], c)
  }

  lemma {:induction false} ConnectionsAreRetired(es: seq<Event>, c: ConnectionId)
    ensures var connections := After(INITIAL, es).db.connections;
            if c < |connections| then connections[c].retiredOn == RetiredOn(es, c) else RetiredOn(es, c).None?
  {
    if es != [] {
      var front, e := es[..|es| - 1], es[|es| - 1];
      var s := After(INITIAL, front);
      ConnectionsAreRetired(front, c);
      AfterKeepsInv(front);
      if e.Commit? && e.k < |s.pending| && s.pending[e.k].Some? {
        assert IsSound(s.db, s.pending[e.k].value);
      }
      assert |Next(s, e).db.connections| >= |s.db.connections|;
    }
  }
}
