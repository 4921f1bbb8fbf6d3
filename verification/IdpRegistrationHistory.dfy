/**
  What the newest refresh has registered, read off the history of events: its first discoveries until
  it prunes, and its background retries from then on.
 */
module IdpRegistrationHistory {
  import opened Wrappers
  import opened IdpRegistrations
  import opened IdpRegistrationProperties

  // Histories in which an activation is only resumed when it is waiting for just that.
  predicate Legal(es: seq<Event>) {
    es == [] || (Legal(es[..|es| - 1]) && Enabled(After(INITIAL, es[..|es| - 1]), es[|es| - 1]))
  }

  ghost predicate FirstSucceeded(es: seq<Event>, r: RefreshId, id: IdpId) {
    exists c :: Resume(r, Discovered(id, Some(c))) in es
  }

  ghost predicate RetrySucceeded(es: seq<Event>, r: RefreshId, id: IdpId) {
    exists c :: Resume(r, Retried(id, Some(c))) in es
  }

  function Registered(idp: Idp, c: Client): Registration
    requires idp.oidcConfig.Some?
  {
    Registration(idp.id, idp.oidcConfig.value, c, idp.feHome)
  }

  // What `es` tells about an IdP of a refresh whose record is x: it is in one place at a time, its
  // first discovery pending or successful, its retry waiting or successful.
  ghost predicate InOnePlace(es: seq<Event>, x: Refresh, r: RefreshId, id: IdpId) {
    var first, retried := FirstSucceeded(es, r, id), RetrySucceeded(es, r, id);
    && (x.phase.Reading? ==> !first && !retried && id !in x.retries)
    && (x.phase.Discovering? && id in x.phase.pending ==> !first && !retried && id !in x.retries)
    && (first ==> !retried && id !in x.retries)
    && (retried ==> id !in x.retries)
    && (x.phase.Discovering? ==> (id in x.phase.valid <==> first))
  }

  // The row that a refresh read for an IdP.
  ghost predicate ReadRow(es: seq<Event>, r: RefreshId, idp: Idp) {
    Eligible(idp) && exists idps :: Resume(r, Read(idps)) in es && idp in idps
  }

  ghost predicate RowsWereRead(es: seq<Event>, x: Refresh, r: RefreshId, id: IdpId) {
    && (x.phase.Discovering? && id in x.phase.pending ==> ReadRow(es, r, x.phase.pending[id]))
    && (id in x.retries ==> ReadRow(es, r, x.retries[id].idp))
  }

  // Until it prunes, the newest refresh has registered each of its first successes from its own row.
  ghost predicate FirstsAreRegistered(es: seq<Event>, t: Tables, r: RefreshId, id: IdpId) {
    forall c :: Resume(r, Discovered(id, Some(c))) in es ==>
      exists idp: Idp :: idp.id == id && ReadRow(es, r, idp) && Get(t.registrations, id) == Some(Registered(idp, c))
  }

  lemma {:induction false} NoEventsFromTheFuture(es: seq<Event>, r: RefreshId)
    requires Legal(es) && |After(INITIAL, es).refreshes| <= r
    ensures forall with :: Resume(r, with) !in es
  {
    if es != [] {
      assert es == es[..|es| - 1] + [es[|es| - 1]];
      NoEventsFromTheFuture(es[..|es| - 1], r);
    }
  }

  // The history grows by e; nothing else about (r, id) is recorded unless e is about it.
  lemma Recorded(es: seq<Event>, e: Event, r: RefreshId, id: IdpId)
    ensures FirstSucceeded(es + [e], r, id) <==>
              FirstSucceeded(es, r, id)
              || (e.Resume? && e.r == r && e.with.Discovered? && e.with.id == id && e.with.client.Some?)
    ensures RetrySucceeded(es + [e], r, id) <==>
              RetrySucceeded(es, r, id)
              || (e.Resume? && e.r == r && e.with.Retried? && e.with.id == id && e.with.client.Some?)
    ensures forall idp :: ReadRow(es, r, idp) ==> ReadRow(es + [e], r, idp)
  {
    assert e in es + [e];
    if e.Resume? && e.with.Discovered? && e.with.client.Some? {
      assert e == Resume(e.r, Discovered(e.with.id, Some(e.with.client.value)));
    }
    if e.Resume? && e.with.Retried? && e.with.client.Some? {
      assert e == Resume(e.r, Retried(e.with.id, Some(e.with.client.value)));
    }
    if c :| Resume(r, Discovered(id, Some(c))) in es { assert Resume(r, Discovered(id, Some(c))) in es + [e]; }
    if c :| Resume(r, Retried(id, Some(c))) in es { assert Resume(r, Retried(id, Some(c))) in es + [e]; }
    forall idp | ReadRow(es, r, idp) ensures ReadRow(es + [e], r, idp) {
      var idps :| Resume(r, Read(idps)) in es && idp in idps;
      assert Resume(r, Read(idps)) in es + [e];
    }
  }

  lemma ResumedKeepsPlace(es: seq<Event>, x: Refresh, r: RefreshId, e: Resumption, id: IdpId)
    requires Due(x, e) && !x.aborted && InOnePlace(es, x, r, id)
    ensures InOnePlace(es + [Resume(r, e)], Resumed(x, e), r, id)
  {
    Recorded(es, Resume(r, e), r, id);
  }

  lemma ResumedKeepsRows(es: seq<Event>, x: Refresh, r: RefreshId, e: Resumption, id: IdpId)
    requires Due(x, e) && !x.aborted && RowsWereRead(es, x, r, id)
    ensures RowsWereRead(es + [Resume(r, e)], Resumed(x, e), r, id)
  {
    Recorded(es, Resume(r, e), r, id);
    if e.Read? {
      EligibleRowsAreTheRows(e.idps);
      assert Resume(r, e) in es + [Resume(r, e)];
    }
  }

  lemma WrittenKeepsFirsts(es: seq<Event>, x: Refresh, t: Tables, r: RefreshId, e: Resumption, id: IdpId)
    requires Due(x, e) && !x.aborted && WellFormed(x) && InOnePlace(es, x, r, id) && RowsWereRead(es, x, r, id)
    requires FirstsAreRegistered(es, t, r, id) && (e.Prune? ==> x.phase.Discovering?)
    ensures FirstsAreRegistered(es + [Resume(r, e)], Written(x, t, e), r, id)
  {
    var es', t' := es + [Resume(r, e)], Written(x, t, e);
    Recorded(es, Resume(r, e), r, id);
    forall c | Resume(r, Discovered(id, Some(c))) in es'
      ensures exists idp: Idp :: idp.id == id && ReadRow(es', r, idp) && Get(t'.registrations, id) == Some(Registered(idp, c))
    {
      if e == Discovered(id, Some(c)) {
        assert ReadRow(es', r, x.phase.pending[id]);
      } else {
        var idp: Idp :| idp.id == id && ReadRow(es, r, idp) && Get(t.registrations, id) == Some(Registered(idp, c));
        assert ReadRow(es', r, idp);
        assert FirstSucceeded(es, r, id);
      }
    }
  }

  // What holds of the newest refresh after a history.
  ghost predicate Told(es: seq<Event>, s: State, r: RefreshId, id: IdpId) {
    && r < |s.refreshes|
    && InOnePlace(es, s.refreshes[r], r, id)
    && RowsWereRead(es, s.refreshes[r], r, id)
    && FirstsAreRegistered(es, s.tables, r, id)
  }

  lemma NothingToldYet(es: seq<Event>, s: State, e: Event, id: IdpId)
    requires Legal(es) && s == After(INITIAL, es) && Enabled(s, e) && !e.Resume?
    ensures Told(es + [e], Next(s, e), |s.refreshes|, id)
  {
    NoEventsFromTheFuture(es, |s.refreshes|);
    Recorded(es, e, |s.refreshes|, id);
  }

  lemma OthersTellNothing(es: seq<Event>, s: State, e: Event, r: RefreshId, id: IdpId)
    requires Inv(s) && Enabled(s, e) && IsNewest(s, r) && IsNewest(Next(s, e), r)
    requires Told(es, s, r, id) && e.Resume? && e.r != r
    ensures Told(es + [e], Next(s, e), r, id)
  {
    Recorded(es, e, r, id);
    forall c | Resume(r, Discovered(id, Some(c))) in es + [e]
      ensures exists idp: Idp :: idp.id == id && ReadRow(es + [e], r, idp)
                                 && Get(Next(s, e).tables.registrations, id) == Some(Registered(idp, c))
    {
      var idp: Idp :| idp.id == id && ReadRow(es, r, idp) && Get(s.tables.registrations, id) == Some(Registered(idp, c));
      assert ReadRow(es + [e], r, idp);
    }
  }

  lemma {:induction false} HistoryHolds(es: seq<Event>, r: RefreshId, id: IdpId)
    requires Legal(es) && IsNewest(After(INITIAL, es), r)
    ensures Told(es, After(INITIAL, es), r, id)
  {
    var front, e := es[..|es| - 1], es[|es| - 1];
    var s := After(INITIAL, front);
    assert es == front + [e];
    AfterKeepsInv(INITIAL, front);
    if !e.Resume? {
      NothingToldYet(front, s, e, id);
    } else {
      HistoryHolds(front, r, id);
      if e.r == r {
        ResumedKeepsPlace(front, s.refreshes[r], r, e.with, id);
        ResumedKeepsRows(front, s.refreshes[r], r, e.with, id);
        WrittenKeepsFirsts(front, s.refreshes[r], s.tables, r, e.with, id);
      } else {
        OthersTellNothing(front, s, e, r, id);
      }
    }
  }

  // When the newest refresh prunes, the registered IdPs are exactly those whose first discovery in
  // that refresh succeeded, each with that refresh's row and that discovery's client.
  lemma PruneLeavesFirstSuccesses(es: seq<Event>, r: RefreshId, id: IdpId)
    requires Legal(es + [Resume(r, Prune)]) && IsNewest(After(INITIAL, es), r)
    ensures var t := After(INITIAL, es + [Resume(r, Prune)]).tables;
            && (id in t.registrations <==> FirstSucceeded(es, r, id))
            && FirstsAreRegistered(es, t, r, id)
  {
    assert (es + [Resume(r, Prune)])[..|es|] == es;
    HistoryHolds(es, r, id);
    AfterKeepsInv(INITIAL, es);
  }

  lemma StaysOver(s: State, e: Event, r: RefreshId, id: IdpId)
    requires Inv(s) && Enabled(s, e) && r < |s.refreshes| && s.refreshes[r].phase.Over? && IsNewest(Next(s, e), r)
    ensures IsNewest(s, r) && Next(s, e).refreshes[r].phase.Over?
    ensures id in Next(s, e).tables.registrations <==>
              id in s.tables.registrations
              || (e.r == r && e.with.Retried? && e.with.id == id && e.with.client.Some?)
  {
    if e.r == r && e.with.Retried? {
      assert s.refreshes[r].retries[e.with.id].idp.id == e.with.id;
    }
  }

  // What the retries of r have registered within `later`, each from the row r read for it.
  ghost predicate RetriesAreRegistered(es: seq<Event>, later: seq<Event>, t: Tables, r: RefreshId, id: IdpId) {
    forall c :: Resume(r, Retried(id, Some(c))) in later ==>
      exists idp: Idp :: idp.id == id && ReadRow(es, r, idp) && Get(t.registrations, id) == Some(Registered(idp, c))
  }

  lemma RetriesStayRegistered(es: seq<Event>, later: seq<Event>, s: State, e: Event, r: RefreshId, id: IdpId)
    requires Inv(s) && Enabled(s, e) && e.Resume? && IsNewest(s, r) && Told(es, s, r, id)
    requires s.refreshes[r].phase.Over? && RetriesAreRegistered(es, later, s.tables, r, id)
    requires RetrySucceeded(later, r, id) ==> RetrySucceeded(es, r, id)
    ensures RetriesAreRegistered(es + [e], later + [e], Next(s, e).tables, r, id)
  {
    Recorded(es, e, r, id);
    var t := Next(s, e).tables;
    forall c | Resume(r, Retried(id, Some(c))) in later + [e]
      ensures exists idp: Idp :: idp.id == id && ReadRow(es + [e], r, idp) && Get(t.registrations, id) == Some(Registered(idp, c))
    {
      if e == Resume(r, Retried(id, Some(c))) {
        assert ReadRow(es + [e], r, s.refreshes[r].retries[id].idp);
      } else {
        assert RetrySucceeded(later, r, id);
        var idp: Idp :| idp.id == id && ReadRow(es, r, idp) && Get(s.tables.registrations, id) == Some(Registered(idp, c));
        OtherRegistrationsStay(s, e, r, id);
        assert ReadRow(es + [e], r, idp);
      }
    }
  }

  lemma OtherRegistrationsStay(s: State, e: Event, r: RefreshId, id: IdpId)
    requires Inv(s) && Enabled(s, e) && e.Resume? && IsNewest(s, r) && r < |s.refreshes| && s.refreshes[r].phase.Over?
    requires id !in s.refreshes[r].retries
    ensures Get(Next(s, e).tables.registrations, id) == Get(s.tables.registrations, id)
  {
    if e.r == r && e.with.Retried? {
      assert s.refreshes[r].retries[e.with.id].idp.id == e.with.id;
    }
  }

  // From its prune on, the newest refresh has registered exactly the IdPs whose first discovery
  // succeeded and those whose background retry has succeeded since, each with the row that it read and
  // the client of that discovery or retry.
  lemma {:induction false} RegisteredSincePrune(es: seq<Event>, r: RefreshId, later: seq<Event>, id: IdpId)
    requires Legal(es + [Resume(r, Prune)] + later) && IsNewest(After(INITIAL, es + [Resume(r, Prune)] + later), r)
    ensures var all := es + [Resume(r, Prune)] + later;
            var s := After(INITIAL, all);
            && r < |s.refreshes| && s.refreshes[r].phase.Over?
            && (id in s.tables.registrations <==> FirstSucceeded(es, r, id) || RetrySucceeded(later, r, id))
            && FirstsAreRegistered(all, s.tables, r, id) && RetriesAreRegistered(all, later, s.tables, r, id)
  {
    var all := es + [Resume(r, Prune)] + later;
    HistoryHolds(all, r, id);
    if later == [] {
      assert all == es + [Resume(r, Prune)];
      assert all[..|es|] == es;
      PruneLeavesFirstSuccesses(es, r, id);
    } else {
      var front, e := later[..|later| - 1], later[|later| - 1];
      assert all[..|all| - 1] == es + [Resume(r, Prune)] + front;
      assert later == front + [e];
      AfterKeepsInv(INITIAL, all[..|all| - 1]);
      assert !e.Resume? ==> |After(INITIAL, all[..|all| - 1]).refreshes| == r;
      assert all[..|all| - 1][|es|] == Resume(r, Prune);
      if !e.Resume? {
        NoEventsFromTheFuture(all[..|all| - 1], r);
      } else {
        RegisteredSincePrune(es, r, front, id);
        OneMoreSincePrune(es, r, front, e, id);
      }
    }
  }

  lemma OneMoreSincePrune(es: seq<Event>, r: RefreshId, front: seq<Event>, e: Event, id: IdpId)
    requires var all := es + [Resume(r, Prune)] + front;
             var s := After(INITIAL, all);
             && Legal(all) && Inv(s) && IsNewest(s, r) && r < |s.refreshes| && s.refreshes[r].phase.Over?
             && Enabled(s, e) && e.Resume?
             && (id in s.tables.registrations <==> FirstSucceeded(es, r, id) || RetrySucceeded(front, r, id))
             && RetriesAreRegistered(all, front, s.tables, r, id)
    ensures var all := es + [Resume(r, Prune)] + front;
            var t := Next(After(INITIAL, all), e);
            && t.refreshes[r].phase.Over?
            && (id in t.tables.registrations <==> FirstSucceeded(es, r, id) || RetrySucceeded(front + [e], r, id))
            && RetriesAreRegistered(all + [e], front + [e], t.tables, r, id)
  {
    var all := es + [Resume(r, Prune)] + front;
    StaysOver(After(INITIAL, all), e, r, id);
    Recorded(front, e, r, id);
    HistoryHolds(all, r, id);
    RetriesAreInHistory(es + [Resume(r, Prune)], front, r, id);
    RetriesStayRegistered(all, front, After(INITIAL, all), e, r, id);
  }

  lemma RetriesAreInHistory(before: seq<Event>, later: seq<Event>, r: RefreshId, id: IdpId)
    ensures RetrySucceeded(later, r, id) ==> RetrySucceeded(before + later, r, id)
  {
    if c :| Resume(r, Retried(id, Some(c))) in later { assert Resume(r, Retried(id, Some(c))) in before + later; }
  }

  lemma {:induction false} LegalPrefix(es: seq<Event>, n: nat)
    requires Legal(es) && n <= |es|
    ensures Legal(es[..n])
  {
    if n == |es| {
      assert es[..n] == es;
    } else {
      assert es[..|es| - 1][..n] == es[..n];
      LegalPrefix(es[..|es| - 1], n);
    }
  }

  // A background retry that succeeds before its refresh prunes is lost: the prune unregisters the
  // IdP, and it stays unregistered for as long as that refresh is the newest.
  lemma {:induction false} RetryBeforePruneIsLost(es: seq<Event>, r: RefreshId, later: seq<Event>, id: IdpId)
    requires Legal(es + [Resume(r, Prune)] + later) && IsNewest(After(INITIAL, es + [Resume(r, Prune)] + later), r)
    requires RetrySucceeded(es, r, id)
    ensures id !in After(INITIAL, es + [Resume(r, Prune)] + later).tables.registrations
  {
    var all := es + [Resume(r, Prune)] + later;
    RegisteredSincePrune(es, r, later, id);
    SucceededStays(es, [Resume(r, Prune)], r, id);
    SucceededStays(es + [Resume(r, Prune)], later, r, id);
    RetrySucceedsOnce(es + [Resume(r, Prune)], r, later, id);
    HistoryHolds(all, r, id);
  }

  lemma SucceededStays(es: seq<Event>, later: seq<Event>, r: RefreshId, id: IdpId)
    ensures FirstSucceeded(es, r, id) ==> FirstSucceeded(es + later, r, id)
    ensures RetrySucceeded(es, r, id) ==> RetrySucceeded(es + later, r, id)
  {
    if c :| Resume(r, Discovered(id, Some(c))) in es { assert Resume(r, Discovered(id, Some(c))) in es + later; }
    if c :| Resume(r, Retried(id, Some(c))) in es { assert Resume(r, Retried(id, Some(c))) in es + later; }
  }

  lemma {:induction false} RetrySucceedsOnce(es: seq<Event>, r: RefreshId, later: seq<Event>, id: IdpId)
    requires Legal(es + later) && IsNewest(After(INITIAL, es + later), r)
    requires RetrySucceeded(es, r, id)
    ensures !RetrySucceeded(later, r, id)
  {
    if later != [] {
      var front, e := later[..|later| - 1], later[|later| - 1];
      assert (es + later)[..|es + later| - 1] == es + front;
      assert later == front + [e];
      AfterKeepsInv(INITIAL, es + front);
      SucceededStays(es, front, r, id);
      if e.Resume? {
        RetrySucceedsOnce(es, r, front, id);
        HistoryHolds(es + front, r, id);
        Recorded(front, e, r, id);
      } else {
        NoEventsFromTheFuture(es + front, r);
      }
    }
  }

  /* Retries that are still waiting */

  function Count(es: seq<Event>, e: Event): nat {
    if es == [] then 0 else Count(es[..|es| - 1], e) + if es[|es| - 1] == e then 1 else 0
  }

  // Failed attempts of the background retry, and how often it has woken from its sleep.
  function Failures(es: seq<Event>, r: RefreshId, id: IdpId): nat {
    Count(es, Resume(r, Retried(id, None)))
  }

  function Wakes(es: seq<Event>, r: RefreshId, id: IdpId): nat {
    Count(es, Resume(r, Woken(id)))
  }

  predicate FirstFailed(es: seq<Event>, r: RefreshId, id: IdpId) {
    Count(es, Resume(r, Discovered(id, None))) > 0
  }

  lemma CountOneMore(es: seq<Event>, e: Event, x: Event)
    ensures Count(es + [e], x) == Count(es, x) + if e == x then 1 else 0
  {
    assert (es + [e])[..|es|] == es;
  }

  // The refresh has read the table and this row in it.
  ghost predicate HasRead(es: seq<Event>, r: RefreshId, id: IdpId) {
    exists idp: Idp :: idp.id == id && ReadRow(es, r, idp)
  }

  // How far an IdP has come in refresh r, told from the history, and how far its record x says.
  ghost predicate IsAsTold(es: seq<Event>, x: Refresh, r: RefreshId, id: IdpId) {
    var failed, failures := FirstFailed(es, r, id), Failures(es, r, id);
    && (id in x.retries <==> failed && !RetrySucceeded(es, r, id) && failures < 10)
    && (id in x.retries ==>
          && x.retries[id].retry == failures + 1
          && Wakes(es, r, id) == failures + (if x.retries[id].asleep then 0 else 1))
    && (!failed ==> failures == 0 && Wakes(es, r, id) == 0 && !RetrySucceeded(es, r, id))
    && (x.phase.Reading? ==> !failed)
    && (x.phase.Discovering? ==>
          (id in x.phase.pending <==> HasRead(es, r, id) && !failed && !FirstSucceeded(es, r, id)))
    && failures <= 10
  }

  // A refresh reads once, and is over once it has pruned or failed to read.
  ghost predicate PhaseIsAsTold(es: seq<Event>, x: Refresh, r: RefreshId) {
    var isOver := Resume(r, Prune) in es || Resume(r, ReadFailed) in es;
    && (x.phase.Over? <==> isOver)
    && (x.phase.Discovering? <==> !isOver && exists idps :: Resume(r, Read(idps)) in es)
  }

  lemma {:induction false} PhaseOfNewest(es: seq<Event>, r: RefreshId)
    requires Legal(es) && IsNewest(After(INITIAL, es), r)
    ensures var s := After(INITIAL, es);
            && r < |s.refreshes| && PhaseIsAsTold(es, s.refreshes[r], r)
  {
    var front, e := es[..|es| - 1], es[|es| - 1];
    assert es == front + [e];
    AfterKeepsInv(INITIAL, front);
    if !e.Resume? {
      NoEventsFromTheFuture(front, r);
    } else {
      PhaseOfNewest(front, r);
      PhaseOneMore(front, After(INITIAL, front).refreshes[r], r, e);
    }
  }

  lemma PhaseOneMore(es: seq<Event>, x: Refresh, r: RefreshId, e: Event)
    requires PhaseIsAsTold(es, x, r) && e.Resume? && (e.r == r ==> Due(x, e.with))
    ensures PhaseIsAsTold(es + [e], if e.r == r then Resumed(x, e.with) else x, r)
  {
    assert forall y :: y in es + [e] <==> y in es || y == e;
    if idps :| Resume(r, Read(idps)) in es { assert Resume(r, Read(idps)) in es + [e]; }
    if e.with.Read? { assert e == Resume(e.r, Read(e.with.idps)); }
  }

  lemma TellOneMore(es: seq<Event>, r: RefreshId, e: Resumption, id: IdpId)
    ensures var after := es + [Resume(r, e)];
            && Failures(after, r, id) == Failures(es, r, id) + (if e == Retried(id, None) then 1 else 0)
            && Wakes(after, r, id) == Wakes(es, r, id) + (if e == Woken(id) then 1 else 0)
            && (FirstFailed(after, r, id) <==> FirstFailed(es, r, id) || e == Discovered(id, None))
  {
    CountOneMore(es, Resume(r, e), Resume(r, Retried(id, None)));
    CountOneMore(es, Resume(r, e), Resume(r, Woken(id)));
    CountOneMore(es, Resume(r, e), Resume(r, Discovered(id, None)));
  }

  lemma OtherEventsTellNothing(es: seq<Event>, e: Event, r: RefreshId, id: IdpId)
    requires !e.Resume? || e.r != r
    ensures Failures(es + [e], r, id) == Failures(es, r, id) && Wakes(es + [e], r, id) == Wakes(es, r, id)
    ensures FirstFailed(es + [e], r, id) <==> FirstFailed(es, r, id)
    ensures HasRead(es + [e], r, id) <==> HasRead(es, r, id)
  {
    CountOneMore(es, e, Resume(r, Retried(id, None)));
    CountOneMore(es, e, Resume(r, Woken(id)));
    CountOneMore(es, e, Resume(r, Discovered(id, None)));
    Recorded(es, e, r, id);
    if idp: Idp :| idp.id == id && ReadRow(es + [e], r, idp) {
      var idps :| Resume(r, Read(idps)) in es + [e] && idp in idps;
      assert Resume(r, Read(idps)) in es;
      assert ReadRow(es, r, idp);
    }
    if idp: Idp :| idp.id == id && ReadRow(es, r, idp) { assert ReadRow(es + [e], r, idp); }
  }

  lemma ReadOneMore(es: seq<Event>, x: Refresh, r: RefreshId, e: Resumption, id: IdpId)
    requires Due(x, e)
    ensures HasRead(es + [Resume(r, e)], r, id) <==>
              HasRead(es, r, id) || (e.Read? && id in EligibleRows(e.idps))
  {
    Recorded(es, Resume(r, e), r, id);
    assert Resume(r, e) in es + [Resume(r, e)];
    if e.Read? {
      EligibleRowsAreTheRows(e.idps);
      if id in EligibleRows(e.idps) {
        assert ReadRow(es + [Resume(r, e)], r, EligibleRows(e.idps)[id]);
      }
    }
    if idp: Idp :| idp.id == id && ReadRow(es, r, idp) { assert ReadRow(es + [Resume(r, e)], r, idp); }
    if idp: Idp :| idp.id == id && ReadRow(es + [Resume(r, e)], r, idp) {
      var idps :| Resume(r, Read(idps)) in es + [Resume(r, e)] && idp in idps;
      if Resume(r, Read(idps)) in es {
        assert ReadRow(es, r, idp);
      }
    }
  }

  lemma ResumedIsAsTold(es: seq<Event>, x: Refresh, r: RefreshId, e: Resumption, id: IdpId)
    requires Due(x, e) && !x.aborted && InOnePlace(es, x, r, id) && IsAsTold(es, x, r, id)
    requires x.phase.Reading? ==> !HasRead(es, r, id)
    ensures IsAsTold(es + [Resume(r, e)], Resumed(x, e), r, id)
    ensures Resumed(x, e).phase.Reading? ==> !HasRead(es + [Resume(r, e)], r, id)
  {
    Recorded(es, Resume(r, e), r, id);
    TellOneMore(es, r, e, id);
    ReadOneMore(es, x, r, e, id);
  }

  lemma NothingReadYet(es: seq<Event>, e: Event, r: RefreshId, id: IdpId)
    requires Legal(es) && |After(INITIAL, es).refreshes| <= r && !e.Resume?
    ensures !HasRead(es + [e], r, id) && IsAsTold(es + [e], NEW_REFRESH, r, id)
  {
    NoEventsFromTheFuture(es, r);
    OtherEventsTellNothing(es, e, r, id);
    Recorded(es, e, r, id);
    AbsentIsNotCounted(es, Resume(r, Retried(id, None)));
    AbsentIsNotCounted(es, Resume(r, Woken(id)));
    AbsentIsNotCounted(es, Resume(r, Discovered(id, None)));
  }

  lemma {:induction false} AbsentIsNotCounted(es: seq<Event>, e: Event)
    requires e !in es
    ensures Count(es, e) == 0
  {
    if es != [] {
      AbsentIsNotCounted(es[..|es| - 1], e);
    }
  }

  // An IdP of the newest refresh has a retry waiting exactly when its first discovery has failed, no
  // retry of it has succeeded and fewer than ten have failed; and that retry's number is one more than
  // its failures.  A first discovery is pending exactly as long as it has neither succeeded nor failed.
  lemma {:induction false} RetryWaitsIff(es: seq<Event>, r: RefreshId, id: IdpId)
    requires Legal(es) && IsNewest(After(INITIAL, es), r)
    ensures var s := After(INITIAL, es);
            && r < |s.refreshes| && IsAsTold(es, s.refreshes[r], r, id)
            && (s.refreshes[r].phase.Reading? ==> !HasRead(es, r, id))
  {
    var front, e := es[..|es| - 1], es[|es| - 1];
    var s := After(INITIAL, front);
    assert es == front + [e];
    AfterKeepsInv(INITIAL, front);
    if !e.Resume? {
      NothingReadYet(front, e, r, id);
    } else {
      RetryWaitsIff(front, r, id);
      HistoryHolds(front, r, id);
      if e.r == r {
        ResumedIsAsTold(front, s.refreshes[r], r, e.with, id);
      } else {
        OtherEventsTellNothing(front, e, r, id);
        Recorded(front, e, r, id);
      }
    }
  }

  // So an issuer that comes back after at most nine failed retries is registered: waking up, if need
  // be, and succeeding is possible, and writes the row that was read with the client just found.
  lemma WaitingRetryCanSucceed(es: seq<Event>, r: RefreshId, id: IdpId, c: Client) returns (more: seq<Event>)
    requires Legal(es) && IsNewest(After(INITIAL, es), r)
    requires FirstFailed(es, r, id) && !RetrySucceeded(es, r, id) && Failures(es, r, id) < 10
    ensures Legal(es + more) && IsNewest(After(INITIAL, es + more), r)
    ensures exists idp: Idp :: idp.id == id && ReadRow(es, r, idp)
              && Get(After(INITIAL, es + more).tables.registrations, id) == Some(Registered(idp, c))
  {
    var s := After(INITIAL, es);
    AfterKeepsInv(INITIAL, es);
    RetryWaitsIff(es, r, id);
    HistoryHolds(es, r, id);
    var x := s.refreshes[r];
    assert x.retries[id].idp.id == id && ReadRow(es, r, x.retries[id].idp);
    var es1, s1 := es, s;
    more := [];
    if x.retries[id].asleep {
      es1, s1 := OneMore(es, s, Resume(r, Woken(id)));
      more := [Resume(r, Woken(id))];
    }
    var es2, s2 := OneMore(es1, s1, Resume(r, Retried(id, Some(c))));
    more := more + [Resume(r, Retried(id, Some(c)))];
    assert es + more == es2;
  }

  lemma OneMore(es: seq<Event>, s: State, e: Event) returns (es': seq<Event>, s': State)
    requires Legal(es) && After(INITIAL, es) == s && Enabled(s, e)
    ensures es' == es + [e] && Legal(es') && s' == Next(s, e) && After(INITIAL, es') == s'
  {
    es', s' := es + [e], Next(s, e);
    assert es'[..|es|] == es;
  }

  // A refresh of two IdPs whose discoveries are both pending, after the first one failed once and
  // was retried.
  lemma RetriedBeforeSettled(a: Idp, b: Idp) returns (es: seq<Event>, s: State)
    requires Eligible(a) && Eligible(b) && a.id != b.id
    ensures Legal(es) && s == After(INITIAL, es) && RetrySucceeded(es, 0, a.id) && s.current == Some(0)
    ensures s.refreshes == [Refresh(false, Discovering(map[b.id := b], {}), map[])]
  {
    var x := Refresh(false, Discovering(map[a.id := a, b.id := b], {}), map[]);
    var tables := Tables(map[], map[]);
    es, s := OneMore([], INITIAL, Boot);
    assert EligibleRows([a]) == map[a.id := a] by { assert [a][..0] == []; }
    assert EligibleRows([a, b]) == map[a.id := a, b.id := b] by { assert [a, b][..1] == [a]; }
    es, s := OneMore(es, s, Resume(0, Read([a, b])));
    assert s == State(tables, Some(0), [x]);
    es, s := OneMore(es, s, Resume(0, Discovered(a.id, None)));
    assert map[a.id := a, b.id := b] - {a.id} == map[b.id := b];
    var y := Refresh(false, Discovering(map[b.id := b], {}), map[a.id := Retry(a, 1, true)]);
    assert s == State(tables, Some(0), [y]);
    es, s := OneMore(es, s, Resume(0, Woken(a.id)));
    assert map[a.id := Retry(a, 1, true)][a.id := Retry(a, 1, false)] == map[a.id := Retry(a, 1, false)];
    assert s == State(tables, Some(0), [y.(retries := map[a.id := Retry(a, 1, false)])]);
    es, s := OneMore(es, s, Resume(0, Retried(a.id, Some(1))));
    assert es[4] == Resume(0, Retried(a.id, Some(1)));
    assert s.refreshes[0].retries == map[];
  }

  // It happens: the issuer of one IdP is down at first, the discovery of the other is slow.
  lemma RetryCanPrecedePrune(a: Idp, b: Idp) returns (es: seq<Event>)
    requires Eligible(a) && Eligible(b) && a.id != b.id
    ensures Legal(es + [Resume(0, Prune)]) && IsNewest(After(INITIAL, es + [Resume(0, Prune)]), 0)
    ensures RetrySucceeded(es, 0, a.id)
    ensures After(INITIAL, es + [Resume(0, Prune)]).tables.registrations.Keys == {b.id}
  {
    var before, s, pruned, last;
    before, s := RetriedBeforeSettled(a, b);
    es, s := OneMore(before, s, Resume(0, Discovered(b.id, Some(2))));
    SucceededStays(before, [Resume(0, Discovered(b.id, Some(2)))], 0, a.id);
    assert map[b.id := b] - {b.id} == map[];
    assert b.id in s.tables.registrations;
    pruned, last := OneMore(es, s, Resume(0, Prune));
  }
}
