/**
  Which artifacts a run uploads, wherever it stops, told from the steps that its job calls for.
 */
module ExecutorUploads {
  import opened Wrappers
  import opened ExecutorSteps
  import opened ExecutorProperties
  import opened ExecutorScript

  lemma ShelfStep(s: State, step: Step, w: World, x: Artifact)
    requires !s.raised && OutcomeOf(step, w).Fine?
    ensures var t := Perform(s, step, w);
            && !t.raised
            && (x in t.uploads <==> x in s.uploads || step == Upload(x))
            && (x in t.flagged <==> step == Flag(x, true) || (x in s.flagged && step != Flag(x, false) && step != Upload(x)))
  {
  }

  // What flags and uploads leave behind, as long as nothing raises.
  lemma {:induction false} ShelfAfter(steps: seq<Step>, w: World, x: Artifact)
    requires FirstFault(steps, w) == |steps| && InOrder(steps)
    requires Flag(x, true) in steps ==> Flag(x, false) !in steps
    ensures var s := Exec(INITIAL, steps, w);
            && !s.raised
            && (x in s.uploads <==> Upload(x) in steps)
            && (x in s.flagged <==> (x in INITIALLY_FLAGGED || Flag(x, true) in steps)
                                    && Upload(x) !in steps && Flag(x, false) !in steps)
  {
    if steps != [] {
      var front, last := steps[..|steps| - 1], steps[|steps| - 1];
      assert steps == front + [last];
      ShelfAfter(front, w, x);
      ShelfStep(Exec(INITIAL, front, w), last, w, x);
      if last == Flag(x, true) {
        FlagComesFirst(front, x);
      }
    }
  }

  lemma FlagComesFirst(front: seq<Step>, x: Artifact)
    requires InOrder(front + [Flag(x, true)])
    ensures Upload(x) !in front
  {
    forall i | 0 <= i < |front| ensures front[i] != Upload(x) {
      assert Precedes((front + [Flag(x, true)])[i], (front + [Flag(x, true)])[|front|]);
    }
  }

  /* Late uploads */

  ghost predicate NoneRaises(artifacts: seq<Artifact>, flagged: set<Artifact>, w: World) {
    forall y :: y in artifacts && y in flagged ==> !w.late(y).LateRaises?
  }

  // Shutdown gets to x: no flagged artifact before it raises.
  ghost predicate GetsToArtifact(artifacts: seq<Artifact>, flagged: set<Artifact>, w: World, x: Artifact) {
    exists i :: 0 <= i < |artifacts| && artifacts[i] == x && NoneRaises(artifacts[..i], flagged, w)
  }

  lemma LateStep(s: State, front: seq<Artifact>, last: Artifact, w: World, x: Artifact)
    ensures var (t, goesOn), (u, goesFurther) := LateUploads(s, front, w), LateUploads(s, front + [last], w);
            && (goesFurther <==> goesOn && (last in t.flagged ==> !w.late(last).LateRaises?))
            && (x in u.uploads <==>
                  x in t.uploads || (x == last && goesOn && x in t.flagged && w.late(x).LateUploaded?))
            && (x != last ==> (x in u.flagged <==> x in t.flagged))
  {
    assert (front + [last])[..|front|] == front;
  }

  lemma NoneRaisesMore(front: seq<Artifact>, last: Artifact, flagged: set<Artifact>, w: World)
    ensures NoneRaises(front + [last], flagged, w)
       <==> NoneRaises(front, flagged, w) && (last in flagged ==> !w.late(last).LateRaises?)
  {
  }

  lemma {:induction false} LateUploadsIff(s: State, artifacts: seq<Artifact>, w: World, x: Artifact)
    requires NoDuplicates(artifacts)
    ensures var (t, goesOn) := LateUploads(s, artifacts, w);
            && (goesOn <==> NoneRaises(artifacts, s.flagged, w))
            && (x !in artifacts ==> (x in t.flagged <==> x in s.flagged))
            && (x in t.uploads <==>
                  x in s.uploads
                  || (x in s.flagged && w.late(x).LateUploaded? && GetsToArtifact(artifacts, s.flagged, w, x)))
  {
    if artifacts != [] {
      var front, last := artifacts[..|artifacts| - 1], artifacts[|artifacts| - 1];
      assert artifacts == front + [last] && last !in front;
      LateUploadsIff(s, front, w, x);
      LateUploadsIff(s, front, w, last);
      LateStep(s, front, last, w, x);
      NoneRaisesMore(front, last, s.flagged, w);
      GetsToOneMore(front, last, s.flagged, w, x);
    }
  }

  lemma GetsToOneMore(front: seq<Artifact>, last: Artifact, flagged: set<Artifact>, w: World, x: Artifact)
    requires last !in front
    ensures GetsToArtifact(front + [last], flagged, w, x)
       <==> GetsToArtifact(front, flagged, w, x) || (x == last && NoneRaises(front, flagged, w))
  {
    var all := front + [last];
    if i :| 0 <= i < |all| && all[i] == x && NoneRaises(all[..i], flagged, w) {
      if i < |front| {
        assert all[..i] == front[..i];
      } else {
        assert all[..i] == front;
      }
    }
    if i :| 0 <= i < |front| && front[i] == x && NoneRaises(front[..i], flagged, w) {
      assert all[i] == x && all[..i] == front[..i];
    }
    if x == last && NoneRaises(front, flagged, w) {
      assert all[|front|] == x && all[..|front|] == front;
    }
  }

  /* Every artifact, wherever the run stops */

  predicate IsFailedRun(step: Step, w: World) {
    && (step == Do(RunEarthmover) || step == Do(RunEarthmoverAgain))
    && OutcomeOf(step, w) == Raises(Some(EarthmoverRunError))
  }

  // Whether an artifact is still to be uploaded when the run stops at this step.
  predicate IsLeft(job: Job, w: World, step: Step, x: Artifact) {
    && (match x
        case Roster => true
        case EmResults => true
        case MatchRatesFile => !IsFailedRun(step, w)
        case LbSendResults => job.sendToOds || Rank(step) <= Rank(Flag(LbSendResults, false))
        case _ => IsDue(job, w, x) && Rank(Flag(x, true)) < Rank(step))
    && !(IsDue(job, w, x) && UploadRank(x) < Rank(step))
  }

  lemma FlagsDiffer(job: Job, w: World, x: Artifact)
    ensures Needs(job, w, Flag(x, true)) ==> !Needs(job, w, Flag(x, false))
  {
  }

  lemma PrefixInOrder(steps: seq<Step>, f: nat)
    requires InOrder(steps) && f <= |steps|
    ensures InOrder(steps[..f])
  {
  }

  lemma ShelfAtFault(job: Job, w: World, f: nat, x: Artifact)
    requires f == FirstFault(Script(job, w), w) < |Script(job, w)|
    ensures var s, rank := Exec(INITIAL, Script(job, w)[..f], w), Rank(Script(job, w)[f]);
            && (x in s.uploads <==> IsDue(job, w, x) && UploadRank(x) < rank)
            && (x in s.flagged <==>
                  && (x in INITIALLY_FLAGGED || (Needs(job, w, Flag(x, true)) && Rank(Flag(x, true)) < rank))
                  && !(IsDue(job, w, x) && UploadRank(x) < rank)
                  && !(Needs(job, w, Flag(x, false)) && Rank(Flag(x, false)) < rank))
  {
    var script := Script(job, w);
    ScriptInOrder(job, w);
    PrefixInOrder(script, f);
    PrefixHasNoFault(script, w);
    RaisingIsNoRecord(script[f], w);
    PrefixIff(job, w, f, Flag(x, true));
    PrefixIff(job, w, f, Flag(x, false));
    PrefixIff(job, w, f, Upload(x));
    FlagsDiffer(job, w, x);
    ShelfAfter(script[..f], w, x);
  }

  // The state in which shutdown begins to upload.
  lemma LateState(job: Job, w: World) returns (t: State)
    requires FirstFault(Script(job, w), w) < |Script(job, w)|
    ensures var f := FirstFault(Script(job, w), w);
            var s := Exec(INITIAL, Script(job, w)[..f], w);
            && t.uploads == s.uploads
            && t.flagged == s.flagged - (if IsFailedRun(Script(job, w)[f], w) then {MatchRatesFile} else {})
            && Executed(job, w).uploads == LateUploads(t, ALL, w).0.uploads
  {
    var script, f := Script(job, w), FirstFault(Script(job, w), w);
    ExecToFault(script, w);
    PrefixHasNoFault(script, w);
    var r := Exec(INITIAL, script, w);
    t := r.(error := Some(if r.error.Some? then r.error.value else Unknown));
  }

  lemma LeftIff(job: Job, w: World, step: Step, x: Artifact)
    ensures IsLeft(job, w, step, x)
       <==> (x in INITIALLY_FLAGGED || (Needs(job, w, Flag(x, true)) && Rank(Flag(x, true)) < Rank(step)))
            && !(IsDue(job, w, x) && UploadRank(x) < Rank(step))
            && !(Needs(job, w, Flag(x, false)) && Rank(Flag(x, false)) < Rank(step))
            && !(x == MatchRatesFile && IsFailedRun(step, w))
  {
  }

  lemma LateFlags(job: Job, w: World, t: State)
    requires FirstFault(Script(job, w), w) < |Script(job, w)|
    requires var f := FirstFault(Script(job, w), w);
             t.flagged == Exec(INITIAL, Script(job, w)[..f], w).flagged
                          - (if IsFailedRun(Script(job, w)[f], w) then {MatchRatesFile} else {})
    ensures forall x :: x in t.flagged <==> IsLeft(job, w, Script(job, w)[FirstFault(Script(job, w), w)], x)
  {
    var f := FirstFault(Script(job, w), w);
    forall x ensures x in t.flagged <==> IsLeft(job, w, Script(job, w)[f], x) {
      ShelfAtFault(job, w, f, x);
      LeftIff(job, w, Script(job, w)[f], x);
    }
  }

  // The artifacts that shutdown still has to upload, in its order, up to one that raises.
  ghost predicate IsUploadedLate(job: Job, w: World, step: Step, x: Artifact) {
    && IsLeft(job, w, step, x) && w.late(x).LateUploaded?
    && exists i :: 0 <= i < |ALL| && ALL[i] == x
         && forall y :: y in ALL[..i] && IsLeft(job, w, step, y) ==> !w.late(y).LateRaises?
  }

  // A run that succeeds has uploaded exactly what is due.  One that stops at a step has uploaded exactly
  // what is due before that step, and what shutdown gets to of the artifacts that are left.
  lemma UploadedIff(job: Job, w: World, step: Step, x: Artifact)
    requires AllGoesWell(job, w) || StopsAt(job, w, step)
    ensures x in Executed(job, w).uploads <==>
              if AllGoesWell(job, w) then IsDue(job, w, x)
              else (IsDue(job, w, x) && UploadRank(x) < Rank(step)) || IsUploadedLate(job, w, step, x)
  {
    if AllGoesWell(job, w) {
      SuccessUploads(job, w, x);
    } else {
      StopUploads(job, w, step, x);
    }
  }

  lemma ScriptUploads(job: Job, w: World, x: Artifact)
    ensures InOrder(Script(job, w))
    ensures Upload(x) in Script(job, w) <==> IsDue(job, w, x)
    ensures Flag(x, true) in Script(job, w) ==> Flag(x, false) !in Script(job, w)
  {
    ScriptInOrder(job, w);
    InScriptIff(job, w, Flag(x, true));
    InScriptIff(job, w, Flag(x, false));
    InScriptIff(job, w, Upload(x));
    FlagsDiffer(job, w, x);
  }

  lemma SuccessUploads(job: Job, w: World, x: Artifact)
    requires AllGoesWell(job, w)
    ensures x in Executed(job, w).uploads <==> IsDue(job, w, x)
  {
    NothingRaisesIff(job, w);
    ScriptUploads(job, w, x);
    ShelfOfSuccess(job, w, Script(job, w), x);
  }

  lemma ShelfOfSuccess(job: Job, w: World, script: seq<Step>, x: Artifact)
    requires script == Script(job, w) && FirstFault(script, w) == |script| && InOrder(script)
    requires Flag(x, true) in script ==> Flag(x, false) !in script
    ensures x in Executed(job, w).uploads <==> Upload(x) in script
  {
    ShelfAfter(script, w, x);
  }

  lemma AtStop(job: Job, w: World, x: Artifact) returns (fault: Step, t: State)
    requires FirstFault(Script(job, w), w) < |Script(job, w)|
    ensures fault == Script(job, w)[FirstFault(Script(job, w), w)]
    ensures x in t.uploads <==> IsDue(job, w, x) && UploadRank(x) < Rank(fault)
    ensures forall y :: y in t.flagged <==> IsLeft(job, w, fault, y)
    ensures Executed(job, w).uploads == LateUploads(t, ALL, w).0.uploads
  {
    fault := Script(job, w)[FirstFault(Script(job, w), w)];
    t := LateState(job, w);
    LateFlags(job, w, t);
    ShelfAtFault(job, w, FirstFault(Script(job, w), w), x);
  }

  lemma StopUploads(job: Job, w: World, step: Step, x: Artifact)
    requires StopsAt(job, w, step)
    ensures x in Executed(job, w).uploads <==>
              (IsDue(job, w, x) && UploadRank(x) < Rank(step)) || IsUploadedLate(job, w, step, x)
  {
    StopsAtIsFault(job, w, step);
    var fault, t := AtStop(job, w, x);
    UploadsFrom(job, w, fault, step, t, x);
  }

  lemma UploadsFrom(job: Job, w: World, fault: Step, step: Step, t: State, x: Artifact)
    requires fault == step || (IsDownload(fault) && IsDownload(step))
    requires x in t.uploads <==> IsDue(job, w, x) && UploadRank(x) < Rank(fault)
    requires forall y :: y in t.flagged <==> IsLeft(job, w, fault, y)
    ensures x in LateUploads(t, ALL, w).0.uploads <==>
              (IsDue(job, w, x) && UploadRank(x) < Rank(step)) || IsUploadedLate(job, w, step, x)
  {
    LateUploadsIff(t, ALL, w, x);
    SameLeft(job, w, fault, step, t.flagged, x);
  }

  lemma SameLeft(job: Job, w: World, fault: Step, step: Step, flagged: set<Artifact>, x: Artifact)
    requires fault == step || (IsDownload(fault) && IsDownload(step))
    requires forall y :: y in flagged <==> IsLeft(job, w, fault, y)
    ensures x in flagged && w.late(x).LateUploaded? && GetsToArtifact(ALL, flagged, w, x)
       <==> IsUploadedLate(job, w, step, x)
  {
    assert forall y :: IsLeft(job, w, fault, y) <==> IsLeft(job, w, step, y);
    if i :| 0 <= i < |ALL| && ALL[i] == x && NoneRaises(ALL[..i], flagged, w) {
      assert forall y :: y in ALL[..i] && IsLeft(job, w, step, y) ==> y in flagged;
    }
    if IsUploadedLate(job, w, step, x) {
      var i :| 0 <= i < |ALL| && ALL[i] == x
        && forall y :: y in ALL[..i] && IsLeft(job, w, step, y) ==> !w.late(y).LateRaises?;
      assert NoneRaises(ALL[..i], flagged, w);
    }
  }
}
