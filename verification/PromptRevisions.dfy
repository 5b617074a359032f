/** When the pending revision goes back, and what equal revisions then mean (codex/client.go:1868-1987). */
module PromptRevisions {
  import opened Prelude
  import opened PromptOffers

  // ---------------------------------------------------------------------------------------------
  // Going back

  /** The revision of a thread goes back in exactly one case. */
  lemma GoesBackExactlyWhen(s: State, step: Step, thread: string)
    requires Enabled(s, step) && RevisionAt(s, thread)
    ensures PendingRevision(Apply(s, step), thread) < PendingRevision(s, thread) <==> Lowers(s, step, thread)
  {
  }

  predicate LowersAlong(s: State, steps: seq<Step>, thread: string)
    requires IsRun(s, steps)
    decreases |steps|
  {
    steps != [] && (Lowers(s, steps[0], thread) || LowersAlong(Apply(s, steps[0]), steps[1..], thread))
  }

  /** The revisions of a thread along a run. */
  function RevisionsAlong(s: State, steps: seq<Step>, thread: string): seq<nat>
    requires IsRun(s, steps)
    decreases |steps|
  {
    [PendingRevision(s, thread)] + if steps == [] then [] else RevisionsAlong(Apply(s, steps[0]), steps[1..], thread)
  }

  predicate NeverBack(revisions: seq<nat>) { forall i, j :: 0 <= i <= j < |revisions| ==> revisions[i] <= revisions[j] }

  lemma NeverBackFrom(first: nat, rest: seq<nat>)
    requires rest != []
    ensures NeverBack([first] + rest) <==> first <= rest[0] && NeverBack(rest)
  {
    var all := [first] + rest;
    assert all[0] == first && all[1] == rest[0];
    assert forall i :: 0 <= i < |rest| ==> rest[i] == all[i + 1];
  }

  /** Over every run: the revision never goes back if and only if the thread is never pruned that way. */
  lemma {:induction false} NeverBackExactlyWhen(s: State, steps: seq<Step>, thread: string)
    requires RevisionAt(s, thread) && IsRun(s, steps)
    ensures NeverBack(RevisionsAlong(s, steps, thread)) <==> !LowersAlong(s, steps, thread)
    decreases |steps|
  {
    if steps != [] {
      var t := Apply(s, steps[0]);
      GoesBackExactlyWhen(s, steps[0], thread);
      RevisionStep(s, steps[0], thread);
      NeverBackExactlyWhen(t, steps[1..], thread);
      NeverBackFrom(PendingRevision(s, thread), RevisionsAlong(t, steps[1..], thread));
    }
  }

  // ---------------------------------------------------------------------------------------------
  // Equal revisions

  predicate HasRequest(s: State, thread: string) { exists id :: id in s.requests && s.requests[id].thread == thread }

  /** A thread with something pending has a revision of its own. */
  predicate Raised(s: State, thread: string) {
    HasRequest(s, thread) ==> PendingRevision(s, thread) > s.revisions.reset
  }

  /** A revision that goes up is newer than every one before it, and one that stays does not hide a reset. */
  lemma RaisedIsNew(s: State, step: Step, thread: string)
    requires Enabled(s, step) && RevisionAt(s, thread)
    ensures var t := Apply(s, step);
            && t.revisions.sequence >= s.revisions.sequence
            && (t.revisions.reset == s.revisions.reset || t.revisions.reset > s.revisions.sequence)
            && (PendingRevision(t, thread) > PendingRevision(s, thread) ==>
                  PendingRevision(t, thread) > s.revisions.sequence)
            && (PendingRevision(t, thread) == PendingRevision(s, thread) ==> t.revisions.reset == s.revisions.reset)
  {
  }

  lemma RequestsStep(s: State, step: Step, id: string)
    requires Enabled(s, step) && id in Apply(s, step).requests
    ensures (id in s.requests && s.requests[id].thread == Apply(s, step).requests[id].thread) ||
            (step.Admit? && step.id == id && Apply(s, step).revisions == Bump(s.revisions, step.thread))
  {
  }

  lemma ResetTakesRequests(s: State, step: Step, id: string)
    requires Enabled(s, step) && OfferAt(s, id) && Apply(s, step).revisions.reset != s.revisions.reset
    ensures id !in Apply(s, step).requests
  {
  }

  lemma RaisedStep(s: State, step: Step, thread: string)
    requires Inv(s) && RevisionAt(s, thread) && Enabled(s, step) && Raised(s, thread) && thread != ""
    ensures Raised(Apply(s, step), thread)
  {
    var t := Apply(s, step);
    if HasRequest(t, thread) {
      var id :| id in t.requests && t.requests[id].thread == thread;
      RequestsStep(s, step, id);
      if id in s.requests && s.requests[id].thread == thread {
        assert OfferAt(s, id);
        GoesBackExactlyWhen(s, step, thread);
        if t.revisions.reset != s.revisions.reset { ResetTakesRequests(s, step, id); }
      }
    }
  }

  const NoPrompts := Prompts([], map[])

  /** Resets since a moment are newer than every revision of that moment. */
  predicate Later(base: Revisions, s: State) {
    && s.revisions.sequence >= base.sequence
    && (s.revisions.reset == base.reset || s.revisions.reset > base.sequence)
  }

  /** After a prune: the revision is newer than that moment, or it is the reset of that moment and there are
      no prompts. */
  predicate Fallen(base: Revisions, s: State, thread: string) {
    || PendingRevision(s, thread) > base.sequence
    || (PendingRevision(s, thread) == s.revisions.reset == base.reset && PromptsOf(s, thread) == NoPrompts)
  }

  lemma PrunedFalls(base: Revisions, s: State, step: Step, thread: string)
    requires Enabled(s, step) && Later(base, s) && Lowers(s, step, thread)
    ensures Fallen(base, Apply(s, step), thread)
  {
    assert PromptsOf(Apply(s, step), thread) == NoPrompts;
  }

  lemma StaysFallen(base: Revisions, s: State, step: Step, thread: string)
    requires Inv(s) && RevisionAt(s, thread) && Enabled(s, step) && thread != ""
    requires Later(base, s) && Fallen(base, s, thread)
    ensures Fallen(base, Apply(s, step), thread)
  {
    if Lowers(s, step, thread) {
      PrunedFalls(base, s, step, thread);
    } else {
      StepValidates(s, step, thread);
      RaisedIsNew(s, step, thread);
    }
  }

  lemma {:induction false} FallenAlong(base: Revisions, s: State, steps: seq<Step>, thread: string)
    requires Inv(s) && RevisionAt(s, thread) && IsRun(s, steps) && thread != "" && Later(base, s)
    requires Fallen(base, s, thread) || LowersAlong(s, steps, thread)
    ensures Fallen(base, After(s, steps), thread)
    decreases |steps|
  {
    if steps != [] {
      var t := Apply(s, steps[0]);
      StepKeeps(s, steps[0]);
      RevisionStep(s, steps[0], thread);
      RaisedIsNew(s, steps[0], thread);
      if Fallen(base, s, thread) {
        StaysFallen(base, s, steps[0], thread);
      } else if Lowers(s, steps[0], thread) {
        PrunedFalls(base, s, steps[0], thread);
      }
      FallenAlong(base, t, steps[1..], thread);
    }
  }

  lemma {:induction false} UnprunedAlong(s: State, steps: seq<Step>, thread: string)
    requires Inv(s) && RevisionAt(s, thread) && IsRun(s, steps) && !LowersAlong(s, steps, thread) && thread != ""
    ensures Validated(s, After(s, steps), thread)
    decreases |steps|
  {
    if steps != [] {
      StepKeeps(s, steps[0]);
      RevisionStep(s, steps[0], thread);
      StepValidates(s, steps[0], thread);
      UnprunedAlong(Apply(s, steps[0]), steps[1..], thread);
    }
  }

  lemma {:induction false} RaisedAlong(s: State, steps: seq<Step>, thread: string)
    requires Inv(s) && RevisionAt(s, thread) && IsRun(s, steps) && Raised(s, thread) && thread != ""
    ensures Raised(After(s, steps), thread)
    decreases |steps|
  {
    if steps != [] {
      StepKeeps(s, steps[0]);
      RevisionStep(s, steps[0], thread);
      RaisedStep(s, steps[0], thread);
      RaisedAlong(Apply(s, steps[0]), steps[1..], thread);
    }
  }

  lemma Reached(before: seq<Step>, thread: string)
    requires IsRun(Initial, before) && thread != ""
    ensures var s := After(Initial, before); Inv(s) && RevisionAt(s, thread) && Raised(s, thread)
  {
    RunKeeps(Initial, before);
    RevisionAlong(Initial, before, thread);
    RaisedAlong(Initial, before, thread);
  }

  /** At two moments with the same revision, watched or not, a thread has the same prompts if and only if it was not
      pruned in between or had no notice at the first.  If it was pruned, the revision is that of the last reset. */
  lemma EqualRevisionsExactlyWhen(before: seq<Step>, during: seq<Step>, thread: string)
    requires IsRun(Initial, before) && IsRun(After(Initial, before), during) && thread != ""
    requires PendingRevision(After(After(Initial, before), during), thread) ==
             PendingRevision(After(Initial, before), thread)
    ensures var s := After(Initial, before);
            && (PromptsOf(After(s, during), thread) == PromptsOf(s, thread) <==>
                !LowersAlong(s, during, thread) || NoticesOf(s, thread) == [])
            && (LowersAlong(s, during, thread) ==> PendingRevision(s, thread) == s.revisions.reset)
  {
    var s := After(Initial, before);
    Reached(before, thread);
    if LowersAlong(s, during, thread) {
      FallenAlong(s.revisions, s, during, thread);
      assert !HasRequest(s, thread);
      assert PromptsOf(s, thread).offers == map[];
    } else {
      UnprunedAlong(s, during, thread);
    }
  }

  // ---------------------------------------------------------------------------------------------
  // Which revisions can be trusted from now on

  predicate OnlyWatchNotices(notices: seq<Notice>, thread: string) {
    forall i :: 0 <= i < |notices| ==> notices[i].id == WatchId(thread)
  }

  lemma {:induction false} ClearedKeepsOthers(notices: seq<Notice>, thread: string)
    requires !OnlyWatchNotices(notices, thread)
    ensures !OnlyWatchNotices(Cleared(notices, WatchId(thread)), thread)
    decreases |notices|
  {
    var i :| 0 <= i < |notices| && notices[i].id != WatchId(thread);
    var r := Cleared(notices, WatchId(thread));
    if notices[0].id == WatchId(thread) {
      assert r[i - 1] == notices[i];
    } else {
      assert r[0] == notices[0];
    }
  }

  /** The notice of a rejected request is only ever replaced by another one. */
  lemma RejectedStays(s: State, step: Step, thread: string)
    requires Enabled(s, step) && !OnlyWatchNotices(NoticesOf(s, thread), thread)
    ensures !OnlyWatchNotices(NoticesOf(Apply(s, step), thread), thread)
  {
    var notices, after := NoticesOf(s, thread), NoticesOf(Apply(s, step), thread);
    if step.Reject? && step.thread == thread {
      assert after[|after| - 1] == step.notice;
    } else if step.WatchFailed? && step.thread == thread {
      var i :| 0 <= i < |notices| && notices[i].id != WatchId(thread);
      assert after[i] == notices[i];
    } else if step.WatchRecovered? && step.thread == thread {
      ClearedKeepsOthers(notices, thread);
    }
  }

  lemma {:induction false} RejectedIsNotPruned(s: State, steps: seq<Step>, thread: string)
    requires IsRun(s, steps) && !OnlyWatchNotices(NoticesOf(s, thread), thread)
    ensures !LowersAlong(s, steps, thread)
    decreases |steps|
  {
    if steps != [] {
      RejectedStays(s, steps[0], thread);
      RejectedIsNotPruned(Apply(s, steps[0]), steps[1..], thread);
    }
  }

  lemma Prepend(s: State, step: Step, rest: seq<Step>)
    requires Enabled(s, step) && IsRun(Apply(s, step), rest)
    ensures IsRun(s, [step] + rest) && After(s, [step] + rest) == After(Apply(s, step), rest)
  {
    assert ([step] + rest)[0] == step && ([step] + rest)[1..] == rest;
  }

  function Watchers(s: State, thread: string): nat { if thread in s.watched then s.watched[thread] else 0 }

  /** Everybody leaves, the watch recovers, and the thread is pruned. */
  lemma {:induction false} LeavingRun(s: State, thread: string) returns (steps: seq<Step>)
    requires thread != "" && !HasRequest(s, thread) && OnlyWatchNotices(NoticesOf(s, thread), thread)
    ensures IsRun(s, steps) && PendingRevision(After(s, steps), thread) == s.revisions.reset
    ensures NoticesOf(After(s, steps), thread) == []
    decreases Watchers(s, thread) + |NoticesOf(s, thread)|
  {
    var step := if IsWatched(s, thread) then Unwatch(thread)
      else if NoticesOf(s, thread) != [] then WatchRecovered(thread) else Prune(thread);
    var t := Apply(s, step);
    if step.Prune? {
      steps := [step];
      assert After(s, steps) == t;
    } else {
      if step.WatchRecovered? { assert NoticesOf(s, thread)[0].id == WatchId(thread); }
      assert !HasRequest(t, thread) && t.revisions.reset == s.revisions.reset;
      var rest := LeavingRun(t, thread);
      Prepend(s, step, rest);
      steps := [step] + rest;
    }
  }

  /** From now on an equal revision means equal prompts, whoever watches. */
  ghost predicate Trusted(s: State, thread: string) {
    forall during :: IsRun(s, during) && PendingRevision(After(s, during), thread) == PendingRevision(s, thread) ==>
      PromptsOf(After(s, during), thread) == PromptsOf(s, thread)
  }

  /** Exactly when the revision of a thread can be trusted from now on: it has one of its own since the last
      reset, or no notice, or the notice of a rejected request. */
  lemma TrustedExactlyWhen(before: seq<Step>, thread: string)
    requires IsRun(Initial, before) && thread != ""
    ensures var s := After(Initial, before);
            Trusted(s, thread) <==>
            || PendingRevision(s, thread) > s.revisions.reset || NoticesOf(s, thread) == []
            || !OnlyWatchNotices(NoticesOf(s, thread), thread)
  {
    var s := After(Initial, before);
    Reached(before, thread);
    if PendingRevision(s, thread) > s.revisions.reset || NoticesOf(s, thread) == []
       || !OnlyWatchNotices(NoticesOf(s, thread), thread) {
      forall during | IsRun(s, during) && PendingRevision(After(s, during), thread) == PendingRevision(s, thread)
        ensures PromptsOf(After(s, during), thread) == PromptsOf(s, thread)
      {
        EqualRevisionsExactlyWhen(before, during, thread);
        if !OnlyWatchNotices(NoticesOf(s, thread), thread) { RejectedIsNotPruned(s, during, thread); }
      }
    } else {
      var during := LeavingRun(s, thread);
      assert PromptsOf(After(s, during), thread).notices == [] != PromptsOf(s, thread).notices;
    }
  }

  // ---------------------------------------------------------------------------------------------
  // Runs

  /** Once nobody watches a thread, its revision may start over. */
  lemma UnwatchedRevisionStartsOver()
    ensures var steps := [WatchFailed("t", "lost"), WatchRecovered("t"), Prune("t")];
            && IsRun(Initial, steps)
            && PendingRevision(Apply(Initial, steps[0]), "t") == 1 && PendingRevision(After(Initial, steps), "t") == 0
  {
    var s1 := Apply(Initial, WatchFailed("t", "lost"));
    assert NoticesOf(s1, "t") == [Notice(WatchId("t"), "lost")];
    var s2 := Apply(s1, WatchRecovered("t"));
    assert NoticesOf(s2, "t") == [] by { assert NoticesOf(s1, "t")[0].id == WatchId("t"); }
    var s3 := Apply(s2, Prune("t"));
    assert After(s2, [Prune("t")]) == s3;
    assert After(s1, [WatchRecovered("t"), Prune("t")]) == s3;
  }

  const Noticed := Initial.(link := Link(1, true), notices := map["t" := [Notice(WatchId("t"), "lost")]],
    revisions := Revisions(1, 0, map["t" := 1]))

  const Lost := Noticed.(link := Link(1, false), revisions := Revisions(2, 2, map[]))

  lemma NoticeSurvives()
    ensures IsRun(Initial, [Connect, WatchFailed("t", "lost"), Disconnect(1)])
    ensures After(Initial, [Connect, WatchFailed("t", "lost"), Disconnect(1)]) == Lost
  {
    var s1 := Apply(Initial, Connect);
    var s2 := Apply(s1, WatchFailed("t", "lost"));
    assert NoticesOf(s1, "t") == [] && [] + [Notice(WatchId("t"), "lost")] == [Notice(WatchId("t"), "lost")];
    assert s2 == Noticed;
    assert Apply(s2, Disconnect(1)) == Lost;
    assert After(s2, [Disconnect(1)]) == Lost;
    assert After(s1, [WatchFailed("t", "lost"), Disconnect(1)]) == Lost;
  }

  /** A notice survives a lost connection, and is gone once its watch recovered and the thread was pruned: the
      revision is the same, and the prompts are not. */
  lemma SameRevisionOtherPrompts()
    ensures var before := [Connect, WatchFailed("t", "lost"), Disconnect(1)];
            var during := [WatchRecovered("t"), Prune("t")];
            && IsRun(Initial, before) && IsRun(After(Initial, before), during)
            && var s, t := After(Initial, before), After(After(Initial, before), during);
               PendingRevision(s, "t") == PendingRevision(t, "t") && PromptsOf(s, "t") != PromptsOf(t, "t")
  {
    NoticeSurvives();
    assert NoticesOf(Lost, "t")[0].id == WatchId("t");
    var t1 := Apply(Lost, WatchRecovered("t"));
    assert NoticesOf(t1, "t") == [];
    var t := Apply(t1, Prune("t"));
    assert After(t1, [Prune("t")]) == t;
    assert PromptsOf(Lost, "t").notices != PromptsOf(t, "t").notices;
  }
}
