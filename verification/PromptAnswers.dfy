/** What every step does to the prompts that a page shows, and exactly when an answer is handed to the connection's
    writer (codex/client.go:1234-1310, 1424-1661, 1871-1987, 2118-2182). */
module PromptAnswers {
  import opened Prelude
  import opened PromptOffers

  // ---------------------------------------------------------------------------------------------
  // Who holds an offer

  /** The offer that a responder claimed is still pending. */
  predicate Pending(s: State, r: Responder) { r.id in s.requests && s.requests[r.id].token == r.offer.token }

  /** The offer is resolved, or its connection is dropped. */
  predicate Withdraws(s: State, step: Step, id: string, generation: nat) {
    || step == Resolve(id, generation) || step == Disconnect(generation)
    || (step.Break? && step.responder in s.responders && s.responders[step.responder].offer.generation == generation)
  }

  /** The responder does not go on itself. */
  predicate Waits(step: Step, k: nat) { !(step.WriteAnswer? || step.Abandon?) || step.responder != k }

  lemma HolderStays(s: State, step: Step, k: nat)
    requires Enabled(s, step) && k in s.responders && s.responders[k].stage.Holding? && Waits(step, k)
    ensures k in Apply(s, step).responders && Apply(s, step).responders[k] == s.responders[k]
  {
    if Quiet(step) { QuietStep(s, step); }
  }

  /** Steps of responders. */
  predicate Responds(step: Step) { step.WriteAnswer? || step.Abandon? || step.Break? || step.Release? }

  lemma PendingResponds(s: State, step: Step, k: nat)
    requires Inv(s) && Enabled(s, step) && k in s.responders && Responds(step) && step.responder != k
    ensures var r := s.responders[k];
            Pending(Apply(s, step), r) <==> Pending(s, r) && !Withdraws(s, step, r.id, r.offer.generation)
  {
    var r := s.responders[k];
    assert OfferAt(s, r.id) && HolderAt(s, k, r.id);
    assert HoldersDiffer(s, k, step.responder) && HolderAt(s, step.responder, r.id);
  }

  lemma PendingOther(s: State, step: Step, k: nat)
    requires Inv(s) && Enabled(s, step) && k in s.responders && !Responds(step) && !Quiet(step)
    ensures var r := s.responders[k];
            Pending(Apply(s, step), r) <==> Pending(s, r) && !Withdraws(s, step, r.id, r.offer.generation)
  {
    var r := s.responders[k];
    assert OfferAt(s, r.id) && HolderKnown(s, k) && HolderAt(s, k, r.id);
  }

  lemma PendingStep(s: State, step: Step, k: nat)
    requires Inv(s) && Enabled(s, step) && k in s.responders && s.responders[k].stage.Holding? && Waits(step, k)
    ensures var r := s.responders[k];
            Pending(Apply(s, step), r) <==> Pending(s, r) && !Withdraws(s, step, r.id, r.offer.generation)
  {
    if Responds(step) {
      PendingResponds(s, step, k);
    } else if Quiet(step) {
      QuietStep(s, step);
    } else {
      PendingOther(s, step, k);
    }
  }

  predicate WithdrawnAlong(s: State, steps: seq<Step>, id: string, generation: nat)
    requires IsRun(s, steps)
    decreases |steps|
  {
    steps != []
    && (Withdraws(s, steps[0], id, generation) || WithdrawnAlong(Apply(s, steps[0]), steps[1..], id, generation))
  }

  predicate AllWait(steps: seq<Step>, k: nat) { forall i :: 0 <= i < |steps| ==> Waits(steps[i], k) }

  lemma {:induction false} PendingAlong(s: State, steps: seq<Step>, k: nat)
    requires Inv(s) && IsRun(s, steps) && AllWait(steps, k) && k in s.responders && s.responders[k].stage.Holding?
    ensures var r, t := s.responders[k], After(s, steps);
            && Inv(t) && k in t.responders && t.responders[k] == r
            && (Pending(t, r) <==> Pending(s, r) && !WithdrawnAlong(s, steps, r.id, r.offer.generation))
    decreases |steps|
  {
    if steps != [] {
      StepKeeps(s, steps[0]);
      HolderStays(s, steps[0], k);
      PendingStep(s, steps[0], k);
      PendingAlong(Apply(s, steps[0]), steps[1..], k);
    }
  }

  // ---------------------------------------------------------------------------------------------
  // Claims

  /** The offer is shown for the thread and, if the caller names a token, is the one meant. */
  predicate Offered(s: State, id: string, thread: string, token: Option<nat>) {
    id in PromptsOf(s, thread).offers && (token.Some? ==> PromptsOf(s, thread).offers[id].token == token.value)
  }

  /** A claim succeeds. */
  predicate Takes(s: State, step: Step) {
    || (step.Claim? && Offered(s, step.id, step.thread, step.token))
    || (step.ClaimAutomatically? && Offered(s, step.id, step.thread, Some(step.answered))
        && PromptsOf(s, step.thread).offers[step.id].automatic && !PromptsOf(s, step.thread).offers[step.id].snoozed)
  }

  /** A claim succeeds exactly for an offer that is shown; then it is shown no more and its claimer holds it. */
  lemma ClaimExactlyWhen(s: State, step: Step)
    requires Enabled(s, step) && (step.Claim? || step.ClaimAutomatically?)
    ensures if Takes(s, step) then
              var offer := PromptsOf(s, step.thread).offers[step.id];
              && Apply(s, step).responders ==
                   s.responders[step.responder := Responder(step.id, offer.(claimed := true), Holding)]
              && Apply(s, step).requests == s.requests[step.id := offer.(claimed := true)]
            else Apply(s, step) == s
  {
  }

  lemma ClaimHides(s: State, step: Step, thread: string)
    requires Enabled(s, step) && (step.Claim? || step.ClaimAutomatically?) && Takes(s, step)
    ensures PromptsOf(Apply(s, step), thread) ==
              if thread == step.thread then PromptsOf(s, thread).(offers := PromptsOf(s, thread).offers - {step.id})
              else PromptsOf(s, thread)
  {
    var t := Apply(s, step);
    if thread != step.thread {
      assert forall id :: SameAt(s, t, thread, id);
      SamePrompts(s, t, thread);
    }
  }

  /** Whoever holds an offer writes exactly when it is still pending. */
  lemma WriteExactlyWhen(t: State, k: nat, outcome: WriteOutcome)
    requires Inv(t) && Enabled(t, WriteAnswer(k, outcome)) && (outcome.Sent? || outcome.SendFailed?)
    ensures var r, u := t.responders[k], Apply(t, WriteAnswer(k, outcome));
            if Pending(t, r) then
              && u.answers == t.answers + [Answer(r.offer.token, r.offer.generation, r.offer.generation)]
              && u.requests == if outcome.Sent? then t.requests - {r.id} else t.requests
            else u.answers == t.answers && u.requests == t.requests
  {
    var r := t.responders[k];
    assert OfferAt(t, r.id) && HolderAt(t, k, r.id);
  }

  /** Over every run: the answer of whoever claimed an offer is handed to the writer, once and with the token and on the
      connection of that offer, if and only if the offer was neither resolved nor its connection dropped since.  An
      answer that was sent takes the offer away. */
  lemma AnswerIsWrittenExactlyWhen(before: seq<Step>, claim: Step, during: seq<Step>, outcome: WriteOutcome)
    requires IsRun(Initial, before) && (claim.Claim? || claim.ClaimAutomatically?)
    requires Enabled(After(Initial, before), claim) && Takes(After(Initial, before), claim)
    requires IsRun(Apply(After(Initial, before), claim), during) && AllWait(during, claim.responder)
    requires outcome.Sent? || outcome.SendFailed?
    ensures var s, k := After(Initial, before), claim.responder;
            var offer, held := PromptsOf(s, claim.thread).offers[claim.id], Apply(s, claim);
            var t := After(held, during);
            && Enabled(t, WriteAnswer(k, outcome))
            && var u := Apply(t, WriteAnswer(k, outcome));
               if WithdrawnAlong(held, during, claim.id, offer.generation) then
                 u.answers == t.answers && u.requests == t.requests
               else
                 && u.answers == t.answers + [Answer(offer.token, offer.generation, offer.generation)]
                 && u.requests == if outcome.Sent? then t.requests - {claim.id} else t.requests
  {
    var s, k := After(Initial, before), claim.responder;
    var held := Apply(s, claim);
    RunKeeps(Initial, before);
    StepKeeps(s, claim);
    ClaimExactlyWhen(s, claim);
    assert OfferAt(s, claim.id);
    assert held.responders[k].stage.Holding? && Pending(held, held.responders[k]);
    PendingAlong(held, during, k);
    WriteExactlyWhen(After(held, during), k, outcome);
  }

  /** What becomes of a responder: after a full write it is done; when there was no writer, or it failed, the
      connection is dropped next; and otherwise the offer is given back, with the connection left alone. */
  lemma WriteLeads(t: State, k: nat, outcome: WriteOutcome)
    requires Inv(t) && Enabled(t, WriteAnswer(k, outcome))
    ensures var r, u := t.responders[k], Apply(t, WriteAnswer(k, outcome));
            && u.link == t.link && (k !in u.responders <==> Pending(t, r) && outcome.Sent?)
            && (k in u.responders ==>
                  (u.responders[k].stage == Breaking <==> Pending(t, r) && (outcome.NoWriter? || outcome.SendFailed?))
                  && (u.responders[k].stage == Releasing <==> !Pending(t, r) || outcome.Cancelled?))
            && (outcome.Cancelled? || outcome.NoWriter? ==> u.answers == t.answers)
  {
    var r := t.responders[k];
    assert OfferAt(t, r.id) && HolderAt(t, k, r.id);
  }

  /** And an offer that was answered is shown for no thread any more. */
  lemma AnsweredIsGone(before: seq<Step>, k: nat, thread: string)
    requires IsRun(Initial, before) && Enabled(After(Initial, before), WriteAnswer(k, Sent))
    ensures var t := After(Initial, before);
            var offer, u := t.responders[k].offer, Apply(t, WriteAnswer(k, Sent));
            forall id :: id in PromptsOf(u, thread).offers ==> PromptsOf(u, thread).offers[id].token != offer.token
  {
    RunKeeps(Initial, before);
    var t := After(Initial, before);
    StepKeeps(t, WriteAnswer(k, Sent));
    var u := Apply(t, WriteAnswer(k, Sent));
    forall id | id in PromptsOf(u, thread).offers
      ensures PromptsOf(u, thread).offers[id].token != t.responders[k].offer.token
    {
      assert HolderAt(t, k, id);
    }
  }

  // ---------------------------------------------------------------------------------------------
  // What the other steps show

  /** An offer that comes on the present connection and is not pending already is admitted, under a new token. */
  predicate Admits(s: State, step: Step) {
    step.Admit? && s.link == Link(step.generation, true) && step.id !in s.requests
  }

  function NewOffer(s: State, step: Step): Offer
    requires step.Admit?
  {
    Offer(s.tokens, step.generation, step.thread, step.body, step.automatic, step.userInput, false, false)
  }

  lemma AdmitExactlyWhen(s: State, step: Step)
    requires Inv(s) && step.Admit? && Enabled(s, step)
    ensures Apply(s, step).requests ==
              if Admits(s, step) then s.requests[step.id := NewOffer(s, step)] else s.requests
    ensures Apply(s, step).link == s.link && Apply(s, step).notices == s.notices
    ensures Apply(s, step).tokens == if Admits(s, step) then s.tokens + 1 else s.tokens
  {
    assert OfferAt(s, step.id);
  }

  /** An offer is shown from its admission on. */
  lemma AdmitShows(s: State, step: Step, thread: string)
    requires Inv(s) && step.Admit? && Enabled(s, step)
    ensures var p, q := PromptsOf(s, thread), PromptsOf(Apply(s, step), thread);
            q == if Admits(s, step) && thread == step.thread then p.(offers := p.offers[step.id := NewOffer(s, step)])
                 else p
  {
    var t := Apply(s, step);
    AdmitExactlyWhen(s, step);
    if Admits(s, step) && thread != step.thread {
      assert forall id :: SameAt(s, t, thread, id);
      SamePrompts(s, t, thread);
    }
  }

  /** A question that is shown can be put off once, and stays shown. */
  lemma SnoozeExactlyWhen(s: State, step: Step, thread: string)
    requires step.Snooze? && Enabled(s, step)
    ensures var p, q := PromptsOf(s, thread), PromptsOf(Apply(s, step), thread);
            if thread == step.thread && Offered(s, step.id, thread, step.token) && p.offers[step.id].userInput then
              q == p.(offers := p.offers[step.id := p.offers[step.id].(snoozed := true)])
            else q == p
  {
    var t := Apply(s, step);
    if thread != step.thread || !Offered(s, step.id, thread, step.token) {
      assert forall id :: SameAt(s, t, thread, id);
      SamePrompts(s, t, thread);
    }
  }

  /** An offer whose answer was not written is shown again, exactly if it is still pending. */
  lemma ReleaseShowsExactlyWhen(s: State, k: nat)
    requires Inv(s) && Enabled(s, Release(k))
    ensures var r, q := s.responders[k], PromptsOf(Apply(s, Release(k)), s.responders[k].offer.thread);
            (r.id in q.offers && q.offers[r.id].token == r.offer.token) <==> Pending(s, r)
    ensures k !in Apply(s, Release(k)).responders
  {
    var r := s.responders[k];
    assert OfferAt(s, r.id) && HolderAt(s, k, r.id);
  }

  /** A resolved offer is gone, and no other. */
  lemma ResolveTakes(s: State, step: Step)
    requires step.Resolve? && Enabled(s, step)
    ensures Apply(s, step).requests ==
              if step.id in s.requests && s.requests[step.id].generation == step.generation then s.requests - {step.id}
              else s.requests
  {
  }

  /** Losing the present connection takes every offer away; losing an older one takes none. */
  lemma DisconnectTakes(s: State, generation: nat)
    requires Inv(s)
    ensures Apply(s, Disconnect(generation)).requests ==
              if s.link == Link(generation, true) then map[] else s.requests
  {
    var t := Apply(s, Disconnect(generation));
    if s.link == Link(generation, true) {
      forall id ensures id !in t.requests { assert OfferAt(s, id); }
    }
  }

  /** The notices of rejected requests, in order. */
  function Rejections(notices: seq<Notice>, thread: string): seq<Notice> {
    if notices == [] then []
    else (if notices[0].id == WatchId(thread) then [] else [notices[0]]) + Rejections(notices[1..], thread)
  }

  function WatchCount(notices: seq<Notice>, thread: string): nat {
    if notices == [] then 0 else (if notices[0].id == WatchId(thread) then 1 else 0) + WatchCount(notices[1..], thread)
  }

  /** The same notices, apart from what those about the watch say. */
  predicate SameButWatch(a: seq<Notice>, b: seq<Notice>, thread: string) {
    |a| == |b| && forall i :: 0 <= i < |a| ==> a[i].id == b[i].id && (a[i].id != WatchId(thread) ==> a[i] == b[i])
  }

  lemma {:induction false} SameRejections(a: seq<Notice>, b: seq<Notice>, thread: string)
    requires SameButWatch(a, b, thread)
    ensures Rejections(a, thread) == Rejections(b, thread)
    decreases |a|
  {
    if a != [] {
      assert forall i :: 0 <= i < |a| - 1 ==> a[1..][i] == a[i + 1] && b[1..][i] == b[i + 1];
      SameRejections(a[1..], b[1..], thread);
    }
  }

  lemma {:induction false} RejectionsAppend(a: seq<Notice>, n: Notice, thread: string)
    requires n.id == WatchId(thread)
    ensures Rejections(a + [n], thread) == Rejections(a, thread)
    decreases |a|
  {
    if a == [] {
      assert a + [n] == [n] && [n][1..] == [];
    } else {
      assert (a + [n])[0] == a[0] && (a + [n])[1..] == a[1..] + [n];
      RejectionsAppend(a[1..], n, thread);
    }
  }

  /** A watch that fails is shown with its latest reason, and no rejection is lost. */
  lemma WatchFailedShows(s: State, thread: string, text: string)
    ensures var left := NoticesOf(Apply(s, WatchFailed(thread, text)), thread);
            && (exists i :: 0 <= i < |left| && left[i] == Notice(WatchId(thread), text))
            && (forall i :: 0 <= i < |left| && left[i].id == WatchId(thread) ==> left[i].text == text)
            && Rejections(left, thread) == Rejections(NoticesOf(s, thread), thread)
  {
    var all, left := NoticesOf(s, thread), NoticesOf(Apply(s, WatchFailed(thread, text)), thread);
    var n := Notice(WatchId(thread), text);
    if i :| 0 <= i < |all| && all[i].id == WatchId(thread) {
      assert left[i] == n;
      SameRejections(all, left, thread);
    } else {
      assert left == all + [n] && left[|all|] == n;
      RejectionsAppend(all, n, thread);
    }
  }

  lemma {:induction false} ClearedTakesOne(notices: seq<Notice>, thread: string)
    ensures Rejections(Cleared(notices, WatchId(thread)), thread) == Rejections(notices, thread)
    ensures WatchCount(Cleared(notices, WatchId(thread)), thread) == Max(0, WatchCount(notices, thread) - 1)
    decreases |notices|
  {
    if notices != [] && notices[0].id != WatchId(thread) {
      ClearedTakesOne(notices[1..], thread);
      var r := Cleared(notices, WatchId(thread));
      assert r[0] == notices[0] && r[1..] == Cleared(notices[1..], WatchId(thread));
    }
  }

  lemma {:induction false} NoneToTake(notices: seq<Notice>, thread: string)
    requires forall i :: 0 <= i < |notices| ==> notices[i].id != WatchId(thread)
    ensures WatchCount(notices, thread) == 0
    decreases |notices|
  {
    if notices != [] {
      assert forall i :: 0 <= i < |notices| - 1 ==> notices[1..][i] == notices[i + 1];
      NoneToTake(notices[1..], thread);
    }
  }

  /** A watch that recovers takes its notice away, and no rejection. */
  lemma WatchRecoveredTakes(s: State, thread: string)
    ensures var all, left := NoticesOf(s, thread), NoticesOf(Apply(s, WatchRecovered(thread)), thread);
            && Rejections(left, thread) == Rejections(all, thread)
            && WatchCount(left, thread) == Max(0, WatchCount(all, thread) - 1)
  {
    var all := NoticesOf(s, thread);
    if exists i :: 0 <= i < |all| && all[i].id == WatchId(thread) {
      ClearedTakesOne(all, thread);
    } else {
      NoneToTake(all, thread);
    }
  }

  /** A rejected request leaves its notice last, and the last twenty notices stay. */
  lemma RejectAppends(s: State, step: Step)
    requires step.Reject? && Enabled(s, step)
    ensures var all, left := NoticesOf(s, step.thread) + [step.notice], NoticesOf(Apply(s, step), step.thread);
            |left| == Min(20, |all|) && left == all[|all| - |left|..]
  {
  }

  /** Watchers are counted thread by thread, and nothing else changes with them. */
  lemma WatchersExactly(s: State, step: Step, thread: string)
    requires Enabled(s, step) && (step.Watch? || step.Unwatch?)
    ensures var before := if thread in s.watched then s.watched[thread] else 0;
            var now := if thread in Apply(s, step).watched then Apply(s, step).watched[thread] else 0;
            && now == before + (if thread != step.thread then 0 else if step.Watch? then 1 else -1)
            && Apply(s, step) == s.(watched := Apply(s, step).watched)
            && (IsWatched(s, thread) <==> before > 0)
  {
  }
}
