/** Prompt offers (codex/client.go:1234-1310, 1424-1661, 1871-1987, 2118-2182): the server asks, and a person, a
    decision or a timer answers.  One atomic step per critical section; any number of responders,
    readers and reconnects interleave. */
module PromptOffers {
  import opened Prelude

  /** A pending request.  Its token is drawn at random when it is admitted: no two admissions share one. */
  datatype Offer = Offer(token: nat, generation: nat, thread: string, body: string, automatic: bool, userInput: bool,
    claimed: bool, snoozed: bool)

  datatype Stage = Holding | Breaking | Releasing

  /** Someone who claimed an offer and is on the way to answering it. */
  datatype Responder = Responder(id: string, offer: Offer, stage: Stage)

  /** Response bytes handed to the connection's writer. */
  datatype Answer = Answer(token: nat, offered: nat, on: nat)

  datatype Notice = Notice(id: string, text: string)

  datatype Revisions = Revisions(sequence: nat, reset: nat, threads: map<string, nat>)

  datatype Link = Link(generation: nat, connected: bool)

  /** What the locks protect, and the answers written so far. */
  datatype State = State(
    link: Link, requests: map<string, Offer>, notices: map<string, seq<Notice>>, revisions: Revisions,
      watched: map<string, nat>,
    tokens: nat, responders: map<nat, Responder>, answers: seq<Answer>)

  const NoticeLimit := 20

  datatype WriteOutcome = Cancelled | NoWriter | SendFailed | Sent

  datatype Step =
    | Connect
    | Disconnect(generation: nat)
    | Admit(id: string, generation: nat, thread: string, body: string, automatic: bool, userInput: bool)
    | Claim(responder: nat, id: string, thread: string, token: Option<nat>)
    | ClaimAutomatically(responder: nat, id: string, thread: string, answered: nat)
    | Snooze(id: string, thread: string, token: Option<nat>)
    | WriteAnswer(responder: nat, outcome: WriteOutcome)
    | Abandon(responder: nat)
    | Break(responder: nat)
    | Release(responder: nat)
    | Resolve(id: string, generation: nat)
    | Reject(thread: string, notice: Notice)
    | WatchFailed(thread: string, text: string)
    | WatchRecovered(thread: string)
    | Watch(thread: string)
    | Unwatch(thread: string)
    | Prune(thread: string)

  // ---------------------------------------------------------------------------------------------
  // Revisions

  /** The token a client compares to know whether its list of prompts is stale. */
  function PendingRevision(s: State, thread: string): nat {
    var own := if thread in s.revisions.threads then s.revisions.threads[thread] else 0;
    if own < s.revisions.reset then s.revisions.reset else own
  }

  function Bump(r: Revisions, thread: string): Revisions {
    if thread == "" then r else Revisions(r.sequence + 1, r.reset, r.threads[thread := r.sequence + 1])
  }

  function Reset(r: Revisions): Revisions { Revisions(r.sequence + 1, r.sequence + 1, map[]) }

  function NoticesOf(s: State, thread: string): seq<Notice> { if thread in s.notices then s.notices[thread] else [] }

  predicate IsWatched(s: State, thread: string) { thread in s.watched && s.watched[thread] > 0 }

  /** The prompts of a thread: its notices, and its offers that nobody has claimed. */
  datatype Prompts = Prompts(notices: seq<Notice>, offers: map<string, Offer>)

  predicate Visible(s: State, id: string, thread: string)
    requires id in s.requests
  {
    var r := s.requests[id];
    !r.claimed && r.generation == s.link.generation && s.link.connected && r.thread == thread
  }

  function PromptsOf(s: State, thread: string): Prompts {
    Prompts(NoticesOf(s, thread), map id | id in s.requests && Visible(s, id, thread) :: s.requests[id])
  }

  // ---------------------------------------------------------------------------------------------
  // Steps

  predicate Current(s: State, r: Offer) { r.generation == s.link.generation && s.link.connected }

  predicate Claimable(s: State, id: string, thread: string, token: Option<nat>) {
    && id in s.requests && !s.requests[id].claimed && Current(s, s.requests[id])
    && (token.Some? ==> s.requests[id].token == token.value)
    && s.requests[id].thread == thread
  }

  function ClaimStep(s: State, responder: nat, id: string): State
    requires id in s.requests
  {
    var r := s.requests[id].(claimed := true);
    s.(requests := s.requests[id := r], revisions := Bump(s.revisions, r.thread),
      responders := s.responders[responder := Responder(id, r, Holding)])
  }

  /** The connection of a generation is lost: its offers go with it. */
  function Detach(s: State, generation: nat): State {
    if !s.link.connected || s.link.generation != generation then s else
    s.(link := s.link.(connected := false), revisions := Reset(s.revisions),
       requests := map id | id in s.requests && s.requests[id].generation != generation :: s.requests[id])
  }

  function StageStep(s: State, responder: nat, stage: Stage): State
    requires responder in s.responders
  {
    s.(responders := s.responders[responder := s.responders[responder].(stage := stage)])
  }

  /** The write lock is held from the check of the claim until the bytes are written. */
  predicate MayWrite(s: State, r: Responder) {
    && Current(s, r.offer) && r.id in s.requests && s.requests[r.id].claimed
    && s.requests[r.id].token == r.offer.token
    && s.requests[r.id].generation == r.offer.generation
  }

  function WriteStep(s: State, responder: nat, outcome: WriteOutcome): State
    requires responder in s.responders
  {
    var r := s.responders[responder];
    if !MayWrite(s, r) || outcome.Cancelled? then StageStep(s, responder, Releasing)
    else if outcome.NoWriter? then StageStep(s, responder, Breaking)
    else
      var t := s.(answers := s.answers + [Answer(r.offer.token, r.offer.generation, s.link.generation)]);
      if outcome.SendFailed? then StageStep(t, responder, Breaking)
      else t.(requests := t.requests - {r.id}, revisions := Bump(t.revisions, r.offer.thread),
        responders := t.responders - {responder})
  }

  function ReleaseStep(s: State, responder: nat): State
    requires responder in s.responders
  {
    var r := s.responders[responder];
    var t := s.(responders := s.responders - {responder});
    if r.id in s.requests && s.requests[r.id].generation == r.offer.generation
      && s.requests[r.id].token == r.offer.token then
      t.(requests := t.requests[r.id := t.requests[r.id].(claimed := false)],
        revisions := Bump(t.revisions, r.offer.thread))
    else
      t
  }

  function Noted(s: State, thread: string, notices: seq<Notice>): State {
    s.(notices := s.notices[thread := notices], revisions := Bump(s.revisions, thread))
  }

  function Last(notices: seq<Notice>): seq<Notice> {
    if |notices| > NoticeLimit then notices[|notices| - NoticeLimit..] else notices
  }

  function WatchId(thread: string): string { "watch:" + thread }

  function Replaced(notices: seq<Notice>, n: Notice): seq<Notice> {
    if exists i :: 0 <= i < |notices| && notices[i].id == n.id
    then seq(|notices|, i requires 0 <= i < |notices| => if notices[i].id == n.id then n else notices[i])
    else notices + [n]
  }

  /** Without the first notice of that id. */
  function Cleared(notices: seq<Notice>, id: string): seq<Notice> {
    if notices == [] then [] else if notices[0].id == id then notices[1..] else [notices[0]] + Cleared(notices[1..], id)
  }

  function Pruned(s: State, thread: string): State {
    if IsWatched(s, thread) || NoticesOf(s, thread) != []
      || (exists id :: id in s.requests && s.requests[id].thread == thread) then s
    else s.(revisions := s.revisions.(threads := s.revisions.threads - {thread}))
  }

  /** The notice of a rejected request has its id, which is JSON text and so never that of a watch. */
  predicate Enabled(s: State, step: Step) {
    match step
    case Connect => !s.link.connected
    case Admit(_, _, thread, _, _, _) => thread != ""
    case Claim(k, _, _, _) => k !in s.responders
    case ClaimAutomatically(k, _, _, _) => k !in s.responders
    case WriteAnswer(k, _) => k in s.responders && s.responders[k].stage.Holding?
    case Abandon(k) => k in s.responders && s.responders[k].stage.Holding?
    case Break(k) => k in s.responders && s.responders[k].stage.Breaking?
    case Release(k) => k in s.responders && s.responders[k].stage.Releasing?
    case Reject(thread, notice) => thread != "" && notice.id != WatchId(thread)
    case Unwatch(thread) => IsWatched(s, thread)
    case _ => true
  }

  function Apply(s: State, step: Step): State
    requires Enabled(s, step)
  {
    match step
    case Connect => s.(link := Link(s.link.generation + 1, true))
    case Disconnect(generation) => Detach(s, generation)
    case Admit(id, generation, thread, body, automatic, userInput) =>
      if !s.link.connected || generation != s.link.generation
        || (id in s.requests && s.requests[id].generation == generation) then s
      else
        s.(requests := s.requests[id := Offer(s.tokens, generation, thread, body, automatic, userInput, false, false)],
           revisions := Bump(s.revisions, thread), tokens := s.tokens + 1)
    case Claim(k, id, thread, token) => if Claimable(s, id, thread, token) then ClaimStep(s, k, id) else s
    case ClaimAutomatically(k, id, thread, token) =>
      if Claimable(s, id, thread, Some(token)) && s.requests[id].automatic
        && !s.requests[id].snoozed then ClaimStep(s, k, id) else s
    case Snooze(id, thread, token) =>
      if Claimable(s, id, thread, token) && s.requests[id].userInput && !s.requests[id].snoozed then
        s.(requests := s.requests[id := s.requests[id].(snoozed := true)], revisions := Bump(s.revisions, thread))
      else s
    case WriteAnswer(k, outcome) => WriteStep(s, k, outcome)
    case Abandon(k) => StageStep(s, k, Releasing)
    case Break(k) => StageStep(Detach(s, s.responders[k].offer.generation), k, Releasing)
    case Release(k) => ReleaseStep(s, k)
    case Resolve(id, generation) =>
      if id in s.requests && s.requests[id].generation == generation then
        s.(requests := s.requests - {id}, revisions := Bump(s.revisions, s.requests[id].thread))
      else s
    case Reject(thread, notice) => Noted(s, thread, Last(NoticesOf(s, thread) + [notice]))
    case WatchFailed(thread, text) => Noted(s, thread, Replaced(NoticesOf(s, thread), Notice(WatchId(thread), text)))
    case WatchRecovered(thread) =>
      var notices := NoticesOf(s, thread);
      if exists i :: 0 <= i < |notices| && notices[i].id == WatchId(thread)
      then Noted(s, thread, Cleared(notices, WatchId(thread)))
      else s
    case Watch(thread) => s.(watched := s.watched[thread := (if thread in s.watched then s.watched[thread] else 0) + 1])
    case Unwatch(thread) => s.(watched := s.watched[thread := s.watched[thread] - 1])
    case Prune(thread) => Pruned(s, thread)
  }

  const Initial := State(Link(0, false), map[], map[], Revisions(0, 0, map[]), map[], 0, map[], [])

  // ---------------------------------------------------------------------------------------------
  // Invariants

  /** Every offer is one of the present connection, and was given its own token. */
  predicate OfferAt(s: State, id: string) {
    id in s.requests ==> Current(s, s.requests[id]) && s.requests[id].token < s.tokens && s.requests[id].thread != ""
  }

  predicate OffersDiffer(s: State, a: string, b: string) {
    a in s.requests && b in s.requests && a != b ==> s.requests[a].token != s.requests[b].token
  }

  /** A responder's offer, while it is there, is the one it claimed. */
  predicate HolderAt(s: State, k: nat, id: string) {
    k in s.responders && id in s.requests && s.requests[id].token == s.responders[k].offer.token ==>
      id == s.responders[k].id && s.requests[id].claimed
        && s.requests[id].generation == s.responders[k].offer.generation
      && s.requests[id].thread == s.responders[k].offer.thread
  }

  predicate HoldersDiffer(s: State, a: nat, b: nat) {
    a in s.responders && b in s.responders && a != b ==> s.responders[a].offer.token != s.responders[b].offer.token
  }

  predicate HolderKnown(s: State, k: nat) {
    k in s.responders ==> s.responders[k].offer.token < s.tokens && s.responders[k].offer.thread != ""
  }

  /** Once its bytes were written, an offer is gone, or stays claimed until its connection is dropped. */
  predicate AnswerAt(s: State, i: nat, id: string) {
    i < |s.answers| ==>
      && s.answers[i].token < s.tokens && s.answers[i].offered == s.answers[i].on
      && (id in s.requests && s.requests[id].token == s.answers[i].token ==> s.requests[id].claimed)
  }

  predicate AnswerBy(s: State, i: nat, k: nat, id: string) {
    i < |s.answers| && k in s.responders && s.responders[k].offer.token == s.answers[i].token ==>
      && !s.responders[k].stage.Holding?
      && (s.responders[k].stage.Releasing? && id in s.requests ==> s.requests[id].token != s.answers[i].token)
  }

  predicate AnswersDiffer(s: State, i: nat, j: nat) { i < j < |s.answers| ==> s.answers[i].token != s.answers[j].token }

  ghost predicate Inv(s: State) {
    && (forall id :: OfferAt(s, id))
    && (forall a, b :: OffersDiffer(s, a, b))
    && (forall k :: HolderKnown(s, k))
    && (forall k, id :: HolderAt(s, k, id))
    && (forall a, b :: HoldersDiffer(s, a, b))
    && (forall i, id :: AnswerAt(s, i, id))
    && (forall i, k, id :: AnswerBy(s, i, k, id))
    && (forall i, j :: AnswersDiffer(s, i, j))
  }

  // ---------------------------------------------------------------------------------------------
  // Every step keeps the invariant

  /** Steps about notices and watches leave offers, responders and answers alone. */
  predicate Quiet(step: Step) {
    step.Reject? || step.WatchFailed? || step.WatchRecovered? || step.Watch? || step.Unwatch? || step.Prune?
  }

  predicate SameOffers(s: State, t: State) {
    t.link == s.link && t.requests == s.requests && t.tokens == s.tokens && t.responders == s.responders
      && t.answers == s.answers
  }

  lemma QuietStep(s: State, step: Step)
    requires Enabled(s, step) && Quiet(step)
    ensures SameOffers(s, Apply(s, step))
  {
  }

  lemma QuietKeeps(s: State, t: State)
    requires Inv(s) && SameOffers(s, t)
    ensures Inv(t)
  {
    forall id ensures OfferAt(t, id) { assert OfferAt(s, id); }
    forall a, b ensures OffersDiffer(t, a, b) { assert OffersDiffer(s, a, b); }
    forall k ensures HolderKnown(t, k) { assert HolderKnown(s, k); }
    forall k, id ensures HolderAt(t, k, id) { assert HolderAt(s, k, id); }
    forall a, b ensures HoldersDiffer(t, a, b) { assert HoldersDiffer(s, a, b); }
    forall i, id ensures AnswerAt(t, i, id) { assert AnswerAt(s, i, id); }
    forall i, k, id ensures AnswerBy(t, i, k, id) { assert AnswerBy(s, i, k, id); }
    forall i, j ensures AnswersDiffer(t, i, j) { assert AnswersDiffer(s, i, j); }
  }

  lemma OfferStep(s: State, step: Step, id: string)
    requires Inv(s) && Enabled(s, step) && !Quiet(step)
    ensures OfferAt(Apply(s, step), id)
  {
    assert OfferAt(s, id);
  }

  lemma OffersDifferStep(s: State, step: Step, a: string, b: string)
    requires Inv(s) && Enabled(s, step) && !Quiet(step)
    ensures OffersDiffer(Apply(s, step), a, b)
  {
    assert OffersDiffer(s, a, b) && OfferAt(s, a) && OfferAt(s, b);
  }

  lemma HolderKnownStep(s: State, step: Step, k: nat)
    requires Inv(s) && Enabled(s, step) && !Quiet(step)
    ensures HolderKnown(Apply(s, step), k)
  {
    assert HolderKnown(s, k);
    if step.Claim? || step.ClaimAutomatically? { assert OfferAt(s, step.id); }
  }

  predicate ByResponder(step: Step) { step.Claim? || step.ClaimAutomatically? || step.WriteAnswer? || step.Release? }

  lemma HolderStep(s: State, step: Step, k: nat, id: string)
    requires Inv(s) && Enabled(s, step) && ByResponder(step)
    ensures HolderAt(Apply(s, step), k, id)
  {
    assert HolderAt(s, k, id) && HolderKnown(s, k);
    if step.Claim? || step.ClaimAutomatically? { assert OffersDiffer(s, id, step.id); }
    if step.Release? { assert HoldersDiffer(s, k, step.responder); }
  }

  lemma HolderOtherStep(s: State, step: Step, k: nat, id: string)
    requires Inv(s) && Enabled(s, step) && !Quiet(step) && !ByResponder(step)
    ensures HolderAt(Apply(s, step), k, id)
  {
    assert HolderAt(s, k, id) && HolderKnown(s, k);
  }

  lemma HoldersDifferStep(s: State, step: Step, a: nat, b: nat)
    requires Inv(s) && Enabled(s, step) && !Quiet(step)
    ensures HoldersDiffer(Apply(s, step), a, b)
  {
    assert HoldersDiffer(s, a, b);
    if step.Claim? || step.ClaimAutomatically? { assert HolderAt(s, a, step.id) && HolderAt(s, b, step.id); }
  }

  lemma AnswerStep(s: State, step: Step, i: nat, id: string)
    requires Inv(s) && Enabled(s, step) && !Quiet(step)
    ensures AnswerAt(Apply(s, step), i, id)
  {
    assert AnswerAt(s, i, id) && OfferAt(s, id);
    if step.Release? { assert AnswerBy(s, i, step.responder, id) && HolderAt(s, step.responder, id); }
    if step.WriteAnswer? {
      assert HolderKnown(s, step.responder) && HolderAt(s, step.responder, id)
        && OffersDiffer(s, id, s.responders[step.responder].id);
    }
  }

  lemma AnswerByStep(s: State, step: Step, i: nat, k: nat, id: string)
    requires Inv(s) && Enabled(s, step) && ByResponder(step)
    ensures AnswerBy(Apply(s, step), i, k, id)
  {
    assert AnswerBy(s, i, k, id) && AnswerAt(s, i, id) && HolderKnown(s, k);
    if step.Claim? || step.ClaimAutomatically? { assert AnswerAt(s, i, step.id); }
    if step.WriteAnswer? { assert HoldersDiffer(s, k, step.responder); }
  }

  lemma AnswerByOtherStep(s: State, step: Step, i: nat, k: nat, id: string)
    requires Inv(s) && Enabled(s, step) && !Quiet(step) && !ByResponder(step)
    ensures AnswerBy(Apply(s, step), i, k, id)
  {
    assert AnswerBy(s, i, k, id) && AnswerAt(s, i, id) && OfferAt(s, id) && HolderKnown(s, k) && HolderAt(s, k, id);
  }

  lemma AnswersDifferStep(s: State, step: Step, i: nat, j: nat)
    requires Inv(s) && Enabled(s, step) && !Quiet(step)
    ensures AnswersDiffer(Apply(s, step), i, j)
  {
    assert AnswersDiffer(s, i, j);
    if step.WriteAnswer? { assert AnswerBy(s, i, step.responder, s.responders[step.responder].id); }
  }

  lemma StepKeeps(s: State, step: Step)
    requires Inv(s) && Enabled(s, step)
    ensures Inv(Apply(s, step))
  {
    var t := Apply(s, step);
    if Quiet(step) {
      QuietStep(s, step);
      QuietKeeps(s, t);
      return;
    }
    forall id ensures OfferAt(t, id) { OfferStep(s, step, id); }
    forall a, b ensures OffersDiffer(t, a, b) { OffersDifferStep(s, step, a, b); }
    forall k ensures HolderKnown(t, k) { HolderKnownStep(s, step, k); }
    forall k, id ensures HolderAt(t, k, id) { if ByResponder(step) { HolderStep(s, step, k, id); }
      else { HolderOtherStep(s, step, k, id); } }
    forall a, b ensures HoldersDiffer(t, a, b) { HoldersDifferStep(s, step, a, b); }
    forall i, id ensures AnswerAt(t, i, id) { AnswerStep(s, step, i, id); }
    forall i, k, id ensures AnswerBy(t, i, k, id) {
      if ByResponder(step) { AnswerByStep(s, step, i, k, id); } else { AnswerByOtherStep(s, step, i, k, id); }
    }
    forall i, j ensures AnswersDiffer(t, i, j) { AnswersDifferStep(s, step, i, j); }
  }

  // ---------------------------------------------------------------------------------------------
  // Whole runs

  predicate IsRun(s: State, steps: seq<Step>)
    decreases |steps|
  {
    steps == [] || (Enabled(s, steps[0]) && IsRun(Apply(s, steps[0]), steps[1..]))
  }

  function After(s: State, steps: seq<Step>): State
    requires IsRun(s, steps)
    decreases |steps|
  {
    if steps == [] then s else After(Apply(s, steps[0]), steps[1..])
  }

  lemma {:induction false} RunKeeps(s: State, steps: seq<Step>)
    requires Inv(s) && IsRun(s, steps)
    ensures Inv(After(s, steps))
    decreases |steps|
  {
    if steps != [] {
      StepKeeps(s, steps[0]);
      RunKeeps(Apply(s, steps[0]), steps[1..]);
    }
  }

  /** However answers, timers, resolutions, failures and reconnects interleave: response bytes are handed
      to the writer at most once for an offer, and only on the connection that made it. */
  lemma AtMostOneAnswer(steps: seq<Step>)
    requires IsRun(Initial, steps)
    ensures var answers := After(Initial, steps).answers;
            && (forall i, j :: 0 <= i < j < |answers| ==> answers[i].token != answers[j].token)
            && (forall i :: 0 <= i < |answers| ==> answers[i].on == answers[i].offered)
  {
    RunKeeps(Initial, steps);
    var t := After(Initial, steps);
    forall i, j | 0 <= i < j < |t.answers| ensures t.answers[i].token != t.answers[j].token {
      assert AnswersDiffer(t, i, j);
    }
    forall i | 0 <= i < |t.answers| ensures t.answers[i].on == t.answers[i].offered { assert AnswerAt(t, i, ""); }
  }

  /** An answered offer is never shown again: whatever a thread's prompts list was not answered. */
  lemma ShownIsUnanswered(steps: seq<Step>, thread: string, id: string, i: nat)
    requires IsRun(Initial, steps) && id in PromptsOf(After(Initial, steps), thread).offers
    requires i < |After(Initial, steps).answers|
    ensures PromptsOf(After(Initial, steps), thread).offers[id].token != After(Initial, steps).answers[i].token
  {
    RunKeeps(Initial, steps);
    assert AnswerAt(After(Initial, steps), i, id);
  }

  // ---------------------------------------------------------------------------------------------
  // The pending revision validates the list of prompts

  predicate RevisionAt(s: State, thread: string) {
    s.revisions.reset <= s.revisions.sequence
      && (thread in s.revisions.threads ==> s.revisions.threads[thread] <= s.revisions.sequence)
  }

  /** The revision of a thread that nobody watches, with nothing pending and no notice, is pruned. */
  predicate Lowers(s: State, step: Step, thread: string) {
    && step == Prune(thread) && !IsWatched(s, thread) && NoticesOf(s, thread) == []
    && (forall id :: id in s.requests ==> s.requests[id].thread != thread)
    && thread in s.revisions.threads && s.revisions.threads[thread] > s.revisions.reset
  }

  /** The revision went up, or it and the list of prompts are what they were. */
  predicate Validated(s: State, t: State, thread: string) {
    PendingRevision(t, thread) > PendingRevision(s, thread)
      || (PendingRevision(t, thread) == PendingRevision(s, thread) && PromptsOf(t, thread) == PromptsOf(s, thread))
  }

  lemma RevisionStep(s: State, step: Step, thread: string)
    requires Enabled(s, step) && RevisionAt(s, thread)
    ensures RevisionAt(Apply(s, step), thread)
  {
  }

  lemma BumpRaises(s: State, thread: string)
    requires RevisionAt(s, thread) && thread != ""
    ensures PendingRevision(s.(revisions := Bump(s.revisions, thread)), thread) > PendingRevision(s, thread)
  {
  }

  predicate SameAt(s: State, t: State, thread: string, id: string) {
    var before, after := id in s.requests && Visible(s, id, thread), id in t.requests && Visible(t, id, thread);
    before == after && (before ==> s.requests[id] == t.requests[id])
  }

  lemma SamePrompts(s: State, t: State, thread: string)
    requires NoticesOf(s, thread) == NoticesOf(t, thread) && forall id :: SameAt(s, t, thread, id)
    ensures PromptsOf(s, thread) == PromptsOf(t, thread)
  {
    var a, b := PromptsOf(s, thread).offers, PromptsOf(t, thread).offers;
    forall id ensures (id in a) == (id in b) && (id in a ==> a[id] == b[id]) { assert SameAt(s, t, thread, id); }
    assert a == b;
  }

  /** Offers are changed one thread at a time, and that thread's revision is raised. */
  lemma ChangedThread(s: State, t: State, changed: string, thread: string)
    requires RevisionAt(s, thread) && changed != "" && t.revisions == Bump(s.revisions, changed)
    requires NoticesOf(t, thread) == NoticesOf(s, thread)
    requires thread != changed ==> forall id :: SameAt(s, t, thread, id)
    ensures Validated(s, t, thread)
  {
    if thread == changed { BumpRaises(s, thread); } else { SamePrompts(s, t, thread); }
  }

  lemma DetachValidates(s: State, generation: nat, thread: string)
    requires RevisionAt(s, thread)
    ensures Validated(s, Detach(s, generation), thread)
  {
  }

  lemma WriteValidates(s: State, k: nat, outcome: WriteOutcome, thread: string)
    requires Inv(s) && RevisionAt(s, thread) && k in s.responders
    ensures Validated(s, WriteStep(s, k, outcome), thread)
  {
    var r, t := s.responders[k], WriteStep(s, k, outcome);
    assert HolderKnown(s, k) && HolderAt(s, k, r.id);
    if MayWrite(s, r) && outcome.Sent? {
      ChangedThread(s, t, r.offer.thread, thread);
    } else {
      SamePrompts(s, t, thread);
    }
  }

  lemma ReleaseValidates(s: State, k: nat, thread: string)
    requires Inv(s) && RevisionAt(s, thread) && k in s.responders
    ensures Validated(s, ReleaseStep(s, k), thread)
  {
    var r, t := s.responders[k], ReleaseStep(s, k);
    assert HolderKnown(s, k) && HolderAt(s, k, r.id);
    if t.revisions == s.revisions { SamePrompts(s, t, thread); } else { ChangedThread(s, t, r.offer.thread, thread); }
  }

  lemma OfferValidates(s: State, step: Step, thread: string)
    requires Inv(s) && RevisionAt(s, thread) && Enabled(s, step)
    requires step.Admit? || step.Claim? || step.ClaimAutomatically? || step.Snooze? || step.Resolve?
    ensures Validated(s, Apply(s, step), thread)
  {
    var t := Apply(s, step);
    assert OfferAt(s, step.id);
    if t.revisions == s.revisions {
      SamePrompts(s, t, thread);
    } else {
      ChangedThread(s, t, if step.Admit? then step.thread else s.requests[step.id].thread, thread);
    }
  }

  lemma OtherValidates(s: State, step: Step, thread: string)
    requires Inv(s) && RevisionAt(s, thread) && Enabled(s, step) && !Lowers(s, step, thread) && thread != ""
    requires Quiet(step) || step.Connect? || step.Abandon?
    ensures Validated(s, Apply(s, step), thread)
  {
    var t := Apply(s, step);
    if (step.Reject? || step.WatchFailed? || step.WatchRecovered?) && t.revisions != s.revisions
      && step.thread == thread {
      BumpRaises(s, thread);
    } else {
      forall id ensures SameAt(s, t, thread, id) { assert OfferAt(s, id); }
      SamePrompts(s, t, thread);
    }
  }

  /** A step that neither raises the revision of a thread nor prunes it leaves its list of prompts as it was. */
  lemma StepValidates(s: State, step: Step, thread: string)
    requires Inv(s) && RevisionAt(s, thread) && Enabled(s, step) && !Lowers(s, step, thread) && thread != ""
    ensures Validated(s, Apply(s, step), thread)
  {
    if step.Disconnect? {
      DetachValidates(s, step.generation, thread);
    } else if step.Break? {
      DetachValidates(s, s.responders[step.responder].offer.generation, thread);
      SamePrompts(Detach(s, s.responders[step.responder].offer.generation), Apply(s, step), thread);
    } else if step.WriteAnswer? {
      WriteValidates(s, step.responder, step.outcome, thread);
    } else if step.Release? {
      ReleaseValidates(s, step.responder, thread);
    } else if Quiet(step) || step.Connect? || step.Abandon? {
      OtherValidates(s, step, thread);
    } else {
      OfferValidates(s, step, thread);
    }
  }

  /** The thread is watched before every step. */
  predicate WatchedAlong(s: State, steps: seq<Step>, thread: string)
    requires IsRun(s, steps)
    decreases |steps|
  {
    steps == [] || (IsWatched(s, thread) && WatchedAlong(Apply(s, steps[0]), steps[1..], thread))
  }

  lemma {:induction false} RevisionAlong(s: State, steps: seq<Step>, thread: string)
    requires RevisionAt(s, thread) && IsRun(s, steps)
    ensures RevisionAt(After(s, steps), thread)
    decreases |steps|
  {
    if steps != [] {
      RevisionStep(s, steps[0], thread);
      RevisionAlong(Apply(s, steps[0]), steps[1..], thread);
    }
  }

  lemma {:induction false} ValidatedAlong(s: State, steps: seq<Step>, thread: string)
    requires Inv(s) && RevisionAt(s, thread) && IsRun(s, steps) && WatchedAlong(s, steps, thread) && thread != ""
    ensures Validated(s, After(s, steps), thread)
    decreases |steps|
  {
    if steps != [] {
      StepKeeps(s, steps[0]);
      RevisionStep(s, steps[0], thread);
      StepValidates(s, steps[0], thread);
      ValidatedAlong(Apply(s, steps[0]), steps[1..], thread);
    }
  }

  /** While a thread stays watched its pending revision never goes back, and the same revision at two
      moments means the same list of prompts. */
  lemma RevisionValidatesPrompts(before: seq<Step>, during: seq<Step>, thread: string)
    requires IsRun(Initial, before) && IsRun(After(Initial, before), during)
    requires WatchedAlong(After(Initial, before), during, thread) && thread != ""
    ensures var s := After(Initial, before);
            var t := After(s, during);
            && PendingRevision(t, thread) >= PendingRevision(s, thread)
            && (PendingRevision(t, thread) == PendingRevision(s, thread) ==>
                  PromptsOf(t, thread) == PromptsOf(s, thread))
  {
    RunKeeps(Initial, before);
    RevisionAlong(Initial, before, thread);
    ValidatedAlong(After(Initial, before), during, thread);
  }

  /** A watch that fails on the empty thread id shows a notice without raising a revision, although the thread
      is watched. */
  lemma EmptyThreadIsNotValidated()
    ensures IsRun(Initial, [Watch("")])
    ensures var s := After(Initial, [Watch("")]);
            && IsRun(s, [WatchFailed("", "lost")]) && WatchedAlong(s, [WatchFailed("", "lost")], "")
            && !Validated(s, After(s, [WatchFailed("", "lost")]), "")
  {
    var s := Apply(Initial, Watch(""));
    assert After(Initial, [Watch("")]) == s;
    var t := Apply(s, WatchFailed("", "lost"));
    assert After(s, [WatchFailed("", "lost")]) == t;
    assert |PromptsOf(t, "").notices| == 1 && PromptsOf(s, "").notices == [];
  }

  /** A stretch of a run during which a thread is watched. */
  ghost predicate WatchedStretch(before: seq<Step>, during: seq<Step>, thread: string) {
    && IsRun(Initial, before) && IsRun(After(Initial, before), during)
    && WatchedAlong(After(Initial, before), during, thread)
  }

  /** Exactly the revision of a thread with an id validates its prompts. */
  lemma RevisionValidatesExactlyWhen(thread: string)
    ensures thread != "" <==>
            forall before, during :: WatchedStretch(before, during, thread) ==>
              Validated(After(Initial, before), After(After(Initial, before), during), thread)
  {
    if thread == "" {
      EmptyThreadIsNotValidated();
      assert WatchedStretch([Watch("")], [WatchFailed("", "lost")], "");
    } else {
      forall before, during | WatchedStretch(before, during, thread)
        ensures Validated(After(Initial, before), After(After(Initial, before), during), thread)
      {
        RevisionValidatesPrompts(before, during, thread);
      }
    }
  }
}
