/** The prefix cache of the activity snapshot (codex/activity_snapshot.go:41-64, 140-216): the totals of the
    oldest turns are kept from call to call, and a snapshot that starts from them agrees with one computed from
    scratch. */
module ActivityPrefix {
  import opened Prelude
  import opened ActivityTiming
  import opened ActivitySnapshot
  import opened ActivityTotals

  // ---------------------------------------------------------------------------------------------
  // Turns whose share of the totals cannot change

  predicate Foldable(t: Turn) { t.countsKnown && t.completedAt > 0 && !t.inProgress }

  /** Two calls see the same of a turn: its metadata, its record, and that it is not the live turn. */
  predicate SameTurn(e: Sources, f: Sources, t: Turn, u: Turn) {
    t == u && RecordFor(e, t.id) == RecordFor(f, t.id) && !IsOpen(e, t) && !IsOpen(f, t)
  }

  predicate SamePrefix(e: Sources, f: Sources, turns: seq<Turn>, later: seq<Turn>, n: nat) {
    n <= |turns| && n <= |later| && forall i :: 0 <= i < n ==> Foldable(turns[i]) && SameTurn(e, f, turns[i], later[i])
  }

  /** Totals that differ only in what a failed checkpoint says about coverage. */
  predicate Agree(a: Totals, b: Totals, failed: bool) { b == a.(coverageComplete := a.coverageComplete && !failed) }

  lemma SameSplit(e: Sources, f: Sources, t: Turn)
    requires Foldable(t) && SameTurn(e, f, t, t)
    ensures Bounded(e, t) == Bounded(f, t) && (Bounded(e, t) ==> SplitOf(e, t) == SplitOf(f, t))
  {
    assert End(e, t) == End(f, t) == t.completedAt;
    if Bounded(e, t) { assert UsableRecord(e, t) == UsableRecord(f, t); }
  }

  /** What was folded in an earlier call is what a later call would compute. */
  lemma {:induction false} FoldIsStable(e: Sources, f: Sources, turns: seq<Turn>, later: seq<Turn>, n: nat)
    requires SamePrefix(e, f, turns, later, n) && !e.failed && e.scope == f.scope
    ensures Agree(Fold(e, turns, n), Fold(f, later, n), f.failed)
  {
    if n > 0 {
      FoldIsStable(e, f, turns, later, n - 1);
      SameSplit(e, f, turns[n - 1]);
      assert Gap(turns, n - 1) == Gap(later, n - 1);
      AddAgrees(e, f, turns, later, n - 1, Fold(e, turns, n - 1), Fold(f, later, n - 1));
    }
  }

  lemma AddAgrees(e: Sources, f: Sources, turns: seq<Turn>, later: seq<Turn>, i: nat, a: Totals, b: Totals)
    requires i < |turns| && i < |later| && turns[i] == later[i] && Gap(turns, i) == Gap(later, i)
    requires Agree(a, b, f.failed)
    requires Bounded(e, turns[i]) == Bounded(f, turns[i])
    requires (Bounded(e, turns[i]) ==> SplitOf(e, turns[i]) == SplitOf(f, turns[i]))
    ensures Agree(AddTurn(e, turns, i, a), AddTurn(f, later, i, b), f.failed)
  {
  }

  lemma {:induction false} FoldedHasNoOpenWait(e: Sources, turns: seq<Turn>, n: nat)
    requires n <= |turns| && forall i :: 0 <= i < n ==> !IsOpen(e, turns[i])
    ensures Fold(e, turns, n).open == 0 && (e.scope == "unknown" ==> !Fold(e, turns, n).countsComplete)
  {
    if n > 0 { FoldedHasNoOpenWait(e, turns, n - 1); }
  }

  /** Take over the totals of a prefix. */
  function AddHistory(r: Totals, v: Totals): Totals {
    Totals(r.sent + v.sent, r.received + v.received, r.toolCalls + v.toolCalls, r.working + v.working,
      r.waiting + v.waiting, r.open,
           r.between + v.between, r.unclassified + v.unclassified, Earlier(r.coverageStart, v.coverageStart),
           r.countsComplete && v.countsComplete, r.coverageComplete && v.coverageComplete)
  }

  lemma {:induction false} CoverageStartsLate(e: Sources, turns: seq<Turn>, n: nat)
    requires n <= |turns|
    ensures Fold(e, turns, n).coverageStart >= 0
  {
    if n > 0 { CoverageStartsLate(e, turns, n - 1); }
  }

  /** Adding the folded totals to an empty snapshot gives the fold of the present call. */
  lemma HistoryIsFold(e: Sources, f: Sources, turns: seq<Turn>, later: seq<Turn>, n: nat)
    requires SamePrefix(e, f, turns, later, n) && !e.failed && e.scope == f.scope
    ensures AddHistory(Start(f), Fold(e, turns, n)) == Fold(f, later, n)
  {
    FoldIsStable(e, f, turns, later, n);
    FoldedHasNoOpenWait(e, turns, n);
    CoverageStartsLate(e, turns, n);
  }

  // ---------------------------------------------------------------------------------------------
  // The cache

  class Prefix {
    var count: nat
    var first: string
    var last: string
    var scope: string
    var totals: Totals
    /** The call that folded last, and whether every call so far found the folded turns unchanged. */
    ghost var source: Sources
    ghost var seen: seq<Turn>
    ghost var steady: bool

    ghost predicate Valid()
      reads this
    {
      count > 0 && steady ==> Folded(source, seen)
    }

    ghost predicate Folded(e: Sources, turns: seq<Turn>)
      reads this
    {
      && count <= |turns| && !e.failed && e.scope == scope && totals == Fold(e, turns, count)
      && forall i :: 0 <= i < count ==> Foldable(turns[i]) && !IsOpen(e, turns[i])
    }

    constructor ()
      ensures Valid() && count == 0 && steady
    {
      count, first, last, scope, totals := 0, "", "", "", Totals(0, 0, 0, 0, 0, 0, 0, 0, 0, false, false);
      source, seen, steady := Sources("", 0, false, None, map[], map[]), [], true;
    }

    /** The cache is about another history; this much the code can tell. */
    predicate Mismatch(e: Sources, turns: seq<Turn>)
      reads this
    {
      count > 0 && (scope != e.scope || count > |turns| || turns[0].id != first || turns[count - 1].id != last)
    }

    /** Turns that may be folded are not live, and what was folded has not changed. */
    ghost predicate Settled(e: Sources, turns: seq<Turn>)
      reads this
    {
      && (forall i :: 0 <= i < |turns| && Foldable(turns[i]) ==> !IsOpen(e, turns[i]))
      && (count > 0 && !Mismatch(e, turns) ==> SamePrefix(source, e, seen, turns, count))
    }

    ghost predicate NoFoldableOpen(e: Sources, turns: seq<Turn>) {
      forall i :: 0 <= i < |turns| && Foldable(turns[i]) ==> !IsOpen(e, turns[i])
    }

    /** Start from the folded totals, if they are about this history. */
    method TakeOver(e: Sources, turns: seq<Turn>) returns (r: Totals, index: nat)
      requires Valid()
      modifies this
      ensures Valid() && steady == (old(steady) && old(Settled(e, turns)))
      ensures index == count <= |turns|
      ensures steady ==> r == Fold(e, turns, index) && NoFoldableOpen(e, turns) && forall i :: 0 <= i < count ==>
              Foldable(turns[i])
    {
      steady := steady && Settled(e, turns);
      if Mismatch(e, turns) { count := 0; }
      r, index := Start(e), count;
      if count > 0 {
        if steady { HistoryIsFold(source, e, seen, turns, count); }
        r := AddHistory(r, totals);
      }
    }

    /** Fold one more turn. */
    method Remember(e: Sources, turns: seq<Turn>, index: nat, r: Totals)
      requires Valid() && count == index < |turns| && !e.failed && Foldable(turns[index])
      requires steady ==> r == Fold(e, turns, index + 1) && NoFoldableOpen(e, turns) && forall i :: 0 <= i < count ==>
               Foldable(turns[i])
      modifies this
      ensures Valid() && steady == old(steady) && count == index + 1 && totals == r
      ensures scope == e.scope && first == turns[0].id && last == turns[index].id
    {
      count, first, last, scope, totals := index + 1, turns[0].id, turns[index].id, e.scope, r;
      source, seen := e, turns;
    }

    /** The totals so far are those of the first turns. */
    ghost predicate Running(e: Sources, turns: seq<Turn>, index: nat, r: Totals)
      reads this
    {
      && count <= index <= |turns| && Valid()
      && (steady ==> r == Fold(e, turns, index) && NoFoldableOpen(e, turns) && forall i :: 0 <= i < count ==>
            Foldable(turns[i]))
    }

    /** The turn continues what was folded, has ended with known counts, and is not among the newest two. */
    predicate Folds(e: Sources, turns: seq<Turn>, index: nat, folded: nat)
      requires index < |turns|
    {
      && !e.failed && folded == index && index <= |turns| - 3
      && turns[index].countsKnown && turns[index].completedAt > 0 && !turns[index].inProgress
    }

    /** Add a turn, and fold it if its share cannot change; the newest two turns are never folded. */
    method Advance(e: Sources, turns: seq<Turn>, index: nat, r: Totals) returns (s: Totals)
      requires index < |turns| && Running(e, turns, index, r)
      modifies this
      ensures Running(e, turns, index + 1, s) && steady == old(steady)
      ensures count == if Folds(e, turns, index, old(count)) then index + 1 else old(count)
    {
      s := AddTurn(e, turns, index, r);
      if !e.failed && count == index && index + 2 < |turns| && Foldable(turns[index]) { Remember(e, turns, index, s); }
    }

    method AddTurns(e: Sources, turns: seq<Turn>, cancelAt: nat) returns (r: Totals, cancelled: bool)
      requires Valid()
      modifies this
      ensures Valid() && steady == (old(steady) && old(Settled(e, turns)))
      ensures steady && !cancelled ==> r == Fold(e, turns, |turns|)
      ensures cancelled ==> !r.countsComplete && !r.coverageComplete && cancelAt < |turns| && !e.failed
      ensures e.failed || cancelAt >= |turns| ==> !cancelled
    {
      var index;
      r, index := TakeOver(e, turns);
      cancelled := false;
      while index < |turns|
        invariant index <= |turns| && Running(e, turns, index, r)
        invariant steady == (old(steady) && old(Settled(e, turns)))
      {
        if !e.failed && index >= cancelAt {
          r := r.(coverageComplete := false, countsComplete := false);
          cancelled := true;
          return;
        }
        r := Advance(e, turns, index, r);
        index := index + 1;
      }
    }

    /** The totals of a snapshot, from the cache and the turns after it.  `cancelAt` is the turn before which the
        caller gave up. */
    method Snapshot(e: Sources, turns: seq<Turn>, cancelAt: nat) returns (r: Totals, cancelled: bool)
      requires Valid()
      modifies this
      ensures Valid() && steady == (old(steady) && old(Settled(e, turns)))
      ensures steady && !cancelled ==> r == Fold(e, turns, |turns|)
      ensures steady && !cancelled && ValidRecords(e) ==> SumsUp(e, turns, r)
      ensures cancelled ==> !r.countsComplete && !r.coverageComplete && cancelAt < |turns| && !e.failed
      ensures e.failed || cancelAt >= |turns| ==> !cancelled
    {
      r, cancelled := AddTurns(e, turns, cancelAt);
      if ValidRecords(e) { FoldSumsUp(e, turns); }
    }
  }
}
