/** Scoped transactions over the submission table (codex/submission_database.go).

    A transaction loads only the rows of its scope, runs an action on them, and writes back the rows
    that differ.  It is proved to have the result and the final records of running the same action on
    the whole ledger, and to leave every row outside its scope as it was.

    A row is keyed by its kind, thread and id; here the rows of each kind are one map.  A send row is a
    payload and a claim column, and two of them differ only if their payloads do.  Encoding a payload
    and decoding it again is taken to give the payload back. */
module SubmissionDatabase {
  import opened Prelude
  import opened SubmissionRecords

  // ---------------------------------------------------------------------------------------------
  // Scopes

  datatype Scope = Scope(thread: string, ids: seq<string>, directory: string, all: bool)

  function AttemptScope(thread: string, ids: seq<string>): Scope { Scope(thread, ids, "", false) }
  function ThreadScope(thread: string): Scope { Scope(thread, [], "", false) }
  function OperationScope(directory: string): Scope { Scope("", [], directory, false) }
  function ConversationScope(thread: string, directory: string): Scope { Scope(thread, [], directory, false) }

  predicate EmptyScope(s: Scope) { !s.all && s.thread == "" && s.directory == "" }

  /** The WHERE clause for rows of a thread, and for retirement markers, which belong to no thread. */
  predicate Covers(s: Scope, i: Identity) {
    s.all || (s.thread != "" && i.thread == s.thread && (s.ids == [] || i.id in s.ids))
  }

  predicate CoversOperation(s: Scope, directory: string) {
    s.all || (s.directory != "" && directory == s.directory)
  }

  function Part<V>(s: Scope, m: map<Identity, V>): map<Identity, V> { map i | i in m && Covers(s, i) :: m[i] }

  function PartOperations(s: Scope, m: map<string, string>): map<string, string> {
    map d | d in m && CoversOperation(s, d) :: m[d]
  }

  /** The rows that a scope loads. */
  function Within(s: Scope, r: Records): Records {
    Records(Part(s, r.sends), Part(s, r.queued), Part(s, r.deletions), PartOperations(s, r.operations))
  }

  /** A scope names a thread, and some of its messages or all of them; a directory; or everything. */
  predicate Selects(s: Scope, i: Identity) {
    s.all || (s.thread == i.thread != "" && (s.ids != [] ==> exists k :: 0 <= k < |s.ids| && s.ids[k] == i.id))
  }

  /** Exactly the rows that the scope selects are loaded, as they are. */
  lemma LoadsExactlyWhen(s: Scope, r: Records, i: Identity, directory: string)
    ensures var w := Within(s, r);
            && (i in w.sends <==> i in r.sends && Selects(s, i)) && (i in w.sends ==> w.sends[i] == r.sends[i])
            && (i in w.queued <==> i in r.queued && Selects(s, i)) && (i in w.queued ==> w.queued[i] == r.queued[i])
            && (i in w.deletions <==> i in r.deletions && Selects(s, i))
            && (i in w.deletions ==> w.deletions[i] == r.deletions[i])
            && (directory in w.operations <==>
                  directory in r.operations && (s.all || (directory == s.directory != "")))
            && (directory in w.operations ==> w.operations[directory] == r.operations[directory])
  {
  }

  // ---------------------------------------------------------------------------------------------
  // Writing back

  /** `now` has the row, and it is new or its payload differs from the one that was loaded. */
  predicate Differs<K, V>(before: map<K, V>, now: map<K, V>, same: (V, V) -> bool, k: K) {
    k in now && !(k in before && same(before[k], now[k]))
  }

  /** The table after its loaded rows `before` were replaced by `now`: rows that are gone are deleted,
      rows that differ are written, and all others are left alone. */
  function WrittenBack<K, V>(table: map<K, V>, before: map<K, V>, now: map<K, V>, same: (V, V) -> bool): map<K, V> {
    map k | k in table.Keys + now.Keys
      && (Differs(before, now, same, k) || (k in table && (k in before ==> k in now))) ::
      if Differs(before, now, same, k) then now[k] else table[k]
  }

  function SamePayload(a: SendAttempt, b: SendAttempt): bool { a.(admission := "") == b.(admission := "") }

  function Equal<V(==)>(a: V, b: V): bool { a == b }

  function TableAfter(table: Records, before: Records, now: Records): Records {
    Records(
      WrittenBack(table.sends, before.sends, now.sends, SamePayload),
      WrittenBack(table.queued, before.queued, now.queued, Equal),
      WrittenBack(table.deletions, before.deletions, now.deletions, Equal),
      WrittenBack(table.operations, before.operations, now.operations, Equal))
  }

  method DeleteGone<K, V>(table: map<K, V>, before: map<K, V>, now: map<K, V>) returns (rows: map<K, V>)
    ensures rows == map k | k in table && (k in before ==> k in now) :: table[k]
  {
    rows := table;
    var todo := before.Keys;
    while todo != {}
      invariant todo <= before.Keys
      invariant rows == map k | k in table && (k in before && k !in todo ==> k in now) :: table[k]
      decreases |todo|
    {
      var k :| k in todo;
      todo := todo - {k};
      if k !in now { rows := rows - {k}; }
    }
  }

  /** `kept` with every differing row of `now` written over it, except those in `todo`. */
  function Upserted<K, V>(kept: map<K, V>, before: map<K, V>, now: map<K, V>, same: (V, V) -> bool,
    todo: set<K>): map<K, V> {
    kept + map k | k in now && k !in todo && Differs(before, now, same, k) :: now[k]
  }

  lemma UpsertNone<K, V>(kept: map<K, V>, before: map<K, V>, now: map<K, V>, same: (V, V) -> bool)
    ensures Upserted(kept, before, now, same, now.Keys) == kept
  {
  }

  method UpsertDiffering<K, V>(kept: map<K, V>, before: map<K, V>, now: map<K, V>,
    same: (V, V) -> bool) returns (rows: map<K, V>)
    ensures rows == Upserted(kept, before, now, same, {})
  {
    rows := kept;
    var todo := now.Keys;
    UpsertNone(kept, before, now, same);
    while todo != {}
      invariant todo <= now.Keys
      invariant rows == Upserted(kept, before, now, same, todo)
      decreases |todo|
    {
      var k :| k in todo;
      UpsertOne(kept, before, now, same, todo, k);
      todo := todo - {k};
      if !(k in before && same(before[k], now[k])) { rows := rows[k := now[k]]; }
    }
  }

  lemma UpsertAll<K, V>(table: map<K, V>, before: map<K, V>, now: map<K, V>, same: (V, V) -> bool, kept: map<K, V>)
    requires kept == map k | k in table && (k in before ==> k in now) :: table[k]
    ensures Upserted(kept, before, now, same, {}) == WrittenBack(table, before, now, same)
  {
    var left, right := Upserted(kept, before, now, same, {}), WrittenBack(table, before, now, same);
    assert left.Keys == right.Keys;
    forall k | k in left ensures left[k] == right[k] {}
  }

  method WriteRows<K, V>(table: map<K, V>, before: map<K, V>, now: map<K, V>,
    same: (V, V) -> bool) returns (rows: map<K, V>)
    ensures rows == WrittenBack(table, before, now, same)
  {
    var kept := DeleteGone(table, before, now);
    rows := UpsertDiffering(kept, before, now, same);
    UpsertAll(table, before, now, same, kept);
  }

  lemma UpsertOne<K, V>(kept: map<K, V>, before: map<K, V>, now: map<K, V>, same: (V, V) -> bool, todo: set<K>, k: K)
    requires k in todo && todo <= now.Keys
    ensures Upserted(kept, before, now, same, todo - {k})
         == if Differs(before, now, same, k) then Upserted(kept, before, now, same, todo)[k := now[k]]
            else Upserted(kept, before, now, same, todo)
  {
  }

  type Action = Records -> Plan

  class Store {
    var table: Records
    var memory: Records
    var before: Records

    constructor ()
      ensures table == memory == before == Empty
    {
      table, memory, before := Empty, Empty, Empty;
    }

    method ReadRecords(s: Scope) returns (out: Outcome)
      modifies this`memory, this`before
      ensures out == (if EmptyScope(s) then Failed(NoScope) else Done)
      ensures out.Done? ==> memory == before == Within(s, table)
    {
      if EmptyScope(s) { return Failed(NoScope); }
      before := Within(s, table);
      memory := before;
      return Done;
    }

    method WriteRecords()
      modifies this`table, this`before
      ensures table == TableAfter(old(table), old(before), memory) && before == memory
    {
      var sends := WriteRows(table.sends, before.sends, memory.sends, SamePayload);
      var queued := WriteRows(table.queued, before.queued, memory.queued, Equal);
      var deletions := WriteRows(table.deletions, before.deletions, memory.deletions, Equal);
      var operations := WriteRows(table.operations, before.operations, memory.operations, Equal);
      table := Records(sends, queued, deletions, operations);
      before := memory;
    }

    /** One transaction: load the rows of the scope, run the action on them, and write back what differs.  The write may
        be lost before or after it became durable. */
    method Transact(s: Scope, p: Action, w: WriteOutcome) returns (out: Outcome)
      modifies this
      ensures (table, out) == ScopedTransaction(old(table), s, p, w)
    {
      out := ReadRecords(s);
      if out.Failed? { return; }
      match p(memory)
      case Refuse(e) => return Failed(e);
      case Unchanged => return Done;
      case Change(now) =>
        if w.LostBefore? { return Failed(WriteFailed); }
        memory := now;
        WriteRecords();
        return if w.Written? then Done else Failed(WriteFailed);
    }

    /** Run a ledger action in its own scope: whatever the write does, the answer and the rows are those of
        the action on the whole ledger.  An action that names no thread is refused. */
    method Run(a: LedgerAction, w: WriteOutcome) returns (out: Outcome)
      requires NamesDirectory(a) && (a.ClearConversation? ==> NamesThread(a))
      modifies this
      ensures NamesThread(a) ==> (table, out) == Settle(true, old(table), PlanFor(a, old(table)), w)
      ensures NamesThread(a) ==> StaysInside(ScopeOf(a), old(table), table)
      ensures !NamesThread(a) ==> table == old(table) && out == Failed(NoScope)
    {
      if NamesThread(a) {
        EveryActionIsLocal(a);
        ScopedRefinesWhole(table, ScopeOf(a), ActionOf(a), w);
      }
      out := Transact(ScopeOf(a), ActionOf(a), w);
    }
  }

  // ---------------------------------------------------------------------------------------------
  // Actions that touch only their scope

  function ScopedTransaction(table: Records, s: Scope, p: Action, w: WriteOutcome): (Records, Outcome) {
    if EmptyScope(s) then (table, Failed(NoScope)) else
    var before := Within(s, table);
    match p(before)
    case Refuse(e) => (table, Failed(e))
    case Unchanged => (table, Done)
    case Change(now) =>
      match w
      case Written => (TableAfter(table, before, now), Done)
      case LostBefore => (table, Failed(WriteFailed))
      case LostAfter => (TableAfter(table, before, now), Failed(WriteFailed))
  }

  /** `next` differs from `m` inside the scope only. */
  ghost predicate ChangesOnly<V>(s: Scope, m: map<Identity, V>, next: map<Identity, V>) {
    forall i :: !Covers(s, i) ==> (i in m <==> i in next) && (i in m ==> next[i] == m[i])
  }

  /** An admission claim never changes alone. */
  ghost predicate ClaimsFollow(m: map<Identity, SendAttempt>, next: map<Identity, SendAttempt>) {
    forall i :: i in m && i in next && SamePayload(m[i], next[i]) ==> m[i] == next[i]
  }

  ghost predicate StaysInside(s: Scope, r: Records, next: Records) {
    && ChangesOnly(s, r.sends, next.sends) && ChangesOnly(s, r.queued, next.queued)
    && ChangesOnly(s, r.deletions, next.deletions)
    && (forall d :: !CoversOperation(s, d) ==>
          (d in r.operations <==> d in next.operations)
            && (d in r.operations ==> next.operations[d] == r.operations[d]))
    && ClaimsFollow(r.sends, next.sends)
  }

  /** What an action plans on `r`, and on the part of `r` that its scope loads, comes to the same. */
  ghost predicate Agree(s: Scope, r: Records, whole: Plan, part: Plan) {
    if whole.Change? then part == Change(Within(s, whole.next)) && StaysInside(s, r, whole.next) else part == whole
  }

  ghost predicate LocalAt(p: Action, s: Scope, r: Records) { Agree(s, r, p(r), p(Within(s, r))) }

  ghost predicate Local(p: Action, s: Scope) { forall r :: LocalAt(p, s, r) }

  lemma WriteBackPart<V>(s: Scope, m: map<Identity, V>, next: map<Identity, V>, same: (V, V) -> bool)
    requires ChangesOnly(s, m, next)
    requires forall i :: i in m && i in next && same(m[i], next[i]) ==> m[i] == next[i]
    ensures WrittenBack(m, Part(s, m), Part(s, next), same) == next
  {
    var written := WrittenBack(m, Part(s, m), Part(s, next), same);
    forall i: Identity
      ensures (i in written <==> i in next) && (i in written ==> written[i] == next[i])
    {
    }
  }

  lemma WriteBackOperations(s: Scope, m: map<string, string>, next: map<string, string>)
    requires forall d :: !CoversOperation(s, d) ==> (d in m <==> d in next) && (d in m ==> next[d] == m[d])
    ensures WrittenBack(m, PartOperations(s, m), PartOperations(s, next), Equal) == next
  {
    var written := WrittenBack(m, PartOperations(s, m), PartOperations(s, next), Equal);
    forall d: string
      ensures (d in written <==> d in next) && (d in written ==> written[d] == next[d])
    {
    }
  }

  lemma TableAfterIs(s: Scope, r: Records, next: Records)
    requires StaysInside(s, r, next)
    ensures TableAfter(r, Within(s, r), Within(s, next)) == next
  {
    WriteBackPart(s, r.sends, next.sends, SamePayload);
    WriteBackPart(s, r.queued, next.queued, Equal);
    WriteBackPart(s, r.deletions, next.deletions, Equal);
    WriteBackOperations(s, r.operations, next.operations);
  }

  /** A scoped transaction has the result and the final records of the whole-ledger one, and rows
      outside its scope never change. */
  lemma ScopedRefinesWhole(table: Records, s: Scope, p: Action, w: WriteOutcome)
    requires !EmptyScope(s) && Local(p, s)
    ensures ScopedTransaction(table, s, p, w) == Settle(true, table, p(table), w)
    ensures StaysInside(s, table, ScopedTransaction(table, s, p, w).0)
  {
    assert LocalAt(p, s, table);
    if p(table).Change? { TableAfterIs(s, table, p(table).next); }
  }

  // ---------------------------------------------------------------------------------------------
  // Every ledger action is local to the scope it declares

  datatype LedgerAction =
    | RecordQueue(k: Identity, digest: string)
    | ClearQueue(k: Identity)
    | RecordDeletion(k: Identity, deletion: Deletion)
    | ClearDeletion(thread: string, queuedId: string, message: string)
    | RecordSend(k: Identity, binding: Binding, receipt: Option<Receipt>)
    | ClaimSend(k: Identity, wanted: Option<Binding>, claim: string)
    | AcceptSend(k: Identity, p: Receipt)
    | RestoreSend(k: Identity, claim: string)
    | DiscardSend(k: Identity, digest: string, context: string, options: string)
    | AcknowledgeThread(thread: string, shown: Acknowledgement)
    | ClearConversation(thread: string, directory: string)
    | ClearRetired(thread: string)
    | RecordOperation(directory: string, owner: string)

  function ScopeOf(a: LedgerAction): Scope {
    match a
    case ClearDeletion(thread, queuedId, message) => AttemptScope(thread, [message, queuedId])
    case AcknowledgeThread(thread, _) => ThreadScope(thread)
    case ClearConversation(thread, directory) => ConversationScope(thread, directory)
    case ClearRetired(thread) => ThreadScope(thread)
    case RecordOperation(directory, _) => OperationScope(directory)
    case _ => AttemptScope(a.k.thread, [a.k.id])
  }

  function PlanFor(a: LedgerAction, r: Records): Plan {
    match a
    case RecordQueue(k, digest) => RecordQueuePlan(r, k, digest)
    case ClearQueue(k) => ClearQueuePlan(r, k)
    case RecordDeletion(k, deletion) => RecordDeletionPlan(r, k, deletion)
    case ClearDeletion(thread, queuedId, message) => ClearDeletionPlan(r, thread, queuedId, message)
    case RecordSend(k, b, receipt) => RecordSendPlan(r, k, b, receipt)
    case ClaimSend(k, wanted, claim) => ClaimPlan(r, k, wanted, claim)
    case AcceptSend(k, p) => AcceptPlan(r, k, p)
    case RestoreSend(k, claim) => RestorePlan(true, r, k, claim)
    case DiscardSend(k, digest, context, options) => DiscardPlan(r, k, digest, context, options)
    case AcknowledgeThread(thread, shown) => AcknowledgePlan(r, thread, shown)
    case ClearConversation(thread, directory) => ClearConversationPlan(r, thread, directory)
    case ClearRetired(thread) => ClearRetiredPlan(r, thread)
    case RecordOperation(directory, owner) => RecordOperationPlan(r, directory, owner)
  }

  function ActionOf(a: LedgerAction): Action { r => PlanFor(a, r) }

  /** The action names a thread; without one its scope selects nothing.  An operation is kept by directory. */
  predicate NamesThread(a: LedgerAction) { a.RecordOperation? || ScopeOf(a).thread != "" }

  lemma PartPut<V>(s: Scope, m: map<Identity, V>, i: Identity, v: V)
    requires Covers(s, i)
    ensures Part(s, m)[i := v] == Part(s, m[i := v])
  {
  }

  lemma PartDrop<V>(s: Scope, m: map<Identity, V>, i: Identity)
    ensures Part(s, m) - {i} == Part(s, m - {i})
  {
  }

  lemma RecordQueueIsLocal(s: Scope, k: Identity, digest: string, r: Records)
    requires Covers(s, k)
    ensures Agree(s, r, RecordQueuePlan(r, k, digest), RecordQueuePlan(Within(s, r), k, digest))
  {
    PartPut(s, r.queued, k, digest);
  }

  lemma ClearQueueIsLocal(s: Scope, k: Identity, r: Records)
    requires Covers(s, k)
    ensures Agree(s, r, ClearQueuePlan(r, k), ClearQueuePlan(Within(s, r), k))
  {
    PartDrop(s, r.queued, k);
  }

  lemma RecordDeletionIsLocal(s: Scope, k: Identity, deletion: Deletion, r: Records)
    requires Covers(s, k)
    ensures Agree(s, r, RecordDeletionPlan(r, k, deletion), RecordDeletionPlan(Within(s, r), k, deletion))
  {
    PartPut(s, r.deletions, k, deletion);
  }

  lemma DiscardIsLocal(s: Scope, k: Identity, digest: string, context: string, options: string, r: Records)
    requires Covers(s, k)
    ensures Agree(s, r, DiscardPlan(r, k, digest, context, options),
            DiscardPlan(Within(s, r), k, digest, context, options))
  {
    PartDrop(s, r.sends, k);
  }

  /** Replacing one send record of the scope, with another payload, is the same change seen from inside. */
  lemma SendChange(s: Scope, r: Records, k: Identity, v: SendAttempt)
    requires Covers(s, k) && (k in r.sends ==> !SamePayload(r.sends[k], v))
    ensures var next := r.(sends := r.sends[k := v]);
            Within(s, next) == Within(s, r).(sends := Within(s, r).sends[k := v]) && StaysInside(s, r, next)
    ensures k in r.sends <==> k in Within(s, r).sends
    ensures k in r.sends ==> Within(s, r).sends[k] == r.sends[k]
    ensures k in r.queued <==> k in Within(s, r).queued
  {
    PartPut(s, r.sends, k, v);
  }

  lemma RecordSendIsLocal(s: Scope, k: Identity, b: Binding, receipt: Option<Receipt>, r: Records)
    requires Covers(s, k)
    ensures Agree(s, r, RecordSendPlan(r, k, b, receipt), RecordSendPlan(Within(s, r), k, b, receipt))
  {
    var plan := RecordSendPlan(r, k, b, receipt);
    if plan.Change? { SendChange(s, r, k, plan.next.sends[k]); }
  }

  lemma ClaimIsLocal(s: Scope, k: Identity, wanted: Option<Binding>, claim: string, r: Records)
    requires Covers(s, k)
    ensures Agree(s, r, ClaimPlan(r, k, wanted, claim), ClaimPlan(Within(s, r), k, wanted, claim))
  {
    var plan := ClaimPlan(r, k, wanted, claim);
    if plan.Change? { SendChange(s, r, k, plan.next.sends[k]); }
  }

  lemma AcceptIsLocal(s: Scope, k: Identity, p: Receipt, r: Records)
    requires Covers(s, k)
    ensures Agree(s, r, AcceptPlan(r, k, p), AcceptPlan(Within(s, r), k, p))
  {
    var plan := AcceptPlan(r, k, p);
    if plan.Change? { SendChange(s, r, k, plan.next.sends[k]); }
  }

  lemma RestoreIsLocal(s: Scope, k: Identity, claim: string, r: Records)
    requires Covers(s, k)
    ensures Agree(s, r, RestorePlan(true, r, k, claim), RestorePlan(true, Within(s, r), k, claim))
  {
    var plan := RestorePlan(true, r, k, claim);
    if plan.Change? { SendChange(s, r, k, plan.next.sends[k]); }
  }

  lemma ClearDeletionIsLocal(thread: string, queuedId: string, message: string, r: Records)
    requires thread != ""
    ensures var s := AttemptScope(thread, [message, queuedId]);
            Agree(s, r, ClearDeletionPlan(r, thread, queuedId, message),
              ClearDeletionPlan(Within(s, r), thread, queuedId, message))
  {
    var s := AttemptScope(thread, [message, queuedId]);
    assert s.ids[0] == message && s.ids[1] == queuedId;
    PartDrop(s, r.sends, Identity(thread, message));
    PartDrop(s, r.queued, Identity(thread, message));
    PartDrop(s, r.deletions, Identity(thread, queuedId));
  }

  lemma {:induction false} ContradictedInside(s: Scope, thread: string, a: Acknowledgement, r: Records,
    order: seq<string>)
    requires thread != "" && s == ThreadScope(thread)
    ensures FirstContradiction(r, thread, a, order) == FirstContradiction(Within(s, r), thread, a, order)
  {
    if order != [] {
      assert Contradiction(r, thread, a, order[0]) == Contradiction(Within(s, r), thread, a, order[0]);
      ContradictedInside(s, thread, a, r, order[1..]);
    }
  }

  lemma AcknowledgedInside(s: Scope, thread: string, a: Acknowledgement, sends: map<Identity, SendAttempt>)
    requires thread != "" && s == ThreadScope(thread)
    ensures var next := Acknowledged(thread, a, sends);
            && Acknowledged(thread, a, Part(s, sends)) == Part(s, next)
            && (next == sends <==> Part(s, next) == Part(s, sends))
            && ChangesOnly(s, sends, next) && ClaimsFollow(sends, next)
  {
    var next := Acknowledged(thread, a, sends);
    if next != sends {
      var i :| i in sends && i !in next;
      assert i in Part(s, sends) && i !in Part(s, next);
    }
  }

  lemma AcknowledgeIsLocal(thread: string, a: Acknowledgement, r: Records)
    requires thread != ""
    ensures var s := ThreadScope(thread); Agree(s, r, AcknowledgePlan(r, thread, a),
            AcknowledgePlan(Within(s, r), thread, a))
  {
    var s := ThreadScope(thread);
    ContradictedInside(s, thread, a, r, a.order);
    AcknowledgedInside(s, thread, a, r.sends);
  }

  lemma ForgetPart<V>(s: Scope, thread: string, m: map<Identity, V>)
    requires thread != "" && s.thread == thread && s.ids == [] && !s.all
    ensures ForgetThread(thread, Part(s, m)) == Part(s, ForgetThread(thread, m)) == map[]
    ensures ForgetThread(thread, m) == m <==> Part(s, m) == map[]
    ensures ChangesOnly(s, m, ForgetThread(thread, m))
  {
    if i :| i in Part(s, m) {
      assert i in m && i !in ForgetThread(thread, m);
    } else {
      forall i | i in m ensures !InThread(thread, i) { assert i !in Part(s, m); }
    }
  }

  lemma ClearConversationIsLocal(thread: string, directory: string, r: Records)
    requires thread != "" && directory != ""
    ensures var s := ConversationScope(thread, directory);
            Agree(s, r, ClearConversationPlan(r, thread, directory),
              ClearConversationPlan(Within(s, r), thread, directory))
  {
    var s := ConversationScope(thread, directory);
    ForgetPart(s, thread, r.sends);
    ForgetPart(s, thread, r.queued);
    ForgetPart(s, thread, r.deletions);
    assert PartOperations(s, r.operations) - {directory} == PartOperations(s, r.operations - {directory});
    assert r.operations - {directory} == r.operations <==> directory !in r.operations;
    assert directory in r.operations <==> directory in PartOperations(s, r.operations);
  }

  lemma ClearRetiredIsLocal(thread: string, r: Records)
    requires thread != ""
    ensures var s := ThreadScope(thread); Agree(s, r, ClearRetiredPlan(r, thread),
            ClearRetiredPlan(Within(s, r), thread))
  {
    var s := ThreadScope(thread);
    ForgetPart(s, thread, r.sends);
    ForgetPart(s, thread, r.queued);
    ForgetPart(s, thread, r.deletions);
  }

  lemma RecordOperationIsLocal(directory: string, owner: string, r: Records)
    requires directory != ""
    ensures var s := OperationScope(directory);
            Agree(s, r, RecordOperationPlan(r, directory, owner), RecordOperationPlan(Within(s, r), directory, owner))
  {
    var s := OperationScope(directory);
    assert PartOperations(s, r.operations)[directory := owner] == PartOperations(s, r.operations[directory := owner]);
  }

  /** Both operations with a directory demand a canonical absolute one, so never an empty one. */
  predicate NamesDirectory(a: LedgerAction) { a.ClearConversation? || a.RecordOperation? ==> a.directory != "" }

  lemma EveryActionIsLocal(a: LedgerAction)
    requires NamesThread(a) && NamesDirectory(a)
    ensures Local(ActionOf(a), ScopeOf(a))
  {
    forall r ensures LocalAt(ActionOf(a), ScopeOf(a), r) {
      match a
      case ClearDeletion(thread, queuedId, message) => ClearDeletionIsLocal(thread, queuedId, message, r);
      case AcknowledgeThread(thread, shown) => AcknowledgeIsLocal(thread, shown, r);
      case ClearConversation(thread, directory) => ClearConversationIsLocal(thread, directory, r);
      case ClearRetired(thread) => ClearRetiredIsLocal(thread, r);
      case RecordOperation(directory, owner) => RecordOperationIsLocal(directory, owner, r);
      case RecordQueue(k, digest) => RecordQueueIsLocal(ScopeOf(a), k, digest, r);
      case ClearQueue(k) => ClearQueueIsLocal(ScopeOf(a), k, r);
      case RecordDeletion(k, deletion) => RecordDeletionIsLocal(ScopeOf(a), k, deletion, r);
      case RecordSend(k, b, receipt) => RecordSendIsLocal(ScopeOf(a), k, b, receipt, r);
      case ClaimSend(k, wanted, claim) => ClaimIsLocal(ScopeOf(a), k, wanted, claim, r);
      case AcceptSend(k, p) => AcceptIsLocal(ScopeOf(a), k, p, r);
      case RestoreSend(k, claim) => RestoreIsLocal(ScopeOf(a), k, claim, r);
      case DiscardSend(k, digest, context, options) => DiscardIsLocal(ScopeOf(a), k, digest, context, options, r);
    }
  }

  // ---------------------------------------------------------------------------------------------
  // Main results

  /** Records and answers of a sequence of transactions, scoped or on the whole ledger. */
  function RunScoped(table: Records, actions: seq<(LedgerAction, WriteOutcome)>): (Records, seq<Outcome>)
    decreases |actions|
  {
    if actions == [] then (table, []) else
    var (next, out) := ScopedTransaction(table, ScopeOf(actions[0].0), ActionOf(actions[0].0), actions[0].1);
    var (final, outs) := RunScoped(next, actions[1..]);
    (final, [out] + outs)
  }

  function RunWhole(table: Records, actions: seq<(LedgerAction, WriteOutcome)>): (Records, seq<Outcome>)
    decreases |actions|
  {
    if actions == [] then (table, []) else
    var (next, out) := Settle(true, table, PlanFor(actions[0].0, table), actions[0].1);
    var (final, outs) := RunWhole(next, actions[1..]);
    (final, [out] + outs)
  }

  /** Any sequence of scoped transactions, with any writes lost, gives the records and the answers that
      the same actions give on the whole ledger. */
  lemma {:induction false} ScopedRunRefinesWhole(table: Records, actions: seq<(LedgerAction, WriteOutcome)>)
    requires forall i :: 0 <= i < |actions| ==> NamesThread(actions[i].0) && NamesDirectory(actions[i].0)
    ensures RunScoped(table, actions) == RunWhole(table, actions)
    decreases |actions|
  {
    if actions != [] {
      var a, w := actions[0].0, actions[0].1;
      EveryActionIsLocal(a);
      ScopedRefinesWhole(table, ScopeOf(a), ActionOf(a), w);
      ScopedRunRefinesWhole(Settle(true, table, PlanFor(a, table), w).0, actions[1..]);
    }
  }

  /** Exactly the actions that name a thread may be run in their scope: an attempt scope without one
      selects nothing, and its transaction is refused whatever the action does on the whole ledger.
      (ClearConversationAttempts refuses a blank thread itself.) */
  lemma ScopedAgreesExactly(table: Records, a: LedgerAction, w: WriteOutcome)
    requires NamesDirectory(a) && (a.ClearConversation? ==> NamesThread(a))
    ensures ScopedTransaction(table, ScopeOf(a), ActionOf(a), w) == Settle(true, table, PlanFor(a, table), w) <==>
            NamesThread(a)
  {
    if NamesThread(a) {
      EveryActionIsLocal(a);
      ScopedRefinesWhole(table, ScopeOf(a), ActionOf(a), w);
    } else {
      assert ScopedTransaction(table, ScopeOf(a), ActionOf(a), w).1 == Failed(NoScope);
    }
  }
}
