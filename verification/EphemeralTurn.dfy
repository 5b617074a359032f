/** The sink itself (codex/ephemeral.go:733-1334): an object whose fields every message updates in place,
    tied to the functions that the transparency and verdict theorems are about. */
module EphemeralTurn {
  import opened Prelude
  import opened EphemeralEvidence
  import S = EphemeralSink
  import opened EphemeralTransparency

  class Sink {
    var own: S.Owner
    var events: seq<Frame>
    var v: S.Verdict

    ghost function Value(): S.State
      reads this
    {
      S.State(own, events, v)
    }

    constructor ()
      ensures Value() == S.State(S.Owner(0, "", "", false), [], S.NoVerdict)
    {
      own, events, v := S.Owner(0, "", "", false), [], S.NoVerdict;
    }

    /** Reject evidence: the first failure stays, and the turn is never safe to retry. */
    method Fail(f: S.Failure)
      modifies this`v
      ensures v == S.Revoke(old(v), f)
    {
      v := v.(revoked := true, transient := false);
      if v.err.None? { v := v.(err := Some(f)); }
    }

    method NoteCleanupIdentity(m: Method, p: Params)
      modifies this`v
      ensures v == S.NoteIdentity(own, old(v), m, p)
    {
      if !own.issued { return; }
      if S.Foreign(own, v.cleanupTurn, m, p) {
        v := v.(ambiguous := true);
        if v.err.None? { v := v.(err := Some(S.Protocol)); }
        return;
      }
      v := v.(cleanupTurn := S.TurnNamed(m, p));
    }

    method RejectError(p: Params) returns (rejected: bool)
      modifies this`v
      ensures (v, rejected) == S.RejectError(own, old(v), p)
    {
      if !v.settled {
        var identified := S.OwnError(own, v.cleanupTurn, p);
        if !identified { v := v.(ambiguous := true); }
        if identified && S.ShapedError(p) { return false; }
      }
      v := v.(transient := false, revoked := true, err := Some(S.Protocol));
      return true;
    }

    /** The first fault among the items of a completion. */
    method ItemsFault(items: seq<Option<Item>>) returns (fault: Option<S.Failure>)
      ensures fault == S.ItemsFault(v, items)
    {
      var i := 0;
      while i < |items|
        invariant 0 <= i <= |items|
        invariant S.ItemsFault(v, items) == S.ItemsFault(v, items[i..])
      {
        if items[i].None? { return Some(S.Protocol); }
        fault := S.ItemFault(v, items[i].value, true);
        if fault.Some? { return; }
        i := i + 1;
      }
      return None;
    }

    method RejectCompletion(turn: Turn) returns (fault: Option<S.Failure>)
      ensures fault == S.CompletionFault(v, turn)
    {
      if v.completed || !S.ShapedTurn(turn) { return Some(S.Protocol); }
      fault := ItemsFault(turn.items.value);
      if fault.Some? { return; }
      if v.settled && v.terminal && CompletionEvidence(turn) != v.evidence { return Some(S.Protocol); }
    }

    method FaultOf(m: Method, p: Params) returns (fault: Option<S.Failure>)
      ensures fault == S.Fault(v, m, p)
    {
      if v.ambiguous || p.NotAnObject? { return Some(S.Protocol); }
      if m.TurnCompleted? && p.turn.Some? {
        fault := RejectCompletion(p.turn.value);
      } else {
        fault := S.Fault(v, m, p);
      }
    }

    method RejectEvidence(m: Method, p: Params) returns (rejected: bool)
      modifies this`v
      ensures (v, rejected) == S.RejectEvidence(own, old(v), m, p)
    {
      if m.ErrorNote? {
        rejected := RejectError(p);
        return;
      }
      NoteCleanupIdentity(m, p);
      var fault := FaultOf(m, p);
      if fault.Some? { Fail(fault.value); }
      return fault.Some?;
    }

    method TakeItem(item: Item)
      modifies this`v
      ensures v == S.TakeItem(old(v), item)
    {
      var fault := S.ItemFault(v, item, true);
      if fault.Some? {
        v := v.(revoked := true, transient := false, err := Some(fault.value));
        return;
      }
      if v.err.None? && item.agentMessage && item.phase.FinalAnswer? && item.text.Some? {
        v := v.(answer := Some(S.Answer(item.id, item.text.value)));
      }
    }

    method TakeItems(items: seq<Option<Item>>)
      modifies this`v
      ensures v == S.TakeItems(old(v), items)
    {
      var i := 0;
      while i < |items|
        invariant 0 <= i <= |items|
        invariant S.TakeItems(old(v), items) == S.TakeItems(v, items[i..])
      {
        if items[i].None? {
          v := v.(err := Some(S.Protocol));
          return;
        }
        TakeItem(items[i].value);
        if v.err.Some? { return; }
        i := i + 1;
      }
    }

    method TakeError(willRetry: bool, grade: ErrorClass)
      modifies this`v
      ensures v == S.TakeError(old(v), willRetry, grade)
    {
      if willRetry { return; }
      var transient := grade.TransientError?;
      if v.terminal { transient := transient && v.transient; }
      v := v.(terminal := true, transient := transient);
      if !transient { v := v.(err := Some(S.Server)); }
    }

    method Settle(turn: Turn)
      modifies this`v
      ensures v == S.Settle(old(v), turn)
    {
      if !turn.status.Completed? {
        var transient := false;
        if turn.error.Some? {
          transient := Classify(turn.error.value).TransientError?;
          if v.terminal { transient := transient && v.transient; }
        } else if v.terminal {
          transient := v.transient;
        }
        v := v.(terminal := true, transient := transient, settled := true);
        v := v.(evidence := CompletionEvidence(turn), err := Some(S.Server));
        return;
      }
      v := v.(settled := true);
      if v.terminal {
        v := v.(transient := false, err := Some(S.Server));
        return;
      }
      if v.completed {
        v := v.(err := Some(S.Protocol));
        return;
      }
      v := v.(completed := true);
    }

    method Consume(m: Method, p: Params)
      modifies this`v
      ensures v == S.Consume(own, old(v), m, p)
    {
      var rejected := RejectEvidence(m, p);
      if rejected || v.err.Some? { return; }
      match S.ContentOf(own, m, p)
      case Nothing => return;
      case Malformed => v := v.(err := Some(S.Protocol));
      case AnError(willRetry, grade) => TakeError(willRetry, grade);
      case AnItem(item) => TakeItem(item);
      case ACompletion(turn) =>
        TakeItems(turn.items.value);
        if v.err.None? { Settle(turn); }
    }

    method Handle(generation: nat, frame: Frame)
      modifies this
      ensures Value() == S.Handle(old(Value()), generation, frame)
    {
      if own.generation == 0 { own := own.(generation := generation); }
      if own.generation != generation {
        v := v.(ambiguous := true);
        Fail(S.Protocol);
        return;
      }
      if frame.ServerRequest? { Fail(S.Isolation); }
      if !frame.Notification? || frame.kind.OtherMethod? { return; }
      var rejected := RejectEvidence(frame.kind, frame.params);
      if rejected || v.err.Some? { return; }
      if own.thread == "" || own.turn == "" {
        if |events| >= S.EventLimit {
          v := v.(err := Some(S.Protocol));
        } else {
          events := events + [frame];
        }
      } else {
        Consume(frame.kind, frame.params);
      }
    }

    /** Bind the sink to a thread or, with a turn, to that turn; early notifications are replayed. */
    method Bind(generation: nat, thread: string, turn: string) returns (ok: bool)
      modifies this
      ensures Value() == S.Bind(old(Value()), generation, thread, turn)
      ensures ok == (!S.Misbinds(old(Value()), generation, thread, turn) && v.err.None?)
    {
      if own.generation != generation || (own.thread != "" && own.thread != thread)
        || (own.turn != "" && own.turn != turn) {
        v := v.(ambiguous := true, err := Some(S.Protocol));
        return false;
      }
      if turn != "" && v.cleanupTurn != "" && v.cleanupTurn != turn {
        v := v.(ambiguous := true, err := Some(S.Protocol));
        return false;
      }
      own := own.(thread := thread, turn := turn);
      if turn != "" {
        var i := 0;
        while i < |events|
          invariant 0 <= i <= |events|
          invariant own == old(own).(thread := thread, turn := turn) && events == old(events)
          invariant S.Replay(own, old(v), events) == S.Replay(own, v, events[i..])
        {
          if events[i].Notification? { Consume(events[i].kind, events[i].params); }
          i := i + 1;
        }
        events := [];
      }
      return v.err.None?;
    }

    /** The turn is requested at most once, on the bound thread, and only while nothing has failed. */
    method BeginTurn(generation: nat, thread: string) returns (ok: bool)
      modifies this`own
      ensures ok == S.CanBegin(old(Value()), generation, thread)
      ensures ok <==> v.err.None? && own == S.Owner(generation, thread, old(own.turn), true) && !old(own.issued)
      ensures own == if ok then old(own).(issued := true) else old(own)
      ensures own.issued && old(own.issued) ==> !ok
    {
      if v.err.Some? || own.generation != generation || own.thread != thread || own.issued { return false; }
      own := own.(issued := true);
      return true;
    }

    method CanRetry(generation: nat, thread: string, turn: string) returns (ok: bool)
      ensures ok == S.CanRetry(Value(), generation, thread, turn)
      ensures Rejected(v) ==> !ok
    {
      ok := !v.revoked && v.transient && v.terminal && v.settled && !v.ambiguous
      && own.generation == generation && own.thread == thread && own.turn == turn && turn != "";
    }
  }
}
