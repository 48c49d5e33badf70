/** A small experiment log that stops for good at the first call it cannot close, however a write fails. */
module DiagnosticLog {
  datatype Status = Success | Uncertain

  /** `Fragment` is a part of a line, perhaps an empty one. */
  datatype Line = Created(maxRequests: nat) | ReservedLine(n: nat) | FinishedLine(n: nat, status: Status) | Fragment

  /** A write succeeds, or it raises: with nothing written, with a part of the line, or after the line has landed. */
  datatype Write = Fine | Lost | Torn | Late

  /** What comes of a call's four writes: the reservation and the ending, each in the call's own file and in the log. */
  datatype Writes = Writes(reserveOwn: Write, reserveLog: Write, finishOwn: Write, finishLog: Write)

  /** What a write leaves behind of its line. */
  function Left(w: Write, line: Line): seq<Line> {
    match w
    case Lost => []
    case Torn => [Fragment]
    case Fine | Late => [line]
  }

  /** The object's two fields, the log, the calls' own files, and the operations that were started, in order. */
  datatype Books = Books(
    sequence: nat, stopped: bool, log: seq<Line>, own: map<nat, seq<Line>>, executed: seq<nat>)

  function Opened(maxRequests: nat): Books {
    Books(0, false, [Created(maxRequests)], map[], [])
  }

  /** The file a call opens for its reservation; a write that was lost made no file. */
  function WithOwn(own: map<nat, seq<Line>>, n: nat, w: Write): map<nat, seq<Line>> {
    if w.Lost? then own else own[n := Left(w, ReservedLine(n))]
  }

  function StatusOf(raised: bool): Status {
    if raised then Uncertain else Success
  }

  function Finish(b: Books, n: nat, status: Status, w: Writes): Books
    requires n in b.own
  {
    var closed := b.(own := b.own[n := b.own[n] + Left(w.finishOwn, FinishedLine(n, status))]);
    if !w.finishOwn.Fine? then closed
    else closed.(log := closed.log + Left(w.finishLog, FinishedLine(n, status)))
  }

  predicate Starts(w: Writes) {
    w.reserveOwn.Fine? && w.reserveLog.Fine?
  }

  /** Entering a call: the object is stopped first, so a write that fails lets no other call in. */
  function Enter(b: Books, w: Writes): Books {
    var n := b.sequence + 1;
    Books(n, true, if w.reserveOwn.Fine? then b.log + Left(w.reserveLog, ReservedLine(n)) else b.log,
          WithOwn(b.own, n, w.reserveOwn), if Starts(w) then b.executed + [n] else b.executed)
  }

  /** Whether a call that is not refused lets the next one in. */
  predicate Closes(raised: bool, w: Writes) {
    !raised && w == Writes(Fine, Fine, Fine, Fine)
  }

  /** One call: refused, or reserved, run and closed; it lets the next one in only after both endings are written. */
  function AfterCall(max: nat, b: Books, raised: bool, w: Writes): Books {
    if b.stopped || b.sequence >= max then b
    else if !Starts(w) then Enter(b, w)
    else Finish(Enter(b, w), b.sequence + 1, StatusOf(raised), w).(stopped := !Closes(raised, w))
  }

  // ----- The shape of the log

  /** The lines of the calls 1 to n, each reserved and closed successfully. */
  function Pairs(n: nat): seq<Line> {
    if n == 0 then [] else Pairs(n - 1) + [ReservedLine(n), FinishedLine(n, Success)]
  }

  function Numbers(n: nat): seq<nat> {
    if n == 0 then [] else Numbers(n - 1) + [n]
  }

  /**
   What may follow the closed pairs of a stopped log, with whether the last operation was started. Without it there
   is at most its reservation; with it the reservation, and perhaps one more line, whole or in part.
   */
  ghost predicate Tail(n: nat, lines: seq<Line>, started: bool) {
    || (!started && (lines == [] || lines == [Fragment] || lines == [ReservedLine(n)]))
    || (started && (lines == [ReservedLine(n)] || exists last :: Ending(n, last) && lines == [ReservedLine(n), last]))
  }

  predicate Ending(n: nat, line: Line) {
    line == Fragment || line == FinishedLine(n, Success) || line == FinishedLine(n, Uncertain)
  }

  /** The last call of a stopped log. */
  ghost predicate EndsWith(max: nat, b: Books, tail: seq<Line>, started: bool) {
    && b.sequence > 0 && Tail(b.sequence, tail, started)
    && b.log == [Created(max)] + Pairs(b.sequence - 1) + tail
    && b.executed == Numbers(if started then b.sequence else b.sequence - 1)
  }

  /** While running, only closed pairs; once stopped, one more call, which may be open, torn or closed in the log. */
  ghost predicate Shaped(max: nat, b: Books) {
    && b.sequence <= max
    && (!b.stopped ==> b.log == [Created(max)] + Pairs(b.sequence) && b.executed == Numbers(b.sequence))
    && (b.stopped ==> exists tail, started :: EndsWith(max, b, tail, started))
  }

  /** A call's own file begins with its reservation, or is a fragment; what was started is reserved in both files. */
  ghost predicate ReservedFirst(b: Books) {
    && (forall n :: n in b.own ==>
          1 <= n <= b.sequence && (b.own[n] == [Fragment] || (b.own[n] != [] && b.own[n][0] == ReservedLine(n))))
    && (forall n :: n in b.executed ==> n in b.own && ReservedLine(n) in b.own[n] && ReservedLine(n) in b.log)
  }

  lemma {:induction false} NumbersAre(n: nat)
    ensures |Numbers(n)| == n && forall i :: 0 <= i < n ==> Numbers(n)[i] == i + 1
  {
    if n > 0 {
      NumbersAre(n - 1);
    }
  }

  /** What such a call adds to the log. */
  function Added(n: nat, raised: bool, w: Writes): seq<Line> {
    if !w.reserveOwn.Fine? then []
    else if !w.reserveLog.Fine? || !w.finishOwn.Fine? then Left(w.reserveLog, ReservedLine(n))
    else [ReservedLine(n)] + Left(w.finishLog, FinishedLine(n, StatusOf(raised)))
  }

  lemma CallAdds(max: nat, b: Books, raised: bool, w: Writes)
    requires !b.stopped && b.sequence < max
    ensures var t := AfterCall(max, b, raised, w);
            && t.sequence == b.sequence + 1 && t.log == b.log + Added(t.sequence, raised, w)
            && t.executed == b.executed + (if Starts(w) then [t.sequence] else [])
            && (t.stopped <==> !Closes(raised, w))
  {
    var n := b.sequence + 1;
    if Starts(w) && w.finishOwn.Fine? {
      var ending := Left(w.finishLog, FinishedLine(n, StatusOf(raised)));
      assert b.log + ([ReservedLine(n)] + ending) == (b.log + [ReservedLine(n)]) + ending;
    }
  }

  lemma AddedIsTail(n: nat, raised: bool, w: Writes)
    ensures Tail(n, Added(n, raised, w), Starts(w))
    ensures Closes(raised, w) ==> Added(n, raised, w) == [ReservedLine(n), FinishedLine(n, Success)]
  {
    if Starts(w) && w.finishOwn.Fine? && !w.finishLog.Lost? {
      var last := Left(w.finishLog, FinishedLine(n, StatusOf(raised)))[0];
      assert Ending(n, last) && Added(n, raised, w) == [ReservedLine(n), last];
    }
  }

  lemma CallKeepsShape(max: nat, b: Books, raised: bool, w: Writes)
    requires Shaped(max, b)
    ensures Shaped(max, AfterCall(max, b, raised, w))
  {
    if !b.stopped && b.sequence < max {
      var t := AfterCall(max, b, raised, w);
      CallAdds(max, b, raised, w);
      AddedIsTail(t.sequence, raised, w);
      if t.stopped {
        assert EndsWith(max, t, Added(t.sequence, raised, w), Starts(w));
      } else {
        assert t.log == [Created(max)] + Pairs(t.sequence);
      }
    }
  }

  lemma CallKeepsReserved(max: nat, b: Books, raised: bool, w: Writes)
    requires ReservedFirst(b)
    ensures ReservedFirst(AfterCall(max, b, raised, w))
  {
    if !b.stopped && b.sequence < max {
      CallAdds(max, b, raised, w);
      var n, t := b.sequence + 1, AfterCall(max, b, raised, w);
      forall k | k in t.own
        ensures 1 <= k <= n && (t.own[k] == [Fragment] || (t.own[k] != [] && t.own[k][0] == ReservedLine(k)))
      {
        assert k == n || (k in b.own && t.own[k] == b.own[k]);
      }
      forall k | k in t.executed ensures k in t.own && ReservedLine(k) in t.own[k] && ReservedLine(k) in t.log {
        if k in b.executed {
          assert k != n && t.own[k] == b.own[k];
        } else {
          assert k == n && Starts(w) && ReservedLine(n) in Added(n, raised, w);
        }
      }
    }
  }

  datatype Turn = Turn(raised: bool, writes: Writes)

  function Run(max: nat, turns: seq<Turn>): Books {
    if turns == [] then Opened(max)
    else AfterCall(max, Run(max, turns[..|turns| - 1]), turns[|turns| - 1].raised, turns[|turns| - 1].writes)
  }

  /** Over any run, with any operation errors and failed writes. */
  lemma {:induction false} RunIsShaped(max: nat, turns: seq<Turn>)
    ensures Shaped(max, Run(max, turns)) && ReservedFirst(Run(max, turns))
  {
    if turns != [] {
      var before, turn := Run(max, turns[..|turns| - 1]), turns[|turns| - 1];
      RunIsShaped(max, turns[..|turns| - 1]);
      CallKeepsReserved(max, before, turn.raised, turn.writes);
      CallKeepsShape(max, before, turn.raised, turn.writes);
    }
  }

  /**
   At most `max` operations run, each once and in order, and each with its reservation in its own file and the log.
   */
  lemma {:induction false} ExecutedReserved(max: nat, turns: seq<Turn>)
    ensures var b := Run(max, turns);
            && |b.executed| <= max && b.executed == Numbers(|b.executed|)
            && (forall n :: n in b.executed ==> n in b.own && ReservedLine(n) in b.own[n] && ReservedLine(n) in b.log)
  {
    RunIsShaped(max, turns);
    var b := Run(max, turns);
    NumbersAre(b.sequence);
    if b.sequence > 0 { NumbersAre(b.sequence - 1); }
  }

  /** Nothing runs after the first call that was not closed successfully. */
  lemma {:induction false} StoppedForGood(max: nat, turns: seq<Turn>, n: nat)
    requires n <= |turns| && Run(max, turns[..n]).stopped
    ensures Run(max, turns) == Run(max, turns[..n])
    decreases |turns|
  {
    if n == |turns| {
      assert turns[..n] == turns;
    } else {
      assert turns[..|turns| - 1][..n] == turns[..n];
      StoppedForGood(max, turns[..|turns| - 1], n);
    }
  }

  /** A stopped log closes its last call with success exactly when that call's last write raised after it had landed. */
  lemma ClosedButStoppedIff(max: nat, b: Books, raised: bool, w: Writes)
    requires Shaped(max, b) && !b.stopped && b.sequence < max
    ensures var t := AfterCall(max, b, raised, w);
            t.stopped && t.log == [Created(max)] + Pairs(t.sequence)
            <==> !raised && w == Writes(Fine, Fine, Fine, Late)
  {
    var n := b.sequence + 1;
    CallAdds(max, b, raised, w);
    AddedIsTail(n, raised, w);
    assert [Created(max)] + Pairs(n) == b.log + [ReservedLine(n), FinishedLine(n, Success)];
    SamePrefix(b.log, Added(n, raised, w), [ReservedLine(n), FinishedLine(n, Success)]);
    AddedSuccessIff(n, raised, w);
  }

  /** One call from the start is enough: everything it did is closed with success, and no other call is let in. */
  lemma {:induction false} ClosedButStoppedHappens(max: nat)
    requires max >= 1
    ensures var b := Run(max, [Turn(false, Writes(Fine, Fine, Fine, Late))]);
            && b.stopped && b.executed == [1] && b.log == [Created(max)] + Pairs(1)
            && b.own == map[1 := [ReservedLine(1), FinishedLine(1, Success)]]
  {
    var w := Writes(Fine, Fine, Fine, Late);
    assert [Turn(false, w)][..0] == [];
    CallAdds(max, Opened(max), false, w);
    assert Pairs(1) == Pairs(0) + [ReservedLine(1), FinishedLine(1, Success)];
    assert [ReservedLine(1)] + [FinishedLine(1, Success)] == [ReservedLine(1), FinishedLine(1, Success)];
  }

  lemma AddedSuccessIff(n: nat, raised: bool, w: Writes)
    ensures Added(n, raised, w) == [ReservedLine(n), FinishedLine(n, Success)]
            <==> Starts(w) && w.finishOwn.Fine? && !raised && (w.finishLog.Fine? || w.finishLog.Late?)
  {
    var added := Added(n, raised, w);
    if added == [ReservedLine(n), FinishedLine(n, Success)] {
      assert |added| == 2 && added[1] == FinishedLine(n, Success);
    }
  }

  lemma SamePrefix<T>(prefix: seq<T>, a: seq<T>, b: seq<T>)
    ensures prefix + a == prefix + b <==> a == b
  {
    assert (prefix + a)[|prefix|..] == a && (prefix + b)[|prefix|..] == b;
  }

  // ----- The ledger object

  class DiagnosticLedger {
    const maxRequests: nat
    var sequence: nat
    var stopped: bool
    var log: seq<Line>
    var own: map<nat, seq<Line>>
    ghost var executed: seq<nat>

    ghost function Now(): Books
      reads this
    {
      Books(sequence, stopped, log, own, executed)
    }

    ghost predicate Valid()
      reads this
    {
      1 <= maxRequests <= 4 && Shaped(maxRequests, Now()) && ReservedFirst(Now())
    }

    constructor (max: nat)
      requires 1 <= max <= 4
      ensures Valid() && maxRequests == max && Now() == Opened(max)
    {
      maxRequests := max;
      sequence, stopped, log, own, executed := 0, false, [Created(max)], map[], [];
      new;
      RunIsShaped(max, []);
    }

    method WriteEnd(n: nat, status: Status, w: Writes) returns (ok: bool)
      requires n in own
      modifies this`own, this`log
      ensures Now() == Finish(old(Now()), n, status, w) && ok == (w.finishOwn.Fine? && w.finishLog.Fine?)
    {
      own := own[n := own[n] + Left(w.finishOwn, FinishedLine(n, status))];
      if !w.finishOwn.Fine? {
        return false;
      }
      log := log + Left(w.finishLog, FinishedLine(n, status));
      return w.finishLog.Fine?;
    }

    method Reserve(w: Writes) returns (started: bool)
      modifies this
      ensures Now() == Enter(old(Now()), w) && started == Starts(w)
    {
      sequence := sequence + 1;
      stopped := true;
      own := WithOwn(own, sequence, w.reserveOwn);
      if !w.reserveOwn.Fine? {
        return false;
      }
      log := log + Left(w.reserveLog, ReservedLine(sequence));
      if !w.reserveLog.Fine? {
        return false;
      }
      executed := executed + [sequence];
      return true;
    }

    /** `raised` says whether the operation raises; `ok` whether the caller gets its result. */
    method Call(raised: bool, w: Writes) returns (ok: bool)
      requires Valid()
      modifies this
      ensures Valid() && Now() == AfterCall(maxRequests, old(Now()), raised, w)
      ensures ok <==> !stopped && sequence > old(sequence)
    {
      CallKeepsShape(maxRequests, Now(), raised, w);
      CallKeepsReserved(maxRequests, Now(), raised, w);
      ok := false;
      if !stopped && sequence < maxRequests {
        var started := Reserve(w);
        if started {
          var ended := WriteEnd(sequence, StatusOf(raised), w);
          ok := !raised && ended;
          stopped := !ok;
        }
      }
    }
  }
}
