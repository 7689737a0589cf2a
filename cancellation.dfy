/**
 * The cancel state machine shared, line for line, by constext.go and
 * coalext.go: a node goes from live (err nil) to terminal (err set), the
 * first reason wins, and every later call is a no-op. The watcher goroutine,
 * the deadline timer and the CancelFunc handed to the caller are events that
 * call `cancel`; Run replays any finite interleaving of them, which is how
 * the model stands in for the mutex-ordered race between them.
 */
module Cancellation {
  import opened Contexts

  /** The CancelFunc returned with a node: `func() {}` or
      `func() { x.cancel(context.Canceled) }`. */
  datatype CancelFunc = NoOp | CancelWithCanceled

  /** The mutable part of a node. `timer` is the instant at which an armed
      deadline timer fires; `watching` holds the parents whose Done channels
      the watcher goroutine is still selecting on (empty when no watcher
      runs). A nil Done channel is never selected on, so it is never there. */
  datatype Node = Node(err: Option<Error>, done: Signal, timer: Option<int>, watching: set<Side>)

  /** A freshly built node together with the CancelFunc returned with it. */
  datatype Combined = Combined(node: Node, cancel: CancelFunc)

  /** The ways `cancel` can panic: a nil reason, or closing a done channel
      that is nil or already closed. */
  datatype Panic = MissingCancelError | CloseOfNilChannel | CloseOfClosedChannel

  /** The state after a call, and the panic that ended it, if any. */
  datatype Step = Step(node: Node, panic: Option<Panic>)

  /** What can call `cancel` after construction: the caller invoking the
      CancelFunc, a parent's Done channel firing in the watcher's select
      (carrying that parent's Err()), and the deadline timer firing. */
  datatype Event = CancelCall | ParentFire(side: Side, reason: Option<Error>) | TimerFire

  /** The node struct as allocated, before any field is set. */
  const Inert := Node(None, Absent, None, {})

  /** What every reachable node satisfies: a closed channel means a reason
      was recorded, a terminal node has no armed timer, and a node without a
      done channel has neither a timer nor a watcher. */
  predicate Valid(n: Node) {
    && (n.done == Closed ==> n.err.Some?)
    && (n.err.Some? ==> n.timer.None?)
    && (n.done == Absent ==> n.timer.None? && n.watching == {})
  }

  /** The context.Context contract between Err and Done: Err is non-nil
      exactly when Done is closed. */
  predicate ContractHolds(n: Node) {
    n.err.Some? <==> n.done == Closed
  }

  /** The parents a new watcher selects on: those whose Done is non-nil. */
  function Watched(l: Parent, r: Parent): (s: set<Side>)
    ensures Left in s <==> l.cancelable
    ensures Right in s <==> r.cancelable
  {
    (if l.cancelable then {Left} else {}) + (if r.cancelable then {Right} else {})
  }

  /** `cancel(err)`: a nil reason panics before the lock is taken; a live
      node records the reason, closes done and stops the timer; a terminal
      node is left as it is. */
  function Cancel(n: Node, e: Option<Error>): (r: Step)
    ensures e.None? ==> r == Step(n, Some(MissingCancelError))
    ensures n.err.Some? ==> r.node == n
    ensures e.Some? ==> r.node.err == (if n.err.Some? then n.err else e)
    ensures e.Some? && n.err.None? && n.done == Open ==>
              r == Step(Node(e, Closed, None, n.watching), None)
    ensures e.Some? && n.err.None? && n.done == Absent ==>
              r == Step(n.(err := e), Some(CloseOfNilChannel))
    ensures r.panic.None? <==> e.Some? && (n.err.Some? || n.done == Open)
    ensures Valid(n) ==> Valid(r.node)
  {
    if e.None? then Step(n, Some(MissingCancelError))
    else if n.err.Some? then Step(n, None)
    else match n.done
      case Absent => Step(n.(err := e), Some(CloseOfNilChannel))
      case Closed => Step(n.(err := e), Some(CloseOfClosedChannel))
      case Open => Step(n.(err := e, done := Closed, timer := None), None)
  }

  /** Whether an event reaches `cancel` at all: a no-op CancelFunc does
      not, a nil Done channel never fires, and a timer that was never armed
      never fires. */
  predicate Effective(f: CancelFunc, n: Node, ev: Event) {
    match ev
    case CancelCall => f == CancelWithCanceled
    case ParentFire(side, _) => side in n.watching
    case TimerFire => n.timer.Some?
  }

  /** The reason an event passes to `cancel`. */
  function Reason(ev: Event): Option<Error> {
    match ev
    case CancelCall => Some(Canceled)
    case ParentFire(_, e) => e
    case TimerFire => Some(DeadlineExceeded)
  }

  /** One event. When the watcher's select fires it calls `cancel` and
      exits, whichever parent fired. */
  function Handle(f: CancelFunc, n: Node, ev: Event): (r: Step)
    ensures !Effective(f, n, ev) ==> r == Step(n, None)
    ensures Effective(f, n, ev) ==>
              r == Cancel(if ev.ParentFire? then n.(watching := {}) else n, Reason(ev))
  {
    match ev
    case CancelCall =>
      if f == NoOp then Step(n, None) else Cancel(n, Some(Canceled))
    case ParentFire(side, e) =>
      if side in n.watching then Cancel(n.(watching := {}), e) else Step(n, None)
    case TimerFire =>
      if n.timer.Some? then Cancel(n, Some(DeadlineExceeded)) else Step(n, None)
  }

  /** A sequence of events, in the order the mutex admits them; a panic
      ends the run. A recorded reason is never replaced, and every state
      reached from a valid node is valid. */
  function Run(f: CancelFunc, n: Node, evs: seq<Event>): (r: Step)
    ensures n.err.Some? ==> r.node.err == n.err
    ensures Valid(n) ==> Valid(r.node)
    decreases |evs|
  {
    if evs == [] then Step(n, None)
    else
      var s := Handle(f, n, evs[0]);
      if s.panic.Some? then s else Run(f, s.node, evs[1..])
  }

  /** Events that come from the contract's callers: every parent that
      fires reports a non-nil Err. */
  predicate NoNilReasons(evs: seq<Event>) {
    forall i :: 0 <= i < |evs| ==> Reason(evs[i]).Some?
  }

  /** Reference definition of the winner: the reason of the first event in
      the sequence that reaches `cancel` on the node as it stands. */
  function FirstEffective(f: CancelFunc, n: Node, evs: seq<Event>): Option<Error>
    decreases |evs|
  {
    if evs == [] then None
    else if Effective(f, n, evs[0]) then Reason(evs[0])
    else FirstEffective(f, n, evs[1..])
  }

  lemma NoNilReasonsTail(evs: seq<Event>)
    requires evs != [] && NoNilReasons(evs)
    ensures Reason(evs[0]).Some? && NoNilReasons(evs[1..])
  {
    assert forall i :: 0 <= i < |evs[1..]| ==> evs[1..][i] == evs[i + 1];
  }

  /** FirstEffective is what its name says: the reason of an effective
      event with no effective event before it, and present exactly when some
      event is effective. */
  lemma {:induction false} FirstEffectiveIsFirst(f: CancelFunc, n: Node, evs: seq<Event>)
    requires NoNilReasons(evs)
    ensures FirstEffective(f, n, evs).Some? <==>
              exists i :: 0 <= i < |evs| && Effective(f, n, evs[i])
    ensures FirstEffective(f, n, evs).Some? ==>
              exists i :: 0 <= i < |evs| && Effective(f, n, evs[i]) &&
                Reason(evs[i]) == FirstEffective(f, n, evs) &&
                forall j :: 0 <= j < i ==> !Effective(f, n, evs[j])
    decreases |evs|
  {
    if evs != [] {
      NoNilReasonsTail(evs);
      if Effective(f, n, evs[0]) {
        assert Effective(f, n, evs[0]) && Reason(evs[0]) == FirstEffective(f, n, evs);
      } else {
        FirstEffectiveIsFirst(f, n, evs[1..]);
        var tail := evs[1..];
        if exists i :: 0 <= i < |evs| && Effective(f, n, evs[i]) {
          var i :| 0 <= i < |evs| && Effective(f, n, evs[i]);
          assert tail[i - 1] == evs[i];
        }
        if FirstEffective(f, n, evs).Some? {
          var i :| 0 <= i < |tail| && Effective(f, n, tail[i]) &&
                   Reason(tail[i]) == FirstEffective(f, n, tail) &&
                   forall j :: 0 <= j < i ==> !Effective(f, n, tail[j]);
          assert evs[i + 1] == tail[i];
          forall j | 0 <= j < i + 1 ensures !Effective(f, n, evs[j]) {
            if j > 0 { assert evs[j] == tail[j - 1]; }
          }
        }
      }
    }
  }

  /** A terminal node stays terminal with the first reason: no later event
      changes err, done or the timer, none panics, and the watcher can only
      exit. */
  lemma {:induction false} RunFromTerminal(f: CancelFunc, n: Node, evs: seq<Event>)
    requires n.err.Some? && NoNilReasons(evs)
    ensures var r := Run(f, n, evs);
      && r.panic.None?
      && r.node.err == n.err && r.node.done == n.done && r.node.timer == n.timer
      && r.node.watching <= n.watching
    decreases |evs|
  {
    if evs != [] {
      NoNilReasonsTail(evs);
      RunFromTerminal(f, Handle(f, n, evs[0]).node, evs[1..]);
    }
  }

  /** From a live node with an open done channel, exactly one reason is
      recorded: the first event that reaches `cancel` wins, done is closed
      and the timer stopped; until then nothing changes. */
  lemma {:induction false} RunFromLive(f: CancelFunc, n: Node, evs: seq<Event>)
    requires n.err.None? && n.done == Open && NoNilReasons(evs)
    ensures var r := Run(f, n, evs);
      && r.panic.None?
      && r.node.err == FirstEffective(f, n, evs)
      && (r.node.err.Some? ==> r.node.done == Closed && r.node.timer.None?)
      && (r.node.err.None? ==> r.node == n)
    decreases |evs|
  {
    if evs != [] {
      NoNilReasonsTail(evs);
      var s := Handle(f, n, evs[0]);
      if Effective(f, n, evs[0]) {
        RunFromTerminal(f, s.node, evs[1..]);
      } else {
        RunFromLive(f, n, evs[1..]);
      }
    }
  }

  /** A node without a done channel, watcher or timer is unaffected by every
      event except a CancelFunc that calls `cancel`, which panics closing
      the nil channel (after recording Canceled). */
  lemma {:induction false} RunFromInert(f: CancelFunc, evs: seq<Event>)
    ensures Run(f, Inert, evs) ==
              if f == CancelWithCanceled && CancelCall in evs
              then Step(Inert.(err := Some(Canceled)), Some(CloseOfNilChannel))
              else Step(Inert, None)
    decreases |evs|
  {
    if evs != [] {
      RunFromInert(f, evs[1..]);
      assert CancelCall in evs <==> evs[0] == CancelCall || CancelCall in evs[1..];
    }
  }
}
