/**
 * Union (coalext.go): the same combination as Cons, with three differences
 * in the code: Deadline is head's whenever head has one (not the earlier of
 * the two), a live node arms a timer for that deadline, and the fast-path
 * test reads `head.Done()` twice, so it never looks at tail, and its
 * CancelFunc still calls `cancel`.
 */
module Coalext {
  import opened Contexts
  import opened Cancellation

  /** `Deadline()`: head's deadline when it has one, otherwise tail's. */
  function Deadline(head: Option<int>, tail: Option<int>): (r: Option<int>)
    ensures head.Some? ==> r == head
    ensures head.None? ==> r == tail
  {
    if head.Some? then head else tail
  }

  /** `Value(key)`, given what head and tail answer for the key: head's
      value unless it is nil, otherwise tail's. */
  function Value<V>(headValue: Option<V>, tailValue: Option<V>): (r: Option<V>)
    ensures headValue.Some? ==> r == headValue
    ensures headValue.None? ==> r == tailValue
  {
    if headValue.Some? then headValue else tailValue
  }

  /** Head's deadline wins even when tail's is earlier. */
  lemma DeadlineIsNotTheEarliest()
    ensures Deadline(Some(10), Some(5)) == Some(10)
  {
  }

  /** What Union builds from snapshots of its parents at instant `now`. */
  function Init(head: Parent, tail: Parent, now: int): (c: Combined)
    ensures c.node.done == Absent <==> !head.cancelable
    ensures c.cancel == CancelWithCanceled
    ensures c.node.watching != {} <==> c.node.err.None? && c.node.done != Absent
    ensures c.node.timer.Some? ==> c.node.timer == Deadline(head.deadline, tail.deadline) && c.node.timer.value > now
    ensures Valid(c.node)
  {
    if !head.cancelable && !head.cancelable then Combined(Inert, CancelWithCanceled)
    else if head.err.Some? then Combined(Node(head.err, Open, None, {}), CancelWithCanceled)
    else if tail.err.Some? then Combined(Node(tail.err, Open, None, {}), CancelWithCanceled)
    else
      var dl := Deadline(head.deadline, tail.deadline);
      if Expired(dl, now) then
        Combined(Cancel(Node(None, Open, None, {}), Some(DeadlineExceeded)).node, CancelWithCanceled)
      else
        // time.AfterFunc(d, ...) with d = dl - now fires at now + d, which is dl
        Combined(Node(None, Open, dl, Watched(head, tail)), CancelWithCanceled)
  }

  /** Head is un-cancelable: whatever tail is, even a tail that has already
      stopped, the node has no done channel, no watcher and no timer, so
      nothing tail does ever reaches it; the returned CancelFunc still calls
      `cancel`, which records Canceled and panics closing the nil channel. */
  lemma {:induction false} FastPathIgnoresTail(head: Parent, tail: Parent, now: int, evs: seq<Event>)
    requires !head.cancelable
    ensures Init(head, tail, now) == Combined(Inert, CancelWithCanceled)
    ensures Run(CancelWithCanceled, Inert, evs) ==
              if CancelCall in evs
              then Step(Inert.(err := Some(Canceled)), Some(CloseOfNilChannel))
              else Step(Inert, None)
  {
    RunFromInert(CancelWithCanceled, evs);
  }

  /** An instance of the above: tail has stopped and has a deadline, but the
      union reports neither a reason nor a done channel, while Deadline()
      reports tail's deadline; used as a parent it is not well-behaved. */
  lemma FastPathDropsStoppedTail()
    ensures var head := Parent(false, None, None);
      var tail := Parent(true, Some(Canceled), Some(5));
      var n := Init(head, tail, 0).node;
      && WellBehaved(head) && WellBehaved(tail)
      && n.err.None? && n.done == Absent
      && !WellBehaved(Parent(n.done != Absent, n.err, Deadline(head.deadline, tail.deadline)))
  {
  }

  /** A parent that has already stopped is adopted, head before tail: the
      node starts terminal with that parent's error, no watcher and no timer
      start, and the reason never changes. The done channel is made but never
      closed, so Done() stays open while Err() is non-nil. */
  lemma {:induction false} AdoptsParentError(head: Parent, tail: Parent, now: int, evs: seq<Event>)
    requires head.cancelable
    requires head.err.Some? || tail.err.Some?
    requires NoNilReasons(evs)
    ensures var c := Init(head, tail, now);
      && c.node == Node(if head.err.Some? then head.err else tail.err, Open, None, {})
      && var r := Run(c.cancel, c.node, evs);
         r.panic.None? && r.node.err == c.node.err && r.node.done == Open && !ContractHolds(r.node)
  {
    var c := Init(head, tail, now);
    RunFromTerminal(c.cancel, c.node, evs);
  }

  /** Live parents whose head-first deadline has passed: the node starts
      terminal with DeadlineExceeded, its done channel closed, and stays so. */
  lemma {:induction false} ExpiresAtConstruction(head: Parent, tail: Parent, now: int, evs: seq<Event>)
    requires head.cancelable
    requires head.err.None? && tail.err.None?
    requires Expired(Deadline(head.deadline, tail.deadline), now)
    requires NoNilReasons(evs)
    ensures var c := Init(head, tail, now);
      && c.node == Node(Some(DeadlineExceeded), Closed, None, {})
      && Run(c.cancel, c.node, evs).node == c.node
  {
    var c := Init(head, tail, now);
    RunFromTerminal(c.cancel, c.node, evs);
  }

  /** Otherwise the node is live, with a watcher on every cancelable parent
      and, when there is a deadline, a timer armed for it. It stops only
      when the CancelFunc is called, a watched parent fires or the timer fires;
      the first of these wins, done is closed and the timer is stopped, so a
      later timer firing changes nothing. */
  lemma {:induction false} LiveArmsTimer(head: Parent, tail: Parent, now: int, evs: seq<Event>)
    requires head.cancelable
    requires head.err.None? && tail.err.None?
    requires !Expired(Deadline(head.deadline, tail.deadline), now)
    requires NoNilReasons(evs)
    ensures var c := Init(head, tail, now);
      var dl := Deadline(head.deadline, tail.deadline);
      && c.node == Node(None, Open, dl, Watched(head, tail))
      && var r := Run(c.cancel, c.node, evs);
         && r.panic.None?
         && (r.node.err.Some? <==>
               exists i :: 0 <= i < |evs| &&
                 (evs[i] == CancelCall || (evs[i].ParentFire? && evs[i].side in Watched(head, tail)) ||
                  (evs[i] == TimerFire && dl.Some?)))
         && (r.node.err.Some? ==> r.node.done == Closed && r.node.timer.None?)
         && (r.node.err.Some? ==>
               exists i :: 0 <= i < |evs| && Reason(evs[i]) == r.node.err &&
                 (evs[i] == CancelCall || (evs[i].ParentFire? && evs[i].side in Watched(head, tail)) ||
                  (evs[i] == TimerFire && dl.Some?)))
         && r.node.err == FirstEffective(c.cancel, c.node, evs)
         && (dl.Some? && evs != [] && evs[0] == TimerFire ==> r.node.err == Some(DeadlineExceeded))
         && (r.node.err.None? ==> r.node == c.node)
  {
    var c := Init(head, tail, now);
    RunFromLive(c.cancel, c.node, evs);
    FirstEffectiveIsFirst(c.cancel, c.node, evs);
  }

  /** Union as its authors evidently meant it: the fast path tests both
      parents and returns a no-op CancelFunc, and a parent that has already
      stopped is adopted through `cancel`, so the done channel is closed. */
  function IntendedInit(head: Parent, tail: Parent, now: int): (c: Combined)
    ensures c.node.done == Absent <==> !head.cancelable && !tail.cancelable
    ensures c.node.done == Absent ==> c == Combined(Inert, NoOp)
    ensures head.cancelable || tail.cancelable ==>
              c.node.err == if head.err.Some? then head.err
                            else if tail.err.Some? then tail.err
                            else if Expired(Deadline(head.deadline, tail.deadline), now) then Some(DeadlineExceeded)
                            else None
  {
    if !head.cancelable && !tail.cancelable then Combined(Inert, NoOp)
    else if head.err.Some? then
      Combined(Cancel(Node(None, Open, None, {}), head.err).node, CancelWithCanceled)
    else if tail.err.Some? then
      Combined(Cancel(Node(None, Open, None, {}), tail.err).node, CancelWithCanceled)
    else
      var dl := Deadline(head.deadline, tail.deadline);
      if Expired(dl, now) then
        Combined(Cancel(Node(None, Open, None, {}), Some(DeadlineExceeded)).node, CancelWithCanceled)
      else Combined(Node(None, Open, dl, Watched(head, tail)), CancelWithCanceled)
  }

  /** With both parents tested, a corrected union built from well-behaved
      parents is itself well-behaved when it is used as a parent. */
  lemma IntendedUnionIsWellBehaved(head: Parent, tail: Parent, now: int)
    requires WellBehaved(head) && WellBehaved(tail)
    ensures var n := IntendedInit(head, tail, now).node;
      WellBehaved(Parent(n.done != Absent, n.err, Deadline(head.deadline, tail.deadline)))
  {
  }

  /** The corrected Union keeps the context contract forever: however the
      events interleave, no call panics and Err() is non-nil exactly when
      Done() is closed. */
  lemma {:induction false} IntendedInitKeepsContract(head: Parent, tail: Parent, now: int, evs: seq<Event>)
    requires NoNilReasons(evs)
    ensures var c := IntendedInit(head, tail, now);
      var r := Run(c.cancel, c.node, evs);
      r.panic.None? && ContractHolds(r.node)
  {
    var c := IntendedInit(head, tail, now);
    if c.node.done == Absent {
      RunFromInert(c.cancel, evs);
    } else if c.node.err.Some? {
      RunFromTerminal(c.cancel, c.node, evs);
    } else {
      RunFromLive(c.cancel, c.node, evs);
    }
  }

  /** A unionCtx node: the parent snapshots, the fields the mutex protects
      (err, timer), the done channel, and the watcher goroutine. */
  class UnionCtx {
    const head: Parent
    const tail: Parent
    var done: Signal
    var timer: Option<int>
    var err: Option<Error>
    var watching: set<Side>

    /** The node's fields as one value. */
    function State(): Node
      reads this
    {
      Node(err, done, timer, watching)
    }

    /** `&unionCtx{head: c1, tail: c2}` */
    constructor (c1: Parent, c2: Parent)
      ensures head == c1 && tail == c2 && State() == Inert
    {
      head, tail := c1, c2;
      done, timer, err, watching := Absent, None, None, {};
    }

    /** `Union(c1, c2)`, at instant `now`. */
    static method Union(c1: Parent, c2: Parent, now: int) returns (uc: UnionCtx, cancel: CancelFunc)
      ensures fresh(uc) && uc.head == c1 && uc.tail == c2
      ensures Combined(uc.State(), cancel) == Init(c1, c2, now)
      ensures Valid(uc.State())
    {
      uc := new UnionCtx(c1, c2);
      if !uc.head.cancelable && !uc.head.cancelable {
        return uc, CancelWithCanceled;
      }
      uc.done := Open;
      if uc.head.err.Some? {
        uc.err := uc.head.err;
        return uc, CancelWithCanceled;
      }
      if uc.tail.err.Some? {
        uc.err := uc.tail.err;
        return uc, CancelWithCanceled;
      }
      var dl := Deadline(uc.head.deadline, uc.tail.deadline);
      if dl.Some? {
        var d := dl.value - now;
        if d <= 0 {
          var p := uc.Cancel(Some(DeadlineExceeded));
          return uc, CancelWithCanceled;
        }
        uc.timer := Some(now + d);
      }
      // start the watcher on the cancelable parents
      uc.watching := Watched(uc.head, uc.tail);
      return uc, CancelWithCanceled;
    }

    /** `uc.cancel(err)`; the panic it raises, if any, is returned. */
    method Cancel(e: Option<Error>) returns (p: Option<Panic>)
      modifies this
      ensures Step(State(), p) == Cancellation.Cancel(old(State()), e)
    {
      if e.None? {
        return Some(MissingCancelError);
      }
      if err.None? {
        err := e;
        if done == Absent {
          return Some(CloseOfNilChannel);
        } else if done == Closed {
          return Some(CloseOfClosedChannel);
        }
        done := Closed;
        if timer.Some? {
          timer := None;
        }
      }
      return None;
    }

    /** The caller invokes the CancelFunc that Union returned. */
    method CallCancel(f: CancelFunc) returns (p: Option<Panic>)
      modifies this
      ensures Step(State(), p) == Handle(f, old(State()), CancelCall)
    {
      p := None;
      if f == CancelWithCanceled {
        p := Cancel(Some(Canceled));
      }
    }

    /** The watcher's select receives from a parent's Done channel and
      passes on that parent's Err(). */
    method ParentFired(side: Side, parentErr: Option<Error>) returns (p: Option<Panic>)
      modifies this
      ensures Step(State(), p) == Handle(NoOp, old(State()), ParentFire(side, parentErr))
    {
      p := None;
      if side in watching {
        watching := {};
        p := Cancel(parentErr);
      }
    }

    /** The AfterFunc callback runs: `uc.cancel(context.DeadlineExceeded)`. */
    method TimerFired() returns (p: Option<Panic>)
      modifies this
      ensures Step(State(), p) == Handle(NoOp, old(State()), TimerFire)
    {
      p := None;
      if timer.Some? {
        p := Cancel(Some(DeadlineExceeded));
      }
    }

    /** `Err()` */
    function Err(): (r: Option<Error>)
      reads this
      requires Valid(State())
      ensures done == Closed ==> r.Some?
    {
      err
    }

    /** `Done()` */
    function Done(): (r: Signal)
      reads this
      requires Valid(State())
      ensures r == Absent ==> timer.None? && watching == {}
    {
      done
    }
  }
}
