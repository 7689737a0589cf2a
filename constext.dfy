/**
 * Cons (constext.go): a pair of contexts that behaves as one. Deadline is
 * the earlier of the parents' deadlines, Value is left-biased, and the node
 * stops when either parent stops or the returned CancelFunc is called.
 * Cons never arms a deadline timer.
 */
module Constext {
  import opened Contexts
  import opened Cancellation

  /** `Deadline()`: the earlier of the two deadlines, or the one that is
      present. On equal instants the code returns cdr's, which on integer
      instants is the same value. */
  function Deadline(car: Option<int>, cdr: Option<int>): (r: Option<int>)
    ensures r.None? <==> car.None? && cdr.None?
    ensures r.Some? ==> r == car || r == cdr
    ensures car.Some? && r.Some? ==> r.value <= car.value
    ensures cdr.Some? && r.Some? ==> r.value <= cdr.value
  {
    if car.None? && cdr.None? then None
    else if car.Some? && cdr.None? then car
    else if car.None? && cdr.Some? then cdr
    else if car.value < cdr.value then car
    else cdr
  }

  /** `Value(key)`, given what car and cdr answer for the key: car's value
      unless it is nil, otherwise cdr's. */
  function Value<V>(carValue: Option<V>, cdrValue: Option<V>): (r: Option<V>)
    ensures carValue.Some? ==> r == carValue
    ensures carValue.None? ==> r == cdrValue
  {
    if carValue.Some? then carValue else cdrValue
  }

  /** What Cons builds from snapshots of its parents at instant `now`. */
  function Init(car: Parent, cdr: Parent, now: int): (c: Combined)
    ensures c.node.done == Absent <==> !car.cancelable && !cdr.cancelable
    ensures c.node.done == Absent ==> c.cancel == NoOp
    ensures c.node.done != Absent ==> c.cancel == CancelWithCanceled
    ensures c.node.timer.None?
    ensures c.node.watching != {} <==> c.node.err.None? && c.node.done != Absent
    ensures Valid(c.node)
  {
    if !car.cancelable && !cdr.cancelable then Combined(Inert, NoOp)
    else if car.err.Some? then Combined(Node(car.err, Open, None, {}), CancelWithCanceled)
    else if cdr.err.Some? then Combined(Node(cdr.err, Open, None, {}), CancelWithCanceled)
    else if Expired(Deadline(car.deadline, cdr.deadline), now) then
      Combined(Cancel(Node(None, Open, None, {}), Some(DeadlineExceeded)).node, CancelWithCanceled)
    else Combined(Node(None, Open, None, Watched(car, cdr)), CancelWithCanceled)
  }

  /** Both parents are un-cancelable: the node has no done channel, the
      CancelFunc is a no-op, and no event ever changes the node. With
      well-behaved parents it has no deadline either. */
  lemma {:induction false} FastPathIsInert(car: Parent, cdr: Parent, now: int, evs: seq<Event>)
    requires !car.cancelable && !cdr.cancelable
    ensures Init(car, cdr, now) == Combined(Inert, NoOp)
    ensures Run(NoOp, Inert, evs) == Step(Inert, None)
    ensures WellBehaved(car) && WellBehaved(cdr) ==> Deadline(car.deadline, cdr.deadline).None?
  {
    RunFromInert(NoOp, evs);
  }

  /** A parent that has already stopped is adopted, car before cdr: the node
      starts terminal with that parent's error, no watcher starts, and the
      reason never changes afterwards. The done channel is made but never
      closed, so Done() stays open while Err() is non-nil. */
  lemma {:induction false} AdoptsParentError(car: Parent, cdr: Parent, now: int, evs: seq<Event>)
    requires WellBehaved(car) && WellBehaved(cdr)
    requires car.err.Some? || cdr.err.Some?
    requires NoNilReasons(evs)
    ensures var c := Init(car, cdr, now);
      && c.node == Node(if car.err.Some? then car.err else cdr.err, Open, None, {})
      && var r := Run(c.cancel, c.node, evs);
         r.panic.None? && r.node.err == c.node.err && r.node.done == Open && !ContractHolds(r.node)
  {
    var c := Init(car, cdr, now);
    RunFromTerminal(c.cancel, c.node, evs);
  }

  /** Live parents whose earlier deadline has passed: the node starts
      terminal with DeadlineExceeded, its done channel closed, and stays so. */
  lemma {:induction false} ExpiresAtConstruction(car: Parent, cdr: Parent, now: int, evs: seq<Event>)
    requires car.cancelable || cdr.cancelable
    requires car.err.None? && cdr.err.None?
    requires Expired(Deadline(car.deadline, cdr.deadline), now)
    requires NoNilReasons(evs)
    ensures var c := Init(car, cdr, now);
      && c.node == Node(Some(DeadlineExceeded), Closed, None, {})
      && Run(c.cancel, c.node, evs).node == c.node
  {
    var c := Init(car, cdr, now);
    RunFromTerminal(c.cancel, c.node, evs);
  }

  /** Otherwise the node is live, with a watcher on every cancelable parent
      and no timer. It stops only when a watched parent fires (with that
      parent's error) or the CancelFunc is called (with Canceled); the first
      of these wins, done is closed, and nothing else changes it. */
  lemma {:induction false} LiveUntilFirstCancel(car: Parent, cdr: Parent, now: int, evs: seq<Event>)
    requires car.cancelable || cdr.cancelable
    requires car.err.None? && cdr.err.None?
    requires !Expired(Deadline(car.deadline, cdr.deadline), now)
    requires NoNilReasons(evs)
    ensures var c := Init(car, cdr, now);
      && c.node == Node(None, Open, None, Watched(car, cdr))
      && var r := Run(c.cancel, c.node, evs);
         && r.panic.None?
         && (r.node.err.Some? <==>
               exists i :: 0 <= i < |evs| &&
                 (evs[i] == CancelCall || (evs[i].ParentFire? && evs[i].side in Watched(car, cdr))))
         && (r.node.err.Some? ==> r.node.done == Closed)
         && (r.node.err.Some? ==>
               exists i :: 0 <= i < |evs| && Reason(evs[i]) == r.node.err &&
                 (evs[i] == CancelCall || (evs[i].ParentFire? && evs[i].side in Watched(car, cdr))))
         && r.node.err == FirstEffective(c.cancel, c.node, evs)
         && (r.node.err.None? ==> r.node == c.node)
  {
    var c := Init(car, cdr, now);
    RunFromLive(c.cancel, c.node, evs);
    FirstEffectiveIsFirst(c.cancel, c.node, evs);
  }

  /** The watcher does not stop when the CancelFunc is called: it keeps
      selecting on the parents until one of them fires. */
  lemma WatcherOutlivesCancel(car: Parent, cdr: Parent, now: int)
    requires car.cancelable || cdr.cancelable
    requires car.err.None? && cdr.err.None?
    requires !Expired(Deadline(car.deadline, cdr.deadline), now)
    ensures var c := Init(car, cdr, now);
      var r := Run(c.cancel, c.node, [CancelCall]);
      r.node.err == Some(Canceled) && r.node.watching == Watched(car, cdr) != {}
  {
  }

  /** The scenarios of TestConsCancel: two live WithCancel parents give a
      pair without a deadline that closes done when the first parent is
      canceled; once that parent has stopped, a new pair starts canceled
      whichever side it is on; a pair whose second parent is canceled later
      closes done too. */
  lemma ConsCancelScenario()
    ensures var c1, c2 := Parent(true, None, None), Parent(true, None, None);
      var c1Done := Parent(true, Some(Canceled), None);
      && Deadline(c1.deadline, c2.deadline).None?
      && Run(Init(c1, c2, 0).cancel, Init(c1, c2, 0).node, [ParentFire(Left, Some(Canceled))]).node.done == Closed
      && Init(c1Done, c2, 0).node.err.Some?
      && Init(c2, c1Done, 0).node.err.Some?
      && Run(Init(c1, c2, 0).cancel, Init(c1, c2, 0).node, [ParentFire(Right, Some(Canceled))]).node.done == Closed
  {
  }

  /** A pair built from well-behaved parents is itself well-behaved when it
      is used as the parent of another combinator. */
  lemma PairIsWellBehaved(car: Parent, cdr: Parent, now: int)
    requires WellBehaved(car) && WellBehaved(cdr)
    ensures var n := Init(car, cdr, now).node;
      WellBehaved(Parent(n.done != Absent, n.err, Deadline(car.deadline, cdr.deadline)))
  {
  }

  /** Cons as its authors evidently meant it: a parent that has already
      stopped is adopted through `cancel`, so the done channel is closed. */
  function IntendedInit(car: Parent, cdr: Parent, now: int): (c: Combined)
    ensures c.node.done == Absent <==> !car.cancelable && !cdr.cancelable
    ensures c.node.done == Absent ==> c == Combined(Inert, NoOp)
    ensures car.cancelable || cdr.cancelable ==>
              c.node.err == if car.err.Some? then car.err
                            else if cdr.err.Some? then cdr.err
                            else if Expired(Deadline(car.deadline, cdr.deadline), now) then Some(DeadlineExceeded)
                            else None
  {
    if !car.cancelable && !cdr.cancelable then Combined(Inert, NoOp)
    else if car.err.Some? then
      Combined(Cancel(Node(None, Open, None, {}), car.err).node, CancelWithCanceled)
    else if cdr.err.Some? then
      Combined(Cancel(Node(None, Open, None, {}), cdr.err).node, CancelWithCanceled)
    else Init(car, cdr, now)
  }

  /** The corrected Cons keeps the context contract forever: however the
      events interleave, no call panics and Err() is non-nil exactly when
      Done() is closed. */
  lemma {:induction false} IntendedInitKeepsContract(car: Parent, cdr: Parent, now: int, evs: seq<Event>)
    requires NoNilReasons(evs)
    ensures var c := IntendedInit(car, cdr, now);
      var r := Run(c.cancel, c.node, evs);
      r.panic.None? && ContractHolds(r.node)
  {
    var c := IntendedInit(car, cdr, now);
    if c.node.done == Absent {
      RunFromInert(c.cancel, evs);
    } else if c.node.err.Some? {
      RunFromTerminal(c.cancel, c.node, evs);
    } else {
      RunFromLive(c.cancel, c.node, evs);
    }
  }

  /** A constext node. The parents are the snapshots taken when it was
      built; the mutable fields are those the mutex protects (err, timer)
      and the done channel. `watching` stands for the watcher goroutine. */
  class ConsCtx {
    const car: Parent
    const cdr: Parent
    var done: Signal
    var timer: Option<int>
    var err: Option<Error>
    var watching: set<Side>

    /** The node's fields as one value. */
    function State(): Node
      reads this
    {
      Node(err, done, timer, watching)
    }

    /** `&constext{car: l, cdr: r}` */
    constructor (l: Parent, r: Parent)
      ensures car == l && cdr == r && State() == Inert
    {
      car, cdr := l, r;
      done, timer, err, watching := Absent, None, None, {};
    }

    /** `Cons(l, r)`, at instant `now`. */
    static method Cons(l: Parent, r: Parent, now: int) returns (cc: ConsCtx, cancel: CancelFunc)
      ensures fresh(cc) && cc.car == l && cc.cdr == r
      ensures Combined(cc.State(), cancel) == Init(l, r, now)
      ensures Valid(cc.State())
    {
      cc := new ConsCtx(l, r);
      if !cc.car.cancelable && !cc.cdr.cancelable {
        return cc, NoOp;
      }
      cc.done := Open;
      if cc.car.err.Some? {
        cc.err := cc.car.err;
        return cc, CancelWithCanceled;
      }
      if cc.cdr.err.Some? {
        cc.err := cc.cdr.err;
        return cc, CancelWithCanceled;
      }
      var dl := Deadline(cc.car.deadline, cc.cdr.deadline);
      if dl.Some? {
        var d := dl.value - now;
        if d <= 0 {
          var p := cc.Cancel(Some(DeadlineExceeded));
          return cc, CancelWithCanceled;
        }
      }
      // start the watcher on the cancelable parents
      cc.watching := Watched(cc.car, cc.cdr);
      return cc, CancelWithCanceled;
    }

    /** `cc.cancel(err)`; the panic it raises, if any, is returned. */
    method Cancel(e: Option<Error>) returns (p: Option<Panic>)
      modifies this
      ensures Step(State(), p) == Cancellation.Cancel(old(State()), e)
    {
      if e.None? {
        return Some(MissingCancelError);
      }
      if err.None? {
        err := e;
        if done == Absent {
          return Some(CloseOfNilChannel);
        } else if done == Closed {
          return Some(CloseOfClosedChannel);
        }
        done := Closed;
        if timer.Some? {
          timer := None;
        }
      }
      return None;
    }

    /** The caller invokes the CancelFunc that Cons returned. */
    method CallCancel(f: CancelFunc) returns (p: Option<Panic>)
      modifies this
      ensures Step(State(), p) == Handle(f, old(State()), CancelCall)
    {
      p := None;
      if f == CancelWithCanceled {
        p := Cancel(Some(Canceled));
      }
    }

    /** The watcher's select receives from a parent's Done channel and
      passes on that parent's Err(). */
    method ParentFired(side: Side, parentErr: Option<Error>) returns (p: Option<Panic>)
      modifies this
      ensures Step(State(), p) == Handle(NoOp, old(State()), ParentFire(side, parentErr))
    {
      p := None;
      if side in watching {
        watching := {};
        p := Cancel(parentErr);
      }
    }

    /** `Err()` */
    function Err(): (r: Option<Error>)
      reads this
      requires Valid(State())
      ensures done == Closed ==> r.Some?
    {
      err
    }

    /** `Done()` */
    function Done(): (r: Signal)
      reads this
      requires Valid(State())
      ensures r == Absent ==> timer.None? && watching == {}
    {
      done
    }
  }
}
