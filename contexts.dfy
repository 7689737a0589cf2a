/**
 * Vocabulary shared by the two combinators (Cons in constext.go, Union in
 * coalext.go): the reasons a context stops, the states of a done channel,
 * and what a combinator reads from a parent context when it is built.
 * Time is an integer instant.
 */
module Contexts {

  datatype Option<T> = None | Some(value: T)

  /** The terminal reasons Err() can report: context.Canceled,
      context.DeadlineExceeded, or any other error a parent reports. */
  datatype Error = Canceled | DeadlineExceeded | Other(code: nat)

  /** A done channel: nil, made and still open, or closed. */
  datatype Signal = Absent | Open | Closed

  /** The two parents of a node: car/head is Left, cdr/tail is Right. */
  datatype Side = Left | Right

  /** What a combinator reads from a parent while it is being built:
      whether Done() is non-nil, what Err() returns and what Deadline()
      returns. */
  datatype Parent = Parent(cancelable: bool, err: Option<Error>, deadline: Option<int>)

  /** The part of the context.Context contract the combinators rely on: a
      context that has stopped, or that will stop at a deadline, has a
      non-nil Done channel (Background and WithValue contexts have none). */
  predicate WellBehaved(p: Parent) {
    (p.err.Some? || p.deadline.Some?) ==> p.cancelable
  }

  /** The construction-time test: a deadline is present and the time left
      until it, measured from now, is not positive. So a deadline counts as
      expired from the instant it falls. */
  predicate Expired(dl: Option<int>, now: int): (b: bool)
    ensures b <==> dl.Some? && dl.value <= now
  {
    dl.Some? && dl.value - now <= 0
  }
}
