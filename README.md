# constext / coalext in Dafny

A model of the two Go context combinators of the `constext` repository:
`Cons` (constext.go) and `Union` (coalext.go). Each merges two parent
contexts into one node that reports a deadline, looks up values and stops
when either parent stops or when the returned `CancelFunc` is called.

The model has five modules:

- `Contexts` (contexts.dfy) holds the shared vocabulary. It has the
  terminal reasons, the three states of a done channel (nil, open, closed),
  and `Parent`, a snapshot of what a combinator reads from a parent:
  whether `Done()` is non-nil, `Err()` and `Deadline()`. Time is an
  integer instant.
- `Cancellation` (cancellation.dfy) is the `cancel` state machine that both
  files implement line for line. A node value holds `err`, `done`, `timer`
  and `watching`. `timer` is the instant an armed timer fires. `watching` is
  the set of parents the watcher goroutine still selects on. The watcher,
  the deadline timer and the `CancelFunc` are events. `Run` replays any
  sequence of them in the order the mutex admits them. The lemmas cover
  every such interleaving.
- `Constext` and `Coalext` each hold their file's `Deadline` and `Value`,
  plus `Init`, the construction decision as a pure function of the parent
  snapshots and `now`. Each also has a class (`ConsCtx`, `UnionCtx`) with
  the struct's fields. The class has the constructor (`Cons`, `Union`), the
  `cancel` method and one method per event. Each method is proved against
  the pure functions.
- `Nesting` (nesting.dfy) builds finite trees of `Cons` and `Union` nodes
  over ordinary contexts. It proves that value lookup is left-biased across
  any nesting, and that any reported deadline is some leaf's. For a tree of
  `Cons` nodes only it proves that this is the earliest leaf deadline; for
  a tree of `Union` nodes only, the leftmost one. Trees that mix the two
  are covered by the first two facts alone.

The model follows the code where the two files differ:

- `Cons` never arms a timer.
- `Union` arms one.
- `Union`'s `Deadline` is head-first, not the earlier of the two.
- `Union`'s fast path tests `head.Done()` twice.
- The watcher goroutine does not exit when the node is stopped by its
  `CancelFunc` or by its timer. It stays blocked until a parent fires
  (`Constext.WatcherOutlivesCancel`).
- `cancel`'s panics are outcomes, not preconditions:
  - a nil reason gives `MissingCancelError`;
  - closing a nil done channel gives `CloseOfNilChannel`.

## Model

| member | source | states |
|---|---|---|
| `Cancellation.Cancel` | constext.go:81-98 | A nil reason panics and leaves the node unchanged. A terminal node stays as it is, so the first reason wins. A live node with an open channel records the reason, closes done and stops the timer. A live node with a nil channel records the reason, then panics with `CloseOfNilChannel`, leaving done, timer and watcher as they were. The node invariant is kept. coalext.go:63-80 is the same code. |
| `Cancellation.Watched` | constext.go:69-76 | The watcher selects on a parent exactly when that parent's `Done()` is non-nil. |
| `Cancellation.Handle` | constext.go:69-78 | An event that cannot reach `cancel` changes nothing: a no-op `CancelFunc`, an unwatched parent, or a timer that is not armed. Any other event calls `cancel` with its reason. After the watcher fires it has exited. |
| `Contexts.Expired` | constext.go:61-63 | At construction a present deadline counts as passed exactly when it is at or before `now` (`dl - now <= 0`). coalext.go:42-44 is the same test. |
| `Cancellation.Run` | constext.go:86-95 | Calls to `cancel`, taken one at a time in the order the mutex admits them, never replace a reason once one is recorded, and every state reached from a valid node is valid. |
| `Cancellation.FirstEffectiveIsFirst` | constext.go:86-95 | The reference winner is the reason of an effective event with no effective event before it. It is present exactly when some event is effective. |
| `Cancellation.RunFromTerminal` | constext.go:86-97 | After the node is terminal, no sequence of non-nil events changes err, done or the timer. None of them panics, and the watcher can only exit. |
| `Cancellation.RunFromLive` | constext.go:81-98 | From a live node with an open channel, any interleaving records exactly one reason: the first effective event's. Done is then closed and the timer cleared. If no event is effective, the node is unchanged. |
| `Cancellation.RunFromInert` | coalext.go:26-28 | A node with no done channel, watcher or timer ignores every event, except a `CancelFunc` that calls `cancel`. That call records `Canceled` and panics on the nil channel. |
| `Constext.Deadline` | constext.go:100-118 | Absent iff both are absent. Otherwise it equals one of them and is no later than any present one. On integer instants a tie gives the same value either way. |
| `Constext.Value` | constext.go:130-136 | car's non-nil value shadows cdr's. A nil from car falls through to cdr. |
| `Constext.Init` | constext.go:36-79 | There is no done channel iff both parents' `Done()` are nil, and then the `CancelFunc` is a no-op. Otherwise `CancelFunc` cancels with `Canceled`. No timer is ever armed. A watcher runs iff the node starts live with a done channel. The invariant holds. |
| `Constext.FastPathIsInert` | constext.go:32-46 | With both parents un-cancelable, the node has no signal and nil err, and `CancelFunc` is a no-op. No event sequence changes the node. With well-behaved parents there is no deadline. |
| `Constext.AdoptsParentError` | constext.go:51-58 | A parent that has already stopped is adopted, car before cdr. No watcher starts, and the reason survives every later event. Done is made but never closed, so Err is non-nil while Done stays open. |
| `Constext.ExpiresAtConstruction` | constext.go:60-67 | If the earlier deadline has passed (`dl - now <= 0`), the node starts terminal with `DeadlineExceeded` and done closed. It stays that way. |
| `Constext.LiveUntilFirstCancel` | constext.go:69-78 | Otherwise the node starts live, with a watcher on every cancelable parent and no timer. It becomes terminal iff the `CancelFunc` is called or a watched parent fires. The reason is the first such event's (`FirstEffective`), as the mutex at constext.go:86-95 orders the calls. Done is closed then. Until then the node is unchanged. |
| `Constext.WatcherOutlivesCancel` | constext.go:69-78 | After the `CancelFunc` stops a live node, the watcher still selects on the parents. |
| `Constext.ConsCancelScenario` | coalext_test.go:10-48 | TestConsCancel's steps hold on the model. There is no deadline. Done closes when either parent fires. A pair built over a parent that has stopped starts with a non-nil Err, whichever side that parent is on. |
| `Constext.PairIsWellBehaved` | constext.go:42-58 | A pair of well-behaved parents is itself a well-behaved parent when nested: having a reason or a deadline implies a done channel. |
| `Constext.IntendedInit` | constext.go:51-58 | The corrected `Cons`: it adopts a stopped parent through `cancel`. Its fast path appears iff both parents are un-cancelable. Its initial reason is car's, else cdr's, else `DeadlineExceeded` if expired, else none. |
| `Constext.IntendedInitKeepsContract` | constext.go:51-58 | With the correction, for any parents, no interleaving panics, and Err is non-nil exactly when Done is closed. |
| `Constext.ConsCtx.constructor` | constext.go:37-40 | A new struct has no done channel, no timer, nil err and no watcher. |
| `Constext.ConsCtx.Cons` | constext.go:36-79 | The imperative `Cons` builds exactly the node and `CancelFunc` that `Constext.Init` describes, and the node invariant holds. |
| `Constext.ConsCtx.Cancel` | constext.go:81-98 | The imperative `cancel` moves the fields exactly as `Cancellation.Cancel` does and returns its panic. |
| `Constext.ConsCtx.CallCancel` | constext.go:45-78 | Calling the returned `CancelFunc` acts as `Cancellation.Handle` on a `CancelCall` event. |
| `Constext.ConsCtx.ParentFired` | constext.go:69-76 | A parent's Done firing in the watcher acts as `Cancellation.Handle` on a `ParentFire` event. |
| `Constext.ConsCtx.Err` | constext.go:124-128 | Once Done is closed, Err is non-nil. |
| `Constext.ConsCtx.Done` | constext.go:120-122 | A node whose Done is nil has no timer and no watcher. |
| `Coalext.Deadline` | coalext.go:82-87 | Head's deadline whenever it is present, otherwise tail's. |
| `Coalext.DeadlineIsNotTheEarliest` | coalext.go:82-87 | Head's later deadline wins over tail's earlier one. |
| `Coalext.Value` | coalext.go:99-105 | Head's non-nil value shadows tail's. A nil from head falls through to tail. |
| `Coalext.Init` | coalext.go:20-61 | There is no done channel iff head's `Done()` is nil, whatever tail is. The `CancelFunc` always calls `cancel`. An armed timer fires at the head-first deadline, which is later than `now`. A watcher runs iff the node starts live with a channel. The invariant holds. |
| `Coalext.FastPathIgnoresTail` | coalext.go:26-28 | With head un-cancelable, the node has no channel, watcher or timer, so nothing tail does reaches it. Calling the `CancelFunc` records `Canceled` and panics closing the nil channel. |
| `Coalext.FastPathDropsStoppedTail` | coalext.go:26-28 | With head = Background and tail already canceled with a deadline, the union has nil err and nil Done but reports tail's deadline. Used as a parent, it breaks the contract. |
| `Coalext.AdoptsParentError` | coalext.go:32-39 | A parent that has already stopped is adopted, head before tail. No watcher or timer starts, and the reason is permanent. Done is made but never closed. |
| `Coalext.ExpiresAtConstruction` | coalext.go:41-47 | If the head-first deadline has passed, the node starts terminal with `DeadlineExceeded` and done closed, and stays that way. |
| `Coalext.LiveArmsTimer` | coalext.go:48-60 | Otherwise the node starts live, with a watcher on every cancelable parent and a timer at the deadline. It becomes terminal iff the `CancelFunc` is called, a watched parent fires or the armed timer fires. The reason is the first such event's (`FirstEffective`), so a timer that fires before any other effective event gives `DeadlineExceeded`. Termination closes done and clears the timer, so later timer firings change nothing. |
| `Coalext.IntendedInit` | coalext.go:26-39 | The corrected `Union`: the fast path appears iff both parents are un-cancelable, and its `CancelFunc` is a no-op. A stopped parent is adopted through `cancel`. |
| `Coalext.IntendedUnionIsWellBehaved` | coalext.go:26-39 | The corrected `Union` over well-behaved parents is itself a well-behaved parent: having a reason or a deadline implies a done channel. |
| `Coalext.IntendedInitKeepsContract` | coalext.go:26-39 | With the corrections, for any parents, no interleaving panics, and Err is non-nil exactly when Done is closed. |
| `Coalext.UnionCtx.constructor` | coalext.go:21-24 | A new struct has no done channel, no timer, nil err and no watcher. |
| `Coalext.UnionCtx.Union` | coalext.go:20-61 | The imperative `Union`, which arms the timer for `d = dl - now`, builds exactly the node that `Coalext.Init` describes. |
| `Coalext.UnionCtx.Cancel` | coalext.go:63-80 | The imperative `cancel` moves the fields exactly as `Cancellation.Cancel` does and returns its panic. |
| `Coalext.UnionCtx.CallCancel` | coalext.go:27-60 | Calling the returned `CancelFunc` acts as `Cancellation.Handle` on a `CancelCall` event. |
| `Coalext.UnionCtx.ParentFired` | coalext.go:51-58 | A parent's Done firing in the watcher acts as `Cancellation.Handle` on a `ParentFire` event. |
| `Coalext.UnionCtx.TimerFired` | coalext.go:48 | The AfterFunc callback acts as `Cancellation.Handle` on a `TimerFire` event. |
| `Coalext.UnionCtx.Err` | coalext.go:93-97 | Once Done is closed, Err is non-nil. |
| `Coalext.UnionCtx.Done` | coalext.go:89-91 | A node whose Done is nil has no timer and no watcher. |
| `Nesting.Value` | constext.go:130-136 | Through any tree of `Cons` and `Union` nodes, a non-nil answer is some leaf's value for the key, and the answer is nil exactly when no leaf defines the key. coalext.go:99-105 is the same lookup. |
| `Nesting.Deadline` | constext.go:100-118 | Through any tree, a reported deadline is some leaf's, and none is reported exactly when no leaf has one. coalext.go:82-87 keeps this too. |
| `Nesting.FirstValueIsLeftmost` | constext.go:130-136 | The reference lookup returns the value of the leftmost leaf that defines the key. It is nil iff no leaf defines it. |
| `Nesting.ValueIsFirstLeaf` | constext.go:130-136 | Any finite tree of `Cons` and `Union` nodes answers `Value(k)` with the reference left-to-right lookup over its leaves. |
| `Nesting.ValuePrecedence` | coalext.go:99-105 | In any nesting, a leaf that defines the key shadows every leaf to its right. The lookup is nil only when no leaf defines the key. |
| `Nesting.PairsReportEarliestDeadline` | constext.go:100-118 | A tree made only of `Cons` nodes reports a deadline no later than any leaf's, equal to one of them, and absent only when no leaf has one. |
| `Nesting.UnionsReportLeftmostDeadline` | coalext.go:82-87 | A tree made only of `Union` nodes reports the leftmost deadline present among its leaves. |
| `Nesting.ValueUnionScenario` | coalext_test.go:79-101 | TestValueUnion's three lookups hold, including the one through a nested `Cons`. |

## Findings

| source | as written | input that shows it | evidently intended | confidence | as-written member | corrected member |
|---|---|---|---|---|---|---|
| constext.go:51-58 | A parent that has already stopped is adopted by setting `err` only. The done channel is made but never closed. | car = a canceled `WithCancel` context: Err() is `Canceled` while Done() never fires. | Adopt through `cancel`, which also closes done. | not executed; high | `Constext.AdoptsParentError` | `Constext.IntendedInitKeepsContract` |
| coalext.go:32-39 | The same adoption without closing done. | head = a canceled `WithCancel` context. | Adopt through `cancel`. | not executed; high | `Coalext.AdoptsParentError` | `Coalext.IntendedInitKeepsContract` |
| coalext.go:26 | The fast path tests `head.Done() == nil` twice and never tests tail. | head = Background, tail = a canceled context with a deadline: the union never stops, has a nil Done and reports tail's deadline. | `uc.head.Done() == nil && uc.tail.Done() == nil` | not executed; high | `Coalext.FastPathDropsStoppedTail` | `Coalext.IntendedInit` |
| coalext.go:27 | The fast-path `CancelFunc` calls `cancel`, which closes a nil channel. | Both parents Background, then call the returned `CancelFunc`: panic. | A no-op `CancelFunc`, as in constext.go:45. | not executed; high | `Coalext.FastPathIgnoresTail` | `Coalext.IntendedInitKeepsContract` |

The classes `ConsCtx` and `UnionCtx`, and the `Init` functions they are
proved against, model the code as written. The corrected constructions
(`IntendedInit` in each module) are pure functions proved beside them.

## Left out

- The goroutine, the `select` race and the `sync.Mutex` are not modelled as concurrency. The watcher, the timer callback and the `CancelFunc` are events, and every lemma covers any finite sequence of them. That is exactly the set of orders the mutex can admit.
- A mutex left locked by a panic is not modelled, and neither is a `recover` by the caller. A panic ends a `Run`.
- `time.Now`, `time.Timer` and `time.AfterFunc` are replaced by integer instants. `now` is a parameter. The timer is the instant it fires, and `TimerFire` is an event that may arrive at any point after arming. When it arrives relative to the clock is not modelled.
- `time.Time` location and monotonic readings are not modelled. With integer instants, the `cdr`-on-tie choice of `Constext.Deadline` is unobservable. `Duration` saturation in `Sub` is not modelled either, because it does not change the sign that `d <= 0` tests.
- Go channels are reduced to nil, open and closed. A closed channel's broadcast to waiting receivers is not modelled.
- The `context.Context` interface and the standard derivation helpers (`WithCancel`, `WithValue`, `WithDeadline`) are outside this model. They are summarised by `Parent` snapshots, `Leaf` contexts and the `WellBehaved` contract. Propagation to children derived from a combinator (coalext_test.go:50-77) depends on that library.
- Cancellation.Handle: a `ParentFire` event carries the reason as a parameter. The model does not check that the reason is the named parent's current `Err()`. A nil reason models a parent that breaks the context contract, and it panics with `MissingCancelError`.
- Parents are snapshots taken at construction, and a later change in a parent reaches the node only through a `ParentFire` event. A nested combinator used as a parent is summarised by its own snapshot (`Constext.PairIsWellBehaved`).
- Value keys are a generic type compared by equality. Go compares `interface{}` keys with `==`, which can panic on values that cannot be compared; that panic is not modelled. A nil value is a missing key.
- Cyclic nesting of combinators cannot be built from the finite `Ctx` datatype. The code does not guard against it.
