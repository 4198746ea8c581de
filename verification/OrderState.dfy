/** The per-order state machine (src/mm/oms/state.py) and what its paths can look like. */
module OrderState {
  import opened Types

  predicate IsTerminal(status: OrderStatus) {
    status in {Filled, Canceled, PartiallyCanceled, Rejected, Expired}
  }

  /** The table VALID_TRANSITIONS. */
  predicate ValidTransition(current: OrderStatus, next: OrderStatus) {
    match current
    case Created => next in {Submitting, Rejected, Unknown}
    case Submitting =>
      next in {Acked, Open, PartiallyFilled, Filled, Canceled, PartiallyCanceled, Rejected, Unknown}
    case Acked => next in {Open, PartiallyFilled, Filled, Canceling, Canceled, Unknown}
    case Open => next in {PartiallyFilled, Filled, Canceling, Canceled, Unknown}
    case PartiallyFilled => next in {Filled, Canceling, PartiallyCanceled, Canceled, Unknown}
    case Canceling => next in {Canceled, PartiallyCanceled, Filled, Unknown}
    case Unknown => next in {Open, PartiallyFilled, Filled, Canceled, PartiallyCanceled, Rejected, Expired}
    case _ => false
  }

  predicate CanTransition(current: OrderStatus, next: OrderStatus) {
    || current == next
    || (!IsTerminal(current) && ValidTransition(current, next))
  }

  /** The statuses from which a status is entered: the table read by columns. */
  function EnteredFrom(status: OrderStatus): set<OrderStatus> {
    match status
    case Created => {}
    case Submitting => {Created}
    case Acked => {Submitting}
    case Open => {Submitting, Acked, Unknown}
    case PartiallyFilled => {Submitting, Acked, Open, Unknown}
    case Filled => {Submitting, Acked, Open, PartiallyFilled, Canceling, Unknown}
    case Canceling => {Acked, Open, PartiallyFilled}
    case Canceled => {Submitting, Acked, Open, PartiallyFilled, Canceling, Unknown}
    case PartiallyCanceled => {Submitting, PartiallyFilled, Canceling, Unknown}
    case Rejected => {Created, Submitting, Unknown}
    case Expired => {Unknown}
    case Unknown => {Created, Submitting, Acked, Open, PartiallyFilled, Canceling}
  }

  lemma EntersExactly(s: OrderStatus, t: OrderStatus)
    ensures CanTransition(s, t) <==> s == t || s in EnteredFrom(t)
  {
  }

  /** The terminal statuses are those that nothing can leave. */
  lemma TerminalExactly(s: OrderStatus)
    ensures IsTerminal(s) <==> forall t :: CanTransition(s, t) ==> t == s
    ensures IsOpen(s) <==> s != Unknown && exists t :: t != s && CanTransition(s, t)
  {
    assert s != Unknown && !IsTerminal(s) ==> CanTransition(s, Unknown);
    assert CanTransition(Unknown, Open);
  }

  /** Neither terminal nor UNKNOWN: what `open_orders` lists. */
  predicate IsOpen(status: OrderStatus) {
    !IsTerminal(status) && status != Unknown
  }

  /** A sequence of statuses in which each step is allowed. */
  ghost predicate Path(h: seq<OrderStatus>) {
    forall i | 0 <= i < |h| - 1 :: CanTransition(h[i], h[i + 1])
  }

  /** The number of steps of `h` that change the status. */
  function Changes(h: seq<OrderStatus>): nat {
    if |h| < 2 then 0
    else Changes(h[..|h| - 1]) + if h[|h| - 2] != h[|h| - 1] then 1 else 0
  }

  /** The number of steps of `h` that enter UNKNOWN. */
  function UnknownEntries(h: seq<OrderStatus>): nat {
    if |h| < 2 then 0
    else UnknownEntries(h[..|h| - 1]) + if h[|h| - 2] != Unknown && h[|h| - 1] == Unknown then 1 else 0
  }

  /** The most status changes still ahead of a record that never enters UNKNOWN again. */
  function Ahead(status: OrderStatus): nat {
    match status
    case Created => 6
    case Submitting => 5
    case Acked => 4
    case Open => 3
    case PartiallyFilled => 2
    case Canceling => 1
    case Unknown => 4
    case _ => 0
  }

  lemma AheadStep(s: OrderStatus, t: OrderStatus)
    requires CanTransition(s, t) && s != t
    ensures Ahead(t) + 1 <= Ahead(s) + if t == Unknown then 4 else 0
  {
  }

  lemma {:induction false} ChangesBound(h: seq<OrderStatus>)
    requires h != [] && Path(h)
    ensures Changes(h) + Ahead(h[|h| - 1]) <= Ahead(h[0]) + 4 * UnknownEntries(h)
  {
    if |h| >= 2 {
      var init := h[..|h| - 1];
      assert Path(init);
      ChangesBound(init);
      if h[|h| - 2] != h[|h| - 1] {
        AheadStep(h[|h| - 2], h[|h| - 1]);
      }
    }
  }

  /** A record that starts as CREATED changes status at most 6 + 4k times when it enters UNKNOWN k times. */
  lemma CreatedChangesBound(h: seq<OrderStatus>)
    requires h != [] && Path(h) && h[0] == Created
    ensures Changes(h) <= 6 + 4 * UnknownEntries(h)
  {
    ChangesBound(h);
  }

  function LongestPath(k: nat): (h: seq<OrderStatus>)
    ensures |h| >= 2 && h[0] == Created && h[1] == Submitting && h[|h| - 1] == Canceling
  {
    if k == 0 then [Created, Submitting, Acked, Open, PartiallyFilled, Canceling]
    else LongestPath(k - 1) + [Unknown, Open] + [PartiallyFilled, Canceling]
  }

  lemma AppendStep(h: seq<OrderStatus>, s: OrderStatus)
    requires h != [] && Path(h) && CanTransition(h[|h| - 1], s) && h[|h| - 1] != s
    ensures Path(h + [s])
    ensures Changes(h + [s]) == Changes(h) + 1
    ensures UnknownEntries(h + [s]) == UnknownEntries(h) + if s == Unknown then 1 else 0
  {
    assert (h + [s])[..|h|] == h;
  }

  lemma AppendTwo(h: seq<OrderStatus>, s: OrderStatus, t: OrderStatus)
    requires h != [] && Path(h) && s != t && h[|h| - 1] != s && t != Unknown
    requires CanTransition(h[|h| - 1], s) && CanTransition(s, t)
    ensures Path(h + [s, t])
    ensures Changes(h + [s, t]) == Changes(h) + 2
    ensures UnknownEntries(h + [s, t]) == UnknownEntries(h) + if s == Unknown then 1 else 0
  {
    AppendStep(h, s);
    AppendStep(h + [s], t);
    assert h + [s] + [t] == h + [s, t];
  }

  lemma AppendCycle(h: seq<OrderStatus>)
    requires h != [] && Path(h) && h[|h| - 1] == Canceling
    ensures
      var r := h + [Unknown, Open] + [PartiallyFilled, Canceling];
      Path(r) && Changes(r) == Changes(h) + 4 && UnknownEntries(r) == UnknownEntries(h) + 1
  {
    hide Path, Changes, UnknownEntries;
    AppendTwo(h, Unknown, Open);
    AppendTwo(h + [Unknown, Open], PartiallyFilled, Canceling);
  }

  lemma OneStatus()
    ensures Path([Created]) && Changes([Created]) == 0 && UnknownEntries([Created]) == 0
  {
  }

  lemma FirstLeg()
    ensures Path(LongestPath(0)) && Changes(LongestPath(0)) == 5 && UnknownEntries(LongestPath(0)) == 0
  {
    hide Path, Changes, UnknownEntries;
    OneStatus();
    var h := [Created];
    AppendTwo(h, Submitting, Acked);
    AppendTwo(h + [Submitting, Acked], Open, PartiallyFilled);
    AppendStep(h + [Submitting, Acked] + [Open, PartiallyFilled], Canceling);
    assert h + [Submitting, Acked] + [Open, PartiallyFilled] + [Canceling] == LongestPath(0);
  }

  lemma {:induction false} LongestPathCounts(k: nat)
    ensures Path(LongestPath(k)) && Changes(LongestPath(k)) == 5 + 4 * k && UnknownEntries(LongestPath(k)) == k
  {
    if k == 0 {
      FirstLeg();
    } else {
      LongestPathCounts(k - 1);
      AppendCycle(LongestPath(k - 1));
    }
  }

  /** The bound is exact: for every k some path, of an order that is submitted, reaches it. */
  lemma ChangesBoundAttained(k: nat) returns (h: seq<OrderStatus>)
    ensures |h| >= 2 && Path(h) && h[0] == Created && h[1] == Submitting
    ensures UnknownEntries(h) == k && Changes(h) == 6 + 4 * k
  {
    hide Path, Changes, UnknownEntries;
    h := LongestPath(k) + [Filled];
    LongestPathCounts(k);
    AppendStep(LongestPath(k), Filled);
  }

  /** CREATED and SUBMITTING are never re-entered, and a terminal status is final. */
  lemma {:induction false} PathOrder(h: seq<OrderStatus>, i: nat, j: nat)
    requires Path(h) && i < j < |h|
    ensures h[j] == Created ==> h[i] == Created
    ensures h[j] == Submitting ==> h[i] == Created || h[i] == Submitting
    ensures IsTerminal(h[i]) ==> h[j] == h[i]
  {
    assert CanTransition(h[j - 1], h[j]);
    if i < j - 1 {
      PathOrder(h, i, j - 1);
    }
  }
}
