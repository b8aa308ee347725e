/** The order state machine and the timelines it allows. */
module OrderState {
  import opened Common

  datatype OrderStatus = Pending | Reserved | Paid | Confirmed | PaymentFailed | Cancelled

  const ALLOWED: set<(OrderStatus, OrderStatus)> := {
    (Pending, Reserved), (Pending, Cancelled), (Reserved, Paid),
    (Reserved, PaymentFailed), (Reserved, Cancelled), (Paid, Confirmed)
  }

  const TERMINAL: set<OrderStatus> := {Confirmed, PaymentFailed, Cancelled}

  predicate IsAllowed(from: OrderStatus, to: OrderStatus) {
    (from, to) in ALLOWED
  }

  function AllowedFrom(from: OrderStatus): set<OrderStatus> {
    set edge | edge in ALLOWED && edge.0 == from :: edge.1
  }

  /** A row of order_status_history; no `from` on the creation row. */
  datatype Move = Move(from: Option<OrderStatus>, to: OrderStatus)

  /** Starts with the creation row, then each row leaves where the one before arrived, by an
      allowed edge. */
  predicate Timeline(history: seq<Move>) {
    && history != [] && history[0] == Move(None, Pending)
    && forall i :: 1 <= i < |history| ==>
         history[i].from == Some(history[i - 1].to) && IsAllowed(history[i - 1].to, history[i].to)
  }

  function Current(history: seq<Move>): OrderStatus
    requires history != []
  {
    history[|history| - 1].to
  }

  /** The statuses without a way out are exactly the terminal ones. */
  lemma {:induction false} TerminalHasNoExit(s: OrderStatus)
    ensures s in TERMINAL <==> AllowedFrom(s) == {}
  {
    if s == Pending { assert (Pending, Reserved) in ALLOWED && Reserved in AllowedFrom(s); }
    if s == Reserved { assert (Reserved, Paid) in ALLOWED && Paid in AllowedFrom(s); }
    if s == Paid { assert (Paid, Confirmed) in ALLOWED && Confirmed in AllowedFrom(s); }
  }

  /** How each status is entered: reserved only from pending, paid only from reserved, confirmed only
      from paid, payment_failed only from reserved, cancelled only before payment; pending never. */
  lemma {:induction false} WaysIn(from: OrderStatus, to: OrderStatus)
    ensures IsAllowed(from, to) <==>
            match to
            case Pending => false
            case Reserved => from == Pending
            case Paid => from == Reserved
            case Confirmed => from == Paid
            case PaymentFailed => from == Reserved
            case Cancelled => from == Pending || from == Reserved
  {
  }

  function Stage(s: OrderStatus): nat {
    match s
    case Pending => 0
    case Reserved => 1
    case Paid => 2
    case _ => 3
  }

  /** No timeline is longer than four rows, so no order ever comes back to a status it left. */
  lemma {:induction false} TimelineIsShort(history: seq<Move>)
    requires Timeline(history)
    ensures |history| <= Stage(Current(history)) + 1 <= 4
  {
    if |history| > 1 {
      TimelineIsShort(history[..|history| - 1]);
    }
  }

  /** There is one way to be confirmed. */
  lemma {:induction false} OnlyWayToConfirmed(history: seq<Move>)
    requires Timeline(history) && Current(history) == Confirmed
    ensures history ==
          [Move(None, Pending), Move(Some(Pending), Reserved), Move(Some(Reserved), Paid), Move(Some(Paid), Confirmed)]
  {
    var n := |history|;
    TimelineIsShort(history);
    assert n >= 2 && history[n - 2].to == Paid;
    assert n >= 3 && history[n - 3].to == Reserved;
    assert n >= 4 && history[n - 4].to == Pending;
  }

  lemma {:induction false} OnlyWayToReserved(history: seq<Move>)
    requires Timeline(history) && Current(history) == Reserved
    ensures history == [Move(None, Pending), Move(Some(Pending), Reserved)]
  {
    var n := |history|;
    TimelineIsShort(history);
    assert n >= 2 && history[n - 2].to == Pending;
  }

  /** Appending an allowed move out of the current status extends a timeline; nothing else does. */
  lemma {:induction false} TimelineExtends(history: seq<Move>, m: Move)
    requires Timeline(history)
    ensures Timeline(history + [m]) <==> m.from == Some(Current(history)) && IsAllowed(Current(history), m.to)
  {
    var longer := history + [m];
    assert longer[|history|] == m && longer[|history| - 1] == history[|history| - 1];
    if Timeline(longer) {
      assert longer[|history|].from == Some(longer[|history| - 1].to);
    }
    if m.from == Some(Current(history)) && IsAllowed(Current(history), m.to) {
      forall i | 1 <= i < |longer|
        ensures longer[i].from == Some(longer[i - 1].to) && IsAllowed(longer[i - 1].to, longer[i].to)
      {
        if i < |history| { assert longer[i] == history[i] && longer[i - 1] == history[i - 1]; }
      }
    }
  }
}
