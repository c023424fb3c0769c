/** The order's state machine as an explicit table: for every event, the
    state it may fire from (any state when absent), the state it enters and
    its guard; plus the rewind of the `state_events` log that entering
    `resumed` performs. */
module Lifecycle {
  import opened Wrappers
  import opened OrderTypes

  datatype Guard = Unguarded | AllowCancelGuard | AllowResumeGuard | AllowPayGuard

  /** One row of the table; `from == None` means the event has no `:from` state. */
  datatype Rule = Rule(from: Option<OrderState>, to: OrderState, guard: Guard)

  function RuleFor(e: Event): Rule
  {
    match e
    case Complete => Rule(Some(InProgress), New, Unguarded)
    case Cancel => Rule(None, Canceled, AllowCancelGuard)
    case Return => Rule(Some(Shipped), Returned, Unguarded)
    case Resume => Rule(Some(Canceled), Resumed, AllowResumeGuard)
    case Pay => Rule(None, Paid, AllowPayGuard)
    case Ship => Rule(Some(Paid), Shipped, Unguarded)
  }

  /** `allow_cancel?`: the order is not already canceled. */
  predicate AllowCancel(s: OrderState)
  {
    s != Canceled
  }

  /** `allow_resume?`: there is a last log entry and it records a previous state. */
  predicate AllowResume(log: seq<StateEvent>)
  {
    !(|log| == 0 || log[|log| - 1].previousState.None?)
  }

  /** `allow_pay?`, i.e. `checkout_complete`: the checkout has a completion time. */
  predicate AllowPay(checkout: Checkout)
  {
    checkout.completedAt.Some?
  }

  predicate GuardHolds(g: Guard, s: OrderState, log: seq<StateEvent>, checkout: Checkout)
  {
    match g
    case Unguarded => true
    case AllowCancelGuard => AllowCancel(s)
    case AllowResumeGuard => AllowResume(log)
    case AllowPayGuard => AllowPay(checkout)
  }

  /** The state event `e` moves an order in state `s` to, or None when the
      event is refused (no matching from-state, or the guard is false). */
  function Transition(e: Event, s: OrderState, log: seq<StateEvent>, checkout: Checkout): (r: Option<OrderState>)
    ensures r.Some? ==> r.value == RuleFor(e).to
    ensures r.Some? ==> RuleFor(e).from.None? || RuleFor(e).from == Some(s)
  {
    var rule := RuleFor(e);
    if (rule.from.None? || rule.from == Some(s)) && GuardHolds(rule.guard, s, log, checkout)
    then Some(rule.to)
    else None
  }

  /** `complete` fires only from `in_progress`, and enters `new`. */
  lemma CompleteOnlyFromInProgress(s: OrderState, log: seq<StateEvent>, checkout: Checkout)
    ensures Transition(Complete, s, log, checkout) == if s == InProgress then Some(New) else None
  {
  }

  /** `return` fires only from `shipped`, and enters `returned`. */
  lemma ReturnOnlyFromShipped(s: OrderState, log: seq<StateEvent>, checkout: Checkout)
    ensures Transition(Return, s, log, checkout) == if s == Shipped then Some(Returned) else None
  {
  }

  /** `ship` fires only from `paid`, and enters `shipped`. */
  lemma ShipOnlyFromPaid(s: OrderState, log: seq<StateEvent>, checkout: Checkout)
    ensures Transition(Ship, s, log, checkout) == if s == Paid then Some(Shipped) else None
  {
  }

  /** `cancel` fires from every state except `canceled` (`in_progress` included). */
  lemma CancelUnlessCanceled(s: OrderState, log: seq<StateEvent>, checkout: Checkout)
    ensures Transition(Cancel, s, log, checkout) == if s != Canceled then Some(Canceled) else None
  {
  }

  /** `resume` fires only from `canceled`, and only when the log is non-empty
      and its last entry records a previous state. */
  lemma ResumeOnlyFromCanceledWithHistory(s: OrderState, log: seq<StateEvent>, checkout: Checkout)
    ensures Transition(Resume, s, log, checkout)
            == if s == Canceled && |log| > 0 && log[|log| - 1].previousState.Some? then Some(Resumed) else None
  {
  }

  /** `pay` fires from every state, `paid` included, exactly when the checkout is complete. */
  lemma PayIffCheckoutComplete(s: OrderState, log: seq<StateEvent>, checkout: Checkout)
    ensures Transition(Pay, s, log, checkout) == if checkout.completedAt.Some? then Some(Paid) else None
  {
  }

  /** No event's table row enters `in_progress`: an order leaves its initial state for good. */
  lemma NothingEntersInProgress(e: Event, s: OrderState, log: seq<StateEvent>, checkout: Checkout)
    ensures Transition(e, s, log, checkout) != Some(InProgress)
  {
  }

  /** The log `restore_state` reads from: a trailing "resume" entry is popped. */
  function RewoundLog(log: seq<StateEvent>): seq<StateEvent>
  {
    if |log| > 0 && log[|log| - 1].name == EventName(Resume) then log[..|log| - 1] else log
  }

  /** The state `restore_state` stores: the previous state of the last entry of
      the rewound log. None where the source cannot restore: the log is empty
      (`last` is nil), the pop emptied it, or the entry has no previous state. */
  function RestoredState(log: seq<StateEvent>): Option<OrderState>
  {
    if |log| == 0 then None
    else
      var rewound := RewoundLog(log);
      if |rewound| == 0 then None else rewound[|rewound| - 1].previousState
  }

  /** The rewind drops the last entry exactly when it is named "resume" and
      changes no other entry. */
  lemma RewindPopsOnlyResume(log: seq<StateEvent>)
    ensures var r := RewoundLog(log);
            && r <= log
            && (|r| == |log| - 1 <==> |log| > 0 && log[|log| - 1].name == "resume")
            && (|r| == |log| <==> !(|log| > 0 && log[|log| - 1].name == "resume"))
  {
  }

  /** When the last entry is not itself a resume, the guard of `resume`
      guarantees that the restore succeeds, with that entry's previous state. */
  lemma ResumeRestoresLastPreviousState(log: seq<StateEvent>)
    requires AllowResume(log) && log[|log| - 1].name != "resume"
    ensures RestoredState(log) == log[|log| - 1].previousState
    ensures RestoredState(log).Some?
  {
  }

  /** When the last entry is a resume, the restore looks one entry further back. */
  lemma ResumeLooksPastLoggedResume(log: seq<StateEvent>)
    requires |log| >= 2 && log[|log| - 1].name == "resume"
    ensures RestoredState(log) == log[|log| - 2].previousState
  {
  }

  /** The guard of `resume` checks only the last entry, which the restore may
      pop: a log holding one "resume" entry passes the guard but has nothing to
      restore from. */
  lemma ResumeGuardDoesNotCoverRewind()
    ensures var log := [StateEvent("resume", Some(Canceled))];
            AllowResume(log) && RestoredState(log).None?
  {
    var log := [StateEvent("resume", Some(Canceled))];
    assert RewoundLog(log) == [];
  }
}
