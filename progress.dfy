/**
 * The challenge popup's rules as functions on a snapshot of its state: the
 * coin balance and completed days it shares with the home screen, and its own
 * flags and countdown. The popup class performs these transitions in place.
 */
module Progress {

  /** The countdown a freshly presented popup starts from: 24 hours in seconds. */
  const CountdownSeconds: int := 24 * 60 * 60

  datatype Popup = Popup(
    coins: int,               // bound to the home screen's balance
    completed: set<int>,      // bound to the home screen's completed days
    day: int,                 // the number read from the popup's title
    isAccepted: bool,
    showCountdown: bool,
    remainingTime: int,
    showNoCoinsAlert: bool,
    isChallengeComplete: bool,
    showFeedbackPopup: bool,
    timers: nat               // repeating timers scheduled so far; none is ever invalidated
  )

  /** The popup as presented: the shared balance and set, every flag off, a full countdown. */
  function Presented(coins: int, completed: set<int>, day: int): (p: Popup)
    ensures Inv(p) <==> coins >= 0
  {
    Popup(coins, completed, day, false, false, CountdownSeconds, false, false, false, 0)
  }

  /** What every reachable popup satisfies. */
  predicate Inv(p: Popup) {
    && p.coins >= 0
    && 0 <= p.remainingTime <= CountdownSeconds
    && (p.isChallengeComplete ==> p.day in p.completed)
  }

  /** The Accept and Reject buttons are shown only before the challenge is accepted. */
  predicate ShowsDecisionButtons(p: Popup) {
    !(p.isAccepted || p.showCountdown)
  }

  /** The countdown and the Submit button are shown while `showCountdown` holds. */
  predicate ShowsSubmitButton(p: Popup) {
    (p.isAccepted || p.showCountdown) && p.showCountdown
  }

  /** `acceptChallenge`: toggles the accepted flag, shows the countdown, schedules one more timer. */
  function Accept(p: Popup): (r: Popup)
    ensures ShowsSubmitButton(r) && !ShowsDecisionButtons(r)
    ensures r.isAccepted != p.isAccepted && r.timers == p.timers + 1
    ensures r.(isAccepted := p.isAccepted, showCountdown := p.showCountdown, timers := p.timers) == p
  {
    p.(isAccepted := !p.isAccepted, showCountdown := true, timers := p.timers + 1)
  }

  /** `rejectChallenge`: costs a coin if there is one, otherwise raises the no-coins notice. */
  function Reject(p: Popup): (r: Popup)
    requires p.coins >= 0
    ensures r.coins >= 0 && r.coins == if p.coins > 0 then p.coins - 1 else 0
    ensures r.showNoCoinsAlert <==> p.showNoCoinsAlert || p.coins == 0
    ensures r.(coins := p.coins, showNoCoinsAlert := p.showNoCoinsAlert) == p
  {
    if p.coins > 0 then p.(coins := p.coins - 1) else p.(showNoCoinsAlert := true)
  }

  /** `submitChallenge`: pays one coin and records the day, once, and only for a day not yet recorded. */
  function Submit(p: Popup): (r: Popup)
    ensures r.completed == if p.isChallengeComplete then p.completed else p.completed + {p.day}
    ensures r.coins - p.coins == |r.completed| - |p.completed| <= 1
    ensures r.isChallengeComplete <==> p.isChallengeComplete || p.day !in p.completed
    ensures r.(coins := p.coins, completed := p.completed, isChallengeComplete := p.isChallengeComplete) == p
  {
    if p.isChallengeComplete then p
    else if p.day !in p.completed then
      p.(coins := p.coins + 1, completed := p.completed + {p.day}, isChallengeComplete := true)
    else p
  }

  /** The Submit button: a repeated press only reports; a first press submits and opens the feedback form. */
  function PressSubmit(p: Popup): (r: Popup)
    ensures p.isChallengeComplete ==> r == p
    ensures !p.isChallengeComplete ==> r == Submit(p).(showFeedbackPopup := !p.showFeedbackPopup)
  {
    if p.isChallengeComplete then p
    else
      var s := Submit(p);
      s.(showFeedbackPopup := !s.showFeedbackPopup)
  }

  /** `stopTimer`: hides the countdown; the timer itself keeps firing. */
  function StopTimer(p: Popup): (r: Popup)
    ensures !ShowsSubmitButton(r)
    ensures r.(showCountdown := p.showCountdown) == p
  {
    p.(showCountdown := false)
  }

  /**
   * The feedback form closing, by its own Submit button or by a swipe: the
   * form's `isPresented` binding is the popup's `showFeedbackPopup`.
   */
  function CloseFeedback(p: Popup): (r: Popup)
    ensures !r.showFeedbackPopup
    ensures r.(showFeedbackPopup := p.showFeedbackPopup) == p
  {
    p.(showFeedbackPopup := false)
  }

  /** One firing of the timer: a second off the countdown, or at zero the countdown is hidden. */
  function Tick(p: Popup): (r: Popup)
    requires p.remainingTime >= 0
    ensures r.remainingTime == if p.remainingTime > 0 then p.remainingTime - 1 else 0
    ensures r.showCountdown <==> p.showCountdown && p.remainingTime > 0
    ensures r.(remainingTime := p.remainingTime, showCountdown := p.showCountdown) == p
  {
    if p.remainingTime > 0 then p.(remainingTime := p.remainingTime - 1) else StopTimer(p)
  }

  /** `n` firings of the timer. */
  function Ticks(p: Popup, n: nat): Popup
    requires p.remainingTime >= 0
    decreases n
  {
    if n == 0 then p else Ticks(Tick(p), n - 1)
  }

  function Max(a: int, b: int): int {
    if a >= b then a else b
  }

  /**
   * After `n` firings the countdown reads `max(0, t - n)`, and it is hidden
   * exactly when the firings outnumber the seconds that were left.
   */
  lemma {:induction false} TicksCountDown(p: Popup, n: nat)
    requires p.remainingTime >= 0
    ensures Ticks(p, n).remainingTime == Max(0, p.remainingTime - n)
    ensures Ticks(p, n).showCountdown <==> p.showCountdown && n <= p.remainingTime
    ensures Ticks(p, n).(remainingTime := p.remainingTime, showCountdown := p.showCountdown) == p
    decreases n
  {
    if n > 0 {
      TicksCountDown(Tick(p), n - 1);
    }
  }

  /** The user's and the timer's actions on an open popup. */
  datatype Event = AcceptTapped | RejectTapped | SubmitTapped | TimerFired | FeedbackClosed

  function Step(p: Popup, e: Event): (r: Popup)
    requires Inv(p)
    ensures Inv(r)
  {
    match e
    case AcceptTapped => Accept(p)
    case RejectTapped => Reject(p)
    case SubmitTapped => PressSubmit(p)
    case TimerFired => Tick(p)
    case FeedbackClosed => CloseFeedback(p)
  }

  function Run(p: Popup, events: seq<Event>): (r: Popup)
    requires Inv(p)
    ensures Inv(r)
    decreases |events|
  {
    if events == [] then p else Run(Step(p, events[0]), events[1..])
  }

  /**
   * The coins the popup can still pay out: one while its day is not recorded,
   * none after. No action raises it.
   */
  function Credit(p: Popup): int {
    p.coins + if p.day in p.completed then 0 else 1
  }

  /**
   * Whatever the user and the timer do, the balance stays non-negative, the
   * completed set only grows and only by the popup's own day, and at most one
   * coin is paid, none for a day already recorded.
   */
  lemma {:induction false} RunRewardsOnce(p: Popup, events: seq<Event>)
    requires Inv(p)
    ensures Run(p, events).coins >= 0
    ensures p.completed <= Run(p, events).completed <= p.completed + {p.day}
    ensures Run(p, events).day == p.day
    ensures Credit(Run(p, events)) <= Credit(p)
    ensures Run(p, events).coins <= p.coins + if p.day in p.completed then 0 else 1
    decreases |events|
  {
    if events != [] {
      var q := Step(p, events[0]);
      assert Credit(q) <= Credit(p) && p.completed <= q.completed <= p.completed + {p.day};
      RunRewardsOnce(q, events[1..]);
    }
  }

  /**
   * A completed day stays completed whatever the popup does, so the home
   * screen's completed-day guard keeps it closed for good.
   */
  lemma {:induction false} CompletedDayStaysClosed(p: Popup, events: seq<Event>, d: int)
    requires Inv(p) && d in p.completed
    ensures d in Run(p, events).completed
  {
    RunRewardsOnce(p, events);
  }

  /** Whether the screen lets the event happen: a button must be shown, a timer must be scheduled. */
  predicate Enabled(p: Popup, e: Event) {
    match e
    case AcceptTapped => ShowsDecisionButtons(p)
    case RejectTapped => ShowsDecisionButtons(p)
    case SubmitTapped => ShowsSubmitButton(p)
    case TimerFired => p.timers > 0
    case FeedbackClosed => p.showFeedbackPopup
  }

  predicate EnabledRun(p: Popup, events: seq<Event>)
    requires Inv(p)
    decreases |events|
  {
    events == [] || (Enabled(p, events[0]) && EnabledRun(Step(p, events[0]), events[1..]))
  }

  /**
   * What the screen keeps true: one timer exactly when accepted, no countdown
   * or submission before accepting, the full countdown until then, and a
   * hidden countdown after accepting only once it has reached zero.
   */
  predicate ScreenInv(p: Popup) {
    && p.timers == (if p.isAccepted then 1 else 0)
    && (p.showCountdown ==> p.isAccepted)
    && (p.isChallengeComplete ==> p.isAccepted)
    && (!p.isAccepted ==> p.remainingTime == CountdownSeconds)
    && (p.isAccepted && !p.showCountdown ==> p.remainingTime == 0)
  }

  /**
   * Through the screen a challenge is accepted at most once, so the toggle in
   * `acceptChallenge` never switches it back and only one timer is scheduled;
   * nothing is submitted before it is accepted.
   */
  lemma {:induction false} ScreenRunAcceptsOnce(p: Popup, events: seq<Event>)
    requires Inv(p) && ScreenInv(p) && EnabledRun(p, events)
    ensures ScreenInv(Run(p, events))
    ensures Run(p, events).timers <= 1
    ensures p.isAccepted ==> Run(p, events).isAccepted
    decreases |events|
  {
    if events != [] {
      RunStepsOnce(p, events[0]);
      ScreenRunAcceptsOnce(Step(p, events[0]), events[1..]);
    }
  }

  lemma RunStepsOnce(p: Popup, e: Event)
    requires Inv(p) && ScreenInv(p) && Enabled(p, e)
    ensures ScreenInv(Step(p, e))
    ensures p.isAccepted ==> Step(p, e).isAccepted
  {
  }

  /** A freshly presented popup starts in the screen invariant. */
  lemma PresentedOnScreen(coins: nat, completed: set<int>, day: int)
    ensures Inv(Presented(coins, completed, day)) && ScreenInv(Presented(coins, completed, day))
  {
  }

  /**
   * Once the countdown has run out after accepting, no popup button is shown:
   * the only things left are the timer, which changes nothing more, and
   * closing a feedback form still open. No decision is forced and no penalty
   * applies.
   */
  lemma LapsedPopupIsStuck(p: Popup, e: Event)
    requires Inv(p) && ScreenInv(p) && p.isAccepted && !p.showCountdown && Enabled(p, e)
    ensures e == TimerFired || e == FeedbackClosed
    ensures e == TimerFired ==> Step(p, e) == p
    ensures e == FeedbackClosed ==> Step(p, e) == p.(showFeedbackPopup := false)
  {
  }

  /**
   * The feedback form opens once per challenge: the first paying press opens
   * it, and once it is closed no further press reopens it.
   */
  lemma FeedbackFormOnce(p: Popup)
    requires Inv(p) && !p.isChallengeComplete && p.day !in p.completed && !p.showFeedbackPopup
    ensures PressSubmit(p).showFeedbackPopup
    ensures PressSubmit(CloseFeedback(PressSubmit(p))) == CloseFeedback(PressSubmit(p))
  {
  }

  /** A second submission changes nothing: no double payment. */
  lemma SubmitIdempotent(p: Popup)
    ensures Submit(Submit(p)) == Submit(p)
    ensures PressSubmit(PressSubmit(p)).coins == PressSubmit(p).coins
    ensures PressSubmit(PressSubmit(p)).completed == PressSubmit(p).completed
  {
  }
}
