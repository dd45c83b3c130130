/**
 * The home screen and the challenge popup as objects whose fields change in
 * place. The popup's `@Binding` variables `coins` and `completedChallenges`
 * are the home screen's own fields, reached through `host`.
 */
module Views {
  import opened Wrappers
  import opened Catalog
  import opened ChallengeNumber
  import opened Progress

  class ContentView {
    var isChallengePopupVisible: bool
    var selectedChallenge: string
    var coins: int
    var completedChallenges: set<int>

    constructor ()
      ensures !isChallengePopupVisible && selectedChallenge == ""
      ensures coins == 0 && completedChallenges == {}
    {
      isChallengePopupVisible := false;
      selectedChallenge := "";
      coins := 0;
      completedChallenges := {};
    }

    /** `isChallengeAccepted(day:)`: whether the day has been completed. */
    function IsChallengeAccepted(day: int): (accepted: bool)
      reads this
    {
      day in completedChallenges
    }

    /**
     * A confirmed tap on a grid box. A completed day is ignored (`Ok(false)`);
     * any other day gets its title and flips the popup's visibility
     * (`Ok(true)`). A day with no catalog entry, where the app itself traps,
     * is ignored and reported as `OutOfRange`.
     */
    method TapDay(day: int) returns (r: Result<bool, CatalogError>)
      modifies this`selectedChallenge, this`isChallengePopupVisible
      ensures r == Ok(false) <==> IsChallengeAccepted(day)
      ensures r.Err? <==> !IsChallengeAccepted(day) && !InCatalog(day)
      ensures r.Err? ==> r.error == OutOfRange(day)
      ensures r != Ok(true) ==>
        selectedChallenge == old(selectedChallenge) && isChallengePopupVisible == old(isChallengePopupVisible)
      ensures r == Ok(true) ==>
        && selectedChallenge == Title(day, ChallengeAt(day))
        && ExtractChallengeNumber(selectedChallenge) == day
        && isChallengePopupVisible == !old(isChallengePopupVisible)
    {
      if IsChallengeAccepted(day) {
        return Ok(false);
      }
      match Describe(day)
      case Err(e) =>
        r := Err(e);
      case Ok(text) =>
        selectedChallenge := Title(day, text);
        isChallengePopupVisible := !isChallengePopupVisible;
        TitleRoundTrip(day, text);
        r := Ok(true);
    }
  }

  class ChallengePopup {
    const challengeText: string
    const host: ContentView
    var isAccepted: bool
    var showCountdown: bool
    var remainingTime: int
    var showNoCoinsAlert: bool
    var isChallengeComplete: bool
    var showFeedbackPopup: bool
    var timers: nat

    /** The popup's state, with the bound balance and set read from the home screen. */
    function Snapshot(): Popup
      reads this, host
    {
      Popup(host.coins, host.completedChallenges, ExtractChallengeNumber(challengeText),
            isAccepted, showCountdown, remainingTime, showNoCoinsAlert,
            isChallengeComplete, showFeedbackPopup, timers)
    }

    /** The popup invariant: a non-negative balance, the countdown within a day, complete only once recorded. */
    ghost predicate Valid()
      reads this, host
    {
      Inv(Snapshot())
    }

    /** The sheet presenting the popup for the home screen's selected challenge. */
    constructor (host: ContentView)
      requires host.coins >= 0
      ensures this.host == host && challengeText == host.selectedChallenge
      ensures Snapshot() == Presented(host.coins, host.completedChallenges, ExtractChallengeNumber(host.selectedChallenge))
      ensures Valid()
    {
      challengeText := host.selectedChallenge;
      this.host := host;
      isAccepted := false;
      showCountdown := false;
      remainingTime := CountdownSeconds;
      showNoCoinsAlert := false;
      isChallengeComplete := false;
      showFeedbackPopup := false;
      timers := 0;
    }

    method SubmitChallenge()
      requires Valid()
      modifies this`isChallengeComplete, host`coins, host`completedChallenges
      ensures Snapshot() == Submit(old(Snapshot()))
      ensures Valid()
    {
      if isChallengeComplete {
        return;
      }
      var challengeNumber := ExtractChallengeNumber(challengeText);
      if challengeNumber !in host.completedChallenges {
        host.coins := host.coins + 1;
        host.completedChallenges := host.completedChallenges + {challengeNumber};
        isChallengeComplete := true;
      }
    }

    /** The Submit button's action. */
    method PressSubmit()
      requires Valid()
      modifies this`isChallengeComplete, this`showFeedbackPopup, host`coins, host`completedChallenges
      ensures Snapshot() == Progress.PressSubmit(old(Snapshot()))
      ensures Valid()
    {
      if isChallengeComplete {
        // only reports "Challenge Already Submitted"
      } else {
        SubmitChallenge();
        showFeedbackPopup := !showFeedbackPopup;
      }
    }

    method AcceptChallenge()
      requires Valid()
      modifies this`isAccepted, this`showCountdown, this`timers
      ensures Snapshot() == Accept(old(Snapshot()))
      ensures Valid()
    {
      isAccepted := !isAccepted;
      showCountdown := true;
      StartTimer();
    }

    /** Schedules one more repeating timer; earlier ones keep running. */
    method StartTimer()
      requires Valid()
      modifies this`timers
      ensures Valid()
      ensures timers == old(timers) + 1
    {
      timers := timers + 1;
    }

    method RejectChallenge()
      requires Valid()
      modifies this`showNoCoinsAlert, host`coins
      ensures Snapshot() == Reject(old(Snapshot()))
      ensures Valid()
    {
      if host.coins > 0 {
        host.coins := host.coins - 1;
      } else {
        showNoCoinsAlert := true;
      }
    }

    /** The body of the timer's closure, run once per firing. */
    method TimerFired()
      requires Valid()
      modifies this`remainingTime, this`showCountdown
      ensures Snapshot() == Tick(old(Snapshot()))
      ensures Valid()
    {
      if remainingTime > 0 {
        remainingTime := remainingTime - 1;
      } else {
        StopTimer();
      }
    }

    /** The feedback form closing: its Submit button, or a swipe, clears the bound flag. */
    method CloseFeedback()
      requires Valid()
      modifies this`showFeedbackPopup
      ensures Snapshot() == Progress.CloseFeedback(old(Snapshot()))
      ensures Valid()
    {
      showFeedbackPopup := false;
    }

    method StopTimer()
      requires Valid()
      modifies this`showCountdown
      ensures Snapshot() == Progress.StopTimer(old(Snapshot()))
      ensures Valid()
    {
      showCountdown := false;
    }
  }

  /**
   * Day 5 tapped, rejected with no coin, accepted, submitted, the feedback
   * form closed and Submit pressed again: one coin and one recorded day, the
   * second press changing neither. Every step is one the screen offers.
   */
  method SubmitTwiceScenario() {
    var home := new ContentView();
    assert InCatalog(5) && !home.IsChallengeAccepted(5);
    var tapped := home.TapDay(5);
    assert tapped.Ok? && tapped != Ok(false);
    assert tapped == Ok(tapped.value) && tapped.value;
    assert ExtractChallengeNumber(home.selectedChallenge) == 5;
    var popup := new ChallengePopup(home);
    assert popup.Snapshot().day == 5 && !popup.isChallengeComplete;
    popup.RejectChallenge();
    assert home.coins == 0 && popup.showNoCoinsAlert;
    popup.AcceptChallenge();
    popup.PressSubmit();
    assert home.coins == 1 && home.completedChallenges == {5} && popup.showFeedbackPopup;
    popup.CloseFeedback();
    popup.PressSubmit();
    assert home.coins == 1 && home.completedChallenges == {5} && !popup.showFeedbackPopup;
  }
}
