/**
 * The home screen (`HomeScreenFragment`): the worker's points, name and phone
 * number, a task-status panel, performance ratings and earnings, the
 * profile-switch dialog behind the logo, and navigation to the payment flow
 * when the build has payments switched on.
 */
module HomeScreen {
  import opened Outcomes
  import Text

  /** Kotlin's `Int`. */
  type Int32 = x: int | -0x8000_0000 <= x < 0x8000_0000

  /** Two's-complement wrap-around of a Kotlin `Int` addition: the `Int` congruent to `x` modulo 2^32. */
  function Wrap32(x: int): (r: Int32)
    ensures -0x8000_0000 <= x < 0x8000_0000 ==> r == x
    ensures (r - x) % 0x1_0000_0000 == 0
  {
    (x + 0x8000_0000) % 0x1_0000_0000 - 0x8000_0000
  }

  /** Wrapping an intermediate sum does not change the wrapped final sum. */
  lemma Wrap32Add(a: int, b: int)
    ensures Wrap32(Wrap32(a) + b) == Wrap32(a + b)
  {
    var k := (Wrap32(a) - a) / 0x1_0000_0000;
    assert Wrap32(a) + b == (a + b) + k * 0x1_0000_0000;
    Wrap32Shift(a + b, k);
  }

  /** `Wrap32` only depends on its argument modulo 2^32. */
  lemma Wrap32Shift(x: int, k: int)
    ensures Wrap32(x + k * 0x1_0000_0000) == Wrap32(x)
  {
    var y := x + 0x8000_0000;
    assert (y + k * 0x1_0000_0000) % 0x1_0000_0000 == y % 0x1_0000_0000;
  }

  datatype TaskSummary = TaskSummary(
    assignedMicrotasks: Int32,
    completedMicrotasks: Int32,
    submittedMicrotasks: Int32,
    verifiedMicrotasks: Int32,
    skippedMicrotasks: Int32,
    expiredMicrotasks: Int32)

  /** The exact (unbounded) sum of the six counts. */
  function CountSum(s: TaskSummary): (sum: int) {
    s.assignedMicrotasks + s.completedMicrotasks + s.submittedMicrotasks +
    s.verifiedMicrotasks + s.skippedMicrotasks + s.expiredMicrotasks
  }

  predicate CountsNonNegative(s: TaskSummary) {
    s.assignedMicrotasks >= 0 && s.completedMicrotasks >= 0 && s.submittedMicrotasks >= 0 &&
    s.verifiedMicrotasks >= 0 && s.skippedMicrotasks >= 0 && s.expiredMicrotasks >= 0
  }

  /** The task total as Kotlin computes it: six 32-bit additions from left to right. */
  function TaskTotal(s: TaskSummary): (t: Int32)
    ensures CountsNonNegative(s) && CountSum(s) < 0x8000_0000 ==> t == CountSum(s)
  {
    Wrap32(Wrap32(Wrap32(Wrap32(Wrap32(
      s.assignedMicrotasks + s.completedMicrotasks) + s.submittedMicrotasks) +
      s.verifiedMicrotasks) + s.skippedMicrotasks) + s.expiredMicrotasks)
  }

  /**
   * For counts that really are counts, the panel shows exactly when some
   * microtask exists: it is hidden when every count is zero.
   */
  lemma StatsShownIffSomeTask(s: TaskSummary)
    requires CountsNonNegative(s) && CountSum(s) < 0x8000_0000
    ensures TaskTotal(s) > 0 <==>
      s.assignedMicrotasks > 0 || s.completedMicrotasks > 0 || s.submittedMicrotasks > 0 ||
      s.verifiedMicrotasks > 0 || s.skippedMicrotasks > 0 || s.expiredMicrotasks > 0
  {
  }

  /** Five wrapped additions from left to right equal one wrap of the exact sum. */
  lemma Wrap32Fold(a: int, b: int, c: int, d: int, e: int, f: int)
    ensures Wrap32(Wrap32(Wrap32(Wrap32(Wrap32(a + b) + c) + d) + e) + f) == Wrap32(a + b + c + d + e + f)
  {
    var y1 := a + b;
    var y2 := Wrap32(y1) + c;
    var y3 := Wrap32(y2) + d;
    var y4 := Wrap32(y3) + e;
    calc {
      Wrap32(Wrap32(y4) + f);
    == { Wrap32Add(y4, f); }
      Wrap32(Wrap32(y3) + (e + f));
    == { Wrap32Add(y3, e + f); }
      Wrap32(Wrap32(y2) + (d + e + f));
    == { Wrap32Add(y2, d + e + f); }
      Wrap32(Wrap32(y1) + (c + d + e + f));
    == { Wrap32Add(y1, c + d + e + f); }
      Wrap32(a + b + c + d + e + f);
    }
  }

  /** The left-to-right 32-bit additions give the exact sum wrapped once, for all counts. */
  lemma TaskTotalIsWrappedSum(s: TaskSummary)
    ensures TaskTotal(s) == Wrap32(CountSum(s))
  {
    Wrap32Fold(s.assignedMicrotasks, s.completedMicrotasks, s.submittedMicrotasks,
      s.verifiedMicrotasks, s.skippedMicrotasks, s.expiredMicrotasks);
  }

  /**
   * The wrap-around is real: non-negative counts whose exact sum lies in
   * [2^31, 2^32) give a negative total, which hides the panel. (Beyond 2^32
   * the total can be positive again, and the panel shows a wrong count.)
   */
  lemma OverflowHidesStats(s: TaskSummary)
    requires CountsNonNegative(s) && 0x8000_0000 <= CountSum(s) < 0x1_0000_0000
    ensures TaskTotal(s) < 0
  {
    TaskTotalIsWrappedSum(s);
  }

  /** Past 2^32 the total wraps back to a positive number: the panel shows, with a total of 2. */
  lemma OverflowCanShowStats()
    ensures var s := TaskSummary(0x7fff_ffff, 0x7fff_ffff, 1, 1, 1, 1);
      CountsNonNegative(s) && CountSum(s) == 0x1_0000_0002 && TaskTotal(s) == 2
  {
  }

  /** The destinations of the payments flow. */
  datatype HomeScreenNavigation =
    | PaymentRegistration | PaymentVerification | PaymentDashboard | PaymentFailure

  /** The navigation-graph actions the screen can request. */
  datatype NavAction =
    | ToProfile | ToLeaderboard | ToDashboard
    | ToPaymentRegistration | ToPaymentVerification | ToPaymentDashboard | ToPaymentFailure

  predicate IsPaymentAction(a: NavAction) {
    a in {ToPaymentRegistration, ToPaymentVerification, ToPaymentDashboard, ToPaymentFailure}
  }

  /** The `when` over every payments destination. */
  function PaymentAction(n: HomeScreenNavigation): (a: NavAction)
    ensures IsPaymentAction(a)
  {
    match n
    case PaymentRegistration => ToPaymentRegistration
    case PaymentVerification => ToPaymentVerification
    case PaymentDashboard => ToPaymentDashboard
    case PaymentFailure => ToPaymentFailure
  }

  /** Each payments destination has its own action, and every payment action is reached. */
  lemma PaymentActionBijective(m: HomeScreenNavigation, n: HomeScreenNavigation, a: NavAction)
    ensures PaymentAction(m) == PaymentAction(n) ==> m == n
    ensures IsPaymentAction(a) ==> exists k :: PaymentAction(k) == a
  {
    if IsPaymentAction(a) {
      if a == ToPaymentRegistration { assert PaymentAction(PaymentRegistration) == a; }
      else if a == ToPaymentVerification { assert PaymentAction(PaymentVerification) == a; }
      else if a == ToPaymentDashboard { assert PaymentAction(PaymentDashboard) == a; }
      else { assert PaymentAction(PaymentFailure) == a; }
    }
  }

  /** What the earnings card does: go to payments above Rs 2, otherwise only explain why not. */
  datatype EarningOutcome = NavigatePayment | ShowMessage(text: string)

  const EarnMoreMessage := "Please earn at least Rs 2"

  function EarningCardOutcome(totalEarned: real): (r: EarningOutcome)
    ensures r == NavigatePayment <==> totalEarned > 2.0
    ensures r != NavigatePayment ==> r == ShowMessage(EarnMoreMessage)
  {
    if totalEarned > 2.0 then NavigatePayment else ShowMessage(EarnMoreMessage)
  }

  /** The single-choice items of the profile dialog; the last one adds a profile. */
  const ProfileItems: seq<string> := ["Divyansh", "Add new profile"]

  /** The `checkedItem` the dialog starts with before any choice. */
  const InitialCheckedItem: int := 1

  datatype ProfileAction = AddNewUserProfile | UpdateUserProfile(name: string)

  /** "Confirm" in the profile dialog with item `checked` selected. */
  function ProfileConfirmAction(items: seq<string>, checked: int): (r: ProfileAction)
    requires 0 <= checked < |items|
    ensures r == AddNewUserProfile <==> checked == |items| - 1
    ensures r != AddNewUserProfile ==> r == UpdateUserProfile(items[checked])
  {
    if checked == |items| - 1 then AddNewUserProfile else UpdateUserProfile(items[checked])
  }

  /** Confirming without choosing adds a profile, since the initial item is the last one. */
  lemma InitialChoiceAddsProfile()
    ensures 0 <= InitialCheckedItem < |ProfileItems|
    ensures ProfileConfirmAction(ProfileItems, InitialCheckedItem) == AddNewUserProfile
    ensures ProfileConfirmAction(ProfileItems, 0) == UpdateUserProfile("Divyansh")
  {
  }

  /** The open profile dialog and the item most recently chosen in it. */
  datatype ProfileDialog = ProfileDialog(items: seq<string>, checkedItem: int)

  datatype EarningStatus = EarningStatus(weekEarned: real, totalEarned: real, totalPaid: real)

  /** The calls the screen makes into its view model. */
  datatype ViewModelCall =
    | RefreshXPPoints | RefreshTaskSummary | RefreshPerformanceSummary
    | SetEarningSummary | NavigatePaymentCall

  /** The six count texts of the status panel, in the order the panel shows them. */
  datatype StatsTexts = StatsTexts(
    incomplete: string, completed: string, submitted: string,
    verified: string, skipped: string, expired: string)

  /** The six count texts of the panel; each reads back as the count it shows. */
  function StatsTextsOf(s: TaskSummary): (t: StatsTexts)
    ensures Text.IsIntText(t.incomplete) && Text.IntValue(t.incomplete) == s.assignedMicrotasks
    ensures Text.IsIntText(t.completed) && Text.IntValue(t.completed) == s.completedMicrotasks
    ensures Text.IsIntText(t.submitted) && Text.IntValue(t.submitted) == s.submittedMicrotasks
    ensures Text.IsIntText(t.verified) && Text.IntValue(t.verified) == s.verifiedMicrotasks
    ensures Text.IsIntText(t.skipped) && Text.IntValue(t.skipped) == s.skippedMicrotasks
    ensures Text.IsIntText(t.expired) && Text.IntValue(t.expired) == s.expiredMicrotasks
  {
    Text.IntToStringRoundTrip(s.assignedMicrotasks);
    Text.IntToStringRoundTrip(s.completedMicrotasks);
    Text.IntToStringRoundTrip(s.submittedMicrotasks);
    Text.IntToStringRoundTrip(s.verifiedMicrotasks);
    Text.IntToStringRoundTrip(s.skippedMicrotasks);
    Text.IntToStringRoundTrip(s.expiredMicrotasks);
    StatsTexts(
      Text.IntToString(s.assignedMicrotasks), Text.IntToString(s.completedMicrotasks),
      Text.IntToString(s.submittedMicrotasks), Text.IntToString(s.verifiedMicrotasks),
      Text.IntToString(s.skippedMicrotasks), Text.IntToString(s.expiredMicrotasks))
  }

  /** The panel's texts determine the summary they were written from. */
  lemma StatsTextsDetermineSummary(s: TaskSummary, u: TaskSummary)
    ensures StatsTextsOf(s) == StatsTextsOf(u) ==> s == u
  {
    Text.IntToStringInjective(s.assignedMicrotasks, u.assignedMicrotasks);
    Text.IntToStringInjective(s.completedMicrotasks, u.completedMicrotasks);
    Text.IntToStringInjective(s.submittedMicrotasks, u.submittedMicrotasks);
    Text.IntToStringInjective(s.verifiedMicrotasks, u.verifiedMicrotasks);
    Text.IntToStringInjective(s.skippedMicrotasks, u.skippedMicrotasks);
    Text.IntToStringInjective(s.expiredMicrotasks, u.expiredMicrotasks);
  }

  class Home {
    /** `BuildConfig.PAYMENTS_ENABLED`, passed in as configuration. */
    const paymentsEnabled: bool

    var title: string
    var pointsText: string
    var nameText: string
    var phoneNumberText: string
    var statsVisible: bool
    var stats: StatsTexts
    /** Recording, transcription, typing and image-annotation ratings. */
    var ratings: (real, real, real, real)
    /** The earnings shown on the card, as the view model last emitted them. */
    var earningStatus: EarningStatus
    var profileDialog: Option<ProfileDialog>
    var profileActions: seq<ProfileAction>
    var navigated: seq<NavAction>
    var toasts: seq<string>
    /** Tags of the navigation failures written to the log. */
    var errorLog: seq<string>
    var calls: seq<ViewModelCall>

    /** An open dialog always has an item checked. */
    ghost predicate Valid()
      reads this
    {
      profileDialog.Some? ==> 0 <= profileDialog.value.checkedItem < |profileDialog.value.items|
    }

    constructor (paymentsEnabled: bool)
      ensures Valid() && this.paymentsEnabled == paymentsEnabled
      ensures !statsVisible && profileDialog == None
      ensures profileActions == [] && navigated == [] && toasts == [] && errorLog == [] && calls == []
    {
      this.paymentsEnabled := paymentsEnabled;
      title := "";
      pointsText := "";
      nameText := "";
      phoneNumberText := "";
      statsVisible := false;
      stats := StatsTexts("", "", "", "", "", "");
      ratings := (0.0, 0.0, 0.0, 0.0);
      earningStatus := EarningStatus(0.0, 0.0, 0.0);
      profileDialog := None;
      profileActions := [];
      navigated := [];
      toasts := [];
      errorLog := [];
      calls := [];
    }

    /** Back on screen: ask for fresh data. */
    method OnResume()
      modifies this`calls
      ensures calls == old(calls) + [RefreshXPPoints, RefreshTaskSummary, RefreshPerformanceSummary, SetEarningSummary]
    {
      calls := calls + [RefreshXPPoints];
      calls := calls + [RefreshTaskSummary];
      calls := calls + [RefreshPerformanceSummary];
      calls := calls + [SetEarningSummary];
    }

    /** The stored user id, once read, becomes the toolbar title. */
    method OnUserIdLoaded(userId: Option<string>)
      modifies this`title
      ensures title == if userId.Some? then userId.value else old(title)
    {
      if userId.Some? {
        title := userId.value;
      }
    }

    /** The logo opens the profile dialog with the initial item checked. */
    method LogoClick()
      modifies this`profileDialog
      ensures Valid() && profileDialog == Some(ProfileDialog(ProfileItems, InitialCheckedItem))
    {
      profileDialog := Some(ProfileDialog(ProfileItems, InitialCheckedItem));
    }

    /** Choosing an item records it as `checkedItem`. */
    method ProfileItemChosen(which: int)
      requires profileDialog.Some? && 0 <= which < |profileDialog.value.items|
      modifies this`profileDialog
      ensures Valid() && profileDialog == Some(old(profileDialog.value).(checkedItem := which))
    {
      profileDialog := Some(profileDialog.value.(checkedItem := which));
    }

    /** "Confirm": the last item adds a profile, any other switches to that profile. */
    method ProfileConfirm()
      requires Valid() && profileDialog.Some?
      modifies this`profileDialog, this`profileActions
      ensures Valid() && profileDialog == None
      ensures profileActions == old(profileActions) +
        [ProfileConfirmAction(old(profileDialog.value.items), old(profileDialog.value.checkedItem))]
    {
      var d := profileDialog.value;
      profileActions := profileActions + [ProfileConfirmAction(d.items, d.checkedItem)];
      profileDialog := None;
    }

    /** "Cancel" closes the dialog and does nothing else. */
    method ProfileCancel()
      requires profileDialog.Some?
      modifies this`profileDialog
      ensures Valid() && profileDialog == None
    {
      profileDialog := None;
    }

    method NameClick()
      modifies this`navigated
      ensures navigated == old(navigated) + [ToProfile]
    {
      navigated := navigated + [ToProfile];
    }

    method LeaderboardClick()
      modifies this`navigated
      ensures navigated == old(navigated) + [ToLeaderboard]
    {
      navigated := navigated + [ToLeaderboard];
    }

    method TaskSummaryClick()
      modifies this`navigated
      ensures navigated == old(navigated) + [ToDashboard]
    {
      navigated := navigated + [ToDashboard];
    }

    /**
     * The earnings card: refresh, then navigate to payments only above Rs 2.
     * `currentTotalEarned` is the view model's `earningStatus.value.totalEarned`
     * as read right after the refresh, which need not be the value last
     * delivered to `OnEarningStatus`.
     */
    method EarningCardClick(currentTotalEarned: real)
      modifies this`calls, this`toasts
      ensures currentTotalEarned > 2.0 ==>
        calls == old(calls) + [SetEarningSummary, NavigatePaymentCall] && toasts == old(toasts)
      ensures currentTotalEarned <= 2.0 ==>
        calls == old(calls) + [SetEarningSummary] && toasts == old(toasts) + [EarnMoreMessage]
    {
      calls := calls + [SetEarningSummary];
      var workerBalance := currentTotalEarned;
      match EarningCardOutcome(workerBalance)
      case NavigatePayment =>
        calls := calls + [NavigatePaymentCall];
      case ShowMessage(text) =>
        toasts := toasts + [text];
    }

    method OnPoints(points: int)
      modifies this`pointsText
      ensures pointsText == Text.IntToString(points)
    {
      pointsText := Text.IntToString(points);
    }

    method OnName(name: string)
      modifies this`nameText
      ensures nameText == name
    {
      nameText := name;
    }

    method OnPhoneNumber(phoneNumber: string)
      modifies this`phoneNumberText
      ensures phoneNumberText == phoneNumber
    {
      phoneNumberText := phoneNumber;
    }

    /**
     * The `taskSummary` observer: show the panel with every count when the
     * total is positive, hide it (texts untouched) otherwise.
     */
    method OnTaskSummary(status: TaskSummary)
      modifies this`statsVisible, this`stats
      ensures statsVisible <==> TaskTotal(status) > 0
      ensures stats == if statsVisible then StatsTextsOf(status) else old(stats)
    {
      var total := TaskTotal(status);
      if total > 0 {
        statsVisible := true;
        stats := stats.(incomplete := Text.IntToString(status.assignedMicrotasks));
        stats := stats.(completed := Text.IntToString(status.completedMicrotasks));
        stats := stats.(submitted := Text.IntToString(status.submittedMicrotasks));
        stats := stats.(verified := Text.IntToString(status.verifiedMicrotasks));
        stats := stats.(skipped := Text.IntToString(status.skippedMicrotasks));
        stats := stats.(expired := Text.IntToString(status.expiredMicrotasks));
      } else {
        statsVisible := false;
      }
    }

    method OnPerformanceSummary(recording: real, transcription: real, typing: real, imageAnnotation: real)
      modifies this`ratings
      ensures ratings == (recording, transcription, typing, imageAnnotation)
    {
      ratings := (recording, transcription, typing, imageAnnotation);
    }

    method OnEarningStatus(status: EarningStatus)
      modifies this`earningStatus
      ensures earningStatus == status
    {
      earningStatus := status;
    }

    /**
     * The `navigationFlow` observer. With payments off nothing happens, for
     * every destination. With payments on, the destination's own action is
     * requested; when the graph cannot resolve it (`resolves` false) the
     * failure is logged and the screen carries on.
     */
    method OnNavigationFlow(navigation: HomeScreenNavigation, resolves: bool)
      modifies this`navigated, this`errorLog
      ensures !paymentsEnabled ==> navigated == old(navigated) && errorLog == old(errorLog)
      ensures paymentsEnabled && resolves ==>
        navigated == old(navigated) + [PaymentAction(navigation)] && errorLog == old(errorLog)
      ensures paymentsEnabled && !resolves ==>
        navigated == old(navigated) && errorLog == old(errorLog) + ["DASHBOARD_NAV_ERROR"]
    {
      if !paymentsEnabled {
        return;
      }
      var action := PaymentAction(navigation);
      if resolves {
        navigated := navigated + [action];
      } else {
        errorLog := errorLog + ["DASHBOARD_NAV_ERROR"];
      }
    }
  }
}
