/*
 * The demo application: its state record, the per-frame event handling that
 * updates it, the substring search behind the email check, and the choice of
 * which tab to render.
 *
 * Clicks are inputs: each frame the caller says which of the application's
 * buttons reported a click. The clock is an input too: `now` is the reading,
 * in nanoseconds, that the frame would have taken from the system clock.
 */
module Demo {
  import opened UIKit

  // ---------------------------------------------------------------------------
  // Constants of the progress animation
  // ---------------------------------------------------------------------------

  /** Each animation tick adds 0.002 to the progress, in thousandths. */
  const TickStep: int := 2
  /** Ticks stop adding once progress reaches 0.8. */
  const TickCeiling: int := 800
  /** A tick fires only when strictly more than 50 ms (in nanoseconds) have
      passed since the last one. */
  const TickInterval: int := 50_000_000
  /** The slider starts half-way, in thousandths. */
  const SliderStart: int := 500

  const SeedName: string := "John Doe"
  const SeedEmail: string := "john@example.com"
  const SeedMessage: string := "This is a sample message to demonstrate the multi-line text editor component."

  // ---------------------------------------------------------------------------
  // Application state as a value
  // ---------------------------------------------------------------------------

  /** The application record: the three editor texts, the slider, the three
      checkboxes, and the demo state (progress, notification, submitted flag,
      selected tab, and the two clock readings it keeps). */
  datatype AppState = AppState(
    nameText: string, emailText: string, messageText: string,
    slider: int,
    checkbox1: bool, checkbox2: bool, checkbox3: bool,
    progress: int,
    notification: string, notificationType: AlertVariant, showNotification: bool,
    formSubmitted: bool,
    selectedTab: int,
    animationStart: int, lastFrame: int)

  /** The buttons whose click the application polls in a frame. The ghost
      button is drawn and clickable, but nothing reads its clicks. */
  datatype Clicks = Clicks(
    primary: bool, secondary: bool, outline: bool, ghostButton: bool,
    danger: bool, success: bool, submit: bool, reset: bool)

  const NoClicks: Clicks := Clicks(false, false, false, false, false, false, false, false)

  /** What every reachable state satisfies: the selected tab is one of the three
      tabs; a submitted form shows a full bar; otherwise progress is an even
      number of thousandths no greater than 0.8 (it only moves in steps of
      0.002 from 0, and stops at 0.8). */
  predicate Inv(s: AppState) {
    && 0 <= s.selectedTab < 3
    && (s.formSubmitted ==> s.progress == FullProgress)
    && (!s.formSubmitted ==> 0 <= s.progress <= TickCeiling && s.progress % TickStep == 0)
  }

  /** The state of a freshly created application, started at clock reading `now`. */
  function InitialState(now: int): (s: AppState)
    ensures Inv(s)
    ensures s.progress == 0 && s.selectedTab == 0 && s.slider == SliderStart
    ensures !s.formSubmitted && !s.showNotification && s.notification == ""
    ensures s.nameText == SeedName && s.emailText == SeedEmail && s.messageText == SeedMessage
    ensures !s.checkbox1 && !s.checkbox2 && !s.checkbox3
    ensures s.lastFrame == now && s.animationStart == now
  {
    AppState(
      nameText := SeedName, emailText := SeedEmail, messageText := SeedMessage,
      slider := SliderStart,
      checkbox1 := false, checkbox2 := false, checkbox3 := false,
      progress := 0,
      notification := "", notificationType := AlertInfo, showNotification := false,
      formSubmitted := false,
      selectedTab := 0,
      animationStart := now, lastFrame := now)
  }

  // ---------------------------------------------------------------------------
  // One frame of event handling, as a function of the old state
  // ---------------------------------------------------------------------------

  /** The five demo buttons that post a notification, in the order they are polled. */
  datatype DemoButton = PrimaryDemo | SecondaryDemo | OutlineDemo | DangerDemo | SuccessDemo

  /** The notification each demo button posts. */
  function Notice(b: DemoButton): (string, AlertVariant) {
    match b
    case PrimaryDemo => ("Primary button clicked!", AlertInfo)
    case SecondaryDemo => ("Secondary action performed", AlertSuccess)
    case OutlineDemo => ("Outline button pressed", AlertWarning)
    case DangerDemo => ("Danger! This is a destructive action", AlertError)
    case SuccessDemo => ("Success! Operation completed", AlertSuccess)
  }

  /** Show `message` as a notification of the given severity. */
  function Notify(s: AppState, message: string, kind: AlertVariant): AppState {
    s.(showNotification := true, notification := message, notificationType := kind)
  }

  function NotifyBy(s: AppState, b: DemoButton): AppState {
    Notify(s, Notice(b).0, Notice(b).1)
  }

  /** The demo buttons clicked in a frame, in polling order. */
  function PressedInOrder(c: Clicks): seq<DemoButton> {
    (if c.primary then [PrimaryDemo] else [])
    + (if c.secondary then [SecondaryDemo] else [])
    + (if c.outline then [OutlineDemo] else [])
    + (if c.danger then [DangerDemo] else [])
    + (if c.success then [SuccessDemo] else [])
  }

  /** The demo buttons, polled one after the other; each click overwrites the
      notification. */
  function DemoButtons(s: AppState, c: Clicks): (r: AppState)
    ensures r == s.(showNotification := r.showNotification, notification := r.notification,
                    notificationType := r.notificationType)
    ensures r.showNotification == (s.showNotification || PressedInOrder(c) != [])
  {
    var s1 := if c.primary then NotifyBy(s, PrimaryDemo) else s;
    var s2 := if c.secondary then NotifyBy(s1, SecondaryDemo) else s1;
    var s3 := if c.outline then NotifyBy(s2, OutlineDemo) else s2;
    var s4 := if c.danger then NotifyBy(s3, DangerDemo) else s3;
    if c.success then NotifyBy(s4, SuccessDemo) else s4
  }

  /** Submitting the form marks it submitted, fills the bar and says so. */
  function Submit(s: AppState): AppState {
    Notify(s, "Form submitted successfully!", AlertSuccess)
      .(formSubmitted := true, progress := FullProgress)
  }

  /** Resetting the form clears the three editors and the three checkboxes,
      empties the bar and says so. */
  function Reset(s: AppState): AppState {
    Notify(s, "Form reset", AlertInfo)
      .(nameText := "", emailText := "", messageText := "",
        formSubmitted := false, progress := 0,
        checkbox1 := false, checkbox2 := false, checkbox3 := false)
  }

  /** Whether the 50 ms animation gate is open at clock reading `now`. */
  predicate GateOpen(s: AppState, now: int) {
    now - s.lastFrame > TickInterval
  }

  /** The animation tick: when the gate is open, progress grows by one step if
      the form is not submitted and the bar is below 0.8, and the gate's clock
      is restarted either way. */
  function Tick(s: AppState, now: int): AppState {
    if GateOpen(s, now) then
      var s' := if !s.formSubmitted && s.progress < TickCeiling then s.(progress := s.progress + TickStep) else s;
      s'.(lastFrame := now)
    else
      s
  }

  /** One frame of event handling: demo buttons, then submit, then reset, then
      the animation tick. The tab loop that sits between reset and the tick
      never changes the state (see the README), so it has no stage here. */
  function Frame(s: AppState, c: Clicks, now: int): AppState {
    var s1 := DemoButtons(s, c);
    var s2 := if c.submit then Submit(s1) else s1;
    var s3 := if c.reset then Reset(s2) else s2;
    Tick(s3, now)
  }

  /** One frame's input: what was clicked, and the clock reading. */
  datatype FrameInput = FrameInput(clicks: Clicks, now: int)

  /** The state after a sequence of frames. */
  function Run(s: AppState, frames: seq<FrameInput>): AppState
    decreases |frames|
  {
    if frames == [] then s else Run(Frame(s, frames[0].clicks, frames[0].now), frames[1..])
  }

  // ---------------------------------------------------------------------------
  // The application object
  // ---------------------------------------------------------------------------

  /** The running application: one record, updated in place once per frame. */
  class App {
    var nameText: string
    var emailText: string
    var messageText: string
    var slider: int
    var checkbox1: bool
    var checkbox2: bool
    var checkbox3: bool
    var progress: int
    var notification: string
    var notificationType: AlertVariant
    var showNotification: bool
    var formSubmitted: bool
    var selectedTab: int
    var animationStart: int
    var lastFrame: int

    /** The fields of this object as a value. */
    function Snapshot(): AppState
      reads this
    {
      AppState(nameText, emailText, messageText, slider,
               checkbox1, checkbox2, checkbox3,
               progress, notification, notificationType, showNotification,
               formSubmitted, selectedTab, animationStart, lastFrame)
    }

    predicate Valid()
      reads this
    {
      Inv(Snapshot())
    }

    /** A new application whose clock reads `now`: empty bar, first tab,
        slider half-way, and the editors seeded with sample text. */
    constructor (now: int)
      ensures Valid()
      ensures Snapshot() == InitialState(now)
    {
      progress := 0;
      animationStart := now;
      lastFrame := now;
      slider := SliderStart;
      selectedTab := 0;
      notification := "";
      notificationType := AlertInfo;
      showNotification := false;
      formSubmitted := false;
      checkbox1, checkbox2, checkbox3 := false, false, false;
      nameText := SeedName;
      emailText := SeedEmail;
      messageText := SeedMessage;
    }

    /** Handle one frame's clicks, then run the animation tick at clock reading
        `now`. */
    method Step(clicks: Clicks, now: int)
      requires Valid()
      modifies this
      ensures Valid()
      ensures Snapshot() == Frame(old(Snapshot()), clicks, now)
    {
      ghost var s0 := Snapshot();
      HandleDemoButtons(clicks);
      if clicks.submit {
        SubmitForm();
      }
      if clicks.reset {
        ResetForm();
      }
      // The tab loop polls a freshly made clickable; the model takes it to
      // report no click, so the loop never selects a tab.
      AnimateProgress(now);
      FramePreservesInv(s0, clicks, now);
    }

    /** Show `message` as a notification of severity `kind`. */
    method ShowNotification(message: string, kind: AlertVariant)
      modifies this
      ensures Snapshot() == Notify(old(Snapshot()), message, kind)
    {
      showNotification := true;
      notification := message;
      notificationType := kind;
    }

    /** Poll the five demo buttons in order; each click posts its notification. */
    method HandleDemoButtons(clicks: Clicks)
      modifies this
      ensures Snapshot() == DemoButtons(old(Snapshot()), clicks)
    {
      if clicks.primary {
        ShowNotification("Primary button clicked!", AlertInfo);
      }
      if clicks.secondary {
        ShowNotification("Secondary action performed", AlertSuccess);
      }
      if clicks.outline {
        ShowNotification("Outline button pressed", AlertWarning);
      }
      if clicks.danger {
        ShowNotification("Danger! This is a destructive action", AlertError);
      }
      if clicks.success {
        ShowNotification("Success! Operation completed", AlertSuccess);
      }
    }

    /** The submit button: mark the form submitted and fill the bar. */
    method SubmitForm()
      modifies this
      ensures Snapshot() == Submit(old(Snapshot()))
    {
      formSubmitted := true;
      ShowNotification("Form submitted successfully!", AlertSuccess);
      progress := FullProgress;
    }

    /** The reset button: clear the editors and checkboxes and empty the bar. */
    method ResetForm()
      modifies this
      ensures Snapshot() == Reset(old(Snapshot()))
    {
      nameText := "";
      emailText := "";
      messageText := "";
      formSubmitted := false;
      progress := 0;
      assert Snapshot() == old(Snapshot()).(nameText := "", emailText := "", messageText := "",
                                            formSubmitted := false, progress := 0);
      ShowNotification("Form reset", AlertInfo);
      checkbox1 := false;
      checkbox2 := false;
      checkbox3 := false;
    }

    /** The animation tick at clock reading `now`. */
    method AnimateProgress(now: int)
      modifies this
      ensures Snapshot() == Tick(old(Snapshot()), now)
    {
      if now - lastFrame > TickInterval {
        if !formSubmitted && progress < TickCeiling {
          progress := progress + TickStep;
        }
        lastFrame := now;
      }
    }
  }

  // ---------------------------------------------------------------------------
  // Properties of one frame
  // ---------------------------------------------------------------------------

  /** A frame keeps the invariant. */
  lemma FramePreservesInv(s: AppState, c: Clicks, now: int)
    requires Inv(s)
    ensures Inv(Frame(s, c, now))
  {
    var s1 := DemoButtons(s, c);
    assert Inv(s1);
    var s2 := if c.submit then Submit(s1) else s1;
    assert Inv(s2);
    var s3 := if c.reset then Reset(s2) else s2;
    assert Inv(s3);
    TickPreservesInv(s3, now);
  }

  lemma TickPreservesInv(s: AppState, now: int)
    requires Inv(s)
    ensures Inv(Tick(s, now))
  {
  }

  /** When several demo buttons are clicked in one frame, the last one polled
      decides the notification; with none clicked, nothing changes. */
  lemma LastDemoButtonWins(s: AppState, c: Clicks)
    ensures PressedInOrder(c) == [] ==> DemoButtons(s, c) == s
    ensures PressedInOrder(c) != [] ==>
              DemoButtons(s, c) == NotifyBy(s, PressedInOrder(c)[|PressedInOrder(c)| - 1])
  {
  }

  /** The demo buttons touch nothing but the notification: a frame with demo
      clicks (and no submit or reset) ends in the same state as a frame with no
      clicks at all, apart from the three notification fields. */
  lemma DemoButtonsOnlyNotify(s: AppState, c: Clicks, now: int)
    requires !c.submit && !c.reset
    ensures var r := Frame(s, c, now);
            r == Frame(s, NoClicks, now).(showNotification := r.showNotification,
                                           notification := r.notification,
                                           notificationType := r.notificationType)
    ensures PressedInOrder(c) != [] ==> Frame(s, c, now).showNotification
  {
    var s1 := DemoButtons(s, c);
    assert Frame(s, c, now) == Tick(s1, now);
    assert DemoButtons(s, NoClicks) == s;
    assert Frame(s, NoClicks, now) == Tick(s, now);
    TickIgnoresNotification(s, s1.showNotification, s1.notification, s1.notificationType, now);
  }

  /** The tick neither reads nor writes the notification. */
  lemma TickIgnoresNotification(s: AppState, show: bool, message: string, kind: AlertVariant, now: int)
    ensures Tick(s.(showNotification := show, notification := message, notificationType := kind), now)
            == Tick(s, now).(showNotification := show, notification := message, notificationType := kind)
  {
  }

  /** The ghost button's clicks are never read. */
  lemma GhostClickIgnored(s: AppState, c: Clicks, now: int)
    ensures Frame(s, c.(ghostButton := true), now) == Frame(s, c.(ghostButton := false), now)
  {
  }

  /** Submit without reset: the form is submitted, the bar is full, and a
      success notification is shown, whatever demo buttons were clicked too. */
  lemma SubmitFrame(s: AppState, c: Clicks, now: int)
    requires c.submit && !c.reset
    ensures var r := Frame(s, c, now);
            && r.formSubmitted && r.progress == FullProgress
            && r.showNotification && r.notification == "Form submitted successfully!"
            && r.notificationType == AlertSuccess
  {
  }

  /** Reset, with or without submit in the same frame: reset is handled last,
      so it wins. Editors and checkboxes are cleared, the form is not submitted
      and an info notification is shown. The bar is emptied, and the tick that
      follows in the same frame may already have added one step to it. */
  lemma ResetFrame(s: AppState, c: Clicks, now: int)
    requires c.reset
    ensures var r := Frame(s, c, now);
            && r.nameText == "" && r.emailText == "" && r.messageText == ""
            && !r.checkbox1 && !r.checkbox2 && !r.checkbox3
            && !r.formSubmitted
            && r.progress == (if now - s.lastFrame > TickInterval then TickStep else 0)
            && r.showNotification && r.notification == "Form reset"
            && r.notificationType == AlertInfo
    ensures Frame(s, c, now) == Frame(s, c.(submit := !c.submit), now)
  {
    var c' := c.(submit := !c.submit);
    var s1 := DemoButtons(s, c);
    assert DemoButtons(s, c') == s1;
    assert s1.lastFrame == s.lastFrame;
    assert Reset(Submit(s1)) == Reset(s1);
    assert Frame(s, c, now) == Tick(Reset(s1), now);
    assert Frame(s, c', now) == Tick(Reset(s1), now);
  }

  /** No frame changes the selected tab, the slider, or the start of the
      animation. */
  lemma FrameKeepsUntouched(s: AppState, c: Clicks, now: int)
    ensures Frame(s, c, now).selectedTab == s.selectedTab
    ensures Frame(s, c, now).slider == s.slider
    ensures Frame(s, c, now).animationStart == s.animationStart
  {
    var s1 := DemoButtons(s, c);
    var s2 := if c.submit then Submit(s1) else s1;
    var s3 := if c.reset then Reset(s2) else s2;
    assert s3.selectedTab == s.selectedTab && s3.slider == s.slider
           && s3.animationStart == s.animationStart;
  }

  /** The animation tick: it changes nothing while the gate is shut; when open,
      it restarts the gate's clock and moves progress by exactly one step iff the
      form is not submitted and the bar is below 0.8. */
  lemma TickGate(s: AppState, now: int)
    ensures !GateOpen(s, now) ==> Tick(s, now) == s
    ensures GateOpen(s, now) ==> Tick(s, now).lastFrame == now
    ensures Tick(s, now).progress == s.progress + TickStep
            <==> GateOpen(s, now) && !s.formSubmitted && s.progress < TickCeiling
    ensures Tick(s, now).progress != s.progress ==> Tick(s, now).progress == s.progress + TickStep
    ensures Tick(s, now) == s.(progress := Tick(s, now).progress, lastFrame := Tick(s, now).lastFrame)
  {
  }

  /** Ticks never move a submitted form's bar, and never push a bar at or below
      0.8 past 0.802. */
  lemma TickBounds(s: AppState, now: int)
    ensures s.formSubmitted ==> Tick(s, now).progress == s.progress
    ensures s.progress <= TickCeiling ==> Tick(s, now).progress <= TickCeiling + TickStep
  {
  }

  // ---------------------------------------------------------------------------
  // Properties of runs of many frames
  // ---------------------------------------------------------------------------

  /** Every run keeps the invariant. */
  lemma {:induction false} RunPreservesInv(s: AppState, frames: seq<FrameInput>)
    requires Inv(s)
    ensures Inv(Run(s, frames))
    decreases |frames|
  {
    if frames != [] {
      FramePreservesInv(s, frames[0].clicks, frames[0].now);
      RunPreservesInv(Frame(s, frames[0].clicks, frames[0].now), frames[1..]);
    }
  }

  /** Every state the application reaches from its start satisfies the
      invariant; in particular progress stays within [0, 1]. */
  lemma ReachableStatesValid(now: int, frames: seq<FrameInput>)
    ensures Inv(Run(InitialState(now), frames))
    ensures 0 <= Run(InitialState(now), frames).progress <= FullProgress
  {
    RunPreservesInv(InitialState(now), frames);
  }

  predicate NoReset(frames: seq<FrameInput>) {
    forall k :: 0 <= k < |frames| ==> !frames[k].clicks.reset
  }

  /** Without a reset click, progress never goes down. */
  lemma {:induction false} ProgressMonotoneWithoutReset(s: AppState, frames: seq<FrameInput>)
    requires Inv(s)
    requires NoReset(frames)
    ensures Run(s, frames).progress >= s.progress
    decreases |frames|
  {
    if frames != [] {
      var s' := Frame(s, frames[0].clicks, frames[0].now);
      assert !frames[0].clicks.reset;
      assert NoReset(frames[1..]) by {
        forall k | 0 <= k < |frames[1..]| ensures !frames[1..][k].clicks.reset {
          assert frames[1..][k] == frames[k + 1];
        }
      }
      FramePreservesInv(s, frames[0].clicks, frames[0].now);
      ProgressMonotoneWithoutReset(s', frames[1..]);
    }
  }

  /** Once submitted, the form stays submitted with a full bar until a reset. */
  lemma {:induction false} SubmittedUntilReset(s: AppState, frames: seq<FrameInput>)
    requires Inv(s) && s.formSubmitted
    requires NoReset(frames)
    ensures Run(s, frames).formSubmitted && Run(s, frames).progress == FullProgress
    decreases |frames|
  {
    if frames != [] {
      assert !frames[0].clicks.reset;
      assert NoReset(frames[1..]) by {
        forall k | 0 <= k < |frames[1..]| ensures !frames[1..][k].clicks.reset {
          assert frames[1..][k] == frames[k + 1];
        }
      }
      FramePreservesInv(s, frames[0].clicks, frames[0].now);
      SubmittedUntilReset(Frame(s, frames[0].clicks, frames[0].now), frames[1..]);
    }
  }

  /** Frames with no clicks, each arriving more than 50 ms after the previous
      one (the first more than 50 ms after clock reading `last`). */
  predicate SteadyIdle(last: int, frames: seq<FrameInput>)
    decreases |frames|
  {
    frames == []
    || (frames[0].clicks == NoClicks && frames[0].now - last > TickInterval
        && SteadyIdle(frames[0].now, frames[1..]))
  }

  function Min(a: int, b: int): int {
    if a <= b then a else b
  }

  /** Left alone with frames arriving more than 50 ms apart, an unsubmitted bar
      grows by exactly one step per frame until it settles at 0.8. */
  lemma {:induction false} IdleAnimation(s: AppState, frames: seq<FrameInput>)
    requires Inv(s) && !s.formSubmitted
    requires SteadyIdle(s.lastFrame, frames)
    ensures Run(s, frames).progress == Min(TickCeiling, s.progress + TickStep * |frames|)
    decreases |frames|
  {
    if frames != [] {
      var s' := Frame(s, frames[0].clicks, frames[0].now);
      assert s'.progress == Min(TickCeiling, s.progress + TickStep);
      assert s'.lastFrame == frames[0].now;
      FramePreservesInv(s, frames[0].clicks, frames[0].now);
      IdleAnimation(s', frames[1..]);
    }
  }

  /** From a fresh start, 400 idle frames at least 50 ms apart fill the bar to
      exactly 0.8, and it stays there. */
  lemma AnimationSettles(now: int, frames: seq<FrameInput>)
    requires SteadyIdle(now, frames)
    requires |frames| >= 400
    ensures Run(InitialState(now), frames).progress == TickCeiling
  {
    IdleAnimation(InitialState(now), frames);
  }

  // ---------------------------------------------------------------------------
  // Substring search and the email check
  // ---------------------------------------------------------------------------

  /** `sub` occurs in `s` starting at index `i`. */
  predicate MatchesAt(s: string, sub: string, i: int) {
    0 <= i && i + |sub| <= |s| && s[i..i + |sub|] == sub
  }

  /** `sub` occurs somewhere in `s`. */
  ghost predicate Occurs(s: string, sub: string) {
    exists i :: MatchesAt(s, sub, i)
  }

  /** Whether `sub` occurs in `s`: tries every start index from 0 to
      |s| - |sub| in turn and stops at the first match. */
  method Contains(s: string, sub: string) returns (found: bool)
    ensures found <==> Occurs(s, sub)
  {
    var i := 0;
    while i <= |s| - |sub|
      invariant 0 <= i
      invariant |sub| <= |s| ==> i <= |s| - |sub| + 1
      invariant forall j :: 0 <= j < i ==> !MatchesAt(s, sub, j)
    {
      if s[i..i + |sub|] == sub {
        assert MatchesAt(s, sub, i);
        return true;
      }
      i := i + 1;
    }
    return false;
  }

  /** The empty string occurs in every string, the empty one included. */
  lemma EmptyOccurs(s: string)
    ensures Occurs(s, "")
  {
    assert MatchesAt(s, "", 0);
  }

  /** Nothing longer than `s` occurs in `s`. */
  lemma LongerNeverOccurs(s: string, sub: string)
    requires |sub| > |s|
    ensures !Occurs(s, sub)
  {
  }

  /** A one-character string occurs exactly when that character does. */
  lemma SingleOccurs(s: string, c: char)
    ensures Occurs(s, [c]) <==> c in s
  {
    if c in s {
      var k :| 0 <= k < |s| && s[k] == c;
      assert MatchesAt(s, [c], k);
    }
    if Occurs(s, [c]) {
      var k :| MatchesAt(s, [c], k);
      assert s[k] == s[k..k + 1][0] == c;
    }
  }

  /** The email field is flagged when it is non-empty and has no "@". */
  ghost predicate EmailInvalid(text: string) {
    |text| > 0 && !Occurs(text, "@")
  }

  /** The error flag of the email field. Having an "@" anywhere is all the
      check asks of a non-empty address. */
  method EmailHasError(text: string) returns (hasError: bool)
    ensures hasError == EmailInvalid(text)
    ensures hasError <==> |text| > 0 && '@' !in text
  {
    var at := Contains(text, "@");
    hasError := |text| > 0 && !at;
    SingleOccurs(text, '@');
  }

  /** The empty field is not flagged, "abc" is, "a@b" is not. */
  lemma EmailExamples()
    ensures !EmailInvalid("")
    ensures EmailInvalid("abc")
    ensures !EmailInvalid("a@b")
  {
    SingleOccurs("abc", '@');
    SingleOccurs("a@b", '@');
    assert "a@b"[1] == '@';
  }

  // ---------------------------------------------------------------------------
  // Tabs
  // ---------------------------------------------------------------------------

  datatype TabView = ComponentsTab | FormTab | SettingsTab

  /** The content rendered for the selected tab index; an index outside the
      three tabs falls back to the components tab. */
  function CurrentTab(selectedTab: int): (v: TabView)
    ensures v == FormTab <==> selectedTab == 1
    ensures v == SettingsTab <==> selectedTab == 2
    ensures v == ComponentsTab <==> selectedTab != 1 && selectedTab != 2
  {
    match selectedTab
    case 0 => ComponentsTab
    case 1 => FormTab
    case 2 => SettingsTab
    case _ => ComponentsTab
  }

  /** The button style of tab `i` in the tab bar: the selected tab is a
      primary button, every other tab an outline one. */
  function TabButtonVariant(selectedTab: int, i: int): (v: ButtonVariant)
    ensures v == ButtonPrimary <==> i == selectedTab
    ensures v == ButtonPrimary || v == ButtonOutline
  {
    if selectedTab == i then ButtonPrimary else ButtonOutline
  }

  /** In every reachable state exactly one of the three tab buttons is
      highlighted, and it names the tab whose content is shown. */
  lemma OneTabHighlighted(s: AppState)
    requires Inv(s)
    ensures forall i :: 0 <= i < 3 ==> (TabButtonVariant(s.selectedTab, i) == ButtonPrimary <==> i == s.selectedTab)
    ensures CurrentTab(s.selectedTab) == [ComponentsTab, FormTab, SettingsTab][s.selectedTab]
  {
  }
}
