# UI kit demo: design-system tables and application state machine

This project models the parts of the Gio UI-kit demo that decide something:

- the design-system tables of the widget kit (`uikit.dfy`, module `UIKit`):
  - the spacing scale and the typography scale;
  - the size, variant and hover logic of `Button`;
  - the border-colour priority of `Input`;
  - the `Badge` and `Alert` variant tables, and how `Alert` handles an empty title;
  - the clamp and fill width of `ProgressBar`;
- the demo application (`app.dfy`, module `Demo`):
  - the `App` record and its per-frame event handling. A class `App` has one method per phase of `handleEvents`. Its `Step` method is proved against a pure function `Frame` of the old state, and runs of many frames (`Run`) are reasoned about by induction;
  - the substring search `contains` (a loop method proved against a search specification) and the email error flag built on it;
  - the tab dispatch of `renderCurrentTab` and the highlighting of the selected tab button.

Representation choices:

- Progress is counted in integer thousandths: 0.002 is 2, 0.8 is 800 and 1.0 is 1000. The slider value is also in thousandths.
- Colours are palette names (`UIKit.Color`). `Transparent` stands for the zero colour value. That value is what `Button` draws with when it sets no border colour, and what it uses as the Outline and Ghost background.
- Clicks, hover and focus are boolean inputs.
- The clock is an input too. `Step(clicks, now)` takes the reading, in nanoseconds, that `time.Now()` would have given. The animation gate compares `now - lastFrame` with 50 ms, like `time.Duration` does.

Some behaviour of the code is easy to misread, so it is spelled out here:

- Input border: in `Input` (cmd/ui-kit/uikit/uikit.go:374-380) focus is assigned last, so a focused input shows the focus colour even when its content is flagged. `UIKit.Input` states this priority.
- Tick threshold: the tick needs strictly more than 50 ms since the last one (cmd/ui-kit/main.go:144). `Demo.GateOpen` uses `>`.
- Progress bound: in the thousandths model a submitted form has a full bar, and otherwise progress is an even number of thousandths of at most 0.8 (`Demo.Inv`). This bound is a property of the exact model only. With float32 steps the program's own bar settles slightly above 0.8 (see "float32 arithmetic" under Left out). The bound that holds for both is `Demo.TickBounds`: a tick never takes progress above 0.802.
- Badge colours: the Warning badge uses the dark on-warning text colour, not the warning colour (cmd/ui-kit/uikit/uikit.go:469-471). `UIKit.Badge` states it that way.
- Reset: the reset handler empties the bar, but the animation tick runs later in the same frame. So a reset in a frame whose gate is open ends with one tick's worth of progress (0.002), not 0 (`Demo.ResetFrame`).

## Model

| member | source | states |
|---|---|---|
| `UIKit.NewSpacing` | cmd/ui-kit/uikit/uikit.go:177-200 | The eight spacing steps are 0, 4, 8, 16, 24, 32, 48, 64. They are strictly increasing, and each is a multiple of the 4-unit base unit, with Tiny equal to it |
| `UIKit.NewTypography` | cmd/ui-kit/uikit/uikit.go:202-245 | Within each of the five Large/Medium/Small families the font size strictly decreases and the line height never increases. Every style's line height exceeds its size. Title and Label styles weigh "500", all others "400". Label sizes are 11/12/14 |
| `UIKit.Button` | cmd/ui-kit/uikit/uikit.go:293-346 | Small/Medium/Large give inset 8/16/24 (the Small/Medium/Large spacing) and font 11/12/14 (the Label styles). Only Outline has a non-zero border, of width 1 and colour Primary500; every other variant has width 0. Outline and Ghost have a transparent background and a Primary500 foreground. Primary draws Primary500 (Primary600 when hovered) on OnPrimary, Secondary Gray100 (Gray200 when hovered) on OnSecondary, Danger Error on OnError and Success Success on OnSuccess |
| `UIKit.ButtonHoverOnlyBackground` | cmd/ui-kit/uikit/uikit.go:339-346 | A hovered button differs from the un-hovered one at most in its background, and it differs exactly for Primary and Secondary |
| `UIKit.ButtonSizeIncreasing` | cmd/ui-kit/uikit/uikit.go:302-313 | For every variant and hover state, inset and font size both strictly increase from Small to Medium to Large |
| `UIKit.Input` | cmd/ui-kit/uikit/uikit.go:369-385 | The border is Primary500 when focused, whatever the error flag. Otherwise it is Error when flagged and Border when not. The background is Surface and the border width is 1 |
| `UIKit.Badge` | cmd/ui-kit/uikit/uikit.go:458-478 | Default is Gray200 on TextPrimary. Success, Error and Info sit on their own tint with their semantic colour as text. Warning sits on the warning tint with on-warning text |
| `UIKit.BadgeBackgroundsDistinct` | cmd/ui-kit/uikit/uikit.go:462-478 | Different badge variants have different backgrounds |
| `UIKit.AlertColors` | cmd/ui-kit/uikit/uikit.go:526-552 | For every variant the border colour equals the icon colour, and the background is the tint of that colour. The icon is one character. Info/Success/Warning/Error use the Info/Success/Warning/Error colour |
| `UIKit.AlertVariantsDistinct` | cmd/ui-kit/uikit/uikit.go:531-552 | Different alert variants have different icons and different border colours |
| `UIKit.AlertBadgeSameTint` | cmd/ui-kit/uikit/uikit.go:531-552 | A cross-check between the alert table and the badge table, which the program does not link to each other: an alert and the badge of the same severity share their background tint |
| `UIKit.AlertLines` | cmd/ui-kit/uikit/uikit.go:577-598 | An empty title removes both the title row and the spacer below it, leaving one row. A non-empty title gives title, spacer of the Tiny step, then message. The message row is always last |
| `UIKit.Clamp` | cmd/ui-kit/uikit/uikit.go:609-615 | The result lies in [0, 1]. An input inside [0, 1] is kept, one below becomes 0 (-0.3 gives 0), and one above becomes 1 (1.7 gives 1) |
| `UIKit.ProgressBar` | cmd/ui-kit/uikit/uikit.go:607-645 | The shown fraction is the clamped input. The fill width is the clamped fraction of the bar rounded down, so it lies in [0, maxX]: 0 for inputs at or below 0, maxX for inputs at or above 1. The fill is drawn iff its width is positive. The reported size is (maxX, Small spacing) |
| `UIKit.FillWithinBar` | cmd/ui-kit/uikit/uikit.go:631 | The rounded-down share of the bar width for a fraction in [0, 1] lies between 0 and the bar width |
| `UIKit.FillWidthMonotone` | cmd/ui-kit/uikit/uikit.go:610-631 | A larger progress input never gives a narrower fill |
| `Demo.InitialState` | cmd/ui-kit/main.go:59-75 | A new application starts with progress 0, tab 0, slider 0.5, nothing submitted and an empty, hidden notification. The name, email and message editors hold the three seed texts, and all three checkboxes are unchecked. Both clock fields read the start time. It satisfies the invariant |
| `Demo.App.constructor` | cmd/ui-kit/main.go:59-75 | The new object's fields are the initial state (seeded editor texts included) and satisfy the invariant |
| `Demo.App.Step` | cmd/ui-kit/main.go:77-150 | One frame updates the object's fields to exactly `Frame` of its old fields (demo buttons, then submit, then reset, then the tick) and keeps the invariant |
| `Demo.App.ShowNotification` | cmd/ui-kit/main.go:80-82 | Sets the three notification fields and nothing else |
| `Demo.App.HandleDemoButtons` | cmd/ui-kit/main.go:78-107 | The five demo-button handlers, run in order, leave the fields equal to `DemoButtons` of the old fields |
| `Demo.App.SubmitForm` | cmd/ui-kit/main.go:109-115 | The submit handler leaves the fields equal to `Submit` of the old fields |
| `Demo.App.ResetForm` | cmd/ui-kit/main.go:117-129 | The reset handler leaves the fields equal to `Reset` of the old fields |
| `Demo.App.AnimateProgress` | cmd/ui-kit/main.go:142-149 | The animation tick leaves the fields equal to `Tick` of the old fields |
| `Demo.DemoButtons` | cmd/ui-kit/main.go:78-107 | The demo buttons change only the three notification fields. The notification is shown afterwards iff it was shown before or some demo button was clicked |
| `Demo.LastDemoButtonWins` | cmd/ui-kit/main.go:78-107 | With several demo buttons clicked in one frame, the last one in polling order decides the message and severity. With none clicked, the state is unchanged |
| `Demo.DemoButtonsOnlyNotify` | cmd/ui-kit/main.go:78-107 | Without submit or reset, a frame with demo clicks equals a frame with no clicks except in the notification fields: progress, form fields, checkboxes and tab are untouched. Any demo click shows the notification |
| `Demo.GhostClickIgnored` | cmd/ui-kit/main.go:77-107 | A click on the Ghost button changes nothing, because its clicks are never polled |
| `Demo.SubmitFrame` | cmd/ui-kit/main.go:109-115 | Submit without reset leaves the form submitted with a full bar and shows "Form submitted successfully!" as a success notification |
| `Demo.ResetFrame` | cmd/ui-kit/main.go:109-129 | A reset clears the three editors and three checkboxes, un-submits the form and shows "Form reset" as info. The bar is 0, or 0.002 if the gate was open. Reset is handled after submit: the frame's result does not depend on whether submit was also clicked |
| `Demo.FrameKeepsUntouched` | cmd/ui-kit/main.go:77-150 | No run of the event handler changes the selected tab, the slider or the animation start time |
| `Demo.TickGate` | cmd/ui-kit/main.go:142-149 | With the gate shut the tick changes nothing. With it open, `lastFrame` becomes `now` whether or not progress moved. Progress rises by exactly 0.002 iff the gate is open, the form is not submitted and progress is below 0.8, and it changes in no other way. Only progress and `lastFrame` are ever touched |
| `Demo.TickBounds` | cmd/ui-kit/main.go:143-149 | Ticks never change a submitted form's progress, and never push progress at or below 0.8 above 0.802 |
| `Demo.TickPreservesInv` | cmd/ui-kit/main.go:142-149 | The tick keeps the invariant |
| `Demo.TickIgnoresNotification` | cmd/ui-kit/main.go:142-149 | The tick neither reads nor changes the notification fields |
| `Demo.FramePreservesInv` | cmd/ui-kit/main.go:77-150 | Every frame keeps the invariant: tab in range, a submitted form has a full bar, otherwise progress is an even count of thousandths in [0, 0.8] |
| `Demo.RunPreservesInv` | cmd/ui-kit/main.go:77-150 | Any sequence of frames keeps the invariant |
| `Demo.ReachableStatesValid` | cmd/ui-kit/main.go:59-150 | Every state reached from a new application satisfies the invariant, so progress stays in [0, 1] |
| `Demo.ProgressMonotoneWithoutReset` | cmd/ui-kit/main.go:109-149 | Over frames without a reset click, progress never decreases |
| `Demo.SubmittedUntilReset` | cmd/ui-kit/main.go:109-149 | Once submitted, the form stays submitted with a full bar over any frames without a reset click |
| `Demo.IdleAnimation` | cmd/ui-kit/main.go:142-149 | With no clicks and each frame more than 50 ms after the last, an unsubmitted bar after n frames reads min(0.8, start + 0.002·n) |
| `Demo.AnimationSettles` | cmd/ui-kit/main.go:142-149 | From a fresh start, 400 or more such idle frames leave the bar at exactly 0.8 |
| `Demo.Contains` | cmd/ui-kit/main.go:565-572 | The result is true iff some start index i with 0 ≤ i ≤ \|s\|-\|sub\| has s[i..i+\|sub\|] equal to sub |
| `Demo.EmptyOccurs` | cmd/ui-kit/main.go:565-567 | The empty string is found in every string, the empty string included |
| `Demo.LongerNeverOccurs` | cmd/ui-kit/main.go:566 | A needle longer than the haystack is never found |
| `Demo.SingleOccurs` | cmd/ui-kit/main.go:565-572 | A one-character needle is found iff that character occurs in the string |
| `Demo.EmailHasError` | cmd/ui-kit/main.go:454 | The email field is flagged iff its text is non-empty and contains no "@" |
| `Demo.EmailExamples` | cmd/ui-kit/main.go:454 | "" is not flagged, "abc" is flagged, "a@b" is not flagged |
| `Demo.CurrentTab` | cmd/ui-kit/main.go:199-208 | Index 1 shows Form and index 2 shows Settings. Every other index, 0 included, shows Components |
| `Demo.TabButtonVariant` | cmd/ui-kit/main.go:243-263 | A tab button is Primary iff it is the selected tab, and Outline otherwise |
| `Demo.OneTabHighlighted` | cmd/ui-kit/main.go:236-263 | In every state satisfying the invariant, exactly the selected one of the three tab buttons is highlighted, and the content shown is that tab's |

## Left out

- Drawing and layout are calls into the Gio toolkit and are not part of this model. This covers flex, stack and inset layouts, borders, clipping, painting and the material widgets, and also `Card`, `Divider`, `Space` and `Text`.
- Click, hover and focus detection belong to the toolkit. They are boolean inputs here.
- Tab switching is not modelled. The loop at cmd/ui-kit/main.go:132-140 polls a `widget.Clickable` made fresh in that frame, which is not the one drawn in the tab bar. The model assumes that such a clickable reports no click, so the loop never changes `selectedTab`. It therefore leaves the tab unchanged in every frame (`Demo.FrameKeepsUntouched`) and has no stage for the loop.
- The window, the event loop, the goroutine and process exit are platform I/O (cmd/ui-kit/main.go:574-602). `Demo.Run` stands in for the event loop's sequence of `handleEvents` calls.
- Widgets that change application state while they are drawn are left out. The checkboxes (cmd/ui-kit/main.go:535-541), the slider (cmd/ui-kit/main.go:555) and the editors (cmd/ui-kit/uikit/uikit.go:396) update their values during layout, between two `handleEvents` calls. `Demo.Frame` and `Demo.Run` model the event-handling phase only. So `Demo.FrameKeepsUntouched` says that event handling never moves the slider, not that the slider never moves, and the editor texts and checkboxes change only through reset in the model.
- Reading the system clock is left out. Clock readings are parameters.
- float32 arithmetic is left out. Progress and the clamp work on exact thousandths, so the bar reaches exactly 0.8 after 400 ticks. The program adds float32 steps of 0.002. Its sum after 400 ticks is just below float32 0.8, so a 401st tick fires and the bar settles at about 0.802. The 0.8 bound of `Demo.Inv`, `Demo.IdleAnimation` and `Demo.AnimationSettles` therefore holds in the exact model only, and the float product in the fill width can also round differently.
- The text formatting of the percentage and slider labels is left out.
- Editor internals (caret, selection, editing) are left out. An editor is its text.
- Raw colour bytes are left out. Colours are palette names, so two names whose bytes happen to coincide (Gray200 and Border, for instance) are still different names.
- Applying the palette to the toolkit's theme in `NewUIKit` is left out.
- The corner radii, shadow constants and the rest of the palette are left out. No modelled decision reads them.
- `UIKit.ProgressBar`: the bar width `maxX` is a natural number, because the toolkit's constraints are never negative.
- `Demo.Contains`: strings are sequences of characters. The source compares bytes; for the one-byte needle "@" that the application searches for, the two agree.
