/*
 * The design-system layer of the UI kit: the spacing and typography scales and
 * the style tables behind Button, Input, Badge, Alert and ProgressBar.
 *
 * Every widget in the kit chooses its colours and metrics from closed
 * enumerations by `switch` and `if`, then hands them to the drawing toolkit.
 * This module keeps the choosing and leaves the drawing out: each widget
 * becomes a total function from its variant (and the pointer state it
 * consults) to the style values it would draw with.
 */
module UIKit {

  // ---------------------------------------------------------------------------
  // Palette
  // ---------------------------------------------------------------------------

  /** The palette entries the widgets below pick from, by name. `Transparent` is
      the zero colour value (all channels 0, alpha 0) that a widget gets when it
      sets no colour, or asks for `NRGBA{A: 0}` explicitly. */
  datatype Color =
    | Primary500 | Primary600
    | Gray100 | Gray200
    | Success | SuccessLight
    | Warning | WarningLight
    | Error | ErrorLight
    | Info | InfoLight
    | Surface | TextPrimary | Border | BorderLight
    | OnPrimary | OnSecondary | OnError | OnSuccess | OnWarning | OnSurface
    | Transparent

  /** `light` is the pale tint of the semantic colour `base`. */
  predicate IsLightOf(light: Color, base: Color) {
    || (light == SuccessLight && base == Success)
    || (light == WarningLight && base == Warning)
    || (light == ErrorLight && base == Error)
    || (light == InfoLight && base == Info)
  }

  // ---------------------------------------------------------------------------
  // Spacing scale
  // ---------------------------------------------------------------------------

  /** Every spacing step is a multiple of this many density-independent pixels. */
  const BaseUnit: int := 4

  datatype Spacing = Spacing(
    none: int, tiny: int, small: int, medium: int,
    large: int, xLarge: int, xxLarge: int, xxxLarge: int)

  /** The spacing scale, in density-independent pixels. */
  function NewSpacing(): (sp: Spacing)
    ensures sp.none == 0 && sp.tiny == 4 && sp.small == 8 && sp.medium == 16
    ensures sp.large == 24 && sp.xLarge == 32 && sp.xxLarge == 48 && sp.xxxLarge == 64
    ensures sp.none < sp.tiny < sp.small < sp.medium < sp.large
            < sp.xLarge < sp.xxLarge < sp.xxxLarge
    ensures sp.tiny == BaseUnit
    ensures sp.small % BaseUnit == 0 && sp.medium % BaseUnit == 0 && sp.large % BaseUnit == 0
    ensures sp.xLarge % BaseUnit == 0 && sp.xxLarge % BaseUnit == 0 && sp.xxxLarge % BaseUnit == 0
  {
    Spacing(
      none := 0,
      tiny := BaseUnit,
      small := BaseUnit * 2,
      medium := BaseUnit * 4,
      large := BaseUnit * 6,
      xLarge := BaseUnit * 8,
      xxLarge := BaseUnit * 12,
      xxxLarge := BaseUnit * 16)
  }

  // ---------------------------------------------------------------------------
  // Typography scale
  // ---------------------------------------------------------------------------

  /** A text style: font size in scaled pixels, line height, and CSS-like weight. */
  datatype TypographyStyle = TypographyStyle(size: int, lineHeight: int, weight: string)

  datatype Typography = Typography(
    displayLarge: TypographyStyle, displayMedium: TypographyStyle, displaySmall: TypographyStyle,
    headlineLarge: TypographyStyle, headlineMedium: TypographyStyle, headlineSmall: TypographyStyle,
    titleLarge: TypographyStyle, titleMedium: TypographyStyle, titleSmall: TypographyStyle,
    bodyLarge: TypographyStyle, bodyMedium: TypographyStyle, bodySmall: TypographyStyle,
    labelLarge: TypographyStyle, labelMedium: TypographyStyle, labelSmall: TypographyStyle)

  /** Within a Large/Medium/Small family the font shrinks strictly and the line
      height never grows. */
  predicate Descending(l: TypographyStyle, m: TypographyStyle, s: TypographyStyle) {
    l.size > m.size > s.size && l.lineHeight >= m.lineHeight >= s.lineHeight
  }

  /** The fifteen styles of a typography scale, largest family first. */
  function Styles(t: Typography): seq<TypographyStyle> {
    [ t.displayLarge, t.displayMedium, t.displaySmall,
      t.headlineLarge, t.headlineMedium, t.headlineSmall,
      t.titleLarge, t.titleMedium, t.titleSmall,
      t.bodyLarge, t.bodyMedium, t.bodySmall,
      t.labelLarge, t.labelMedium, t.labelSmall ]
  }

  /** The type scale: five families of three sizes each. */
  function NewTypography(): (t: Typography)
    ensures Descending(t.displayLarge, t.displayMedium, t.displaySmall)
    ensures Descending(t.headlineLarge, t.headlineMedium, t.headlineSmall)
    ensures Descending(t.titleLarge, t.titleMedium, t.titleSmall)
    ensures Descending(t.bodyLarge, t.bodyMedium, t.bodySmall)
    ensures Descending(t.labelLarge, t.labelMedium, t.labelSmall)
    ensures forall i :: 0 <= i < |Styles(t)| ==> Styles(t)[i].lineHeight > Styles(t)[i].size > 0
    ensures forall i :: 0 <= i < |Styles(t)| ==>
              Styles(t)[i].weight == (if 6 <= i < 9 || 12 <= i then "500" else "400")
    ensures t.labelSmall.size == 11 && t.labelMedium.size == 12 && t.labelLarge.size == 14
    ensures t.bodyMedium.size == 14
  {
    Typography(
      displayLarge := TypographyStyle(57, 64, "400"),
      displayMedium := TypographyStyle(45, 52, "400"),
      displaySmall := TypographyStyle(36, 44, "400"),
      headlineLarge := TypographyStyle(32, 40, "400"),
      headlineMedium := TypographyStyle(28, 36, "400"),
      headlineSmall := TypographyStyle(24, 32, "400"),
      titleLarge := TypographyStyle(22, 28, "500"),
      titleMedium := TypographyStyle(16, 24, "500"),
      titleSmall := TypographyStyle(14, 20, "500"),
      bodyLarge := TypographyStyle(16, 24, "400"),
      bodyMedium := TypographyStyle(14, 20, "400"),
      bodySmall := TypographyStyle(12, 16, "400"),
      labelLarge := TypographyStyle(14, 20, "500"),
      labelMedium := TypographyStyle(12, 16, "500"),
      labelSmall := TypographyStyle(11, 16, "500"))
  }

  // ---------------------------------------------------------------------------
  // Button
  // ---------------------------------------------------------------------------

  datatype ButtonVariant =
    ButtonPrimary | ButtonSecondary | ButtonOutline | ButtonGhost | ButtonDanger | ButtonSuccess

  datatype ButtonSize = ButtonSmall | ButtonMedium | ButtonLarge

  /** What a button draws with: the padding around its label, the label's font
      size, background and foreground colours, and its border. */
  datatype ButtonStyle = ButtonStyle(
    inset: int, fontSize: int, bg: Color, fg: Color, borderWidth: int, borderColor: Color)

  /** The style of a button of the given variant and size; `hovered` is whether
      the pointer is over it this frame. The size picks the padding and the
      font, the variant the colours and border, and hovering darkens the
      background of the two filled neutral variants only. */
  function Button(variant: ButtonVariant, size: ButtonSize, hovered: bool): (st: ButtonStyle)
    ensures size == ButtonSmall ==> st.inset == NewSpacing().small == 8 && st.fontSize == NewTypography().labelSmall.size == 11
    ensures size == ButtonMedium ==> st.inset == NewSpacing().medium == 16 && st.fontSize == NewTypography().labelMedium.size == 12
    ensures size == ButtonLarge ==> st.inset == NewSpacing().large == 24 && st.fontSize == NewTypography().labelLarge.size == 14
    ensures st.borderWidth != 0 <==> variant == ButtonOutline
    ensures variant == ButtonOutline ==> st.borderWidth == 1 && st.borderColor == Primary500
    ensures variant != ButtonOutline ==> st.borderWidth == 0 && st.borderColor == Transparent
    ensures variant == ButtonOutline || variant == ButtonGhost ==>
              st.bg == Transparent && st.fg == Primary500
    ensures variant == ButtonPrimary ==>
              st.bg == (if hovered then Primary600 else Primary500) && st.fg == OnPrimary
    ensures variant == ButtonSecondary ==>
              st.bg == (if hovered then Gray200 else Gray100) && st.fg == OnSecondary
    ensures variant == ButtonDanger ==> st.bg == Error && st.fg == OnError
    ensures variant == ButtonSuccess ==> st.bg == Success && st.fg == OnSuccess
  {
    var sp := NewSpacing();
    var ty := NewTypography();
    var inset := match size
      case ButtonSmall => sp.small
      case ButtonMedium => sp.medium
      case ButtonLarge => sp.large;
    var fontSize := match size
      case ButtonSmall => ty.labelSmall.size
      case ButtonMedium => ty.labelMedium.size
      case ButtonLarge => ty.labelLarge.size;
    var bg := match variant
      case ButtonPrimary => Primary500
      case ButtonSecondary => Gray100
      case ButtonOutline => Transparent
      case ButtonGhost => Transparent
      case ButtonDanger => Error
      case ButtonSuccess => Success;
    var fg := match variant
      case ButtonPrimary => OnPrimary
      case ButtonSecondary => OnSecondary
      case ButtonOutline => Primary500
      case ButtonGhost => Primary500
      case ButtonDanger => OnError
      case ButtonSuccess => OnSuccess;
    var borderWidth := if variant == ButtonOutline then 1 else 0;
    var borderColor := if variant == ButtonOutline then Primary500 else Transparent;
    var hoverBg :=
      if !hovered then bg
      else if variant == ButtonPrimary then Primary600
      else if variant == ButtonSecondary then Gray200
      else bg;
    ButtonStyle(inset, fontSize, hoverBg, fg, borderWidth, borderColor)
  }

  /** Hovering changes the background and nothing else, and changes it exactly
      for the Primary and Secondary variants. */
  lemma ButtonHoverOnlyBackground(variant: ButtonVariant, size: ButtonSize)
    ensures Button(variant, size, true) == Button(variant, size, false).(bg := Button(variant, size, true).bg)
    ensures Button(variant, size, true).bg != Button(variant, size, false).bg
            <==> variant == ButtonPrimary || variant == ButtonSecondary
  {
  }

  /** A larger button has both more padding and a larger font, whatever its
      variant and hover state. */
  lemma ButtonSizeIncreasing(variant: ButtonVariant, hovered: bool)
    ensures Button(variant, ButtonSmall, hovered).inset < Button(variant, ButtonMedium, hovered).inset
            < Button(variant, ButtonLarge, hovered).inset
    ensures Button(variant, ButtonSmall, hovered).fontSize < Button(variant, ButtonMedium, hovered).fontSize
            < Button(variant, ButtonLarge, hovered).fontSize
  {
  }

  // ---------------------------------------------------------------------------
  // Input
  // ---------------------------------------------------------------------------

  datatype InputStyle = InputStyle(borderColor: Color, bg: Color, borderWidth: int)

  /** The frame of a text input. Focus outranks the error flag: a focused input
      always shows the focus colour, an unfocused one shows the error colour if
      its content is flagged and the plain border colour otherwise. */
  function Input(focused: bool, hasError: bool): (st: InputStyle)
    ensures focused ==> st.borderColor == Primary500
    ensures !focused && hasError ==> st.borderColor == Error
    ensures !focused && !hasError ==> st.borderColor == Border
    ensures st.bg == Surface && st.borderWidth == 1
  {
    var border := Border;
    var border' := if hasError then Error else border;
    var border'' := if focused then Primary500 else border';
    InputStyle(border'', Surface, 1)
  }

  // ---------------------------------------------------------------------------
  // Badge
  // ---------------------------------------------------------------------------

  datatype BadgeVariant = BadgeDefault | BadgeSuccess | BadgeWarning | BadgeError | BadgeInfo

  datatype BadgeStyle = BadgeStyle(bg: Color, fg: Color)

  /** The colours of a status badge. Every status variant sits on the pale tint
      of its own semantic colour; the text is that semantic colour, except on
      the warning tint, which takes the dark on-warning text. */
  function Badge(variant: BadgeVariant): (st: BadgeStyle)
    ensures variant == BadgeDefault ==> st == BadgeStyle(Gray200, TextPrimary)
    ensures variant == BadgeSuccess ==> IsLightOf(st.bg, Success) && st.fg == Success
    ensures variant == BadgeWarning ==> IsLightOf(st.bg, Warning) && st.fg == OnWarning
    ensures variant == BadgeError ==> IsLightOf(st.bg, Error) && st.fg == Error
    ensures variant == BadgeInfo ==> IsLightOf(st.bg, Info) && st.fg == Info
  {
    match variant
    case BadgeDefault => BadgeStyle(Gray200, TextPrimary)
    case BadgeSuccess => BadgeStyle(SuccessLight, Success)
    case BadgeWarning => BadgeStyle(WarningLight, OnWarning)
    case BadgeError => BadgeStyle(ErrorLight, Error)
    case BadgeInfo => BadgeStyle(InfoLight, Info)
  }

  /** No two badge variants share a background. */
  lemma BadgeBackgroundsDistinct(a: BadgeVariant, b: BadgeVariant)
    requires a != b
    ensures Badge(a).bg != Badge(b).bg
  {
  }

  // ---------------------------------------------------------------------------
  // Alert
  // ---------------------------------------------------------------------------

  datatype AlertVariant = AlertInfo | AlertSuccess | AlertWarning | AlertError

  datatype AlertStyle = AlertStyle(bg: Color, borderColor: Color, iconColor: Color, icon: string)

  /** The colours and icon of an alert. The border and the icon share the
      variant's semantic colour, and the background is that colour's tint. */
  function AlertColors(variant: AlertVariant): (st: AlertStyle)
    ensures st.borderColor == st.iconColor
    ensures IsLightOf(st.bg, st.borderColor)
    ensures |st.icon| == 1
    ensures variant == AlertInfo ==> st.borderColor == Info
    ensures variant == AlertSuccess ==> st.borderColor == Success
    ensures variant == AlertWarning ==> st.borderColor == Warning
    ensures variant == AlertError ==> st.borderColor == Error
  {
    match variant
    case AlertInfo => AlertStyle(InfoLight, Info, Info, "\U{2139}")
    case AlertSuccess => AlertStyle(SuccessLight, Success, Success, "\U{2713}")
    case AlertWarning => AlertStyle(WarningLight, Warning, Warning, "\U{26A0}")
    case AlertError => AlertStyle(ErrorLight, Error, Error, "\U{2717}")
  }

  /** The four alert variants have four different icons and four different
      border colours. */
  lemma AlertVariantsDistinct(a: AlertVariant, b: AlertVariant)
    requires a != b
    ensures AlertColors(a).icon != AlertColors(b).icon
    ensures AlertColors(a).borderColor != AlertColors(b).borderColor
  {
  }

  /** The badge variant of the same severity as an alert variant. */
  function BadgeFor(variant: AlertVariant): BadgeVariant {
    match variant
    case AlertInfo => BadgeInfo
    case AlertSuccess => BadgeSuccess
    case AlertWarning => BadgeWarning
    case AlertError => BadgeError
  }

  /** An alert and the badge of the same severity are drawn on the same tint. */
  lemma AlertBadgeSameTint(variant: AlertVariant)
    ensures AlertColors(variant).bg == Badge(BadgeFor(variant)).bg
  {
  }

  /** One row of the text column of an alert. */
  datatype AlertLine = TitleLine(title: string) | TitleSpacer(height: int) | MessageLine(message: string)

  /** The text column of an alert, top to bottom. The title row and the spacer
      below it are both dropped when the title is empty; the message row is
      always there, and always last. */
  function AlertLines(title: string, message: string): (lines: seq<AlertLine>)
    ensures |lines| == if title == "" then 1 else 3
    ensures lines[|lines| - 1] == MessageLine(message)
    ensures title != "" ==> lines[0] == TitleLine(title) && lines[1] == TitleSpacer(NewSpacing().tiny)
    ensures (exists i :: 0 <= i < |lines| && lines[i].TitleLine?) <==> title != ""
    ensures (exists i :: 0 <= i < |lines| && lines[i].TitleSpacer?) <==> title != ""
  {
    var titleRow := if title == "" then [] else [TitleLine(title)];
    var spacerRow := if title != "" then [TitleSpacer(NewSpacing().tiny)] else [];
    titleRow + spacerRow + [MessageLine(message)]
  }

  // ---------------------------------------------------------------------------
  // ProgressBar
  // ---------------------------------------------------------------------------

  /** Progress fractions are counted in thousandths: 1000 is a full bar. */
  const FullProgress: int := 1000

  /** The fraction a progress bar actually shows: its input forced into [0, 1]. */
  function Clamp(progress: int): (p: int)
    ensures 0 <= p <= FullProgress
    ensures 0 <= progress <= FullProgress ==> p == progress
    ensures progress < 0 ==> p == 0
    ensures progress > FullProgress ==> p == FullProgress
  {
    var p := if progress < 0 then 0 else progress;
    if p > FullProgress then FullProgress else p
  }

  /** What a progress bar draws: the clamped fraction, the width of the filled
      part, whether the fill is drawn at all, and the size the bar reports. */
  datatype ProgressView = ProgressView(fraction: int, fillWidth: int, drawFill: bool, width: int, height: int)

  /** The progress bar for `progress` (in thousandths) laid out `maxX` pixels
      wide. The filled width is the clamped fraction of the bar, rounded down,
      so it never leaves the bar; the fill is drawn only when it is at least one
      pixel wide; the bar always reports its full width and a small-step height. */
  function ProgressBar(progress: int, maxX: nat): (v: ProgressView)
    ensures v.fraction == Clamp(progress)
    ensures 0 <= v.fillWidth <= maxX
    ensures v.fillWidth * FullProgress <= maxX * v.fraction < (v.fillWidth + 1) * FullProgress
    ensures v.drawFill <==> v.fillWidth > 0
    ensures progress <= 0 ==> v.fillWidth == 0 && !v.drawFill
    ensures progress >= FullProgress ==> v.fillWidth == maxX
    ensures v.width == maxX && v.height == NewSpacing().small
  {
    var p := Clamp(progress);
    var fillWidth := (maxX * p) / FullProgress;
    FillWithinBar(maxX, p);
    ProgressView(p, fillWidth, fillWidth > 0, maxX, NewSpacing().small)
  }

  /** The rounded-down share `p` thousandths of `maxX` lies between 0 and `maxX`. */
  lemma FillWithinBar(maxX: nat, p: int)
    requires 0 <= p <= FullProgress
    ensures 0 <= (maxX * p) / FullProgress <= maxX
  {
    assert 0 <= maxX * p <= maxX * FullProgress;
  }

  /** A larger input never gives a narrower fill. */
  lemma FillWidthMonotone(p: int, q: int, maxX: nat)
    requires p <= q
    ensures ProgressBar(p, maxX).fillWidth <= ProgressBar(q, maxX).fillWidth
  {
    var a, b := Clamp(p), Clamp(q);
    assert maxX * a <= maxX * b by {
      assert maxX * b - maxX * a == maxX * (b - a);
    }
  }
}
