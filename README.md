# AetherCompass marker-area model

A Dafny model of the screen-space arithmetic behind AetherCompass's on-screen
markers, and of the settings validation that feeds it:

- **Display area** (`ConfigUi`): the margins (L, D, R, U), stored as the
  vector (X, Y, Z, W), become absolute screen edges of the display area, and
  an edited rectangle becomes margins again. The two maps are exact inverses.
- **Marker placement and labels** (`UiHelper`): the strict inside-viewport
  test, the min/max clamp of a marker into the viewport shrunk by the
  margins, the rectangle corners and rotation centre of a marker sprite,
  text measurement over `'\n'`-separated lines, and the three draw commands
  of shadowed text.
- **Settings** (`Configs`): defaults, the in-place validity clamp of the size
  scale and the four margins, and loading settings of the same version.
- **One frame of the configuration window** (`ConfigUi.ConfigWindow.Draw`):
  the settings tab stores the edited rectangle as margins, the settings are
  validated against the viewport's size, and only then the red outline of
  the display area is queued, so it is always at least 20 pixels wide and
  high.

`float` is modelled as `real`. The main viewport, the active font (advance
table, fallback advance, native size), the draw list, the overlay queue and
the shadow colour are explicit parameters. Modules: `Geometry` (vectors,
viewport, min/max, `Option`), `StringSplit` (`string.Split('\n')`),
`UiHelper`, `Configs`, `ConfigUi`.

Three places where the code behaves differently from what its names or
comments suggest; the model follows the code:

- The margins do not always end in [2, half the viewport extent − 10]:
  the code raises each margin to 2 first and caps it second
  (src/Configs/PluginConfig.cs:49-64), so on a viewport narrower than 24
  pixels the cap wins and the margin ends below 2 (`Configs.ValidatedMargin`).
- The clamp takes its top bound from Z, the R margin
  (src/UI/GUI/UiHelper.cs:34), while the display area's top edge uses W,
  the U margin (src/UI/GUI/ConfigUi.cs:216). `UiHelper.ConstrainedScreenPos`
  keeps the code's choice; see Findings.
- The comment at src/UI/GUI/UiHelper.cs:48 names the corners "UL, DL, DR, DU".
  The code builds UL, UR, LR, LL, and that is what `UiHelper.RectCorners`
  states.

## Model

| member | source | states |
|---|---|---|
| `StringSplit.SplitLines` | src/UI/GUI/UiHelper.cs:111 | `text.Split('\n')`: at least one piece, no piece holds `'\n'`, and the pieces joined with `'\n'` give the text back |
| `StringSplit.SplitLinesCount` | src/UI/GUI/UiHelper.cs:111 | there is one more piece than there are `'\n'` characters in the text |
| `StringSplit.SplitJoin` | src/UI/GUI/UiHelper.cs:111 | splitting undoes joining: `'\n'`-free lines joined by `'\n'` split back into exactly those lines |
| `UiHelper.InsideMainViewport` | src/UI/GUI/UiHelper.cs:15-21 | a point reported inside implies a viewport of positive width and height |
| `UiHelper.ViewportEdgesAreOutside` | src/UI/GUI/UiHelper.cs:19-20 | the test is strict: a point on any of the four viewport edges is reported outside |
| `UiHelper.InsideIsClampFixed` | src/UI/GUI/UiHelper.cs:15-36 | with zero margins and zero extra inset, the clamp leaves a point strictly inside the viewport where it is |
| `UiHelper.ConstrainedScreenPos` | src/UI/GUI/UiHelper.cs:29-36 | x is at least `vp.X + extra.X + c.X` and at most `vp.X + vs.X − extra.X − c.Z` when these are ordered; y is at least `vp.Y + extra.Y + c.Z` and at most `vp.Y + vs.Y − extra.Y − c.Y` when ordered; an in-range coordinate is unchanged, one below goes to the lower bound, one above to the upper bound, and crossed bounds give the lower bound |
| `UiHelper.ClampIdempotent` | src/UI/GUI/UiHelper.cs:33-34 | clamping a clamped position changes nothing, also when the bounds cross |
| `UiHelper.ConstrainedScreenPosIntended` | src/UI/GUI/UiHelper.cs:34 | the corrected clamp: same x as the original; y is at least `vp.Y + extra.Y + c.W` and at most `vp.Y + vs.Y − extra.Y − c.Y` when these are ordered, unchanged in range, moved to the lower or upper bound from below or above, and the lower bound when the bounds cross |
| `UiHelper.RectCorners` | src/UI/GUI/UiHelper.cs:45-54 | corners in the order UL, UR, LR, LL: p1 is the anchor, p1/p2 and p3/p4 share y, p2/p3 and p4/p1 share x, the sides are the rectangle's width and height |
| `UiHelper.RotationCentre` | src/UI/GUI/UiHelper.cs:62 | `ul + size/2` is the midpoint of both diagonals p1–p3 and p2–p4 |
| `UiHelper.MaxLineWidth` | src/UI/GUI/UiHelper.cs:112-120 | the running maximum, started at 0, is never negative |
| `UiHelper.TextSizeOf` | src/UI/GUI/UiHelper.cs:109-122 | the measured height equals the requested font size, and the width is never negative for a non-negative font size |
| `UiHelper.TextSize` | src/UI/GUI/UiHelper.cs:109-122 | the nested loops over lines and characters compute `fontsize/nativeSize` times the widest line's sum of advances, a character below the table size taking its table entry and any other the fallback |
| `UiHelper.LineWidthConcat` | src/UI/GUI/UiHelper.cs:115-118 | a line's width is additive over concatenation, i.e. it is the sum of its characters' advances |
| `UiHelper.MaxLineWidthIsMax` | src/UI/GUI/UiHelper.cs:112-120 | no line is wider than the result, and the result is 0 or the width of some line |
| `UiHelper.EmptyTextHasZeroWidth` | src/UI/GUI/UiHelper.cs:111-121 | the empty string measures 0 wide and `fontsize` high |
| `UiHelper.TextWidthScales` | src/UI/GUI/UiHelper.cs:121 | the width is proportional to the requested font size |
| `UiHelper.SingleGlyphExample` | src/UI/GUI/UiHelper.cs:116-121 | a glyph of advance 10 in a 20-pixel font measures (10, 20) at size 20 and (20, 40) at size 40 |
| `UiHelper.DrawTextWithShadow` | src/UI/GUI/UiHelper.cs:124-140 | appends exactly three commands of size `fontsizeRaw*scale`: shadow colour at `pos+(scale,0)`, shadow colour at `pos+(0,scale)`, then the main colour at `pos`; earlier commands are kept |
| `Configs.Defaults` | src/Configs/PluginConfig.cs:11-30 | every flag of a fresh settings object is off |
| `Configs.ValidatedSizeScale` | src/Configs/PluginConfig.cs:46-47 | the size scale ends in [0.1, 10]; in-range values are kept, values below go to 0.1, values above to 10 |
| `Configs.ValidatedMargin` | src/Configs/PluginConfig.cs:49-64 | a margin ends at most the cap, at least 2 when the cap is at least 2, equal to the cap when the cap is below 2, and unchanged when already in range |
| `Configs.ValidatedConstraint` | src/Configs/PluginConfig.cs:49-64 | X and Z end at most `screenSize.X/2 − 10`, Y and W at most `screenSize.Y/2 − 10`; each is at least 2 when its cap is at least 2; in-range margins are left unchanged |
| `Configs.ClampConstraint` | src/Configs/PluginConfig.cs:49-64 | the eight ifs (four raises, then four caps, one component each) compute exactly the validated margins |
| `Configs.ValidatedValues` | src/Configs/PluginConfig.cs:44-64 | validation sets the size scale and the margins to their validated values and changes no other setting |
| `Configs.ValidatedValuesIdempotent` | src/Configs/PluginConfig.cs:44-64 | validating twice is validating once, also when the cap is below the minimum |
| `Configs.SmallMarginsRaised` | src/Configs/PluginConfig.cs:49-56 | margins (1, 1, 1, 1) on a screen of at least 24 by 24 pixels become (2, 2, 2, 2) |
| `Configs.DefaultsValidOnLargeScreen` | src/Configs/PluginConfig.cs:15-21 | the defaults (scale 1, margins 80) are left unchanged by validation on screens of at least 180 by 180 pixels |
| `Configs.PluginConfig.constructor` | src/Configs/PluginConfig.cs:11-30 | version 0, all flags off, size scale 1, margins (80, 80, 80, 80) |
| `Configs.PluginConfig.CheckValueValidity` | src/Configs/PluginConfig.cs:44-73 | the object's settings become their validated values; the version is untouched |
| `Configs.PluginConfig.Load` | src/Configs/PluginConfig.cs:80-102 | with equal versions every listed field is copied from the argument; with different versions nothing changes; the version itself is never copied |
| `ConfigUi.DisplayArea` | src/UI/GUI/ConfigUi.cs:208-217 | each edge lies exactly its margin inside the matching viewport edge (L from the left, D from the bottom, R from the right, U from the top), so the area is `vs.X − L − R` wide and `vs.Y − D − U` high |
| `ConfigUi.ConstraintFromDisplayArea` | src/UI/GUI/ConfigUi.cs:110-114 | the derived margins put the edited left and top edges back at their places, and L+R and D+U are what the edited width and height leave of the viewport |
| `ConfigUi.ConstraintRoundTrip` | src/UI/GUI/ConfigUi.cs:110-114 | deriving margins from the resolved area gives back the original margins |
| `ConfigUi.DisplayAreaRoundTrip` | src/UI/GUI/ConfigUi.cs:212-216 | resolving margins derived from an area gives back that area |
| `ConfigUi.DefaultDisplayArea` | src/UI/GUI/ConfigUi.cs:212-216 | viewport (0, 0) of size 1920x1080 with the default margins gives the area (80, 1000, 1840, 80) |
| `ConfigUi.ValidatedAreaIsWideEnough` | src/UI/GUI/ConfigUi.cs:73-75 | margins validated against the viewport's own size resolve to an area at least 20 pixels wide and high, whatever they were before |
| `ConfigUi.ClampEscapesDisplayAreaTop` | src/UI/GUI/UiHelper.cs:34 | with margins (80, 80, 10, 200) the clamp as written leaves (500, 50) in place although it is above the display area's top edge at 200 |
| `ConfigUi.IntendedClampStaysInDisplayArea` | src/UI/GUI/UiHelper.cs:31-34 | the corrected clamp keeps the marker `extra` inside every edge of the display area whenever the margins and insets fit the viewport |
| `ConfigUi.AfterSettingsTab` | src/UI/GUI/ConfigUi.cs:94-114 | while screen marks are shown the stored margins resolve exactly to the edited rectangle; otherwise nothing changes; no other setting changes |
| `ConfigUi.ConfigWindow.DrawPluginSettingsTab` | src/UI/GUI/ConfigUi.cs:94-114 | the settings become their values after the display-area edit; the version is untouched |
| `ConfigUi.ConfigWindow.Draw` | src/UI/GUI/ConfigUi.cs:13-83 | clears the focus request, applies the settings tab's edit, validates against the viewport size, then appends the red outline from (L, U) to (R, D) of the validated area and the preview marker; that outline is at least 20 pixels wide and high |

## Left out

- Projection of world positions to the screen (`WorldToScreenPos`) and `GetScreenCentre`: thin wrappers over the game's projection and the host viewport; the viewport is a parameter instead.
- `GetAngleOnScreen`, `RotatePointOnPlane` and `GetRotatedPointsOnScreen`: they rest on atan2, sin, cos and sqrt; only the unrotated corners and the rotation centre are modelled.
- `GenerateShadowColour`: the HSV conversion is a foreign ImGui call; the shadow colour is an input of `DrawTextWithShadow`, and colours stay RGBA vectors instead of packed 32-bit values.
- `DrawCompassIconText`, `DrawMapMarkerIconText` and all ImGui widget code (checkboxes, drag widgets and their limits such as [2, 9999], tab bars, buttons, the sponsor link): whether the settings tab is drawn and what its display-area widget returns are folded into the `tab` input of `Draw`.
- `Save`, `GetSavedPluginConfig`, the parameterless `Load` and `Plugin.Reload`: persistence and plugin lifecycle.
- The per-compass sub-configurations' `CheckValueValidity` and `Load`: their code is not part of this model; they are treated as doing nothing.
- Settings that the configuration window uses but `PluginConfig` does not declare (the text size scale, the nameplate-hiding options, the sponsor flag); the preview marker carries only the marker size scale.
- The debug-only settings under `#if DEBUG`.
- Floating-point rounding, infinities and NaN: every `float` is a `real`, `.1f` is exactly 0.1, and shifting the text position by `scale` and back restores it exactly.
- `UiHelper.TextSize`: requires a positive native font size, which the active font always has; a zero size would make the source divide by zero.
- `Configs.PluginConfig.CheckValueValidity`: C# mutates the components of the `Vector4` margin field in place; the model clamps a copy of that value (`Configs.ClampConstraint`) and stores it back, which is the same on one thread.
- `Configs.PluginConfig.Load`: the argument's settings are read once before the fields are written; since every field is read before it is written and written once, this is the same as the source, also when the argument is the object itself.
- Character codes are Unicode scalar values; .NET's UTF-16 code units are not modelled.

## Findings

| source | as written | input that shows it | evidently intended | confidence | as-written member | corrected member |
|---|---|---|---|---|---|---|
| src/UI/GUI/UiHelper.cs:34 | the clamp's top bound is `constraintUL.Y + screenConstraint.Z`, the R margin | viewport (0, 0) size 1920x1080, margins (80, 80, 10, 200), no extra inset, position (500, 50): the result (500, 50) lies above the display area's top edge at y = 200 | the top bound uses `screenConstraint.W`, the U margin, as the display area does | not executed; high that it disagrees with the display area, medium that it is unintended | `UiHelper.ConstrainedScreenPos`, `ConfigUi.ClampEscapesDisplayAreaTop` | `UiHelper.ConstrainedScreenPosIntended`, `ConfigUi.IntendedClampStaysInDisplayArea` |

The rest of the model keeps the clamp as written; nothing in it depends on
which of the two clamps is used.
