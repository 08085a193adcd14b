# Contrast checker of the block editor, modelled in Dafny

The block editor's contrast checker (`ContrastChecker` and the message choice
in `ContrastCheckerMessage`) receives a background, a text and a link colour,
each with a fallback, a font size in pixels and a tri-state `isLargeText` flag.
It decides whether to show a warning that the combination fails level AA of
WCAG 2.0 (success criterion 1.4.3) and, if it does, which of two wordings to
use: "try a darker background and/or brighter text" or "try a brighter
background and/or darker text".

The model is a set of pure functions, as the source is:

- `color_model.dfy` (`ColorModel`): raw colour values with JavaScript
  truthiness (`undefined`, `null` and `''` are absent), the `||` operator the
  source uses to pick a fallback, and the colour library (colord with its
  names and a11y plugins) as an abstract `Library` value carrying a total
  `parse` and a level-AA `isReadableAA` test. A parsed `Color` exposes its
  alpha, brightness and relative luminance.
- `wcag.dfy` (`Wcag`): the WCAG 2.0 contrast ratio and level-AA minimum
  (4.5:1 for normal text, 3:1 for large text), used as a reference that a
  library may be assumed to follow (`FollowsWcag`).
- `contrast_checker.dfy` (`ContrastChecker`): the props, the verdict
  `NoWarning | Warning(direction)`, and the checker's steps: bail-out,
  effective colours, transparency, size class, readability, message direction.
- `contrast_checker_properties.dfy` (`ContrastCheckerProperties`): lemmas
  relating verdicts of different inputs, and concrete scenarios.

Every result about the checker holds for every library; the lemmas that need
the readability test to mean something assume `FollowsWcag(lib)`.

Behaviour of the code worth noting:

- The checker bails out when the background colour and its fallback are both
  missing, or when the text colour and its fallback are both missing
  (`index.js` lines 70-75).
- The library's parser is called unchecked on every effective colour and
  always yields a colour (lines 77-84), so `parse` is total and the checker
  has no error path.
- A missing link colour with a missing fallback is still parsed (from the
  absent value) and checked like any other link colour (lines 84 and 101-107).

## Model

| member | source | states |
|---|---|---|
| `ColorModel.OrElse` | packages/block-editor/src/components/contrast-checker/index.js:77-84 | `a || b` yields one of its operands, is truthy exactly when either operand is, and yields the left operand exactly when it is truthy, otherwise the right one (so `undefined || null` is `null`) |
| `ColorModel.Truthy` | packages/block-editor/src/components/contrast-checker/index.js:70-84 | a raw colour is present exactly when it is neither `undefined`, `null` nor the empty string |
| `ContrastChecker.HasTransparency` | packages/block-editor/src/components/contrast-checker/index.js:85-88 | the three compared colours count as transparent exactly when not all of their alphas equal 1 |
| `ContrastChecker.LacksInput` | packages/block-editor/src/components/contrast-checker/index.js:70-75 | the checker bails out exactly when both background and fallback background are absent, or both text and fallback text are absent |
| `ContrastChecker.EffectiveColors` | packages/block-editor/src/components/contrast-checker/index.js:77-84 | each compared colour is the parse of the primary colour when it is present, otherwise of the fallback |
| `ContrastChecker.TextSize` | packages/block-editor/src/components/contrast-checker/index.js:89-92 | flag true gives large, flag explicitly false gives small, an unset flag gives large exactly when a font size of at least 24 px is given |
| `ContrastChecker.MessageDirection` | packages/block-editor/src/components/contrast-checker/index.js:26-35 | the "brighter background / darker text" wording is chosen exactly when the background is at least as bright as both text and link (ties included), otherwise the "darker background / brighter text" one |
| `ContrastChecker.Check` | packages/block-editor/src/components/contrast-checker/index.js:58-122 | no warning on insufficient input; a warning only when all three effective colours have alpha 1, worded by `MessageDirection`; with sufficient opaque input, no warning exactly when text and link are both readable on the background at level AA and the same size class |
| `Wcag.MinimumRatio` | packages/block-editor/src/components/contrast-checker/index.js:93-107 | the level-AA minimum ratio is exactly 4.5 for normal text and exactly 3 for large text |
| `Wcag.ContrastRatioBounds` | packages/block-editor/src/components/contrast-checker/index.js:93-107 | the contrast ratio of two well-formed colours lies in [1, 21] and is symmetric |
| `Wcag.ReadableIsRatioTest` | packages/block-editor/src/components/contrast-checker/index.js:93-107 | the readability predicate is exactly "contrast ratio at least the level-AA minimum for the size class" |
| `Wcag.ReadableSmallImpliesLarge` | packages/block-editor/src/components/contrast-checker/index.js:89-107 | whatever is readable as normal text is readable as large text |
| `Wcag.SameLuminanceUnreadable` | packages/block-editor/src/components/contrast-checker/index.js:93-107 | two colours of equal luminance are never readable on each other |
| `ContrastCheckerProperties.FallbackSubstitution` | packages/block-editor/src/components/contrast-checker/index.js:77-84 | an absent primary with fallback C gives the same verdict as primary C, for background, text and link |
| `ContrastCheckerProperties.VerdictIgnoresColorSource` | packages/block-editor/src/components/contrast-checker/index.js:70-111 | equal effective raw colours, font size and flag give equal verdicts, whichever of primary or fallback supplied them |
| `ContrastCheckerProperties.VerdictDependsOnParsedColors` | packages/block-editor/src/components/contrast-checker/index.js:77-111 | with sufficient input, equal parsed colours, font size and flag give equal verdicts |
| `ContrastCheckerProperties.TransparencyOverridesReadability` | packages/block-editor/src/components/contrast-checker/index.js:85-88 | any effective colour with alpha other than 1 gives no warning, whatever readability test the library has |
| `ContrastCheckerProperties.TextAndLinkInterchangeable` | packages/block-editor/src/components/contrast-checker/index.js:93-109 | with both text and link colours given, exchanging them leaves the verdict and its wording unchanged |
| `ContrastCheckerProperties.AbsentLinkStillChecked` | packages/block-editor/src/components/contrast-checker/index.js:84-109 | with no link colour and no fallback, the parse of the absent value is still checked and can draw a warning |
| `ContrastCheckerProperties.LargeTextNeverAddsWarning` | packages/block-editor/src/components/contrast-checker/index.js:89-109 | for a WCAG-following library, moving to the large size class never adds a warning nor changes its wording |
| `ContrastCheckerProperties.SameLuminanceTextWarns` | packages/block-editor/src/components/contrast-checker/index.js:93-109 | for a WCAG-following library, opaque text with the background's luminance always draws a warning |
| `ContrastCheckerProperties.LargeTextThresholdExample` | packages/block-editor/src/components/contrast-checker/index.js:89-109 | grey at 3.2:1 on white passes at 24 px and fails at 23 px with the "brighter background" wording |
| `ContrastCheckerProperties.DarkPairExample` | packages/block-editor/src/components/contrast-checker/index.js:26-35 | dark grey on black warns with the "darker background" wording; a half-transparent black background gives no warning |

## Left out

- The colour library's internals: parsing of hex, named and functional
  notations, the brightness formula, the relative-luminance formula with its
  floating-point gamma correction, and the rounding the library may apply to
  the contrast ratio before comparing it. `parse` and `isReadableAA` are
  parameters; `Wcag` states the standard's ratio on exact reals.
- The accessibility announcement (`speak` inside `useEffect`, fired when the
  background, text or link colour changes): a UI side effect.
- Rendering of the `Notice` element and the translated message strings: only
  the wording's direction is modelled.
- JavaScript edge cases of the comparisons: a non-numeric `fontSize` (modelled
  as a number or absent; absent compares as not at least 24) and `NaN`
  alphas are not modelled.
- Levels other than AA: the checker only asks for level AA, so the library's
  test is modelled at that level only.
