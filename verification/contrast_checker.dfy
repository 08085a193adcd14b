/** The contrast checker of the block editor: from a background, a text and a
    link colour (each with a fallback), a font size and a tri-state large-text
    flag it decides whether to warn that the combination fails level AA of
    WCAG 2.0, and which of the two warning wordings to show. */
module ContrastChecker {
  import opened ColorModel

  datatype Option<T> = None | Some(value: T)

  /** The `isLargeText` prop: explicitly true, explicitly false, or not given. */
  datatype LargeTextFlag = Unset | Yes | No

  /** The props the checker receives. `fontSize` is in pixels and may be absent. */
  datatype Props = Props(
    backgroundColor: Raw,
    fallbackBackgroundColor: Raw,
    textColor: Raw,
    fallbackTextColor: Raw,
    linkColor: Raw,
    fallbackLinkColor: Raw,
    fontSize: Option<real>,
    isLargeText: LargeTextFlag)

  /** Which way the warning suggests fixing the combination. */
  datatype Direction = DarkerBackgroundBrighterText | BrighterBackgroundDarkerText

  /** The checker either renders nothing or a warning worded in one direction. */
  datatype Verdict = NoWarning | Warning(direction: Direction)

  /** The three parsed colours the checker compares. */
  datatype Colors = Colors(background: Color, text: Color, link: Color)

  /** The early bail-out: nothing is checked when neither a background colour
      nor its fallback is given, or neither a text colour nor its fallback. */
  predicate LacksInput(p: Props)
    ensures LacksInput(p) <==>
              (!Truthy(p.backgroundColor) && !Truthy(p.fallbackBackgroundColor))
              || (!Truthy(p.textColor) && !Truthy(p.fallbackTextColor))
  {
    !Truthy(OrElse(p.backgroundColor, p.fallbackBackgroundColor))
    || !Truthy(OrElse(p.textColor, p.fallbackTextColor))
  }

  /** The colours compared: for each role the primary colour when it is
      present, otherwise the fallback, handed to the library's parser. */
  function EffectiveColors(lib: Library, p: Props): (c: Colors)
    ensures Truthy(p.backgroundColor) ==> c.background == lib.parse(p.backgroundColor)
    ensures !Truthy(p.backgroundColor) ==> c.background == lib.parse(p.fallbackBackgroundColor)
    ensures Truthy(p.textColor) ==> c.text == lib.parse(p.textColor)
    ensures !Truthy(p.textColor) ==> c.text == lib.parse(p.fallbackTextColor)
    ensures Truthy(p.linkColor) ==> c.link == lib.parse(p.linkColor)
    ensures !Truthy(p.linkColor) ==> c.link == lib.parse(p.fallbackLinkColor)
  {
    Colors(
      lib.parse(OrElse(p.backgroundColor, p.fallbackBackgroundColor)),
      lib.parse(OrElse(p.textColor, p.fallbackTextColor)),
      lib.parse(OrElse(p.linkColor, p.fallbackLinkColor)))
  }

  /** Some colour is not fully opaque (its alpha differs from 1). */
  predicate HasTransparency(c: Colors)
    ensures !HasTransparency(c) <==>
              c.background.alpha == 1.0 && c.text.alpha == 1.0 && c.link.alpha == 1.0
  {
    c.background.alpha != 1.0 || c.text.alpha != 1.0 || c.link.alpha != 1.0
  }

  /** The size class: large when the flag is true, or when it is not
      explicitly false and the font size is at least 24 pixels. */
  function TextSize(fontSize: Option<real>, isLargeText: LargeTextFlag): (s: Size)
    ensures isLargeText == Yes ==> s == Large
    ensures isLargeText == No ==> s == Small
    ensures isLargeText == Unset ==> (s == Large <==> fontSize.Some? && fontSize.value >= 24.0)
  {
    if isLargeText == Yes || (isLargeText != No && fontSize.Some? && fontSize.value >= 24.0)
    then Large
    else Small
  }

  /** The wording of the warning: suggest a brighter background and darker
      text exactly when the background is at least as bright as both the text
      and the link colour (a tie included); otherwise suggest a darker
      background and brighter text. */
  function MessageDirection(background: Color, text: Color, link: Color): (d: Direction)
    ensures d == BrighterBackgroundDarkerText <==>
              text.brightness <= background.brightness && link.brightness <= background.brightness
  {
    if background.brightness < text.brightness || background.brightness < link.brightness
    then DarkerBackgroundBrighterText
    else BrighterBackgroundDarkerText
  }

  /** The checker's verdict. A warning is shown exactly when there is enough
      input, all three effective colours are opaque, and the text or the link
      colour is not readable at level AA against the background, both judged
      at the same size class; its wording follows `MessageDirection`. */
  function Check(lib: Library, p: Props): (v: Verdict)
    ensures LacksInput(p) ==> v == NoWarning
    ensures v.Warning? ==>
              var c := EffectiveColors(lib, p);
              && c.background.alpha == 1.0 && c.text.alpha == 1.0 && c.link.alpha == 1.0
              && v.direction == MessageDirection(c.background, c.text, c.link)
    ensures !LacksInput(p) && !HasTransparency(EffectiveColors(lib, p)) ==>
              var c := EffectiveColors(lib, p);
              var size := TextSize(p.fontSize, p.isLargeText);
              (v == NoWarning <==>
                 lib.isReadableAA(c.text, c.background, size) && lib.isReadableAA(c.link, c.background, size))
  {
    if LacksInput(p) then NoWarning
    else
      var c := EffectiveColors(lib, p);
      var transparent := HasTransparency(c);
      var size := TextSize(p.fontSize, p.isLargeText);
      var textReadable := lib.isReadableAA(c.text, c.background, size);
      var linkReadable := lib.isReadableAA(c.link, c.background, size);
      if transparent || (textReadable && linkReadable) then NoWarning
      else Warning(MessageDirection(c.background, c.text, c.link))
  }
}
