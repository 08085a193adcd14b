/** Properties of the contrast checker's verdict: how fallbacks, transparency,
    the size class and the two foreground roles enter it, and, for a library
    that follows WCAG 2.0, how it answers on concrete colours. */
module ContrastCheckerProperties {
  import opened ColorModel
  import opened Wcag
  import opened ContrastChecker

  /** An absent primary colour (`undefined`, `null` or `''`) with fallback `c`
      gives the same verdict as the primary colour `c`, in each of the three
      roles. */
  lemma FallbackSubstitution(lib: Library, p: Props, absent: Raw, c: Raw)
    requires !Truthy(absent) && Truthy(c)
    ensures Check(lib, p.(backgroundColor := absent, fallbackBackgroundColor := c))
            == Check(lib, p.(backgroundColor := c))
    ensures Check(lib, p.(textColor := absent, fallbackTextColor := c))
            == Check(lib, p.(textColor := c))
    ensures Check(lib, p.(linkColor := absent, fallbackLinkColor := c))
            == Check(lib, p.(linkColor := c))
  {
  }

  /** The verdict is a function of the effective raw colours, the font size and
      the flag: it never depends on whether a primary or a fallback supplied a
      colour. */
  lemma VerdictIgnoresColorSource(lib: Library, p: Props, q: Props)
    requires OrElse(p.backgroundColor, p.fallbackBackgroundColor)
             == OrElse(q.backgroundColor, q.fallbackBackgroundColor)
    requires OrElse(p.textColor, p.fallbackTextColor) == OrElse(q.textColor, q.fallbackTextColor)
    requires OrElse(p.linkColor, p.fallbackLinkColor) == OrElse(q.linkColor, q.fallbackLinkColor)
    requires p.fontSize == q.fontSize && p.isLargeText == q.isLargeText
    ensures Check(lib, p) == Check(lib, q)
  {
  }

  /** Once input is sufficient, only the parsed colours matter: two spellings
      that parse to the same colours (a hex code and a colour name, say) give
      the same verdict. */
  lemma VerdictDependsOnParsedColors(lib: Library, p: Props, q: Props)
    requires !LacksInput(p) && !LacksInput(q)
    requires EffectiveColors(lib, p) == EffectiveColors(lib, q)
    requires p.fontSize == q.fontSize && p.isLargeText == q.isLargeText
    ensures Check(lib, p) == Check(lib, q)
  {
  }

  /** Transparency silences the checker whatever the readability test says. */
  lemma TransparencyOverridesReadability(lib: Library, p: Props, readable: (Color, Color, Size) -> bool)
    requires HasTransparency(EffectiveColors(lib, p))
    ensures Check(lib.(isReadableAA := readable), p) == NoWarning
  {
  }

  /** The props with the text and the link colours (and their fallbacks)
      exchanged. */
  function SwapTextAndLink(p: Props): (q: Props)
    ensures q.textColor == p.linkColor && q.linkColor == p.textColor
    ensures q.fallbackTextColor == p.fallbackLinkColor && q.fallbackLinkColor == p.fallbackTextColor
    ensures q.(textColor := p.textColor, linkColor := p.linkColor,
               fallbackTextColor := p.fallbackTextColor, fallbackLinkColor := p.fallbackLinkColor) == p
  {
    p.(textColor := p.linkColor, linkColor := p.textColor,
       fallbackTextColor := p.fallbackLinkColor, fallbackLinkColor := p.fallbackTextColor)
  }

  /** Text and link are judged alike (against the same background, at the same
      level and size class, and both weigh in the wording), so when both a text
      and a link colour are given, exchanging the two roles leaves the verdict
      unchanged. (Only the text colour takes part in the bail-out, so without
      a link colour the roles are not interchangeable.) */
  lemma TextAndLinkInterchangeable(lib: Library, p: Props)
    requires Truthy(OrElse(p.textColor, p.fallbackTextColor))
    requires Truthy(OrElse(p.linkColor, p.fallbackLinkColor))
    ensures Check(lib, SwapTextAndLink(p)) == Check(lib, p)
  {
  }

  /** No link colour at all does not skip the link check: the library still
      parses the absent value, and when that colour is unreadable on the
      background a warning is shown although the text colour passes. */
  lemma AbsentLinkStillChecked(lib: Library, p: Props)
    requires !LacksInput(p) && !HasTransparency(EffectiveColors(lib, p))
    requires !Truthy(p.linkColor) && !Truthy(p.fallbackLinkColor)
    requires !lib.isReadableAA(lib.parse(p.fallbackLinkColor),
                               EffectiveColors(lib, p).background,
                               TextSize(p.fontSize, p.isLargeText))
    ensures Check(lib, p).Warning?
  {
  }

  /** With a library that follows WCAG, moving to the large size class (the
      flag set, or a font of at least 24 pixels) never adds a warning and
      never changes the wording of one. */
  lemma LargeTextNeverAddsWarning(lib: Library, p: Props, q: Props)
    requires FollowsWcag(lib)
    requires q == p.(fontSize := q.fontSize, isLargeText := q.isLargeText)
    requires TextSize(q.fontSize, q.isLargeText) == Large
    ensures Check(lib, q) == NoWarning || Check(lib, q) == Check(lib, p)
  {
  }

  /** With a library that follows WCAG, text whose luminance equals the
      background's always draws a warning once all colours are opaque. */
  lemma SameLuminanceTextWarns(lib: Library, p: Props)
    requires FollowsWcag(lib)
    requires !LacksInput(p) && !HasTransparency(EffectiveColors(lib, p))
    requires EffectiveColors(lib, p).text.luminance == EffectiveColors(lib, p).background.luminance
    ensures Check(lib, p).Warning?
  {
  }

  /** The large-text threshold on concrete colours: grey text (luminance
      0.278125, a contrast ratio of 3.2:1) on white passes at 24 pixels with the
      flag unset and fails at 23 pixels, where the wording asks for a brighter
      background and darker text. */
  lemma LargeTextThresholdExample(lib: Library, white: Raw, grey: Raw)
    requires FollowsWcag(lib) && Truthy(white) && Truthy(grey)
    requires lib.parse(white) == Color(1.0, 1.0, 1.0)
    requires lib.parse(grey) == Color(1.0, 0.55, 0.278125)
    ensures Check(lib, Props(white, Undefined, grey, Undefined, grey, Undefined, Some(24.0), Unset))
            == NoWarning
    ensures Check(lib, Props(white, Undefined, grey, Undefined, grey, Undefined, Some(23.0), Unset))
            == Warning(BrighterBackgroundDarkerText)
  {
  }

  /** Dark text on a black background fails, and since the background is the
      darker colour the wording asks for a darker background and brighter
      text; with a half-transparent background the same pair draws no warning. */
  lemma DarkPairExample(lib: Library, black: Raw, halfBlack: Raw, darkGrey: Raw)
    requires FollowsWcag(lib) && Truthy(black) && Truthy(halfBlack) && Truthy(darkGrey)
    requires lib.parse(black) == Color(1.0, 0.0, 0.0)
    requires lib.parse(halfBlack) == Color(0.5, 0.0, 0.0)
    requires lib.parse(darkGrey) == Color(1.0, 0.2, 0.033)
    ensures Check(lib, Props(black, Undefined, darkGrey, Undefined, darkGrey, Undefined, None, Unset))
            == Warning(DarkerBackgroundBrighterText)
    ensures Check(lib, Props(halfBlack, Undefined, darkGrey, Undefined, darkGrey, Undefined, None, Unset))
            == NoWarning
  {
  }
}
