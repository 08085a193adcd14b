/** The contrast requirement of WCAG 2.0, success criterion 1.4.3 (level AA),
    which the library's readability test implements. It serves as the reference
    that gives `Library.isReadableAA` a meaning in the lemmas that need one. */
module Wcag {
  import opened ColorModel

  /** The least contrast ratio level AA accepts: 4.5:1 for normal text and 3:1
      for large text. */
  function MinimumRatio(size: Size): (t: real)
    ensures 3.0 <= t <= 4.5
    ensures size == Large <==> t < 4.5
    ensures size == Small ==> t == 4.5
    ensures size == Large ==> t == 3.0
  {
    match size
    case Small => 4.5
    case Large => 3.0
  }

  /** A colour the library can produce: channels and luminance in [0, 1]. */
  predicate WellFormed(c: Color) {
    0.0 <= c.alpha <= 1.0 && 0.0 <= c.brightness <= 1.0 && 0.0 <= c.luminance <= 1.0
  }

  function Lighter(a: Color, b: Color): real {
    if a.luminance < b.luminance then b.luminance else a.luminance
  }

  function Darker(a: Color, b: Color): real {
    if a.luminance < b.luminance then a.luminance else b.luminance
  }

  /** The WCAG contrast ratio (L1 + 0.05) / (L2 + 0.05), L1 the lighter and L2
      the darker relative luminance. */
  function ContrastRatio(a: Color, b: Color): (r: real)
    requires 0.0 <= a.luminance && 0.0 <= b.luminance
  {
    (Lighter(a, b) + 0.05) / (Darker(a, b) + 0.05)
  }

  /** Level-AA readability of `fg` on `bg`, stated without a division so that it
      is defined for every colour; `ReadableIsRatioTest` shows it is the ratio
      test for every well-formed pair. */
  predicate Readable(fg: Color, bg: Color, size: Size) {
    Lighter(fg, bg) + 0.05 >= MinimumRatio(size) * (Darker(fg, bg) + 0.05)
  }

  /** The library follows the reference: every colour it parses is well
      formed, and its readability test agrees with WCAG on well-formed colours. */
  ghost predicate FollowsWcag(lib: Library) {
    && (forall v :: WellFormed(lib.parse(v)))
    && (forall fg, bg, size | WellFormed(fg) && WellFormed(bg) ::
          lib.isReadableAA(fg, bg, size) == Readable(fg, bg, size))
  }

  /** The contrast ratio lies between 1:1 (the same luminance) and 21:1 (black
      on white), and does not depend on which colour is the foreground. */
  lemma ContrastRatioBounds(a: Color, b: Color)
    requires WellFormed(a) && WellFormed(b)
    ensures 1.0 <= ContrastRatio(a, b) <= 21.0
    ensures ContrastRatio(a, b) == ContrastRatio(b, a)
  {
    var hi, lo := Lighter(a, b) + 0.05, Darker(a, b) + 0.05;
    QuotientAtLeast(hi, lo, 1.0);
    QuotientAtLeast(hi, lo, 21.0);
  }

  /** `Readable` is exactly "contrast ratio at least the level-AA minimum". */
  lemma ReadableIsRatioTest(fg: Color, bg: Color, size: Size)
    requires WellFormed(fg) && WellFormed(bg)
    ensures Readable(fg, bg, size) <==> ContrastRatio(fg, bg) >= MinimumRatio(size)
  {
    QuotientAtLeast(Lighter(fg, bg) + 0.05, Darker(fg, bg) + 0.05, MinimumRatio(size));
  }

  /** Large text needs less contrast: whatever is readable as normal text is
      readable as large text. */
  lemma ReadableSmallImpliesLarge(fg: Color, bg: Color)
    requires WellFormed(fg) && WellFormed(bg)
    requires Readable(fg, bg, Small)
    ensures Readable(fg, bg, Large)
  {
  }

  /** A colour never reaches the level-AA minimum against itself or against any
      colour of the same luminance. */
  lemma SameLuminanceUnreadable(fg: Color, bg: Color, size: Size)
    requires WellFormed(fg) && WellFormed(bg)
    requires fg.luminance == bg.luminance
    ensures !Readable(fg, bg, size)
  {
  }

  /** Comparing a quotient with a bound is comparing the numerator with the
      bound scaled by the (positive) denominator. */
  lemma QuotientAtLeast(n: real, d: real, t: real)
    requires d > 0.0
    ensures n / d >= t <==> n >= t * d
  {
  }
}
