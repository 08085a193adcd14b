/** The colour library the contrast checker calls into (colord, extended with its
    names and a11y plugins). The library's own code is not part of this model, so
    its parser and its readability test stay abstract: a `Library` value carries
    them as functions, and every result about the checker holds for every such
    library. The `Wcag` module gives the readability test its intended meaning. */
module ColorModel {

  /** A raw colour value as a caller passes it to the checker: `undefined`,
      `null`, a string in any notation the library parses, or an
      already-structured colour object. */
  datatype Raw = Undefined | Null | Str(text: string) | Object(id: nat)

  /** JavaScript truthiness of a raw colour value: `undefined`, `null` and the
      empty string are falsy, every other string and every object is truthy. */
  predicate Truthy(v: Raw)
    ensures Truthy(v) <==> v != Undefined && v != Null && v != Str("")
  {
    match v
    case Undefined => false
    case Null => false
    case Str(t) => t != ""
    case Object(_) => true
  }

  /** JavaScript `a || b` on raw colour values: the left operand when it is
      truthy, otherwise the right operand, whatever it is. */
  function OrElse(a: Raw, b: Raw): (r: Raw)
    ensures r == a || r == b
    ensures Truthy(r) <==> Truthy(a) || Truthy(b)
    ensures Truthy(a) ==> r == a
    ensures !Truthy(a) ==> r == b
  {
    if Truthy(a) then a else b
  }

  /** A parsed colour, reduced to what the checker asks of it: its alpha
      channel, its brightness (the cheap measure used to word the warning) and
      its WCAG relative luminance (the measure the readability test uses). */
  datatype Color = Color(alpha: real, brightness: real, luminance: real)

  /** The text-size class handed to the readability test. */
  datatype Size = Small | Large

  /** The library as the checker sees it. `parse` is total: the library never
      rejects a value, it yields some colour for every input, `undefined`
      included. `isReadableAA(fg, bg, size)` is the library's level-AA
      readability test of foreground `fg` on background `bg`. */
  datatype Library = Library(parse: Raw -> Color, isReadableAA: (Color, Color, Size) -> bool)
}
