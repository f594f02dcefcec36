/**
 * The font rules of cmd/root.go: how `run` collapses the `--mono`,
 * `--proportional` and `--font` flags into one family name, and which
 * family names `addFont` accepts.
 */
module Fonts {
  import opened Wrappers

  /** The error `addFont` returns for a name it does not know. */
  datatype FontError = UnsupportedFont(name: string)

  /** The three family names `addFont` has a font definition for. */
  predicate Supported(font: string)
  {
    font == "Courier" || font == "Helvetica" || font == "Arial"
  }

  /**
   * The switch of `addFont`: the font-definition file registered for a
   * supported family, and the "unsupported font" error for every other name.
   */
  function FontDefinition(font: string): (r: Result<string, FontError>)
    ensures r.Ok? <==> Supported(font)
    ensures r.Err? ==> r.error == UnsupportedFont(font)
    ensures font == "Courier" ==> r == Ok("courier.json")
    ensures font == "Helvetica" ==> r == Ok("helvetica_1.json")
    ensures font == "Arial" ==> r == Ok("arial_1.json")
  {
    if font == "Courier" then Ok("courier.json")
    else if font == "Helvetica" then Ok("helvetica_1.json")
    else if font == "Arial" then Ok("arial_1.json")
    else Err(UnsupportedFont(font))
  }

  /** Whether monospace is in effect once `--proportional` has overridden `--mono`. */
  predicate MonoInEffect(mono: bool, proportional: bool)
  {
    mono && !proportional
  }

  /**
   * The family name `run` leaves in the `font` global: monospace in effect
   * forces "Courier"; otherwise the default "Courier" becomes "Helvetica"
   * and any other name is kept.
   */
  function ResolvedFont(font: string, mono: bool, proportional: bool): (r: string)
    ensures MonoInEffect(mono, proportional) ==> r == "Courier"
    ensures !MonoInEffect(mono, proportional) ==> r != "Courier"
    ensures !MonoInEffect(mono, proportional) && font == "Courier" ==> r == "Helvetica"
    ensures !MonoInEffect(mono, proportional) && font != "Courier" ==> r == font
    ensures proportional ==> r != "Courier"
    ensures Supported(font) || MonoInEffect(mono, proportional) ==> Supported(r)
  {
    if MonoInEffect(mono, proportional) then "Courier"
    else if font == "Courier" then "Helvetica"
    else font
  }
}
