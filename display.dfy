/**
 * Colours the list entries use: a key looked up in the active theme's
 * palette (`Colors[theme].success`, `.danger`, `.tint`) or a fixed hex code.
 */
module Display {
  import Theme

  datatype Color = Success | Danger | Tint | Hex(code: string)

  /** What a colour comes to once the palette lookup is done: a hex code, `undefined`, or a thrown `TypeError`. */
  datatype Rendered = Shown(hex: string) | Undefined | TypeError

  /**
   * The palette lookup of `constants/theme.ts`. It defines `tint` for the
   * 'light' and 'dark' themes but no `success` or `danger` key, so those two
   * come out `undefined`; any other theme string has no palette at all, and
   * reading a key of it throws.
   */
  function Render(c: Color, theme: string): (r: Rendered)
    ensures c.Hex? ==> r == Shown(c.code)
    ensures !c.Hex? && theme != Theme.Light && theme != Theme.Dark ==> r == TypeError
    ensures theme == Theme.Light || theme == Theme.Dark ==> (r == Undefined <==> c == Success || c == Danger)
    ensures c == Tint && theme == Theme.Light ==> r == Shown("#2563EB")
    ensures c == Tint && theme == Theme.Dark ==> r == Shown("#60A5FA")
  {
    match c
    case Hex(code) => Shown(code)
    case _ =>
      if theme != Theme.Light && theme != Theme.Dark then TypeError
      else if c == Tint then (if theme == Theme.Light then Shown("#2563EB") else Shown("#60A5FA"))
      else Undefined
  }
}
