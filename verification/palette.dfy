/** The brand palette: five named colour roles, fixed for the whole run. */
module Palette {

  datatype Colors = Colors(primary: string, secondary: string, accent: string, background: string, text: string)

  /** The pride-theme palette every template paints with. */
  const BRAND_COLORS: Colors := Colors("#732982", "#ff69b4", "#0078d4", "#ffffff", "#0a0a0a")

  /** Opaque white, used for the glyphs drawn over the gradient. */
  const WHITE: string := "white"
}
