/**
 * The card style section of the options screen: a titled list of styles with
 * one of them selected. Tapping a style selects it; the section does not
 * check that the style is among the ones it lists.
 */
module GameStyleSection {
  import opened Models
  import opened Effects

  datatype Action = SelectStyleTapped(style: Style)

  class Section {
    const title: string
    /** The section's height in points. */
    const height: real
    const availableStyles: seq<Style>
    var selectedStyle: Style

    /** A section; its height defaults to 140 points. */
    constructor (title: string, availableStyles: seq<Style>, selectedStyle: Style, height: real := 140.0)
      ensures this.title == title && this.height == height
      ensures this.availableStyles == availableStyles && this.selectedStyle == selectedStyle
    {
      this.title := title;
      this.height := height;
      this.availableStyles := availableStyles;
      this.selectedStyle := selectedStyle;
    }

    /**
     * Selects the tapped style, listed or not; re-selecting the current one
     * changes nothing. No effect.
     */
    method Reduce(action: Action) returns (effects: seq<Effect<Action>>)
      modifies this`selectedStyle
      ensures selectedStyle == action.style
      ensures old(selectedStyle) == action.style ==> selectedStyle == old(selectedStyle)
      ensures effects == []
    {
      match action
      case SelectStyleTapped(style) =>
        if style != selectedStyle {
          selectedStyle := style;
        }
        effects := [];
    }
  }
}
