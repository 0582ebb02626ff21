/**
 * The game mode section of the options screen: a titled list of modes with
 * one of them selected. Tapping a mode selects it; the section does not
 * check that the mode is among the ones it lists.
 */
module GameModeSection {
  import opened Models
  import opened Effects

  datatype Action = SelectModeTapped(mode: Mode)

  class Section {
    const title: string
    /** The section's height in points. */
    const height: real
    const availableModes: seq<Mode>
    var selectedMode: Mode

    /** A section; its height defaults to 140 points. */
    constructor (title: string, availableModes: seq<Mode>, selectedMode: Mode, height: real := 140.0)
      ensures this.title == title && this.height == height
      ensures this.availableModes == availableModes && this.selectedMode == selectedMode
    {
      this.title := title;
      this.height := height;
      this.availableModes := availableModes;
      this.selectedMode := selectedMode;
    }

    /**
     * Selects the tapped mode, listed or not; re-selecting the current one
     * changes nothing. No effect.
     */
    method Reduce(action: Action) returns (effects: seq<Effect<Action>>)
      modifies this`selectedMode
      ensures selectedMode == action.mode
      ensures old(selectedMode) == action.mode ==> selectedMode == old(selectedMode)
      ensures effects == []
    {
      match action
      case SelectModeTapped(mode) =>
        if mode != selectedMode {
          selectedMode := mode;
        }
        effects := [];
    }
  }
}
