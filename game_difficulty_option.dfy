/**
 * The difficulty section of the options screen: a titled list of difficulties with
 * one of them selected. Tapping a difficulty selects it; the section does not
 * check that the difficulty is among the ones it lists.
 */
module GameDifficultySection {
  import opened Models
  import opened Effects

  datatype Action = SelectDifficultyTapped(difficulty: Difficulty)

  class Section {
    const title: string
    /** The section's height in points. */
    const height: real
    const availableOptions: seq<Difficulty>
    var selectedOption: Difficulty

    /** A section; its height defaults to 140 points. */
    constructor (title: string, availableOptions: seq<Difficulty>, selectedOption: Difficulty, height: real := 140.0)
      ensures this.title == title && this.height == height
      ensures this.availableOptions == availableOptions && this.selectedOption == selectedOption
    {
      this.title := title;
      this.height := height;
      this.availableOptions := availableOptions;
      this.selectedOption := selectedOption;
    }

    /**
     * Selects the tapped difficulty, listed or not; re-selecting the current one
     * changes nothing. No effect.
     */
    method Reduce(action: Action) returns (effects: seq<Effect<Action>>)
      modifies this`selectedOption
      ensures selectedOption == action.difficulty
      ensures old(selectedOption) == action.difficulty ==> selectedOption == old(selectedOption)
      ensures effects == []
    {
      match action
      case SelectDifficultyTapped(difficulty) =>
        if difficulty != selectedOption {
          selectedOption := difficulty;
        }
        effects := [];
    }
  }
}
