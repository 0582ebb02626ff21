/**
 * The options screen: the selectable modes and styles, the current choice
 * of each (practice and numbers unless told otherwise), and the start
 * button, which hands the choice to the parent.
 */
module GameOptions {
  import opened Wrappers
  import opened Models
  import opened Effects

  datatype Delegate = StartGame(mode: Mode, style: Style)

  datatype Action =
    | DelegateAction(delegate: Delegate)
    | SelectModeTapped(mode: Mode)
    | SelectStyleTapped(style: Style)
    | StartGameButtonTapped

  class Options {
    const availableModes: seq<Mode>
    const availableStyles: seq<Style>
    var selectedMode: Mode
    var selectedStyle: Style

    /** The options; the selection defaults to practice mode with numbers. */
    constructor (availableModes: seq<Mode>, availableStyles: seq<Style>,
                 selectedMode: Mode := Practice, selectedStyle: Style := Numbers)
      ensures this.availableModes == availableModes && this.availableStyles == availableStyles
      ensures this.selectedMode == selectedMode && this.selectedStyle == selectedStyle
    {
      this.availableModes := availableModes;
      this.availableStyles := availableStyles;
      this.selectedMode := selectedMode;
      this.selectedStyle := selectedStyle;
    }

    /** The start request for the current choice, sent at once. */
    function StartRequest(): (e: Effect<Action>)
      reads this
      ensures e.Send? && e.delayMs == 0 && e.cancelId == None
      ensures e.action.DelegateAction? && e.action.delegate.mode == selectedMode
      ensures e.action.delegate.style == selectedStyle
    {
      Send(0, DelegateAction(StartGame(selectedMode, selectedStyle)), None)
    }

    /**
     * Mode and style taps select what was tapped and leave the other choice
     * alone; re-selecting is a no-op. The start button changes nothing and
     * asks the parent to start a game with the current choice. Delegate
     * actions are for the parent.
     */
    method Reduce(action: Action) returns (effects: seq<Effect<Action>>)
      modifies this`selectedMode, this`selectedStyle
      ensures selectedMode == if action.SelectModeTapped? then action.mode else old(selectedMode)
      ensures selectedStyle == if action.SelectStyleTapped? then action.style else old(selectedStyle)
      ensures effects == if action.StartGameButtonTapped? then [StartRequest()] else []
    {
      match action
      case DelegateAction(_) =>
        effects := [];
      case SelectModeTapped(mode) =>
        if mode != selectedMode {
          selectedMode := mode;
        }
        effects := [];
      case SelectStyleTapped(style) =>
        if style != selectedStyle {
          selectedStyle := style;
        }
        effects := [];
      case StartGameButtonTapped =>
        effects := [StartRequest()];
    }
  }
}
