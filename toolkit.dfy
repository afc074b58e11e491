/** The vocabulary the widgets share with the widget toolkit they are written
    against: optional values, key values, the kinds of input event a widget is
    handed, whether a widget consumed an event, and widget sizes. Only what the
    widgets of this plugin inspect is modelled; everything the toolkit does
    with these values (dispatch, focus, layout) stays on the toolkit's side. */
module Toolkit {

  datatype Option<+T> = None | Some(value: T)

  /** A key as the toolkit reports it: either one that stands for a character,
      or a non-character key (arrows, modifiers, function keys, ...). */
  datatype Key = Character(c: char) | Special(code: nat)

  /** The kinds of event the widgets tell apart. `Other` stands for every event
      kind no widget of this plugin looks at (expose, scroll, enter, leave,
      focus changes, ...). */
  datatype EventType =
    | MouseMove
    | MouseButtonPress
    | MouseButtonRelease
    | KeyPress(key: Key)
    | KeyRelease(key: Key)
    | Other

  /** Whether a widget consumed an event or hands it back to the toolkit to be
      passed on. */
  datatype Disposition = Processed | NotProcessed

  datatype Size = Size(w: real, h: real)

  /** The character a key stands for, if it stands for one. */
  function TryChar(k: Key): (r: Option<char>)
    ensures r.Some? <==> k.Character?
    ensures r.Some? ==> r.value == k.c
  {
    match k
    case Character(c) => Some(c)
    case Special(_) => None
  }
}
