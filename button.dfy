/** The push / toggle button widget. A button owns two pieces of state that
    input changes: a latched `clicked` flag, which `Clicked` reads and clears
    (the plugin's controller never calls it), and an optional toggle state,
    present exactly for toggle buttons.

    The input behaviour is given twice: as a pure transition function on the
    two fields (`React`, `Apply`, `Perform`), about which the properties are
    proved, and as the class `Button`, whose methods update the fields in
    place and are proved to follow the transition function. */
module ButtonWidget {
  import opened Toolkit

  /** The two fields of a button that input changes. */
  datatype ButtonState = ButtonState(clicked: bool, toggle: Option<bool>)

  /** The effect of handing one event to a button: its new fields, whether it
      consumed the event, and whether it asked the toolkit for a repaint. */
  datatype Reaction = Reaction(next: ButtonState, disposition: Disposition, repaint: bool)

  /** A mouse release flips the state of a toggle button; a plain button has
      no state to flip and stays plain. */
  function Flip(t: Option<bool>): (r: Option<bool>)
    ensures r.Some? <==> t.Some?
    ensures r.Some? ==> r.value == !t.value
  {
    match t
    case None => None
    case Some(b) => Some(!b)
  }

  /** Setting the toggle state from outside: a toggle button takes the new
      state, a plain button ignores it. */
  function Overwrite(t: Option<bool>, newState: bool): (r: Option<bool>)
    ensures r.Some? <==> t.Some?
    ensures r.Some? ==> r.value == newState
  {
    if t.Some? then Some(newState) else None
  }

  /** How a button with fields `s` handles the event `ev`. */
  function React(s: ButtonState, ev: EventType): Reaction
  {
    match ev
    case MouseMove => Reaction(s, Processed, false)
    case MouseButtonRelease =>
      Reaction(ButtonState(true, Flip(s.toggle)), Processed, s.toggle.Some?)
    case KeyRelease(k) =>
      Reaction(s, if TryChar(k) == Some(' ') then Processed else NotProcessed, false)
    case _ => Reaction(s, NotProcessed, false)
  }

  lemma ReleaseSetsClicked(s: ButtonState)
    ensures React(s, MouseButtonRelease).next.clicked
    ensures React(s, MouseButtonRelease).disposition == Processed
  {
  }

  lemma ReleaseFlipsToggle(s: ButtonState)
    ensures s.toggle.Some? ==> React(s, MouseButtonRelease).next.toggle == Some(!s.toggle.value)
    ensures s.toggle.None? ==> React(s, MouseButtonRelease).next.toggle == None
    ensures React(s, MouseButtonRelease).repaint <==> s.toggle.Some?
  {
  }

  lemma ReleaseTwiceRestoresToggle(s: ButtonState)
    ensures React(React(s, MouseButtonRelease).next, MouseButtonRelease).next.toggle == s.toggle
  {
  }

  lemma MouseMoveIsInert(s: ButtonState)
    ensures React(s, MouseMove) == Reaction(s, Processed, false)
  {
  }

  /** Space is consumed, every other key release is passed on; neither changes
      the button (space does not toggle). */
  lemma KeyReleaseOnlySpace(s: ButtonState, k: Key)
    ensures React(s, KeyRelease(k)).next == s
    ensures !React(s, KeyRelease(k)).repaint
    ensures React(s, KeyRelease(k)).disposition == Processed <==> k == Character(' ')
  {
  }

  lemma OtherEventsPassedOn(s: ButtonState, ev: EventType)
    requires !ev.MouseMove? && !ev.MouseButtonRelease? && !ev.KeyRelease?
    ensures React(s, ev) == Reaction(s, NotProcessed, false)
  {
  }

  /** Everything that can happen to a button's fields: an input event, a write
      of its toggle state through `SetToggleState`, or a read of its `clicked`
      flag through `Clicked`, which clears it. */
  datatype Action = Deliver(ev: EventType) | SetToggle(newState: bool) | ReadClicked

  function Apply(s: ButtonState, a: Action): ButtonState
  {
    match a
    case Deliver(ev) => React(s, ev).next
    case SetToggle(b) => ButtonState(s.clicked, Overwrite(s.toggle, b))
    case ReadClicked => ButtonState(false, s.toggle)
  }

  /** The fields after the actions `acts`, in order. */
  function Perform(s: ButtonState, acts: seq<Action>): ButtonState
    decreases |acts|
  {
    if acts == [] then s else Perform(Apply(s, acts[0]), acts[1..])
  }

  /** Nothing turns a plain button into a toggle button or a toggle button into
      a plain one. */
  lemma {:induction false} KindIsPermanent(s: ButtonState, acts: seq<Action>)
    ensures Perform(s, acts).toggle.Some? <==> s.toggle.Some?
    decreases |acts|
  {
    if acts != [] {
      KindIsPermanent(Apply(s, acts[0]), acts[1..]);
    }
  }

  /** Once the flag has been read, it stays clear until the next mouse release. */
  lemma {:induction false} NoReleaseNoClick(s: ButtonState, acts: seq<Action>)
    requires !s.clicked
    requires forall i :: 0 <= i < |acts| ==> acts[i] != Deliver(MouseButtonRelease)
    ensures !Perform(s, acts).clicked
    decreases |acts|
  {
    if acts != [] {
      NoReleaseNoClick(Apply(s, acts[0]), acts[1..]);
    }
  }

  /** The number of mouse releases among `acts`. */
  function Releases(acts: seq<Action>): nat
    decreases |acts|
  {
    if acts == [] then 0
    else (if acts[0] == Deliver(MouseButtonRelease) then 1 else 0) + Releases(acts[1..])
  }

  /** Without outside interference, a toggle button flips exactly once per
      mouse release: its final state is the initial one exactly when the
      number of releases is even. */
  lemma {:induction false} ToggleFollowsReleaseParity(s: ButtonState, acts: seq<Action>)
    requires s.toggle.Some?
    requires forall i :: 0 <= i < |acts| ==> !acts[i].SetToggle?
    ensures Perform(s, acts).toggle ==
            Some(if Releases(acts) % 2 == 0 then s.toggle.value else !s.toggle.value)
    decreases |acts|
  {
    if acts != [] {
      ToggleFollowsReleaseParity(Apply(s, acts[0]), acts[1..]);
    }
  }

  class Button {
    const text: string
    /** The pixel size of the rendered label, which is the button's minimum size. */
    const minSize: Size
    var clicked: bool
    var toggleState: Option<bool>
    /** How many times the button has asked the toolkit for a repaint. */
    var repaintRequests: nat

    function State(): ButtonState
      reads this
    {
      ButtonState(clicked, toggleState)
    }

    /** A plain button labelled `text`; `textSize` is the label's measured pixel size. */
    constructor (text: string, textSize: Size)
      ensures this.text == text && minSize == textSize
      ensures !clicked && toggleState == None && repaintRequests == 0
    {
      this.text := text;
      minSize := textSize;
      clicked := false;
      toggleState := None;
      repaintRequests := 0;
    }

    constructor NewToggleButton(text: string, textSize: Size, toggleState: bool)
      ensures this.text == text && minSize == textSize
      ensures !clicked && this.toggleState == Some(toggleState) && repaintRequests == 0
    {
      this.text := text;
      minSize := textSize;
      clicked := false;
      this.toggleState := Some(toggleState);
      repaintRequests := 0;
    }

    method Event(ev: EventType) returns (d: Disposition)
      modifies this
      ensures State() == React(old(State()), ev).next
      ensures d == React(old(State()), ev).disposition
      ensures repaintRequests ==
              old(repaintRequests) + if React(old(State()), ev).repaint then 1 else 0
    {
      match ev {
        case MouseMove =>
          d := Processed;
        case MouseButtonRelease =>
          clicked := true;
          if toggleState.Some? {
            repaintRequests := repaintRequests + 1;
          }
          toggleState := Flip(toggleState);
          d := Processed;
        case KeyRelease(k) =>
          match TryChar(k) {
            case Some(c) => d := if c == ' ' then Processed else NotProcessed;
            case None => d := NotProcessed;
          }
        case _ =>
          d := NotProcessed;
      }
    }

    /** Reads the latched flag and clears it. */
    method Clicked() returns (wasClicked: bool)
      modifies this`clicked
      ensures wasClicked == old(clicked) && !clicked
      ensures State() == Apply(old(State()), ReadClicked)
    {
      wasClicked := clicked;
      clicked := false;
    }

    function ToggleState(): Option<bool>
      reads this
    {
      toggleState
    }

    method SetToggleState(newState: bool)
      modifies this`toggleState
      ensures toggleState == Overwrite(old(toggleState), newState)
      ensures State() == Apply(old(State()), SetToggle(newState))
    {
      if toggleState.Some? {
        toggleState := Some(newState);
      }
    }

    function MinSize(): Size
      reads this
    {
      minSize
    }

    /** A button always accepts keyboard focus. */
    function TakesFocus(): (r: bool)
      ensures r
    {
      true
    }
  }
}
