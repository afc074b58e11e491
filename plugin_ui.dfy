/** The plugin user interface: the controller that the host drives. It maps the
    host's port indices to the two control ports (gain and enabled), hands the
    host its UI descriptor, owns the root widget (which turns the Tab key into
    a "move focus to the next widget" request) and, once per idle tick and on
    every port update from the host, copies values between the ports and the
    gain dial and enable button.

    Port registers are modelled as the last value the UI wrote into them; the
    dial (whose source is not part of this model) is modelled by the value it
    reports as changed, a parameter of `Idle`, and by the last value written
    into it. */
module PluginUi {
  import opened Toolkit
  import ButtonWidget

  newtype u32 = x: int | 0 <= x < 0x1_0000_0000

  /** The two control ports of the plugin. */
  datatype Port = GainPort | EnabledPort

  /** Which control port a host port index refers to. */
  function PortMap(portIndex: u32): (r: Option<Port>)
    ensures r == Some(GainPort) <==> portIndex == 0
    ensures r == Some(EnabledPort) <==> portIndex == 1
    ensures r == None <==> portIndex >= 2
  {
    match portIndex
    case 0 => Some(GainPort)
    case 1 => Some(EnabledPort)
    case _ => None
  }

  const PluginUiUri: string := "https://johannes-mueller.org/lv2/ampmeter-rs#ui"

  /** The descriptor the host finds the UI by; the entry points it carries are
      not modelled. */
  datatype Descriptor = Descriptor(uri: string)

  /** The library offers exactly one UI, at index 0; every other index gives
      no descriptor (a null pointer). */
  function Lv2uiDescriptor(index: u32): (r: Option<Descriptor>)
    ensures r.Some? <==> index == 0
    ensures r.Some? ==> r.value.uri == PluginUiUri
  {
    match index
    case 0 => Some(Descriptor(PluginUiUri))
    case _ => None
  }

  /** The enable button's state as the UI writes it into the enabled port. */
  function EncodeToggle(b: bool): real
  {
    if b then 1.0 else 0.0
  }

  /** A value of the enabled port as the UI reads it back. */
  function DecodeToggle(v: real): bool
  {
    v > 0.5
  }

  lemma ToggleRoundTrip(b: bool)
    ensures DecodeToggle(EncodeToggle(b)) == b
  {
  }

  /** Reading back tolerates any drift of less than one half from the value written. */
  lemma DecodeToleratesDrift(b: bool, v: real)
    requires -0.5 < v - EncodeToggle(b) < 0.5
    ensures DecodeToggle(v) == b
  {
  }

  /** When the host echoes back the value the UI wrote for a toggle button, the
      button keeps its state. */
  lemma EchoKeepsToggleState(t: Option<bool>)
    requires t.Some?
    ensures ButtonWidget.Overwrite(t, DecodeToggle(EncodeToggle(t.value))) == t
  {
  }

  /** The three arguments the gain dial is made with. The dial's source is not
      part of this model, so the names of the fields (range and step) are an
      assumed reading of those arguments. */
  datatype DialSpec = DialSpec(min: real, max: real, step: real)

  /** The widget at the root of the layout. */
  class RootWidget {
    /** Latched when Tab is pressed; read and cleared by the controller. */
    var focusNext: bool

    /** The root widget its factory makes. */
    constructor ()
      ensures !focusNext
    {
      focusNext := false;
    }

    method Event(ev: EventType) returns (d: Disposition)
      modifies this`focusNext
      ensures d == Processed <==> ev == KeyPress(Character('\t'))
      ensures focusNext == (old(focusNext) || d == Processed)
    {
      d := NotProcessed;
      if ev.KeyPress? {
        match TryChar(ev.key) {
          case Some(c) =>
            if c == '\t' {
              focusNext := true;
              d := Processed;
            }
          case None =>
        }
      }
    }

    /** Reads the latch and clears it. */
    method FocusNext() returns (f: bool)
      modifies this`focusNext
      ensures f == old(focusNext) && !focusNext
    {
      f := focusNext;
      focusNext := false;
    }
  }

  class AmpUi {
    const root: RootWidget
    const gainDial: DialSpec
    const enableBtn: ButtonWidget.Button
    /** The last value the UI wrote into each port, if any. */
    var gainPort: Option<real>
    var enabledPort: Option<real>
    /** The last value the UI wrote into the gain dial, if any. */
    var dialValue: Option<real>
    /** How many times the UI has moved the keyboard focus on. */
    var focusMoves: nat

    /** A new UI: the gain dial and an enable toggle button that starts off.
        `enableTextSize` is the measured pixel size of the button's label. */
    constructor (enableTextSize: Size)
      ensures fresh(root) && fresh(enableBtn)
      ensures !root.focusNext
      ensures gainDial == DialSpec(-90.0, 24.0, 1.0)
      ensures enableBtn.text == "enable"
      ensures enableBtn.toggleState == Some(false) && !enableBtn.clicked
      ensures enableBtn.minSize == enableTextSize && enableBtn.repaintRequests == 0
      ensures gainPort == None && enabledPort == None && dialValue == None
      ensures focusMoves == 0
    {
      root := new RootWidget();
      gainDial := DialSpec(-90.0, 24.0, 1.0);
      enableBtn := new ButtonWidget.Button.NewToggleButton("enable", enableTextSize, false);
      gainPort, enabledPort, dialValue := None, None, None;
      focusMoves := 0;
    }

    /** One idle tick. `dialChange` is what the gain dial reports as its
        changed value since the last tick. */
    method Idle(dialChange: Option<real>) returns (status: int)
      modifies this`gainPort, this`enabledPort, this`focusMoves, root`focusNext
      ensures status == 0
      ensures !root.focusNext
      ensures focusMoves == old(focusMoves) + if old(root.focusNext) then 1 else 0
      ensures gainPort == if dialChange.Some? then dialChange else old(gainPort)
      ensures enabledPort ==
              if enableBtn.toggleState.Some?
              then Some(EncodeToggle(enableBtn.toggleState.value))
              else old(enabledPort)
    {
      var moveFocus := root.FocusNext();
      if moveFocus {
        focusMoves := focusMoves + 1;
      }
      if dialChange.Some? {
        gainPort := Some(dialChange.value);
      }
      var t := enableBtn.ToggleState();
      if t.Some? {
        enabledPort := Some(EncodeToggle(t.value));
      }
      status := 0;
    }

    /** The host has updated ports: `gainIn` and `enabledIn` are the new port
        values, for the ports that report one. */
    method Update(gainIn: Option<real>, enabledIn: Option<real>)
      modifies this`dialValue, enableBtn`toggleState
      ensures dialValue == if gainIn.Some? then gainIn else old(dialValue)
      ensures enableBtn.toggleState ==
              if enabledIn.Some?
              then ButtonWidget.Overwrite(old(enableBtn.toggleState), DecodeToggle(enabledIn.value))
              else old(enableBtn.toggleState)
    {
      if gainIn.Some? {
        dialValue := Some(gainIn.value);
      }
      if enabledIn.Some? {
        enableBtn.SetToggleState(DecodeToggle(enabledIn.value));
      }
    }
  }
}
