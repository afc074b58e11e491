# ampmeter-rs UI: a Dafny model

This project models the logic inside the graphical user interface of the
`ampmeter-rs` LV2 audio plugin. The UI is built from a few custom widgets on
top of an external widget toolkit (pugl_ui), and it is drawn with Cairo and
Pango. Under the drawing and the foreign calls there are three small pieces of
sequential logic, and this project models them:

- **The button** (`src/button.rs`, module `ButtonWidget`). A button has a
  latched `clicked` flag and an optional toggle state, which only toggle
  buttons have. Input events change these two fields, and each event is
  either consumed or passed back to the toolkit. `clicked()` reads and clears
  the flag; nothing in `src/lib.rs` calls it. The controller can overwrite
  the state of a toggle button through `set_toggle_state`. The
  behaviour is written twice. The pure transition functions (`React`, `Apply`,
  `Perform`) carry the properties. `ButtonWidget.Button` is a class whose
  methods update the fields in place, and each method is proved to follow
  those functions. The getters `Button.ToggleState` (`toggle_state`,
  src/button.rs:131-133) and `Button.MinSize` (`min_size`, src/button.rs:83)
  return the toggle state field and the measured label size.
- **The level meter** (`src/meter.rs`, module `MeterWidget`). `SetValue`
  clamps the level into the meter's range. `Exposed` draws the bar in three
  zones, from the top down: red above 0, yellow above -18, green down to the
  minimum. Each zone is drawn by `DrawBarPart`, which hands on the level capped
  at its lower limit. Levels are reals. Each drawn rectangle is modelled by the
  range of levels it covers.
- **The controller** (`src/lib.rs`, module `PluginUi`). The module maps port
  index 0 to the gain port and 1 to the enabled port, and it gives the UI
  descriptor only for index 0. The root widget turns a Tab key press into a
  "focus next" latch, which is read and cleared. On each idle tick the
  controller copies the dial's changed value into the gain port and the
  button's toggle state into the enabled port (true is 1.0, false is 0.0). On
  an update from the host it copies the port values back into the dial and
  the button (a value above 0.5 means true).

Module `Toolkit` holds the toolkit terms that the widgets inspect: events,
keys, consumed or passed on, and sizes.

Calls into the toolkit are modelled as effects:
- `ask_for_repaint` increments a per-widget `repaintRequests` counter.
- `focus_next_widget` increments the controller's `focusMoves` counter.
- `event_processed!` / `event_not_processed!` followed by `pass_event` become
  the `Disposition` a widget returns.
- The port registers are modelled as the last value the UI wrote into them.
- The dial's `changed_value()` is a parameter of `Idle`.
- The ports' `value()` results are parameters of `Update`.
- The pixel size Pango measures for a button label is a constructor parameter.

`src/meter.rs` is not declared as a module in `src/lib.rs`, which wires only
the dial and the button (src/lib.rs:14-15, 70-71). So the meter is modelled on
its own and is not part of the controller. The meter keeps its level in a
field that `set_value` updates (src/meter.rs:11, 68-75).

## Model

| member | source | states |
|---|---|---|
| ButtonWidget.Flip | src/button.rs:63-66 | a mouse release flips a present toggle state and leaves an absent one absent |
| ButtonWidget.Overwrite | src/button.rs:135-139 | setting the toggle state gives the new state to a toggle button and leaves a plain button plain |
| ButtonWidget.ReleaseSetsClicked | src/button.rs:61-68 | a mouse release always latches `clicked` and is consumed, whatever the toggle state |
| ButtonWidget.ReleaseFlipsToggle | src/button.rs:63-66 | on release, `Some(b)` becomes `Some(!b)` with a repaint request; `None` stays `None` with no repaint |
| ButtonWidget.ReleaseTwiceRestoresToggle | src/button.rs:63-66 | two releases in a row give back the original toggle state |
| ButtonWidget.MouseMoveIsInert | src/button.rs:58-60 | a mouse move is consumed and changes neither field and asks for no repaint |
| ButtonWidget.KeyReleaseOnlySpace | src/button.rs:70-79 | a key release is consumed exactly when the key is the space character; no key release changes the button |
| ButtonWidget.OtherEventsPassedOn | src/button.rs:80 | every other event kind is passed on and changes nothing |
| ButtonWidget.KindIsPermanent | src/button.rs:56-139 | over any sequence of events, toggle-state writes and flag reads, a plain button stays plain and a toggle button stays a toggle button |
| ButtonWidget.NoReleaseNoClick | src/button.rs:125-129 | once the flag is clear it stays clear until the next mouse release, so a second read with no release in between gives false |
| ButtonWidget.ToggleFollowsReleaseParity | src/button.rs:61-66 | without outside writes, a toggle button flips exactly once per release: its final state is its initial one exactly when the number of releases is even |
| ButtonWidget.Button.constructor | src/button.rs:101-122 | a new button is plain, not clicked, and keeps its label and measured size |
| ButtonWidget.Button.NewToggleButton | src/button.rs:95-99 | a new toggle button starts with the given state and not clicked |
| ButtonWidget.Button.Event | src/button.rs:56-82 | the fields, the returned disposition and the repaint requests follow `React` |
| ButtonWidget.Button.Clicked | src/button.rs:125-129 | returns the flag and leaves it false; nothing else changes |
| ButtonWidget.Button.SetToggleState | src/button.rs:135-139 | overwrites the state of a toggle button and is a no-op on a plain one; nothing else changes |
| ButtonWidget.Button.TakesFocus | src/button.rs:91 | a button always accepts keyboard focus |
| MeterWidget.DrawBarPart | src/meter.rs:16-31 | draws only when the level is above the lower limit, then covers the levels from the limit up to the level; always returns the smaller of level and limit |
| MeterWidget.Clamp | src/meter.rs:69-73 | with min at most max the result lies in [min, max] and equals the input when it is already in range; below min gives min, above max gives max |
| MeterWidget.ClampIsIdempotent | src/meter.rs:69-73 | clamping a clamped level changes nothing |
| MeterWidget.ClampIsMonotone | src/meter.rs:69-73 | clamping keeps the order of levels |
| MeterWidget.Meter.MakeWidget | src/meter.rs:80-90 | a new meter has width 25, the factory's range, its level at the minimum, and minimum size 25 by 50 |
| MeterWidget.Meter.MinSize | src/meter.rs:55-57 | the meter asks for its width and twice its width in height |
| MeterWidget.Meter.SetValue | src/meter.rs:68-75 | the stored level is the clamped input, so it lies in [min, max] and equals the input when in range; one repaint is requested; only the level and the repaint count change, so setting the same value twice gives the same level as once |
| MeterWidget.Meter.Exposed | src/meter.rs:35-47 | red is drawn iff level > 0, yellow iff min(level, 0) > -18, green iff min(level, 0, -18) > min, with the spans they cover; no level is drawn twice; with min at most -18 the bar covers exactly the levels above min up to the level |
| PluginUi.PortMap | src/lib.rs:45-51 | index 0 is the gain port, 1 the enabled port, every other index no port |
| PluginUi.Lv2uiDescriptor | src/lib.rs:163-169 | a descriptor, carrying the UI's URI, exactly for index 0; every other index gives none |
| PluginUi.ToggleRoundTrip | src/lib.rs:134-147 | a toggle state written by `Idle` and read back by `Update` gives the same boolean |
| PluginUi.DecodeToleratesDrift | src/lib.rs:145-147 | a port value within one half of the written encoding reads back as the same boolean |
| PluginUi.EchoKeepsToggleState | src/lib.rs:134-147 | when the host echoes the enabled value back, the toggle button keeps its state |
| PluginUi.RootWidget.constructor | src/lib.rs:215-222 | the focus-next latch starts clear |
| PluginUi.RootWidget.Event | src/lib.rs:191-204 | consumed exactly for a Tab key press, which sets the latch; every other event is passed on and leaves the latch alone |
| PluginUi.RootWidget.FocusNext | src/lib.rs:207-212 | returns the latch and clears it |
| PluginUi.AmpUi.constructor | src/lib.rs:65-91 | the UI starts with a gain dial made with `dial::new(-90, 24, 1)`, an "enable" toggle button that is off and not clicked, and a clear focus latch; the button has the measured label size and has made no repaint requests |
| PluginUi.AmpUi.Idle | src/lib.rs:122-139 | moves focus once exactly when the latch was set and clears it; writes gain only when the dial reports a change; writes the enabled port only for a button with a toggle state (true 1.0, false 0.0); returns 0 |
| PluginUi.AmpUi.Update | src/lib.rs:141-148 | a reported gain is written into the dial; a reported enabled value sets the button's toggle state to "value > 0.5", a no-op for a plain button |

## Left out

- All Cairo and Pango drawing is left out: colours, the button face and label,
  the focus outline, the meter frame, and turning a span into rectangle
  coordinates (src/meter.rs:23-28). These are calls into foreign libraries.
- The Pango measurement of a button label (src/button.rs:102-114) is a foreign
  call. The measured size is a constructor parameter instead.
- IEEE-754 behaviour of `f32`/`f64` is not modelled. Levels and port values
  are reals. So a NaN level, which passes the clamp unchanged at
  src/meter.rs:72, and the `f64`→`f32` rounding of the gain value are not
  captured.
- The LV2 ABI is foreign: the descriptor's entry points, the `extern "C"`
  functions, raw port pointers, the native window handle, and feature and URID
  lookup, including the failure path that returns no UI when URIDs cannot be
  populated (src/lib.rs:90). A descriptor carries only the UI's URI.
- The toolkit's event loop (`next_event`), layout (`pack_to_layout`,
  `do_layout`), window sizing, title and showing are toolkit behaviour. So is
  what `pass_event` does with an event handed back.
- The dial widget's source is not part of this model. Its changed value is a
  parameter of `AmpUi.Idle`, and the value written into it is a register.
- `UIPort::value()` semantics belong to the LV2 UI library. The values the
  ports report are parameters of `AmpUi.Update`.
- `println!`/`eprintln!` logging is left out.
- The root widget's drawing and its zero minimum size are toolkit glue.

