/**
 * The bindings editor: capturing a joystick or switch-panel input into the
 * table of bindings, deleting a binding with its clean-up rules, the labels
 * the editor shows, and the Bind buttons' listening mode; and the mapping of
 * the joystick library's events to the raw events the editor is offered.
 *
 * The dialog's widgets are not modelled. Of them the model keeps which Bind
 * buttons are checked and the state of the "inverted" check box, which the
 * capture reads as a parameter.
 */
module Controls {
  import opened Common
  import opened PyText

  /**
   * A stored binding: a joystick axis or button (an axis binding also
   * records whether it is inverted), or a position of a panel switch.
   */
  datatype Binding =
    | Joystick(joyId: int, kind: string, index: int, inverted: Option<bool>)
    | Panel(switchName: string, state: string)

  /**
   * One control's entry of the bindings table: the bindings stored under a
   * key (`axis`, `button`, `off_button`, `increase`, `decrease`), and the
   * `values` table of step bindings when the entry has one.
   */
  datatype ControlBindings = ControlBindings(slots: map<string, Binding>, values: Option<map<string, Binding>>)

  const NO_BINDINGS := ControlBindings(map[], None)

  /** An entry with no keys at all, which Python treats as false. */
  predicate IsEmpty(cb: ControlBindings) {
    cb.slots == map[] && cb.values.None?
  }

  /** The selected control's id, `None` before one is selected (and then a key of the table as well). */
  type ControlKey = Option<string>

  type BindingMap = map<ControlKey, ControlBindings>

  /** A Bind button of the editor. */
  type ButtonId = nat

  /** The listening button and the binding target, which the editor always sets and clears together. */
  datatype Listening = Listening(button: ButtonId, target: string)

  /** The editor: the bindings, the selected control, the listening mode, and the checked Bind buttons. */
  datatype EditorState = EditorState(bindings: BindingMap, current: ControlKey, listen: Option<Listening>,
                                     checked: set<ButtonId>)

  // ---------------------------------------------------------------------------
  // Reading and writing the table
  // ---------------------------------------------------------------------------

  /** The binding stored under `key` for control `c`, if any. */
  function BindingAt(bs: BindingMap, c: ControlKey, key: string): Option<Binding> {
    if c in bs && key in bs[c].slots then Some(bs[c].slots[key]) else None
  }

  /** The binding of step `step` of control `c`, if any. */
  function StepAt(bs: BindingMap, c: ControlKey, step: string): Option<Binding> {
    if c in bs && bs[c].values.Some? && step in bs[c].values.value then Some(bs[c].values.value[step]) else None
  }

  /** `bindings.setdefault(c, {})` */
  function Entry(bs: BindingMap, c: ControlKey): ControlBindings {
    if c in bs then bs[c] else NO_BINDINGS
  }

  /** `bindings.setdefault(c, {})[key] = b` */
  function Put(bs: BindingMap, c: ControlKey, key: string, b: Binding): BindingMap {
    var cb := Entry(bs, c);
    bs[c := cb.(slots := cb.slots[key := b])]
  }

  /** `bindings.setdefault(c, {}).setdefault("values", {})[step] = b` */
  function PutStep(bs: BindingMap, c: ControlKey, step: string, b: Binding): BindingMap {
    var cb := Entry(bs, c);
    var vs := if cb.values.Some? then cb.values.value else map[];
    bs[c := cb.(values := Some(vs[step := b]))]
  }

  /** A target holding `value_` has an underscore. */
  lemma ValueTargetSplits(t: string)
    requires Contains(t, "value_")
    ensures '_' in t
  {
    if '_' !in t {
      assert "value_"[5] == '_';
      MissingCharNotContained(t, "value_", '_');
    }
  }

  /** `target.split("_")[1]`: the step a `value_<s>` target names. */
  function StepOf(t: string): string
    requires Contains(t, "value_")
  {
    ValueTargetSplits(t);
    SplitOn(t, '_')[1]
  }

  /** The step of a target built as `value_<s>` is `s`, for a step without an underscore. */
  lemma StepOfValueTarget(s: string)
    requires '_' !in s
    ensures Contains("value_" + s, "value_") && StepOf("value_" + s) == s
  {
    PrefixContained("value_", s);
    assert "value_" + s == "value" + ['_'] + s;
    assert '_' !in "value";
    SplitOnSecondPiece("value", s, '_');
  }

  // ---------------------------------------------------------------------------
  // Capturing an input
  // ---------------------------------------------------------------------------

  /**
   * After a binding is stored the listening button is unchecked, and its
   * `toggled` handler then clears the listening mode.
   */
  function Captured(s: EditorState, bs: BindingMap): EditorState
    requires s.listen.Some?
  {
    s.(bindings := bs, listen := None, checked := s.checked - {s.listen.value.button})
  }

  /** `capture_saitek_input(switch, state)` */
  function CaptureSaitek(s: EditorState, switchName: string, state: string): EditorState {
    match s.listen
    case None => s
    case Some(l) =>
      var b := Panel(switchName, state);
      var t := l.target;
      if t == "button" && state == "ON" then Captured(s, Put(s.bindings, s.current, "button", b))
      else if t == "off_button" && state == "OFF" then Captured(s, Put(s.bindings, s.current, "off_button", b))
      else if t == "increase" && state == "ON" then Captured(s, Put(s.bindings, s.current, "increase", b))
      else if t == "decrease" && state == "ON" then Captured(s, Put(s.bindings, s.current, "decrease", b))
      else if Contains(t, "value_") && state == "ON" then Captured(s, PutStep(s.bindings, s.current, StepOf(t), b))
      else s
  }

  /** `capture_joystick_input(joy_id, type, index, value)`; `inverted` is the check box's state. */
  function CaptureJoystick(s: EditorState, joyId: int, kind: string, index: int, value: real, inverted: bool): EditorState {
    match s.listen
    case None => s
    case Some(l) =>
      var t := l.target;
      if t == "axis" && kind == "axis" then
        Captured(s, Put(s.bindings, s.current, "axis", Joystick(joyId, kind, index, Some(inverted))))
      else if kind == "button" then
        var b := Joystick(joyId, kind, index, None);
        if t == "button" && value == 1.0 then Captured(s, Put(s.bindings, s.current, "button", b))
        else if t == "off_button" && value == 1.0 then Captured(s, Put(s.bindings, s.current, "off_button", b))
        else if t == "increase" && value == 1.0 then Captured(s, Put(s.bindings, s.current, "increase", b))
        else if t == "decrease" && value == 1.0 then Captured(s, Put(s.bindings, s.current, "decrease", b))
        else if Contains(t, "value_") && value == 1.0 then Captured(s, PutStep(s.bindings, s.current, StepOf(t), b))
        else s
      else s
  }

  // ---------------------------------------------------------------------------
  // Deleting a binding
  // ---------------------------------------------------------------------------

  /** Removes one step binding, and the `values` table with its last step. */
  function DropStep(cb: ControlBindings, step: string): ControlBindings {
    if cb.values.Some? && step in cb.values.value then
      var vs := cb.values.value - {step};
      cb.(values := if vs == map[] then None else Some(vs))
    else cb
  }

  /** `delete_binding(target)` */
  function Delete(s: EditorState, target: string): EditorState {
    if s.current.None? || s.current !in s.bindings || IsEmpty(s.bindings[s.current]) then s
    else
      var cb := s.bindings[s.current];
      var after :=
        if "value_" <= target then
          PrefixContained("value_", target[6..]);
          assert target == "value_" + target[6..];
          DropStep(cb, StepOf(target))
        else if target == "values" then cb.(values := None)
        else cb.(slots := cb.slots - {target});
      s.(bindings := if IsEmpty(after) then s.bindings - {s.current} else s.bindings[s.current := after])
  }

  // ---------------------------------------------------------------------------
  // Listening mode, labels and joystick events
  // ---------------------------------------------------------------------------

  /**
   * `toggle_listen_mode(button, target, is_listening)`, called when `button`
   * has been toggled to `on`: unchecking another listening button runs this
   * handler for it first, which only clears the mode this call then sets.
   */
  function Toggle(s: EditorState, button: ButtonId, target: string, on: bool): EditorState {
    var others := if s.listen.Some? && s.listen.value.button != button then s.checked - {s.listen.value.button} else s.checked;
    var own := if on then others + {button} else others - {button};
    s.(listen := if on then Some(Listening(button, target)) else None, checked := own)
  }

  /** `format_binding_text(binding_data)` */
  function FormatBindingText(b: Option<Binding>): string {
    match b
    case None => "None"
    case Some(Panel(sw, state)) => "Saitek Panel - " + sw + " (" + state + ")"
    case Some(Joystick(id, kind, index, _)) => "Joy " + IntToString(id) + ", " + Capitalize(kind) + " " + IntToString(index)
  }

  /** The joystick library's events, for one joystick. */
  datatype JoyEvent = AxisMotion(axis: int, value: real) | ButtonDown(button: int) | ButtonUp(button: int) | OtherEvent

  /** `raw_joystick_event(joy_id, type, index, value)` */
  datatype RawEvent = RawEvent(joyId: int, kind: string, index: int, value: real)

  /** `_process_event`: the raw event emitted, if any. */
  function ProcessEvent(joyId: int, e: JoyEvent): Option<RawEvent> {
    match e
    case AxisMotion(axis, value) => Some(RawEvent(joyId, "axis", axis, value))
    case ButtonDown(button) => Some(RawEvent(joyId, "button", button, 1.0))
    case ButtonUp(button) => Some(RawEvent(joyId, "button", button, 0.0))
    case OtherEvent => None
  }

  /** Capturing a raw event. */
  function CaptureRaw(s: EditorState, r: RawEvent, inverted: bool): EditorState {
    CaptureJoystick(s, r.joyId, r.kind, r.index, r.value, inverted)
  }

  // ---------------------------------------------------------------------------
  // Properties
  // ---------------------------------------------------------------------------

  /** Listening ended: the listening button is unchecked and nothing else of the mode or selection changed. */
  predicate Ended(s: EditorState, r: EditorState) {
    s.listen.Some? && r.listen.None? && r.current == s.current && r.checked == s.checked - {s.listen.value.button}
  }

  /** `r` holds `b` under `key` for the selected control; every other binding is as in `s`. */
  ghost predicate StoredAt(s: EditorState, r: EditorState, key: string, b: Binding) {
    BindingAt(r.bindings, s.current, key) == Some(b) &&
    (forall c, k :: (c != s.current || k != key) ==> BindingAt(r.bindings, c, k) == BindingAt(s.bindings, c, k)) &&
    (forall c, st :: StepAt(r.bindings, c, st) == StepAt(s.bindings, c, st)) &&
    Ended(s, r)
  }

  /** `r` holds `b` for step `step` of the selected control; every other binding is as in `s`. */
  ghost predicate StepStoredAt(s: EditorState, r: EditorState, step: string, b: Binding) {
    StepAt(r.bindings, s.current, step) == Some(b) &&
    (forall c, k :: BindingAt(r.bindings, c, k) == BindingAt(s.bindings, c, k)) &&
    (forall c, st :: (c != s.current || st != step) ==> StepAt(r.bindings, c, st) == StepAt(s.bindings, c, st)) &&
    Ended(s, r)
  }

  lemma PutReads(s: EditorState, key: string, b: Binding)
    requires s.listen.Some?
    ensures StoredAt(s, Captured(s, Put(s.bindings, s.current, key, b)), key, b)
  {
  }

  lemma PutStepReads(s: EditorState, step: string, b: Binding)
    requires s.listen.Some?
    ensures StepStoredAt(s, Captured(s, PutStep(s.bindings, s.current, step, b)), step, b)
  {
  }

  /** Neither capture changes anything while no button is listening. */
  lemma CaptureWhileIdle(s: EditorState, sw: string, state: string, joyId: int, kind: string, index: int, value: real, inverted: bool)
    requires s.listen.None?
    ensures CaptureSaitek(s, sw, state) == s
    ensures CaptureJoystick(s, joyId, kind, index, value, inverted) == s
  {
  }

  /**
   * A switch position binds the targets `button`, `increase`, `decrease`
   * and `value_<s>` when it is ON and `off_button` when it is OFF; any other
   * combination changes nothing.
   */
  lemma CaptureSaitekCases(s: EditorState, sw: string, state: string)
    requires s.listen.Some?
    ensures var r := CaptureSaitek(s, sw, state); var t := s.listen.value.target; var b := Panel(sw, state);
      (state == "ON" && (t == "button" || t == "increase" || t == "decrease") ==> StoredAt(s, r, t, b)) &&
      (state == "OFF" && t == "off_button" ==> StoredAt(s, r, t, b)) &&
      (state == "ON" && t != "button" && t != "increase" && t != "decrease" && Contains(t, "value_") ==>
         StepStoredAt(s, r, StepOf(t), b)) &&
      ((!(state == "ON" && (t == "button" || t == "increase" || t == "decrease" || Contains(t, "value_"))) &&
        !(state == "OFF" && t == "off_button")) ==> r == s)
  {
    var t := s.listen.value.target;
    var b := Panel(sw, state);
    if state == "ON" && (t == "button" || t == "increase" || t == "decrease") {
      PutReads(s, t, b);
    } else if state == "OFF" && t == "off_button" {
      PutReads(s, t, b);
    } else if state == "ON" && Contains(t, "value_") {
      PutStepReads(s, StepOf(t), b);
    }
  }

  /**
   * The axis target takes only an axis (with the check box's inverted flag);
   * the other targets take only a button pressed (value 1.0); anything else
   * changes nothing.
   */
  lemma CaptureJoystickCases(s: EditorState, joyId: int, kind: string, index: int, value: real, inverted: bool)
    requires s.listen.Some?
    ensures var r := CaptureJoystick(s, joyId, kind, index, value, inverted); var t := s.listen.value.target;
      var pressed := kind == "button" && value == 1.0;
      var keyed := t == "button" || t == "off_button" || t == "increase" || t == "decrease";
      (t == "axis" && kind == "axis" ==> StoredAt(s, r, "axis", Joystick(joyId, kind, index, Some(inverted)))) &&
      (pressed && keyed ==> StoredAt(s, r, t, Joystick(joyId, kind, index, None))) &&
      (pressed && !keyed && Contains(t, "value_") ==> StepStoredAt(s, r, StepOf(t), Joystick(joyId, kind, index, None))) &&
      (!(t == "axis" && kind == "axis") && !(pressed && (keyed || Contains(t, "value_"))) ==> r == s)
  {
    var t := s.listen.value.target;
    if t == "axis" && kind == "axis" {
      PutReads(s, "axis", Joystick(joyId, kind, index, Some(inverted)));
    } else if kind == "button" && value == 1.0 {
      var b := Joystick(joyId, kind, index, None);
      if t == "button" || t == "off_button" || t == "increase" || t == "decrease" {
        PutReads(s, t, b);
      } else if Contains(t, "value_") {
        PutStepReads(s, StepOf(t), b);
      }
    }
  }

  /** The joystick events: axis motion, a button pressed (1.0) and released (0.0), for the given joystick. */
  lemma ProcessEventRaw(joyId: int, e: JoyEvent)
    ensures var r := ProcessEvent(joyId, e);
      (r.None? <==> e.OtherEvent?) &&
      (r.Some? ==> r.value.joyId == joyId) &&
      (e.AxisMotion? ==> r == Some(RawEvent(joyId, "axis", e.axis, e.value))) &&
      (e.ButtonDown? ==> r == Some(RawEvent(joyId, "button", e.button, 1.0))) &&
      (e.ButtonUp? ==> r == Some(RawEvent(joyId, "button", e.button, 0.0)))
  {
  }

  /** A button being released never makes a binding. */
  lemma ReleaseNeverBinds(s: EditorState, joyId: int, button: int, inverted: bool)
    ensures CaptureRaw(s, ProcessEvent(joyId, ButtonUp(button)).value, inverted) == s
  {
    if s.listen.Some? {
      CaptureJoystickCases(s, joyId, "button", button, 0.0, inverted);
    }
  }

  /** A button pressed while `button` is the target binds that joystick button. */
  lemma PressBindsButton(s: EditorState, joyId: int, button: int, inverted: bool)
    requires s.listen.Some? && s.listen.value.target == "button"
    ensures var r := CaptureRaw(s, ProcessEvent(joyId, ButtonDown(button)).value, inverted);
      StoredAt(s, r, "button", Joystick(joyId, "button", button, None))
  {
    CaptureJoystickCases(s, joyId, "button", button, 1.0, inverted);
  }

  /** Axis motion binds only the axis target. */
  lemma MotionBindsOnlyAxis(s: EditorState, joyId: int, axis: int, value: real, inverted: bool)
    requires s.listen.Some? && s.listen.value.target != "axis"
    ensures CaptureRaw(s, ProcessEvent(joyId, AxisMotion(axis, value)).value, inverted) == s
  {
    CaptureJoystickCases(s, joyId, "axis", axis, value, inverted);
  }

  /** Delete does nothing when no control is selected or the control has no bindings. */
  lemma DeleteIgnored(s: EditorState, target: string)
    requires s.current.None? || s.current !in s.bindings || IsEmpty(s.bindings[s.current])
    ensures Delete(s, target) == s
  {
  }

  /**
   * Deleting a keyed target removes that binding and no other; a control
   * left with no entries leaves the table.
   */
  lemma DeleteSlot(s: EditorState, target: string)
    requires s.current.Some? && s.current in s.bindings && !IsEmpty(s.bindings[s.current])
    requires !("value_" <= target) && target != "values"
    ensures var r := Delete(s, target);
      BindingAt(r.bindings, s.current, target).None? &&
      (forall c, k :: (c != s.current || k != target) ==> BindingAt(r.bindings, c, k) == BindingAt(s.bindings, c, k)) &&
      (forall c, st :: StepAt(r.bindings, c, st) == StepAt(s.bindings, c, st)) &&
      (s.current in r.bindings ==> !IsEmpty(r.bindings[s.current])) &&
      r == s.(bindings := r.bindings)
  {
    var cb := s.bindings[s.current];
    var after := cb.(slots := cb.slots - {target});
    assert Delete(s, target).bindings == if IsEmpty(after) then s.bindings - {s.current} else s.bindings[s.current := after];
    if IsEmpty(after) {
      forall k | k != target ensures k !in cb.slots {
        assert k !in after.slots;
      }
    }
  }

  /**
   * Deleting a `value_<s>` target removes the binding of step `s` and no
   * other; the `values` table goes with its last step, and a control left
   * with no entries leaves the table.
   */
  lemma DeleteStep(s: EditorState, target: string)
    requires s.current.Some? && s.current in s.bindings && !IsEmpty(s.bindings[s.current])
    requires "value_" <= target
    ensures Contains(target, "value_")
    ensures var r := Delete(s, target); StepAt(r.bindings, s.current, StepOf(target)).None?
    ensures var r := Delete(s, target); forall c, k :: BindingAt(r.bindings, c, k) == BindingAt(s.bindings, c, k)
    ensures var r := Delete(s, target); var step := StepOf(target);
      forall c, st :: (c != s.current || st != step) ==> StepAt(r.bindings, c, st) == StepAt(s.bindings, c, st)
    ensures var r := Delete(s, target); s.current in r.bindings ==> !IsEmpty(r.bindings[s.current])
    ensures var r := Delete(s, target);
      StepAt(s.bindings, s.current, StepOf(target)).Some? && s.current in r.bindings && r.bindings[s.current].values.Some? ==>
        r.bindings[s.current].values.value != map[]
    ensures var r := Delete(s, target); r == s.(bindings := r.bindings)
  {
    PrefixContained("value_", target[6..]);
    assert target == "value_" + target[6..];
    var cb := s.bindings[s.current];
    var step := StepOf(target);
    var after := DropStep(cb, step);
    assert Delete(s, target).bindings == if IsEmpty(after) then s.bindings - {s.current} else s.bindings[s.current := after];
    assert after.slots == cb.slots;
    if cb.values.Some? && step in cb.values.value && cb.values.value - {step} == map[] {
      forall st | st != step ensures st !in cb.values.value {
        assert st !in cb.values.value - {step};
      }
    }
  }

  /** Deleting `values` removes every step binding of the control. */
  lemma DeleteValues(s: EditorState)
    requires s.current.Some? && s.current in s.bindings && !IsEmpty(s.bindings[s.current])
    ensures var r := Delete(s, "values");
      (forall st :: StepAt(r.bindings, s.current, st).None?) &&
      (forall c, k :: BindingAt(r.bindings, c, k) == BindingAt(s.bindings, c, k)) &&
      (forall c, st :: c != s.current ==> StepAt(r.bindings, c, st) == StepAt(s.bindings, c, st))
  {
    assert !("value_" <= "values") by {
      assert "values"[5] != "value_"[5];
    }
  }

  /** No entry of the table is empty, and no `values` table is empty. */
  predicate Tidy(bs: BindingMap) {
    forall c :: c in bs ==> !IsEmpty(bs[c]) && (bs[c].values.Some? ==> bs[c].values.value != map[])
  }

  lemma PutKeepsTidy(bs: BindingMap, c: ControlKey)
    requires Tidy(bs)
    ensures forall key, b :: Tidy(Put(bs, c, key, b)) && Tidy(PutStep(bs, c, key, b))
  {
    forall key, b ensures Tidy(Put(bs, c, key, b)) && Tidy(PutStep(bs, c, key, b)) {
      assert key in Put(bs, c, key, b)[c].slots;
      assert key in PutStep(bs, c, key, b)[c].values.value;
    }
  }

  lemma SaitekCaptureKeepsTidy(s: EditorState, sw: string, state: string)
    requires Tidy(s.bindings)
    ensures Tidy(CaptureSaitek(s, sw, state).bindings)
  {
    PutKeepsTidy(s.bindings, s.current);
  }

  lemma JoystickCaptureKeepsTidy(s: EditorState, joyId: int, kind: string, index: int, value: real, inverted: bool)
    requires Tidy(s.bindings)
    ensures Tidy(CaptureJoystick(s, joyId, kind, index, value, inverted).bindings)
  {
    if s.listen.Some? {
      var t := s.listen.value.target;
      PutKeepsTidy(s.bindings, s.current);
      if t == "axis" && kind == "axis" {
        assert Tidy(Put(s.bindings, s.current, "axis", Joystick(joyId, kind, index, Some(inverted))));
      } else if kind == "button" && Contains(t, "value_") {
        assert Tidy(PutStep(s.bindings, s.current, StepOf(t), Joystick(joyId, kind, index, None)));
      }
    }
  }

  lemma DeleteKeepsTidy(s: EditorState, target: string)
    requires Tidy(s.bindings)
    ensures Tidy(Delete(s, target).bindings)
  {
    if s.current.Some? && s.current in s.bindings && !IsEmpty(s.bindings[s.current]) && "value_" <= target {
      PrefixContained("value_", target[6..]);
      assert target == "value_" + target[6..];
    }
  }

  /** At most one Bind button is checked: the listening one. */
  predicate OneChecked(s: EditorState) {
    s.checked == (if s.listen.Some? then {s.listen.value.button} else {})
  }

  /**
   * Listening mode: afterwards the listening button and target are the
   * given ones when listening and none otherwise, and the button listening
   * before, if another, is unchecked.
   */
  lemma ToggleListens(s: EditorState, button: ButtonId, target: string, on: bool)
    ensures var r := Toggle(s, button, target, on);
      (on ==> r.listen == Some(Listening(button, target)) && button in r.checked) &&
      (!on ==> r.listen.None? && button !in r.checked) &&
      (s.listen.Some? && s.listen.value.button != button ==> s.listen.value.button !in r.checked) &&
      r.bindings == s.bindings && r.current == s.current
  {
  }

  /** Listening mode keeps at most one Bind button checked. */
  lemma ToggleKeepsOneChecked(s: EditorState, button: ButtonId, target: string, on: bool)
    requires OneChecked(s)
    ensures OneChecked(Toggle(s, button, target, on))
  {
  }

  /** A capture that ends listening leaves no Bind button checked. */
  lemma CaptureKeepsOneChecked(s: EditorState, sw: string, state: string,
                               joyId: int, kind: string, index: int, value: real, inverted: bool)
    requires OneChecked(s)
    ensures OneChecked(CaptureSaitek(s, sw, state))
    ensures OneChecked(CaptureJoystick(s, joyId, kind, index, value, inverted))
  {
  }

  /** The label is "None" exactly for a missing binding; panel and joystick labels begin with their device. */
  lemma FormatKinds(b: Option<Binding>)
    ensures var r := FormatBindingText(b);
      (r == "None" <==> b.None?) &&
      (b.Some? && b.value.Panel? ==> "Saitek Panel - " <= r) &&
      (b.Some? && b.value.Joystick? ==> "Joy " <= r)
  {
    var r := FormatBindingText(b);
    if b.Some? {
      assert r[0] != 'N';
    }
  }

  /** The joystick number can be read back from a joystick label. */
  lemma FormatJoystickId(id: int, kind: string, index: int, inverted: Option<bool>)
    ensures var r := FormatBindingText(Some(Joystick(id, kind, index, inverted)));
      |r| >= 4 && ParseInt(SplitOn(r[4..], ',')[0], 10) == Some(id)
  {
    var digits := IntToString(id);
    var tail := Capitalize(kind) + " " + IntToString(index);
    JoyLabelShape(digits, Capitalize(kind), IntToString(index));
    NoComma(id);
    SplitOnFirst(digits, " " + tail, ',');
    ParseIntToString(id);
  }

  lemma NoComma(id: int)
    ensures ',' !in IntToString(id)
  {
    var digits := IntToString(id);
    IntToStringChars(id);
    forall i | 0 <= i < |digits| ensures digits[i] != ',' {
      assert digits[i] == '-' || IsDigit(digits[i], 10);
    }
  }

  /** A joystick label after `Joy `: the number, a comma, and the rest. */
  lemma JoyLabelShape(digits: string, cap: string, idx: string)
    ensures var r := "Joy " + digits + ", " + cap + " " + idx;
      |r| >= 4 && r[4..] == digits + [','] + (" " + (cap + " " + idx))
  {
    var joy := "Joy ";
    var comma := ", ";
    var sp := " ";
    assert |joy| == 4;
    assert comma == [','] + sp;
    Regroup(joy, digits, comma, cap, sp, idx);
  }

  /** Proof step for FormatJoystickId: brackets the label after its `Joy ` prefix. */
  lemma Regroup(joy: string, digits: string, comma: string, cap: string, sp: string, idx: string)
    ensures joy + digits + comma + cap + sp + idx == joy + (digits + (comma + (cap + sp + idx)))
  {
  }

  /** The two joystick input kinds as the labels spell them. */
  lemma CapitalizedKinds()
    ensures Capitalize("axis") == "Axis" && Capitalize("button") == "Button"
  {
    assert Lower("xis") == "xis";
    assert Lower("utton") == "utton";
  }

  // ---------------------------------------------------------------------------
  // The editor, updated in place
  // ---------------------------------------------------------------------------

  class BindingsEditor {
    var bindings: BindingMap
    var current: ControlKey
    var listen: Option<Listening>
    var checked: set<ButtonId>

    function State(): EditorState
      reads this
    {
      EditorState(bindings, current, listen, checked)
    }

    /** A copy of the main window's bindings, nothing selected and no button listening. */
    constructor(initial: BindingMap)
      ensures State() == EditorState(initial, None, None, {})
    {
      bindings := initial;
      current := None;
      listen := None;
      checked := {};
    }

    /** The end of a capture: unchecking the listening button clears the mode. */
    method EndListening()
      requires listen.Some?
      modifies this
      ensures checked == old(checked) - {old(listen).value.button} && listen.None?
      ensures bindings == old(bindings) && current == old(current)
    {
      checked := checked - {listen.value.button};
      listen := None;
    }

    method CaptureSaitekInput(switchName: string, state: string)
      modifies this
      ensures State() == CaptureSaitek(old(State()), switchName, state)
    {
      if listen.None? {
        return;
      }
      var b := Panel(switchName, state);
      var t := listen.value.target;
      if t == "button" && state == "ON" {
        bindings := Put(bindings, current, "button", b);
      } else if t == "off_button" && state == "OFF" {
        bindings := Put(bindings, current, "off_button", b);
      } else if t == "increase" && state == "ON" {
        bindings := Put(bindings, current, "increase", b);
      } else if t == "decrease" && state == "ON" {
        bindings := Put(bindings, current, "decrease", b);
      } else if Contains(t, "value_") && state == "ON" {
        bindings := PutStep(bindings, current, StepOf(t), b);
      } else {
        return;
      }
      EndListening();
    }

    method CaptureJoystickInput(joyId: int, kind: string, index: int, value: real, inverted: bool)
      modifies this
      ensures State() == CaptureJoystick(old(State()), joyId, kind, index, value, inverted)
    {
      if listen.None? {
        return;
      }
      var t := listen.value.target;
      if t == "axis" && kind == "axis" {
        bindings := Put(bindings, current, "axis", Joystick(joyId, kind, index, Some(inverted)));
      } else if kind == "button" {
        var b := Joystick(joyId, kind, index, None);
        if t == "button" && value == 1.0 {
          bindings := Put(bindings, current, "button", b);
        } else if t == "off_button" && value == 1.0 {
          bindings := Put(bindings, current, "off_button", b);
        } else if t == "increase" && value == 1.0 {
          bindings := Put(bindings, current, "increase", b);
        } else if t == "decrease" && value == 1.0 {
          bindings := Put(bindings, current, "decrease", b);
        } else if Contains(t, "value_") && value == 1.0 {
          bindings := PutStep(bindings, current, StepOf(t), b);
        } else {
          return;
        }
      } else {
        return;
      }
      EndListening();
    }

    method DeleteBinding(target: string)
      modifies this
      ensures State() == Delete(old(State()), target)
    {
      if current.None? || current !in bindings || IsEmpty(bindings[current]) {
        return;
      }
      var cb := bindings[current];
      if "value_" <= target {
        PrefixContained("value_", target[6..]);
        assert target == "value_" + target[6..];
        var step := StepOf(target);
        if cb.values.Some? && step in cb.values.value {
          var vs := cb.values.value - {step};
          cb := cb.(values := if vs == map[] then None else Some(vs));
        }
      } else if target == "values" {
        cb := cb.(values := None);
      } else if target in cb.slots {
        cb := cb.(slots := cb.slots - {target});
      } else {
        assert cb.slots - {target} == cb.slots;
      }
      if IsEmpty(cb) {
        bindings := bindings - {current};
      } else {
        bindings := bindings[current := cb];
      }
    }

    method ToggleListenMode(button: ButtonId, target: string, on: bool)
      modifies this
      ensures State() == Toggle(old(State()), button, target, on)
    {
      if listen.Some? && listen.value.button != button {
        // unchecking the other button runs this handler for it first
        checked := checked - {listen.value.button};
        listen := None;
      }
      checked := if on then checked + {button} else checked - {button};
      listen := if on then Some(Listening(button, target)) else None;
    }
  }
}
