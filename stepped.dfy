/**
 * The stepped sliders of the main window (reverser, gear, headlights): a
 * step button drives the simulator's control with one "click" command per
 * step, the window remembers the last value it drove each control to, and
 * a 3-way switch that is let go returns its control to neutral.
 *
 * The web interface is not modelled; the commands the window sends it are
 * recorded, in order.
 */
module SteppedControls {
  import opened Common
  import opened PyText

  /** The simulator command ids that move a stepped slider one step down or up. */
  datatype StepIds = StepIds(decrease: int, increase: int)

  /**
   * An entry of the control definitions table: whether it is a slider, the
   * step command ids (only stepped sliders have them), and the named steps
   * in the table's order.
   */
  datatype ControlDef = ControlDef(isSlider: bool, ids: Option<StepIds>, steps: seq<(string, string)>)

  const DIRECTION := ControlDef(true, Some(StepIds(115, 114)), [("-1", "Reverse"), ("0", "Neutral"), ("1", "Forward")])
  const GEAR := ControlDef(true, Some(StepIds(120, 119)), [("0", "N"), ("1", "1"), ("2", "2"), ("3", "3"), ("4", "4")])
  const FRONT_HLIGHT := ControlDef(true, Some(StepIds(177, 176)), [("0", "Off"), ("1", "Dim"), ("2", "Medium"), ("3", "Bright")])

  /** What the window reads of a slider widget. */
  datatype Widget = Widget(enabled: bool, value: int, minimum: int, maximum: int)

  /** A command sent to the simulator's web interface. */
  datatype Command = Click(id: int) | ControlValue(control: string, fraction: real)

  /**
   * The window's stepped-slider bookkeeping: whether the active-step table
   * exists yet, the steps held down per control, the last value sent per
   * control, and the commands sent so far.
   */
  datatype StepState = StepState(tracking: bool, active: map<string, set<string>>,
                                 last: map<string, int>, sent: seq<Command>)

  function Repeat(c: Command, n: nat): (r: seq<Command>)
    ensures |r| == n && forall k :: 0 <= k < n ==> r[k] == c
  {
    if n == 0 then [] else [c] + Repeat(c, n - 1)
  }

  /** The clicks that take a stepped slider from `from` to `to`. */
  function Clicks(ids: StepIds, from: int, to: int): seq<Command> {
    if to > from then Repeat(Click(ids.increase), to - from)
    else if to < from then Repeat(Click(ids.decrease), from - to)
    else []
  }

  /** `slider_last_values.get(control, widget.value())` */
  function Current(last: map<string, int>, control: string, w: Widget): int {
    if control in last then last[control] else w.value
  }

  predicate Steppable(widget: Option<Widget>, def: ControlDef) {
    widget.Some? && widget.value.enabled && def.ids.Some? && def.isSlider
  }

  /**
   * `execute_step_binding`: for an enabled stepped slider and a step that
   * `int` accepts, the step becomes the only one held for the control, the
   * clicks from the last value to the step are sent, and the step is the new
   * last value. Anything else changes nothing.
   */
  function ExecuteStep(s: StepState, control: string, stepText: string, widget: Option<Widget>, def: ControlDef): StepState {
    var target := ParseInt(stepText, 10);
    if !Steppable(widget, def) || target.None? then s
    else StepTo(s, control, stepText, target.value, widget.value, def.ids.value)
  }

  function StepTo(s: StepState, control: string, stepText: string, target: int, w: Widget, ids: StepIds): StepState {
    s.(tracking := true, active := s.active[control := {stepText}],
       last := s.last[control := target],
       sent := s.sent + Clicks(ids, Current(s.last, control, w), target))
  }

  predicate IsNeutral(step: (string, string)) {
    step.0 == "0" || Contains(step.1, "Neutral") || step.1 == "N"
  }

  /** The first step that is `"0"`, or whose name contains `Neutral` or is `N`. */
  function NeutralStep(steps: seq<(string, string)>): Option<string> {
    if steps == [] then None
    else if IsNeutral(steps[0]) then Some(steps[0].0)
    else NeutralStep(steps[1..])
  }

  /** The steps still held for a control (`get(control, {})`). */
  function Held(s: StepState, control: string): set<string> {
    if control in s.active then s.active[control] else {}
  }

  /**
   * `release_step_binding`: the released step is no longer held; once no
   * step of the control is held, the control is driven to its neutral step.
   */
  function ReleaseStep(s: StepState, control: string, stepText: string, widget: Option<Widget>, def: ControlDef): StepState {
    if !s.tracking then s
    else
      var s1 := if stepText in Held(s, control) then s.(active := s.active[control := Held(s, control) - {stepText}]) else s;
      if Held(s1, control) != {} then s1
      else
        match NeutralStep(def.steps)
        case None => s1
        case Some(n) => ExecuteStep(s1, control, n, widget, def)
  }

  /** `(value - min) / range` for a positive range, else `0`. */
  function Fraction(value: int, w: Widget): real {
    var range := w.maximum - w.minimum;
    if range > 0 then (value - w.minimum) as real / range as real else 0.0
  }

  /**
   * `send_slider_value_from_gui`: a stepped slider is clicked from its last
   * value to `value`, which becomes the last value; any other slider is sent
   * the value's position in the widget's range.
   */
  function SendSlider(s: StepState, control: string, value: int, w: Widget, def: ControlDef): StepState {
    match def.ids
    case Some(ids) =>
      s.(last := s.last[control := value], sent := s.sent + Clicks(ids, Current(s.last, control, w), value))
    case None =>
      s.(sent := s.sent + [ControlValue(control, Fraction(value, w))])
  }

  // ---------------------------------------------------------------------------
  // Properties
  // ---------------------------------------------------------------------------

  /** Where a sequence of commands moves a stepped slider: up clicks minus down clicks. */
  function NetMove(cs: seq<Command>, ids: StepIds): int {
    if cs == [] then 0
    else
      (if cs[0] == Click(ids.increase) then 1 else if cs[0] == Click(ids.decrease) then -1 else 0)
      + NetMove(cs[1..], ids)
  }

  lemma {:induction false} NetMoveConcat(a: seq<Command>, b: seq<Command>, ids: StepIds)
    ensures NetMove(a + b, ids) == NetMove(a, ids) + NetMove(b, ids)
  {
    if a == [] {
      assert a + b == b;
    } else {
      assert (a + b)[0] == a[0];
      assert (a + b)[1..] == a[1..] + b;
      NetMoveConcat(a[1..], b, ids);
    }
  }

  lemma {:induction false} NetMoveRepeat(c: Command, n: nat, ids: StepIds)
    ensures NetMove(Repeat(c, n), ids) ==
      n * (if c == Click(ids.increase) then 1 else if c == Click(ids.decrease) then -1 else 0)
  {
    if n > 0 {
      var r := Repeat(c, n);
      assert r[0] == c && r[1..] == Repeat(c, n - 1);
      NetMoveRepeat(c, n - 1, ids);
    }
  }

  /**
   * The clicks are `|to - from|` of one kind: the increase id going up, the
   * decrease id going down; they move the slider by exactly `to - from`.
   */
  lemma ClicksMove(ids: StepIds, from: int, to: int)
    requires ids.decrease != ids.increase
    ensures var cs := Clicks(ids, from, to);
      |cs| == (if to >= from then to - from else from - to) &&
      (forall k :: 0 <= k < |cs| ==> cs[k] == Click(if to > from then ids.increase else ids.decrease)) &&
      NetMove(cs, ids) == to - from
  {
    if to > from {
      NetMoveRepeat(Click(ids.increase), to - from, ids);
    } else if to < from {
      NetMoveRepeat(Click(ids.decrease), from - to, ids);
    }
  }

  /** Two moves in a row move the slider from the first start to the last target. */
  lemma ClicksCompose(ids: StepIds, a: int, b: int, c: int)
    requires ids.decrease != ids.increase
    ensures NetMove(Clicks(ids, a, b) + Clicks(ids, b, c), ids) == c - a
  {
    NetMoveConcat(Clicks(ids, a, b), Clicks(ids, b, c), ids);
    ClicksMove(ids, a, b);
    ClicksMove(ids, b, c);
  }

  /** A step `int` rejects, or a control that is not an enabled stepped slider, changes nothing. */
  lemma ExecuteRejects(s: StepState, control: string, stepText: string, widget: Option<Widget>, def: ControlDef)
    requires !Steppable(widget, def) || ParseInt(stepText, 10).None?
    ensures ExecuteStep(s, control, stepText, widget, def) == s
  {
  }

  /**
   * An accepted step is the only one held for its control, is the new last
   * value, and the clicks sent move the slider from the old value to it;
   * other controls keep their held steps and last values.
   */
  lemma ExecuteDrivesToStep(s: StepState, control: string, stepText: string, target: int, w: Widget, def: ControlDef)
    requires Steppable(Some(w), def) && ParseInt(stepText, 10) == Some(target)
    requires def.ids.value.decrease != def.ids.value.increase
    ensures var t := ExecuteStep(s, control, stepText, Some(w), def);
      t.tracking && Held(t, control) == {stepText} && control in t.last && t.last[control] == target &&
      (forall other :: other != control ==> Held(t, other) == Held(s, other)) &&
      (forall other :: other != control && other in s.last ==> other in t.last && t.last[other] == s.last[other]) &&
      |t.sent| >= |s.sent| && t.sent[..|s.sent|] == s.sent &&
      NetMove(t.sent[|s.sent|..], def.ids.value) == target - Current(s.last, control, w)
  {
    StepToDrives(s, control, stepText, target, w, def.ids.value);
  }

  lemma StepToDrives(s: StepState, control: string, stepText: string, target: int, w: Widget, ids: StepIds)
    requires ids.decrease != ids.increase
    ensures var t := StepTo(s, control, stepText, target, w, ids);
      t.tracking && Held(t, control) == {stepText} && control in t.last && t.last[control] == target &&
      (forall other :: other != control ==> Held(t, other) == Held(s, other)) &&
      (forall other :: other != control && other in s.last ==> other in t.last && t.last[other] == s.last[other]) &&
      |t.sent| >= |s.sent| && t.sent[..|s.sent|] == s.sent &&
      NetMove(t.sent[|s.sent|..], ids) == target - Current(s.last, control, w)
  {
    var cs := Clicks(ids, Current(s.last, control, w), target);
    var t := StepTo(s, control, stepText, target, w, ids);
    assert t.sent[|s.sent|..] == cs;
    ClicksMove(ids, Current(s.last, control, w), target);
  }

  /** `NeutralStep` is the key of the first neutral step, and `None` only when there is none. */
  lemma {:induction false} NeutralStepFirst(steps: seq<(string, string)>)
    ensures var r := NeutralStep(steps);
      (r.None? <==> forall i :: 0 <= i < |steps| ==> !IsNeutral(steps[i])) &&
      (r.Some? ==> exists i :: 0 <= i < |steps| && IsNeutral(steps[i]) && steps[i].0 == r.value &&
                                forall j :: 0 <= j < i ==> !IsNeutral(steps[j]))
  {
    if steps != [] && !IsNeutral(steps[0]) {
      NeutralStepFirst(steps[1..]);
      var r := NeutralStep(steps);
      if r.Some? {
        var i :| 0 <= i < |steps[1..]| && IsNeutral(steps[1..][i]) && steps[1..][i].0 == r.value &&
                 forall j :: 0 <= j < i ==> !IsNeutral(steps[1..][j]);
        assert IsNeutral(steps[i + 1]) && steps[i + 1].0 == r.value;
        forall j | 0 <= j < i + 1 ensures !IsNeutral(steps[j]) {
          if j > 0 { assert steps[j] == steps[1..][j - 1]; }
        }
      } else {
        forall i | 0 <= i < |steps| ensures !IsNeutral(steps[i]) {
          if i > 0 { assert steps[i] == steps[1..][i - 1]; }
        }
      }
    } else if steps != [] {
      assert IsNeutral(steps[0]);
    }
  }

  /** Releasing a step while another of the control is held only forgets the released one. */
  lemma ReleaseWhileHeld(s: StepState, control: string, stepText: string, widget: Option<Widget>, def: ControlDef)
    requires s.tracking && Held(s, control) - {stepText} != {}
    ensures var t := ReleaseStep(s, control, stepText, widget, def);
      Held(t, control) == Held(s, control) - {stepText} && t.last == s.last && t.sent == s.sent
  {
  }

  /** Before any step was pressed a release does nothing. */
  lemma ReleaseBeforeAnyStep(s: StepState, control: string, stepText: string, widget: Option<Widget>, def: ControlDef)
    requires !s.tracking
    ensures ReleaseStep(s, control, stepText, widget, def) == s
  {
  }

  /**
   * Letting go of the last held step of a control drives it to its neutral
   * step: the neutral becomes the only held step and the last value, and the
   * clicks sent move the slider there from where it was.
   */
  lemma ReleaseLastReturnsToNeutral(s: StepState, control: string, stepText: string, w: Widget, def: ControlDef,
                                    neutral: string, value: int)
    requires s.tracking && Held(s, control) <= {stepText}
    requires NeutralStep(def.steps) == Some(neutral) && ParseInt(neutral, 10) == Some(value)
    requires Steppable(Some(w), def) && def.ids.value.decrease != def.ids.value.increase
    ensures var t := ReleaseStep(s, control, stepText, Some(w), def);
      Held(t, control) == {neutral} && control in t.last && t.last[control] == value &&
      |t.sent| >= |s.sent| && t.sent[..|s.sent|] == s.sent &&
      NetMove(t.sent[|s.sent|..], def.ids.value) == value - Current(s.last, control, w)
  {
    var s1 := if stepText in Held(s, control) then s.(active := s.active[control := Held(s, control) - {stepText}]) else s;
    assert Held(s1, control) == {};
    assert ReleaseStep(s, control, stepText, Some(w), def) == ExecuteStep(s1, control, neutral, Some(w), def);
    ExecuteDrivesToStep(s1, control, neutral, value, w, def);
  }

  /** The neutral step of each stepped slider in the definitions table is `"0"`. */
  lemma NeutralOfDefinitions()
    ensures NeutralStep(DIRECTION.steps) == Some("0")
    ensures NeutralStep(GEAR.steps) == Some("0")
    ensures NeutralStep(FRONT_HLIGHT.steps) == Some("0")
  {
    var d := DIRECTION.steps;
    assert !IsNeutral(d[0]) by {
      assert d[0].0 != "0" by { assert |d[0].0| == 2; }
      assert 'N' !in d[0].1;
      MissingCharNotContained(d[0].1, "Neutral", 'N');
    }
    assert d[1..][0] == ("0", "Neutral");
  }

  /** `"0"` is the integer 0, so returning to neutral drives a slider to 0. */
  lemma ZeroStep()
    ensures ParseInt("0", 10) == Some(0)
  {
    ParseIntToString(0);
    assert IntToString(0) == "0";
  }

  /** A value inside the widget's range is sent as a fraction between 0 and 1. */
  lemma FractionInUnit(value: int, w: Widget)
    requires w.minimum <= value <= w.maximum
    ensures 0.0 <= Fraction(value, w) <= 1.0
    ensures value == w.minimum ==> Fraction(value, w) == 0.0
    ensures value == w.maximum && w.maximum > w.minimum ==> Fraction(value, w) == 1.0
  {
  }

  /** A stepped slider moved in the window is clicked to the new value, which becomes the last value. */
  lemma SendSliderStepped(s: StepState, control: string, value: int, w: Widget, def: ControlDef)
    requires def.ids.Some? && def.ids.value.decrease != def.ids.value.increase
    ensures var t := SendSlider(s, control, value, w, def);
      control in t.last && t.last[control] == value && t.active == s.active &&
      |t.sent| >= |s.sent| && t.sent[..|s.sent|] == s.sent &&
      NetMove(t.sent[|s.sent|..], def.ids.value) == value - Current(s.last, control, w)
  {
    var t := SendSlider(s, control, value, w, def);
    assert t.sent[|s.sent|..] == Clicks(def.ids.value, Current(s.last, control, w), value);
    ClicksMove(def.ids.value, Current(s.last, control, w), value);
  }

  /** Any other slider is sent one value command and nothing else changes. */
  lemma SendSliderContinuous(s: StepState, control: string, value: int, w: Widget, def: ControlDef)
    requires def.ids.None?
    ensures SendSlider(s, control, value, w, def) ==
      s.(sent := s.sent + [ControlValue(control, Fraction(value, w))])
  {
  }

  // ---------------------------------------------------------------------------
  // The window, updated in place
  // ---------------------------------------------------------------------------

  class StepBindings {
    var tracking: bool
    var active: map<string, set<string>>
    var last: map<string, int>
    var sent: seq<Command>

    function State(): StepState
      reads this
    {
      StepState(tracking, active, last, sent)
    }

    constructor()
      ensures State() == StepState(false, map[], map[], [])
    {
      tracking := false;
      active := map[];
      last := map[];
      sent := [];
    }

    /** The list comprehension that sends `n` clicks of one command. */
    method SendClicks(id: int, n: nat)
      modifies this
      ensures State() == old(State()).(sent := old(sent) + Repeat(Click(id), n))
    {
      var i := 0;
      while i < n
        invariant 0 <= i <= n
        invariant State() == old(State()).(sent := old(sent) + Repeat(Click(id), i))
      {
        RepeatOneMore(Click(id), i);
        sent := sent + [Click(id)];
        i := i + 1;
      }
    }

    /** Clicks from `from` to `to`, as the two comprehensions of the source. */
    method ClickFromTo(ids: StepIds, from: int, to: int)
      modifies this
      ensures State() == old(State()).(sent := old(sent) + Clicks(ids, from, to))
    {
      if to > from {
        SendClicks(ids.increase, to - from);
      } else if to < from {
        SendClicks(ids.decrease, from - to);
      }
    }

    method ExecuteStepBinding(control: string, stepText: string, widget: Option<Widget>, def: ControlDef)
      modifies this
      ensures State() == ExecuteStep(old(State()), control, stepText, widget, def)
    {
      if widget.None? || !widget.value.enabled {
        return;
      }
      if def.ids.None? || !def.isSlider {
        return;
      }
      var target := ParseInt(stepText, 10);
      if target.None? {
        return;
      }
      MoveTo(control, stepText, target.value, widget.value, def.ids.value);
    }

    method MoveTo(control: string, stepText: string, target: int, w: Widget, ids: StepIds)
      modifies this
      ensures State() == StepTo(old(State()), control, stepText, target, w, ids)
    {
      tracking := true;
      active := active[control := {stepText}];
      var current := if control in last then last[control] else w.value;
      ClickFromTo(ids, current, target);
      last := last[control := target];
    }

    /** The `for ... break` that looks for the neutral step. */
    method FindNeutral(steps: seq<(string, string)>) returns (r: Option<string>)
      ensures r == NeutralStep(steps)
    {
      var i := 0;
      while i < |steps|
        invariant 0 <= i <= |steps|
        invariant NeutralStep(steps) == NeutralStep(steps[i..])
      {
        if IsNeutral(steps[i]) {
          return Some(steps[i].0);
        }
        assert steps[i..][1..] == steps[i + 1..];
        i := i + 1;
      }
      return None;
    }

    method ReleaseStepBinding(control: string, stepText: string, widget: Option<Widget>, def: ControlDef)
      modifies this
      ensures State() == ReleaseStep(old(State()), control, stepText, widget, def)
    {
      if !tracking {
        return;
      }
      var held := if control in active then active[control] else {};
      if stepText in held {
        held := held - {stepText};
        active := active[control := held];
      }
      if held == {} {
        var neutral := FindNeutral(def.steps);
        if neutral.Some? {
          ExecuteStepBinding(control, neutral.value, widget, def);
        }
      }
    }

    method SendSliderValue(control: string, value: int, w: Widget, def: ControlDef)
      modifies this
      ensures State() == SendSlider(old(State()), control, value, w, def)
    {
      if def.ids.Some? {
        var current := if control in last then last[control] else w.value;
        ClickFromTo(def.ids.value, current, value);
        last := last[control := value];
      } else {
        var range := w.maximum - w.minimum;
        var fraction := if range > 0 then (value - w.minimum) as real / range as real else 0.0;
        sent := sent + [ControlValue(control, fraction)];
      }
    }
  }

  lemma RepeatOneMore(c: Command, n: nat)
    ensures Repeat(c, n + 1) == Repeat(c, n) + [c]
  {
    if n > 0 {
      RepeatOneMore(c, n - 1);
    }
  }
}
