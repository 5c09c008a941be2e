/**
 * The Saitek switch panel's edge detector: each HID report is compared with
 * the switch positions seen last, and an ON or OFF event is emitted for every
 * switch whose position changed.
 *
 * The HID device, its read loop and threads are not modelled; a report is
 * the sequence of bytes the device returned.
 */
module Saitek {
  import opened Common

  /** The aliases of `PANEL_MAPPING`. */
  datatype Alias =
    | Bat | Alt | Avionics | FuelPump | DeIce | PitotHeat | Cowl | Panel
    | Beacon | Nav | Strobe | Taxi | Landing
    | DialOff | DialR | DialL | DialBoth | DialStart
    | GearUp | GearDown

  /** The alias as the panel's events and the bindings spell it. */
  function Name(a: Alias): string {
    match a
    case Bat => "BAT" case Alt => "ALT" case Avionics => "AVIONICS" case FuelPump => "FUEL PUMP"
    case DeIce => "DE-ICE" case PitotHeat => "PITOT HEAT" case Cowl => "COWL" case Panel => "PANEL"
    case Beacon => "BEACON" case Nav => "NAV" case Strobe => "STROBE" case Taxi => "TAXI"
    case Landing => "LANDING"
    case DialOff => "DIAL_OFF" case DialR => "DIAL_R" case DialL => "DIAL_L"
    case DialBoth => "DIAL_BOTH" case DialStart => "DIAL_START"
    case GearUp => "GEAR_UP" case GearDown => "GEAR_DOWN"
  }

  /** Where a switch's bit sits in a report. */
  datatype BitPos = BitPos(index: nat, bit: nat)

  /** `PANEL_MAPPING[alias]` */
  function Position(a: Alias): (m: BitPos)
    ensures m.index < 3 && m.bit < 8
  {
    match a
    case Bat => BitPos(0, 0) case Alt => BitPos(0, 1)
    case Avionics => BitPos(0, 2) case FuelPump => BitPos(0, 3)
    case DeIce => BitPos(0, 4) case PitotHeat => BitPos(0, 5)
    case Cowl => BitPos(0, 6) case Panel => BitPos(0, 7)
    case Beacon => BitPos(1, 0) case Nav => BitPos(1, 1)
    case Strobe => BitPos(1, 2) case Taxi => BitPos(1, 3)
    case Landing => BitPos(1, 4)
    case DialOff => BitPos(2, 1)
    case DialR => BitPos(1, 5)
    case DialL => BitPos(1, 6)
    case DialBoth => BitPos(1, 7)
    case DialStart => BitPos(2, 0)
    case GearUp => BitPos(2, 2) case GearDown => BitPos(2, 3)
  }

  /** The alias a name spells, if any (the keys of `PANEL_MAPPING`). */
  function AliasNamed(s: string): (r: Option<Alias>)
    ensures r.Some? ==> Name(r.value) == s
  {
    if s == "BAT" then Some(Bat) else if s == "ALT" then Some(Alt)
    else if s == "AVIONICS" then Some(Avionics) else if s == "FUEL PUMP" then Some(FuelPump)
    else if s == "DE-ICE" then Some(DeIce) else if s == "PITOT HEAT" then Some(PitotHeat)
    else if s == "COWL" then Some(Cowl) else if s == "PANEL" then Some(Panel)
    else if s == "BEACON" then Some(Beacon) else if s == "NAV" then Some(Nav)
    else if s == "STROBE" then Some(Strobe) else if s == "TAXI" then Some(Taxi)
    else if s == "LANDING" then Some(Landing)
    else if s == "DIAL_OFF" then Some(DialOff) else if s == "DIAL_R" then Some(DialR)
    else if s == "DIAL_L" then Some(DialL) else if s == "DIAL_BOTH" then Some(DialBoth)
    else if s == "DIAL_START" then Some(DialStart)
    else if s == "GEAR_UP" then Some(GearUp) else if s == "GEAR_DOWN" then Some(GearDown)
    else None
  }

  const SWITCH_NAMES: seq<Alias> := [Bat, Alt, Avionics, FuelPump, DeIce, PitotHeat, Cowl,
                                     Panel, Beacon, Nav, Strobe, Taxi, Landing]
  const GEAR_NAMES: seq<Alias> := [GearUp, GearDown]
  const ROTARY_POSITIONS: seq<Alias> := [DialOff, DialR, DialL, DialBoth, DialStart]

  /** `saitek_event.emit(name, "ON" if on else "OFF")` */
  datatype Event = Event(name: string, on: bool)

  function StateText(on: bool): string {
    if on then "ON" else "OFF"
  }

  /** `data[byte] & (1 << bit) != 0` */
  function BitTest(b: byte, k: nat): bool
    requires k < 8
  {
    (b as bv8) & ((1 as bv8) << k) != 0
  }

  /** The switch's bit in the report; false when the report is too short to hold it. */
  function BitOf(data: seq<byte>, a: Alias): bool {
    var m := Position(a);
    m.index < |data| && BitTest(data[m.index], m.bit)
  }

  /** `is_bit_set`: false for an unknown alias and for a byte the report does not have. */
  function IsBitSet(data: seq<byte>, alias: string): bool {
    match AliasNamed(alias)
    case None => false
    case Some(a) => BitOf(data, a)
  }

  /**
   * One switch of `handle_input`: an event, and a new record, exactly when
   * the switch's bit differs from the recorded position (or none is
   * recorded).
   */
  function SwitchStep(a: Alias, data: seq<byte>, st: map<Alias, bool>): (seq<Event>, map<Alias, bool>) {
    var on := BitOf(data, a);
    if a !in st || st[a] != on then ([Event(Name(a), on)], st[a := on]) else ([], st)
  }

  /** The switches of `names`, in order. */
  function SwitchPass(names: seq<Alias>, data: seq<byte>, st: map<Alias, bool>): (seq<Event>, map<Alias, bool>) {
    if names == [] then ([], st)
    else
      var before := SwitchPass(names[..|names| - 1], data, st);
      var step := SwitchStep(names[|names| - 1], data, before.1);
      (before.0 + step.0, step.1)
  }

  /** `next((pos for pos in ROTARY_POSITIONS if is_bit_set(data, pos)), None)` */
  function FirstSet(positions: seq<Alias>, data: seq<byte>): Option<Alias> {
    if positions == [] then None
    else if BitOf(data, positions[0]) then Some(positions[0])
    else FirstSet(positions[1..], data)
  }

  /** The rotary dial: on a change, OFF for the old position, then ON for the new one. */
  function RotaryStep(data: seq<byte>, last: Option<Alias>): (seq<Event>, Option<Alias>) {
    var current := FirstSet(ROTARY_POSITIONS, data);
    if current == last then ([], last)
    else
      ((if last.Some? then [Event(Name(last.value), false)] else [])
       + (if current.Some? then [Event(Name(current.value), true)] else []), current)
  }

  /** The panel's record of the last positions: the switches and gear, and the dial. */
  datatype PanelState = PanelState(switches: map<Alias, bool>, rotary: Option<Alias>, emitted: seq<Event>)

  /** All of `handle_input`: the toggle switches, then the gear, then the dial. */
  function HandleInput(s: PanelState, data: seq<byte>): PanelState {
    var sw := SwitchPass(SWITCH_NAMES, data, s.switches);
    var gear := SwitchPass(GEAR_NAMES, data, sw.1);
    var dial := RotaryStep(data, s.rotary);
    PanelState(gear.1, dial.1, s.emitted + sw.0 + gear.0 + dial.0)
  }

  // ---------------------------------------------------------------------------
  // Properties
  // ---------------------------------------------------------------------------

  predicate Distinct(names: seq<Alias>) {
    forall i, j :: 0 <= i < j < |names| ==> names[i] != names[j]
  }

  /** The events a pass emits, by a filter: each switch whose bit differs from the record. */
  function Changed(names: seq<Alias>, data: seq<byte>, st: map<Alias, bool>): seq<Event> {
    if names == [] then []
    else
      var n := names[|names| - 1];
      Changed(names[..|names| - 1], data, st)
      + (if n !in st || st[n] != BitOf(data, n) then [Event(Name(n), BitOf(data, n))] else [])
  }

  /** After a pass every switch of the list records its bit, and no other record changes. */
  lemma {:induction false} SwitchPassRecords(names: seq<Alias>, data: seq<byte>, st: map<Alias, bool>)
    ensures var r := SwitchPass(names, data, st).1;
      (forall n :: n in names ==> n in r && r[n] == BitOf(data, n)) &&
      (forall n :: n !in names ==> (n in r <==> n in st) && (n in st ==> r[n] == st[n]))
  {
    if names != [] {
      var front := names[..|names| - 1];
      SwitchPassRecords(front, data, st);
      assert forall n :: n in names ==> n in front || n == names[|names| - 1];
    }
  }

  /** With distinct names the events are exactly the changed switches, in list order. */
  lemma {:induction false} SwitchPassEvents(names: seq<Alias>, data: seq<byte>, st: map<Alias, bool>)
    requires Distinct(names)
    ensures SwitchPass(names, data, st).0 == Changed(names, data, st)
  {
    if names != [] {
      var front := names[..|names| - 1];
      var n := names[|names| - 1];
      assert Distinct(front);
      SwitchPassEvents(front, data, st);
      SwitchPassRecords(front, data, st);
      assert n !in front;
    }
  }

  /** A pass over switches already at their recorded positions emits nothing and changes nothing. */
  lemma {:induction false} SwitchPassQuiet(names: seq<Alias>, data: seq<byte>, st: map<Alias, bool>)
    requires forall n :: n in names ==> n in st && st[n] == BitOf(data, n)
    ensures SwitchPass(names, data, st) == ([], st)
  {
    if names != [] {
      var front := names[..|names| - 1];
      var n := names[|names| - 1];
      assert forall m :: m in front ==> m in names;
      SwitchPassQuiet(front, data, st);
      var before := SwitchPass(front, data, st);
      assert before.0 == [] && before.1 == st;
      var step := SwitchStep(n, data, before.1);
      assert step.0 == [] && step.1 == st;
      assert before.0 + step.0 == [];
    }
  }

  /** With nothing recorded, every switch of the list emits one event, carrying its bit. */
  lemma {:induction false} ChangedFromNothing(names: seq<Alias>, data: seq<byte>)
    ensures var e := Changed(names, data, map[]);
      |e| == |names| && forall i :: 0 <= i < |names| ==> e[i] == Event(Name(names[i]), BitOf(data, names[i]))
  {
    if names != [] {
      ChangedFromNothing(names[..|names| - 1], data);
    }
  }

  /** `FirstSet` is the first position whose bit is set, and `None` only when none is. */
  lemma {:induction false} FirstSetIsFirst(positions: seq<Alias>, data: seq<byte>)
    ensures var r := FirstSet(positions, data);
      (r.None? <==> forall i :: 0 <= i < |positions| ==> !BitOf(data, positions[i])) &&
      (r.Some? ==> exists i :: 0 <= i < |positions| && positions[i] == r.value && BitOf(data, positions[i]) &&
                              forall j :: 0 <= j < i ==> !BitOf(data, positions[j]))
  {
    if positions != [] && !BitOf(data, positions[0]) {
      var rest := positions[1..];
      FirstSetIsFirst(rest, data);
      var r := FirstSet(positions, data);
      if r.Some? {
        var i :| 0 <= i < |rest| && rest[i] == r.value && BitOf(data, rest[i]) &&
                 forall j :: 0 <= j < i ==> !BitOf(data, rest[j]);
        assert positions[i + 1] == rest[i];
        forall j | 0 <= j < i + 1 ensures !BitOf(data, positions[j]) {
          if j > 0 { assert positions[j] == rest[j - 1]; }
        }
      } else {
        forall i | 0 <= i < |positions| ensures !BitOf(data, positions[i]) {
          if i > 0 { assert positions[i] == rest[i - 1]; }
        }
      }
    }
  }

  /**
   * The dial: no event when the position is unchanged; otherwise OFF for the
   * old position (if any) comes before ON for the new one (if any), and the
   * new position is recorded.
   */
  lemma RotaryEvents(data: seq<byte>, last: Option<Alias>)
    ensures var r := RotaryStep(data, last); var current := FirstSet(ROTARY_POSITIONS, data);
      r.1 == current &&
      (current == last ==> r.0 == []) &&
      (current != last && last.Some? && current.Some? ==> r.0 == [Event(Name(last.value), false), Event(Name(current.value), true)]) &&
      (current != last && last.None? ==> r.0 == [Event(Name(current.value), true)]) &&
      (current != last && current.None? ==> r.0 == [Event(Name(last.value), false)])
  {
  }

  /** The switch and gear lists name each switch once, and the gear positions are not switches. */
  lemma NamesDistinct()
    ensures Distinct(SWITCH_NAMES) && Distinct(GEAR_NAMES)
    ensures GearUp !in SWITCH_NAMES && GearDown !in SWITCH_NAMES
  {
    assert forall i :: 0 <= i < |SWITCH_NAMES| ==> Ordinal(SWITCH_NAMES[i]) == i;
  }

  /** An alias's place in `PANEL_MAPPING`. */
  function Ordinal(a: Alias): nat {
    match a
    case Bat => 0 case Alt => 1 case Avionics => 2 case FuelPump => 3 case DeIce => 4
    case PitotHeat => 5 case Cowl => 6 case Panel => 7 case Beacon => 8 case Nav => 9
    case Strobe => 10 case Taxi => 11 case Landing => 12
    case DialOff => 13 case DialR => 14 case DialL => 15 case DialBoth => 16 case DialStart => 17
    case GearUp => 18 case GearDown => 19
  }

  /** The names the events carry tell the aliases apart. */
  lemma NameInjective(a: Alias, b: Alias)
    ensures Name(a) == Name(b) ==> a == b
  {
    if Name(a) == Name(b) {
      assert AliasNamed(Name(a)) == Some(a);
      assert AliasNamed(Name(b)) == Some(b);
    }
  }

  /**
   * One report: the events are the changed toggle switches in list order,
   * then the changed gear positions, then the dial's events; every switch
   * and gear position now records its bit, and the dial its position.
   */
  lemma HandleInputEvents(s: PanelState, data: seq<byte>)
    ensures var t := HandleInput(s, data);
      var st1 := SwitchPass(SWITCH_NAMES, data, s.switches).1;
      t.emitted == s.emitted + Changed(SWITCH_NAMES, data, s.switches) + Changed(GEAR_NAMES, data, st1)
                   + RotaryStep(data, s.rotary).0 &&
      (forall n :: (n in SWITCH_NAMES || n in GEAR_NAMES) ==> n in t.switches && t.switches[n] == BitOf(data, n)) &&
      t.rotary == FirstSet(ROTARY_POSITIONS, data)
  {
    NamesDistinct();
    var sw := SwitchPass(SWITCH_NAMES, data, s.switches);
    SwitchPassEvents(SWITCH_NAMES, data, s.switches);
    SwitchPassEvents(GEAR_NAMES, data, sw.1);
    SwitchPassRecords(SWITCH_NAMES, data, s.switches);
    SwitchPassRecords(GEAR_NAMES, data, sw.1);
  }

  /** Idempotence: the same report a second time emits nothing and changes nothing. */
  lemma HandleInputIdempotent(s: PanelState, data: seq<byte>)
    ensures var t := HandleInput(s, data); HandleInput(t, data) == t
  {
    var t := HandleInput(s, data);
    HandleInputEvents(s, data);
    SwitchPassQuiet(SWITCH_NAMES, data, t.switches);
    SwitchPassQuiet(GEAR_NAMES, data, t.switches);
  }

  /**
   * The first report, with nothing recorded, emits one event for each of the
   * 13 toggle switches and both gear positions, in that order, followed by
   * ON for the dial's position when one is set.
   */
  lemma FirstReportEmitsAll(data: seq<byte>)
    ensures var t := HandleInput(PanelState(map[], None, []), data);
      |t.emitted| == 15 + (if FirstSet(ROTARY_POSITIONS, data).Some? then 1 else 0) &&
      (forall i :: 0 <= i < 13 ==> t.emitted[i] == Event(Name(SWITCH_NAMES[i]), BitOf(data, SWITCH_NAMES[i]))) &&
      t.emitted[13] == Event("GEAR_UP", BitOf(data, GearUp)) &&
      t.emitted[14] == Event("GEAR_DOWN", BitOf(data, GearDown))
  {
    var s := PanelState(map[], None, []);
    HandleInputEvents(s, data);
    var st1 := SwitchPass(SWITCH_NAMES, data, map[]).1;
    var sw := Changed(SWITCH_NAMES, data, map[]);
    var gear := Changed(GEAR_NAMES, data, st1);
    var dial := RotaryStep(data, None).0;
    ChangedFromNothing(SWITCH_NAMES, data);
    SwitchPassRecords(SWITCH_NAMES, data, map[]);
    GearsFresh(st1);
    ChangedIgnoresOthers(GEAR_NAMES, data, st1, map[]);
    ChangedFromNothing(GEAR_NAMES, data);
    assert |sw| == 13 && |gear| == 2;
    assert gear[0] == Event(Name(GEAR_NAMES[0]), BitOf(data, GEAR_NAMES[0]));
    assert gear[1] == Event(Name(GEAR_NAMES[1]), BitOf(data, GEAR_NAMES[1]));
    assert |dial| == (if FirstSet(ROTARY_POSITIONS, data).Some? then 1 else 0);
    EmittedPrefix([] + sw + gear + dial, sw, gear, dial);
    GearSpelling();
  }

  lemma GearSpelling()
    ensures Name(GearUp) == "GEAR_UP" && Name(GearDown) == "GEAR_DOWN"
  {
  }

  /** Indexing into the three parts of a report's events. */
  lemma EmittedPrefix(e: seq<Event>, sw: seq<Event>, gear: seq<Event>, dial: seq<Event>)
    requires e == [] + sw + gear + dial
    ensures |e| == |sw| + |gear| + |dial|
    ensures forall i :: 0 <= i < |sw| ==> e[i] == sw[i]
    ensures forall i :: 0 <= i < |gear| ==> e[|sw| + i] == gear[i]
  {
  }

  /** After the toggle switches, with nothing recorded before, the gear positions are still unrecorded. */
  lemma GearsFresh(st: map<Alias, bool>)
    requires forall n :: n !in SWITCH_NAMES ==> n !in st
    ensures GearUp !in st && GearDown !in st
  {
    NamesDistinct();
  }

  /** `Changed` reads the record only at the listed names. */
  lemma {:induction false} ChangedIgnoresOthers(names: seq<Alias>, data: seq<byte>, a: map<Alias, bool>, b: map<Alias, bool>)
    requires forall n :: n in names ==> (n in a <==> n in b) && (n in a ==> a[n] == b[n])
    ensures Changed(names, data, a) == Changed(names, data, b)
  {
    if names != [] {
      var front := names[..|names| - 1];
      assert forall n :: n in front ==> n in names;
      ChangedIgnoresOthers(front, data, a, b);
    }
  }

  /** `is_bit_set` is false for an alias the mapping lacks or a byte past the report's end. */
  lemma BitOutsideReport(data: seq<byte>, alias: string)
    requires var a := AliasNamed(alias); a.None? || Position(a.value).index >= |data|
    ensures !IsBitSet(data, alias)
  {
  }

  /** `is_bit_set` on a switch's name reads that switch's bit. */
  lemma IsBitSetByName(data: seq<byte>, a: Alias)
    ensures IsBitSet(data, Name(a)) == BitOf(data, a)
  {
    assert AliasNamed(Name(a)) == Some(a);
  }

  /** The battery switch reads bit 0 of the panel's first byte. */
  lemma BatteryBit(data: seq<byte>)
    requires |data| > 0
    ensures IsBitSet(data, "BAT") <==> (data[0] as bv8) & 1 != 0
  {
  }

  /** The landing light reads bit 4 of the second byte. */
  lemma LandingBit(data: seq<byte>)
    requires |data| > 1
    ensures IsBitSet(data, "LANDING") <==> (data[1] as bv8) & 16 != 0
  {
  }

  // ---------------------------------------------------------------------------
  // The panel manager, updated in place
  // ---------------------------------------------------------------------------

  class PanelManager {
    var switches: map<Alias, bool>
    var rotary: Option<Alias>
    var emitted: seq<Event>

    function State(): PanelState
      reads this
    {
      PanelState(switches, rotary, emitted)
    }

    constructor()
      ensures State() == PanelState(map[], None, [])
    {
      switches := map[];
      rotary := None;
      emitted := [];
    }

    /** One switch: emit and record on a change. */
    method Check(a: Alias, data: seq<byte>)
      modifies this
      ensures var r := SwitchStep(a, data, old(switches));
        switches == r.1 && emitted == old(emitted) + r.0 && rotary == old(rotary)
    {
      var on := BitOf(data, a);
      if a !in switches || switches[a] != on {
        emitted := emitted + [Event(Name(a), on)];
        switches := switches[a := on];
      }
    }

    /** The loop over `SWITCH_NAMES`. */
    method CheckAll(names: seq<Alias>, data: seq<byte>)
      modifies this
      ensures var r := SwitchPass(names, data, old(switches));
        switches == r.1 && emitted == old(emitted) + r.0 && rotary == old(rotary)
    {
      var i := 0;
      while i < |names|
        invariant 0 <= i <= |names|
        invariant var r := SwitchPass(names[..i], data, old(switches));
          switches == r.1 && emitted == old(emitted) + r.0 && rotary == old(rotary)
      {
        assert names[..i + 1][..i] == names[..i];
        Check(names[i], data);
        i := i + 1;
      }
      assert names[..|names|] == names;
    }

    method HandleReport(data: seq<byte>)
      modifies this
      ensures State() == HandleInput(old(State()), data)
    {
      CheckAll(SWITCH_NAMES, data);
      CheckGears(data);
      CheckDial(data);
    }

    /** GEAR_UP, then GEAR_DOWN. */
    method CheckGears(data: seq<byte>)
      modifies this
      ensures var r := SwitchPass(GEAR_NAMES, data, old(switches));
        switches == r.1 && emitted == old(emitted) + r.0 && rotary == old(rotary)
    {
      GearPassTwo(data, switches);
      Check(GearUp, data);
      Check(GearDown, data);
    }

    /** The dial: OFF for the old position, then ON for the new one. */
    method CheckDial(data: seq<byte>)
      modifies this
      ensures var r := RotaryStep(data, old(rotary));
        rotary == r.1 && emitted == old(emitted) + r.0 && switches == old(switches)
    {
      var current := FirstSet(ROTARY_POSITIONS, data);
      var last := rotary;
      if current != last {
        if last.Some? {
          emitted := emitted + [Event(Name(last.value), false)];
        }
        if current.Some? {
          emitted := emitted + [Event(Name(current.value), true)];
        }
        rotary := current;
      }
    }
  }

  /** The two gear checks are the pass over `GEAR_NAMES`. */
  lemma GearPassTwo(data: seq<byte>, st: map<Alias, bool>)
    ensures var up := SwitchStep(GearUp, data, st);
      var down := SwitchStep(GearDown, data, up.1);
      SwitchPass(GEAR_NAMES, data, st) == (up.0 + down.0, down.1)
  {
    var up := SwitchStep(GearUp, data, st);
    var front := GEAR_NAMES[..|GEAR_NAMES| - 1];
    assert front == [GearUp] && front[..|front| - 1] == [];
    assert SwitchPass([], data, st) == ([], st);
    assert [] + up.0 == up.0;
    assert SwitchPass(front, data, st) == (up.0, up.1);
  }
}
