/**
 * The TrackIR bookkeeping of the main window: the per-camera address lists
 * that the scanners' output lines fill, the "try next address" rotation, the
 * manual address switch, the game-exit check and the writer buttons.
 *
 * Processes are not modelled; what the window asks of them (write a file,
 * start or stop a worker) is recorded, in order, as a list of effects.
 */
module Controller {
  import opened Common
  import opened PyText
  import Scanner
  import Writer

  datatype Camera = Cab | External | Interior

  /** The key of a camera in the window's dictionaries. */
  function Name(c: Camera): string {
    match c
    case Cab => "cab"
    case External => "external"
    case Interior => "interior"
  }

  /** `cam in self.trackir_addresses`: the camera a key names, if any. */
  function CameraNamed(s: string): (r: Option<Camera>)
    ensures r.Some? ==> Name(r.value) == s
    ensures r.None? ==> forall c: Camera :: Name(c) != s
  {
    if s == "cab" then Some(Cab)
    else if s == "external" then Some(External)
    else if s == "interior" then Some(Interior)
    else None
  }

  // ---------------------------------------------------------------------------
  // The lines the workers print, and what the window reads in them
  // ---------------------------------------------------------------------------

  datatype ScannerEvent = PidFound(pid: int) | AddressFound(camera: string, address: string) | NoEvent

  /**
   * One line of a scanner's output, as `_read_scanner_output` reads it. A
   * `FOUND_PID:` line carries the game's process id in its third `:`-field; a
   * `FOUND_ADDRESS:` line a camera name and an address in its second and third.
   * A line too short for its fields, or a process id that is not a number,
   * raises inside a `try` that swallows it: no event.
   */
  function ScannerEventOf(line: string): ScannerEvent {
    var decoded := Strip(line);
    if Contains(decoded, "FOUND_PID:") then
      var parts := SplitOn(decoded, ':');
      if |parts| < 3 then NoEvent
      else
        // `int(x.strip())`: `int` strips the surrounding whitespace itself
        var pid := ParseInt(parts[2], 10);
        if pid.Some? then PidFound(pid.value) else NoEvent
    else if Contains(decoded, "FOUND_ADDRESS:") then
      var parts := SplitOn(decoded, ':');
      if |parts| < 3 then NoEvent else AddressFound(Lower(Strip(parts[1])), Strip(parts[2]))
    else NoEvent
  }

  /** The line a scanner prints once it is attached to the game. */
  function PidLine(cameraType: string, pid: int): string {
    "FOUND_PID: " + cameraType + ": " + IntToString(pid)
  }

  /**
   * The address a `WRITE_ERROR:` line of the writer reports: the stripped text
   * after the line's first `:`.
   */
  function WriteErrorOf(line: string): Option<string> {
    var decoded := Strip(line);
    if Contains(decoded, "WRITE_ERROR:") then
      ContainedChar(decoded, "WRITE_ERROR:", ':');
      Some(Strip(AfterFirst(decoded, ':')))
    else None
  }

  lemma ContainedChar(s: string, sub: string, c: char)
    requires Contains(s, sub) && c in sub
    ensures c in s
  {
    if c !in s {
      MissingCharNotContained(s, sub, c);
    }
  }

  // ---------------------------------------------------------------------------
  // The window's state
  // ---------------------------------------------------------------------------

  /** What the window asks of the file system and of the worker processes. */
  datatype Effect =
    | WriteFile(name: string, text: string)
    | StartWriter(cabAddress: Option<string>, externalAddress: Option<string>,
                  interiorAddress: Option<string>, active: Camera)
    | StopWriter
    | StopScanner(camera: Camera)

  /** The file a running writer polls for address updates (in the temporary directory). */
  function UpdateFileName(writerPid: int): string {
    "trackir_address_update_" + IntToString(writerPid) + ".dat"
  }

  /** The file a manual address switch is written to. */
  function ManualSwitchFileName(writerPid: int): string {
    "trackir_manual_switch_" + IntToString(writerPid) + ".dat"
  }

  /** The one line an address update file holds. */
  function UpdateLine(c: Camera, address: string): string {
    Name(c) + ":" + address + "\n"
  }

  predicate Complete(m: map<Camera, seq<string>>) {
    forall c: Camera :: c in m
  }

  predicate Distinct(xs: seq<string>) {
    forall i, j :: 0 <= i < j < |xs| ==> xs[i] != xs[j]
  }

  const NO_ADDRESSES: map<Camera, seq<string>> := map[Cab := [], External := [], Interior := []]

  lemma NoAddressesComplete()
    ensures Complete(NO_ADDRESSES)
  {
    forall c: Camera ensures c in NO_ADDRESSES {
      match c
      case Cab =>
      case External =>
      case Interior =>
    }
  }

  lemma NoCameraLeft(cs: set<Camera>)
    requires Cab !in cs && External !in cs && Interior !in cs
    ensures cs == {}
  {
    forall c: Camera | c in cs ensures false {
      match c
      case Cab =>
      case External =>
      case Interior =>
    }
  }

  /**
   * The TrackIR part of the window: the address list of each camera, the
   * game's process id (0 when unknown), the running writer's process id, the
   * cameras whose scanner runs, the active camera, and the effects so far.
   */
  datatype Session = Session(
    addresses: map<Camera, seq<string>>, gamePid: int, writerPid: Option<int>,
    scanning: set<Camera>, active: Camera, effects: seq<Effect>)

  /** Every camera has a list, and no list holds an address twice. */
  predicate Good(s: Session) {
    Complete(s.addresses) && forall c: Camera :: Distinct(s.addresses[c])
  }

  function First(xs: seq<string>): Option<string> {
    if xs == [] then None else Some(xs[0])
  }

  /**
   * `start_trackir_writer`: nothing without administrator rights; otherwise
   * stop the writer that runs, and start one if the cab list is not empty,
   * passing each camera's first address and the active camera. `spawned` is
   * the new process's id, `None` when the launch fails.
   */
  function LaunchWriter(s: Session, admin: bool, spawned: Option<int>): Session
    requires Complete(s.addresses)
  {
    if !admin then s
    else
      var s1 := if s.writerPid.Some? then s.(writerPid := None, effects := s.effects + [StopWriter]) else s;
      if s1.addresses[Cab] == [] then s1
      else
        var start := StartWriter(First(s1.addresses[Cab]), First(s1.addresses[External]),
                                 First(s1.addresses[Interior]), s1.active);
        s1.(writerPid := spawned, effects := s1.effects + [start])
  }

  /** A new address for camera `c`: kept, sent to a running writer, and with no writer a cab address starts one. */
  function Found(s: Session, c: Camera, address: string, admin: bool, spawned: Option<int>): Session
    requires Complete(s.addresses)
  {
    var s1 := s.(addresses := s.addresses[c := s.addresses[c] + [address]]);
    if s.writerPid.Some? then
      s1.(effects := s1.effects + [WriteFile(UpdateFileName(s.writerPid.value), UpdateLine(c, address))])
    else if c == Cab then LaunchWriter(s1, admin, spawned)
    else s1
  }

  /** What one scanner event does to the window's state. */
  function ScannerStep(s: Session, e: ScannerEvent, admin: bool, spawned: Option<int>): (r: Session)
    requires Complete(s.addresses)
    ensures Complete(r.addresses)
  {
    match e
    case NoEvent => s
    case PidFound(pid) =>
      NoAddressesComplete();
      if s.gamePid != 0 && s.gamePid != pid then s.(addresses := NO_ADDRESSES, gamePid := pid)
      else s.(gamePid := pid)
    case AddressFound(name, address) =>
      var c := CameraNamed(name);
      if c.None? || address in s.addresses[c.value] then s
      else Found(s, c.value, address, admin, spawned)
  }

  /** `addresses.append(addresses.pop(0))` on a list of two or more. */
  function Rotate(xs: seq<string>): seq<string> {
    if |xs| < 2 then xs else xs[1..] + [xs[0]]
  }

  /**
   * `switch_camera_address`: the first word of the list item's text (which
   * drops a trailing ` [ACTIVE]`) is sent to a running writer as a manual
   * switch, or else becomes the camera's only address. An item text with no
   * word raises before anything changes.
   */
  function SwitchStep(s: Session, c: Camera, text: string): Session
    requires Complete(s.addresses)
  {
    var words := Split(text);
    if words == [] then s
    else if s.writerPid.Some? then
      s.(effects := s.effects + [WriteFile(ManualSwitchFileName(s.writerPid.value), UpdateLine(c, words[0]))])
    else s.(addresses := s.addresses[c := [words[0]]])
  }

  /** `try_next_address`: rotate a list of two or more and switch to its new head. */
  function TryNextStep(s: Session, c: Camera): Session
    requires Complete(s.addresses)
  {
    var xs := s.addresses[c];
    if |xs| < 2 then s
    else SwitchStep(s.(addresses := s.addresses[c := Rotate(xs)]), c, xs[1])
  }

  /** The effects of stopping each camera's scanner that runs, in dictionary order. */
  function StopScanners(scanning: set<Camera>): seq<Effect> {
    (if Cab in scanning then [StopScanner(Cab)] else [])
    + (if External in scanning then [StopScanner(External)] else [])
    + (if Interior in scanning then [StopScanner(Interior)] else [])
  }

  /**
   * `check_trackir_game_status`, given whether the game's process still
   * exists: once the known game is gone, stop the writer and the scanners,
   * forget the process id and empty every list.
   */
  function GameCheckStep(s: Session, gameAlive: bool): Session {
    if s.gamePid == 0 || gameAlive then s
    else
      var stopWriter := if s.writerPid.Some? then [StopWriter] else [];
      s.(writerPid := None, scanning := {}, gamePid := 0, addresses := NO_ADDRESSES,
         effects := s.effects + stopWriter + StopScanners(s.scanning))
  }

  // ---------------------------------------------------------------------------
  // The writer buttons (`update_writer_button_states`)
  // ---------------------------------------------------------------------------

  predicate StartEnabled(s: Session, c: Camera)
    requires Complete(s.addresses)
  {
    (|s.addresses[c]| > 0 || (c == Cab && Cab in s.scanning)) && s.writerPid.None?
  }

  predicate StopEnabled(s: Session, c: Camera) {
    s.writerPid.Some? && s.active == c
  }

  predicate StartAllEnabled(s: Session)
    requires Complete(s.addresses)
  {
    ((exists c: Camera :: |s.addresses[c]| > 0) || Cab in s.scanning) && s.writerPid.None?
  }

  predicate StopAllEnabled(s: Session) {
    s.writerPid.Some?
  }

  // ---------------------------------------------------------------------------
  // Reading back what the workers print
  // ---------------------------------------------------------------------------

  lemma NameLetters(c: Camera)
    ensures Name(c) != []
    ensures forall i :: 0 <= i < |Name(c)| ==> 'a' <= Name(c)[i] <= 'z' && Name(c)[i] != 'p'
  {
  }

  /** Upper-casing lower-case letters other than `p`, and lower-casing back. */
  lemma UpperOfLetters(s: string)
    requires s != [] && forall i :: 0 <= i < |s| ==> 'a' <= s[i] <= 'z' && s[i] != 'p'
    ensures var u := Upper(s);
      u != [] && NoSpace(u) && ':' !in u && 'P' !in u && Lower(u) == s
  {
    UpperLetters(s);
    CapitalsOnly(Upper(s));
    LowerOfUpper(s);
  }

  lemma CapitalsOnly(u: string)
    requires forall i :: 0 <= i < |u| ==> 'A' <= u[i] <= 'Z' && u[i] != 'P'
    ensures NoSpace(u) && ':' !in u && 'P' !in u
  {
  }

  lemma UpperLetters(s: string)
    requires forall i :: 0 <= i < |s| ==> 'a' <= s[i] <= 'z' && s[i] != 'p'
    ensures forall i :: 0 <= i < |Upper(s)| ==> 'A' <= Upper(s)[i] <= 'Z' && Upper(s)[i] != 'P'
  {
  }

  lemma LowerOfUpper(s: string)
    requires forall i :: 0 <= i < |s| ==> 'a' <= s[i] <= 'z'
    ensures Lower(Upper(s)) == s
  {
    var u := Upper(s);
    var l := Lower(u);
    assert |l| == |s|;
    forall i | 0 <= i < |s| ensures l[i] == s[i] {
      assert l[i] == LowerChar(u[i]) && u[i] == UpperChar(s[i]);
      LowerUpperChar(s[i]);
    }
  }

  lemma LowerUpperChar(c: char)
    requires 'a' <= c <= 'z'
    ensures LowerChar(UpperChar(c)) == c
  {
  }

  /** The scanner prints its camera type upper-cased; lower-casing gives the key back. */
  lemma ScannerTypeName(c: Camera)
    ensures var u := Upper(Name(c));
      u != [] && NoSpace(u) && ':' !in u && 'P' !in u && Lower(u) == Name(c)
  {
    NameLetters(c);
    UpperOfLetters(Name(c));
  }

  /** Proof step for FieldLineRegroup: the separator `": "` is a colon followed by a space. */
  lemma ColonSpace()
    ensures ": " == [':'] + " "
  {
  }

  /** Proof step for FieldLineRegroup: brackets a field line around its first colon. */
  lemma Regroup(key: string, c: string, sp: string, a: string, b: string)
    ensures key + (c + sp) + a + (c + sp) + b == key + c + ((sp + a) + c + (sp + b))
  {
  }

  /** Proof step for AnnouncementRoundTrip and PidLineRoundTrip: a line made of a literal prefix ending in `": "` has the shape `KEY: a: b`. */
  lemma LiteralPrefix(prefix: string, key: string, a: string, b: string)
    requires prefix == key + ": "
    ensures prefix + a + ": " + b == key + ": " + a + ": " + b
  {
  }

  lemma FieldLineRegroup(key: string, a: string, b: string)
    ensures key + ": " + a + ": " + b == key + [':'] + ((" " + a) + [':'] + (" " + b))
  {
    ColonSpace();
    Regroup(key, [':'], " ", a, b);
  }

  lemma FieldLineSplit(key: string, a: string, b: string)
    requires ':' !in key && ':' !in a && ':' !in b
    ensures SplitOn(key + ": " + a + ": " + b, ':') == [key, " " + a, " " + b]
  {
    FieldLineRegroup(key, a, b);
    SplitOnThree(key, " " + a, " " + b, ':');
  }

  lemma FieldLineStrip(key: string, a: string, b: string)
    requires key != [] && !IsSpace(key[0]) && b != [] && !IsSpace(b[|b| - 1])
    ensures Strip(key + ": " + a + ": " + b) == key + ": " + a + ": " + b
  {
    var line := key + ": " + a + ": " + b;
    assert line[0] == key[0];
    assert line[|line| - 1] == b[|b| - 1];
    StripEnds(line);
  }

  lemma FieldLineContains(key: string, a: string, b: string)
    ensures Contains(key + ": " + a + ": " + b, key + ":")
  {
    assert key + ": " + a + ": " + b == key + ":" + (" " + a + ": " + b);
    PrefixContained(key + ":", " " + a + ": " + b);
  }

  /** How `_read_scanner_output` takes a line of the form `KEY: a: b` apart. */
  lemma FieldLineShape(key: string, a: string, b: string)
    requires key != [] && !IsSpace(key[0]) && ':' !in key
    requires a != [] && NoSpace(a) && ':' !in a && b != [] && NoSpace(b) && ':' !in b
    ensures var line := key + ": " + a + ": " + b;
      Strip(line) == line && Contains(line, key + ":") &&
      SplitOn(line, ':') == [key, " " + a, " " + b] &&
      Strip(" " + a) == a && Strip(" " + b) == b
  {
    FieldLineStrip(key, a, b);
    FieldLineContains(key, a, b);
    FieldLineSplit(key, a, b);
    StripLeadingSpace(a);
    StripLeadingSpace(b);
  }

  /** Proof step for AnnouncementRoundTrip: a character missing from four pieces is missing from their concatenation. */
  lemma NotInFour(a: string, b: string, c: string, d: string, x: char)
    requires x !in a && x !in b && x !in c && x !in d
    ensures x !in a + b + c + d
  {
  }

  /** The facts about the `FOUND_ADDRESS` marker that reading its lines needs. */
  lemma AddressKey()
    ensures "FOUND_ADDRESS: " == "FOUND_ADDRESS" + ": " && "FOUND_ADDRESS" + ":" == "FOUND_ADDRESS:"
    ensures "FOUND_ADDRESS" != [] && !IsSpace("FOUND_ADDRESS"[0]) && ':' !in "FOUND_ADDRESS"
    ensures 'P' !in "FOUND_ADDRESS: " && 'P' !in ": " && 'P' in "FOUND_PID:"
  {
    assert "FOUND_PID:"[6] == 'P';
  }

  /** The facts about the `FOUND_PID` marker that reading its lines needs. */
  lemma PidKey()
    ensures "FOUND_PID: " == "FOUND_PID" + ": " && "FOUND_PID" + ":" == "FOUND_PID:"
    ensures "FOUND_PID" != [] && !IsSpace("FOUND_PID"[0]) && ':' !in "FOUND_PID"
  {
  }

  lemma AddressLineShape(cameraType: string, h: string)
    requires cameraType != [] && NoSpace(cameraType) && ':' !in cameraType && 'P' !in cameraType
    requires h != [] && NoSpace(h) && ':' !in h && 'P' !in h
    ensures var line := "FOUND_ADDRESS: " + cameraType + ": " + h;
      Strip(line) == line && !Contains(line, "FOUND_PID:") && Contains(line, "FOUND_ADDRESS:") &&
      SplitOn(line, ':') == ["FOUND_ADDRESS", " " + cameraType, " " + h] &&
      Strip(" " + cameraType) == cameraType && Strip(" " + h) == h
  {
    AddressKey();
    LiteralPrefix("FOUND_ADDRESS: ", "FOUND_ADDRESS", cameraType, h);
    FieldLineShape("FOUND_ADDRESS", cameraType, h);
    NotInFour("FOUND_ADDRESS: ", cameraType, ": ", h, 'P');
    MissingCharNotContained("FOUND_ADDRESS: " + cameraType + ": " + h, "FOUND_PID:", 'P');
  }

  lemma AddressLineParses(cameraType: string, h: string)
    requires cameraType != [] && NoSpace(cameraType) && ':' !in cameraType && 'P' !in cameraType
    requires h != [] && NoSpace(h) && ':' !in h && 'P' !in h
    ensures ScannerEventOf("FOUND_ADDRESS: " + cameraType + ": " + h) == AddressFound(Lower(cameraType), h)
  {
    AddressLineShape(cameraType, h);
  }

  /** Round trip: every `FOUND_ADDRESS` line a scanner prints reads back as its camera and address. */
  lemma AnnouncementRoundTrip(c: Camera, a: int)
    ensures ScannerEventOf(Scanner.Announcement(Upper(Name(c)), a)) == AddressFound(Name(c), Hex(a))
  {
    ScannerTypeName(c);
    HexChars(a);
    Writer.HexNoSpaceNoColon(a);
    AddressLineParses(Upper(Name(c)), Hex(a));
  }

  lemma PidLineShape(cameraType: string, d: string)
    requires cameraType != [] && NoSpace(cameraType) && ':' !in cameraType
    requires d != [] && NoSpace(d) && ':' !in d
    ensures var line := "FOUND_PID: " + cameraType + ": " + d;
      Strip(line) == line && Contains(line, "FOUND_PID:") &&
      SplitOn(line, ':') == ["FOUND_PID", " " + cameraType, " " + d]
  {
    PidKey();
    LiteralPrefix("FOUND_PID: ", "FOUND_PID", cameraType, d);
    FieldLineShape("FOUND_PID", cameraType, d);
  }

  lemma PidLineParses(cameraType: string, d: string, pid: int)
    requires cameraType != [] && NoSpace(cameraType) && ':' !in cameraType
    requires d != [] && NoSpace(d) && ':' !in d && ParseInt(d, 10) == Some(pid)
    ensures ScannerEventOf("FOUND_PID: " + cameraType + ": " + d) == PidFound(pid)
  {
    PidLineShape(cameraType, d);
    ParseIntLeadingSpace(d, 10);
  }

  /** Round trip: the `FOUND_PID` line of a scanner reads back as the process id, whatever its sign. */
  lemma PidLineRoundTrip(c: Camera, pid: int)
    ensures ScannerEventOf(PidLine(Upper(Name(c)), pid)) == PidFound(pid)
  {
    ScannerTypeName(c);
    var d := IntToString(pid);
    IntToStringChars(pid);
    assert NoSpace(d) && ':' !in d by {
      forall i | 0 <= i < |d| ensures d[i] != ':' && !IsSpace(d[i]) {
        assert d[i] == '-' || IsDigit(d[i], 10);
      }
    }
    ParseIntToString(pid);
    PidLineParses(Upper(Name(c)), d, pid);
  }

  lemma AfterKey(key: string, rest: string)
    requires ':' !in key
    ensures ':' in key + [':'] + rest && AfterFirst(key + [':'] + rest, ':') == rest
  {
    IndexOfFirst(key, rest, ':');
    assert (key + [':'] + rest)[|key| + 1..] == rest;
  }

  lemma WriteErrorShape(rest: string)
    requires rest == [] || !IsSpace(rest[|rest| - 1])
    ensures var line := "WRITE_ERROR:" + rest;
      Strip(line) == line && Contains(line, "WRITE_ERROR:") && AfterFirst(line, ':') == rest
  {
    var line := "WRITE_ERROR:" + rest;
    assert line[|line| - 1] == if rest == [] then ':' else rest[|rest| - 1];
    StripEnds(line);
    PrefixContained("WRITE_ERROR:", rest);
    assert "WRITE_ERROR:" == "WRITE_ERROR" + [':'];
    AfterKey("WRITE_ERROR", rest);
  }

  /** A `WRITE_ERROR:` line reports the stripped rest of the line. */
  lemma WriteErrorLine(rest: string)
    requires rest == [] || !IsSpace(rest[|rest| - 1])
    ensures WriteErrorOf("WRITE_ERROR:" + rest) == Some(Strip(rest))
  {
    WriteErrorShape(rest);
  }

  /** The manual switch goes to a file the writer does not poll. */
  lemma ManualSwitchNotPolled(writerPid: int)
    ensures ManualSwitchFileName(writerPid) != UpdateFileName(writerPid)
  {
    assert ManualSwitchFileName(writerPid)[8] == 'm';
    assert UpdateFileName(writerPid)[8] == 'a';
  }

  // ---------------------------------------------------------------------------
  // Properties of the address lists
  // ---------------------------------------------------------------------------

  /**
   * A `FOUND_ADDRESS` event appends the address to the list its camera key
   * names, and only when that camera is known and the address new; no other
   * list changes.
   */
  lemma AddressEventAppends(s: Session, name: string, address: string, admin: bool, spawned: Option<int>)
    requires Complete(s.addresses)
    ensures var t := ScannerStep(s, AddressFound(name, address), admin, spawned);
      Complete(t.addresses) && t.gamePid == s.gamePid &&
      forall c: Camera :: t.addresses[c] ==
        if CameraNamed(name) == Some(c) && address !in s.addresses[c] then s.addresses[c] + [address]
        else s.addresses[c]
  {
    var c := CameraNamed(name);
    if c.Some? && address !in s.addresses[c.value] {
      var s1 := s.(addresses := s.addresses[c.value := s.addresses[c.value] + [address]]);
      FoundKeepsAddresses(s, c.value, address, admin, spawned);
    }
  }

  lemma FoundKeepsAddresses(s: Session, c: Camera, address: string, admin: bool, spawned: Option<int>)
    requires Complete(s.addresses)
    ensures Found(s, c, address, admin, spawned).addresses == s.addresses[c := s.addresses[c] + [address]]
    ensures Found(s, c, address, admin, spawned).gamePid == s.gamePid
  {
  }

  /** A process id that differs from a known one empties every list; any other keeps them. */
  lemma PidEventClears(s: Session, pid: int, admin: bool, spawned: Option<int>)
    requires Complete(s.addresses)
    ensures var t := ScannerStep(s, PidFound(pid), admin, spawned);
      t.gamePid == pid &&
      t.addresses == (if s.gamePid != 0 && s.gamePid != pid then NO_ADDRESSES else s.addresses)
  {
  }

  lemma DistinctAppend(xs: seq<string>, x: string)
    requires Distinct(xs) && x !in xs
    ensures Distinct(xs + [x])
  {
    var ys := xs + [x];
    forall i, j | 0 <= i < j < |ys| ensures ys[i] != ys[j] {
      if j == |xs| {
        assert ys[i] == xs[i];
      } else {
        assert ys[i] == xs[i] && ys[j] == xs[j];
      }
    }
  }

  /** Scanner events keep every list duplicate-free. */
  lemma ScannerStepKeepsGood(s: Session, e: ScannerEvent, admin: bool, spawned: Option<int>)
    requires Good(s)
    ensures Good(ScannerStep(s, e, admin, spawned))
  {
    NoAddressesComplete();
    match e
    case NoEvent =>
    case PidFound(pid) =>
    case AddressFound(name, address) =>
      AddressEventAppends(s, name, address, admin, spawned);
      var c := CameraNamed(name);
      if c.Some? && address !in s.addresses[c.value] {
        DistinctAppend(s.addresses[c.value], address);
      }
  }

  /** A new address for a camera, with a writer running, is sent to that writer's update file. */
  lemma WriterGetsAddress(s: Session, c: Camera, address: string, admin: bool, spawned: Option<int>)
    requires Complete(s.addresses) && s.writerPid.Some? && address !in s.addresses[c]
    ensures ScannerStep(s, AddressFound(Name(c), address), admin, spawned) ==
      s.(addresses := s.addresses[c := s.addresses[c] + [address]],
         effects := s.effects + [WriteFile(UpdateFileName(s.writerPid.value), UpdateLine(c, address))])
  {
    assert CameraNamed(Name(c)) == Some(c);
  }

  /** The writer reads the line of an update file back as the address it carries. */
  lemma UpdateLineTarget(c: Camera, a: int)
    ensures Writer.UpdateTarget(UpdateLine(c, Hex(a))) == Some(a)
  {
    NameLetters(c);
    assert ':' !in Name(c) && NoSpace(Name(c));
    Writer.UpdateRearms(Writer.WriterState(None, None, 0, true), Name(c), a);
  }

  /**
   * Scanner, window and writer together: a new address reported while a
   * writer runs is written to the file that writer polls, in a line the writer
   * reads back as that address.
   */
  lemma FoundAddressReachesWriter(s: Session, c: Camera, a: int, admin: bool, spawned: Option<int>)
    requires Complete(s.addresses) && s.writerPid.Some? && Hex(a) !in s.addresses[c]
    ensures var t := ScannerStep(s, ScannerEventOf(Scanner.Announcement(Upper(Name(c)), a)), admin, spawned);
      t.addresses[c] == s.addresses[c] + [Hex(a)] &&
      t.effects == s.effects + [WriteFile(UpdateFileName(s.writerPid.value), UpdateLine(c, Hex(a)))] &&
      Writer.UpdateTarget(UpdateLine(c, Hex(a))) == Some(a)
  {
    AnnouncementRoundTrip(c, a);
    WriterGetsAddress(s, c, Hex(a), admin, spawned);
    UpdateLineTarget(c, a);
  }

  /** The first cab address found with no writer running starts one that gets it. */
  lemma FirstCabAddressStartsWriter(s: Session, address: string, spawned: Option<int>)
    requires Complete(s.addresses) && s.writerPid.None? && s.addresses[Cab] == []
    ensures var t := ScannerStep(s, AddressFound("cab", address), true, spawned);
      t.writerPid == spawned &&
      t.effects == s.effects + [StartWriter(Some(address), First(s.addresses[External]),
                                            First(s.addresses[Interior]), s.active)]
  {
  }

  /** `try_next_address` rotation: same entries, the second becomes the head, the old head goes last. */
  lemma RotateProperties(xs: seq<string>)
    requires |xs| >= 2
    ensures |Rotate(xs)| == |xs| && multiset(Rotate(xs)) == multiset(xs)
    ensures Rotate(xs)[0] == xs[1] && Rotate(xs)[|xs| - 1] == xs[0]
    ensures Distinct(xs) ==> Distinct(Rotate(xs))
  {
    assert xs == [xs[0]] + xs[1..];
    var r := Rotate(xs);
    if Distinct(xs) {
      forall i, j | 0 <= i < j < |r| ensures r[i] != r[j] {
        if j == |xs| - 1 {
          assert r[i] == xs[i + 1] && r[j] == xs[0];
        } else {
          assert r[i] == xs[i + 1] && r[j] == xs[j + 1];
        }
      }
    }
  }

  lemma TryNextShortList(s: Session, c: Camera)
    requires Complete(s.addresses) && |s.addresses[c]| < 2
    ensures TryNextStep(s, c) == s
  {
  }

  /**
   * With a writer running, "try next address" rotates the list and writes
   * the new head as a manual switch (to a file the writer does not poll).
   */
  lemma TryNextWithWriter(s: Session, c: Camera)
    requires Complete(s.addresses) && |s.addresses[c]| >= 2 && s.writerPid.Some?
    requires s.addresses[c][1] != [] && NoSpace(s.addresses[c][1])
    ensures var t := TryNextStep(s, c);
      t.addresses == s.addresses[c := Rotate(s.addresses[c])] &&
      t.effects == s.effects + [WriteFile(ManualSwitchFileName(s.writerPid.value), UpdateLine(c, s.addresses[c][1]))]
  {
    SplitWord(s.addresses[c][1]);
  }

  /** With no writer, "try next address" leaves the list holding only its old second entry. */
  lemma TryNextWithoutWriter(s: Session, c: Camera)
    requires Complete(s.addresses) && |s.addresses[c]| >= 2 && s.writerPid.None?
    requires s.addresses[c][1] != [] && NoSpace(s.addresses[c][1])
    ensures TryNextStep(s, c).addresses == s.addresses[c := [s.addresses[c][1]]]
    ensures TryNextStep(s, c).effects == s.effects
  {
    SplitWord(s.addresses[c][1]);
  }

  lemma ActiveMarkerWords(address: string)
    requires address != [] && NoSpace(address)
    ensures var words := Split(address + " [ACTIVE]"); words != [] && words[0] == address
  {
    assert address + " [ACTIVE]" == address + " " + "[ACTIVE]";
    SplitWordThen(address, "[ACTIVE]");
  }

  /** Selecting a list item marked ` [ACTIVE]` keeps just its address. */
  lemma SwitchDropsActiveMarker(s: Session, c: Camera, address: string)
    requires Complete(s.addresses) && s.writerPid.None? && address != [] && NoSpace(address)
    ensures SwitchStep(s, c, address + " [ACTIVE]").addresses == s.addresses[c := [address]]
  {
    ActiveMarkerWords(address);
  }

  /** Switching and trying the next address keep every list duplicate-free. */
  lemma TryNextKeepsGood(s: Session, c: Camera)
    requires Good(s)
    ensures Good(TryNextStep(s, c))
  {
    var xs := s.addresses[c];
    if |xs| >= 2 {
      RotateProperties(xs);
      var s1 := s.(addresses := s.addresses[c := Rotate(xs)]);
      assert Good(s1);
      SwitchKeepsGood(s1, c, xs[1]);
    }
  }

  lemma SwitchKeepsGood(s: Session, c: Camera, text: string)
    requires Good(s)
    ensures Good(SwitchStep(s, c, text))
  {
  }

  // ---------------------------------------------------------------------------
  // Game exit and the buttons
  // ---------------------------------------------------------------------------

  /**
   * Once the known game has exited, every list is empty, the process id is 0,
   * no worker runs, and every writer button is disabled. While the game runs,
   * or when none is known, nothing changes.
   */
  lemma GameExitClears(s: Session)
    requires s.gamePid != 0
    ensures var t := GameCheckStep(s, false);
      Complete(t.addresses) && (forall c: Camera :: t.addresses[c] == []) &&
      t.gamePid == 0 && t.writerPid.None? && t.scanning == {} &&
      (forall c: Camera :: !StartEnabled(t, c) && !StopEnabled(t, c)) &&
      !StartAllEnabled(t) && !StopAllEnabled(t)
  {
    NoAddressesComplete();
    var t := GameCheckStep(s, false);
    forall c: Camera ensures |t.addresses[c]| == 0 {
      match c
      case Cab =>
      case External =>
      case Interior =>
    }
  }

  lemma GameRunningUnchanged(s: Session, gameAlive: bool)
    requires gameAlive || s.gamePid == 0
    ensures GameCheckStep(s, gameAlive) == s
  {
  }

  /** A camera's Start and Stop buttons are never both enabled. */
  lemma StartStopExclusive(s: Session, c: Camera)
    requires Complete(s.addresses)
    ensures !(StartEnabled(s, c) && StopEnabled(s, c))
  {
  }

  /** At most one camera's Stop button is enabled: the active camera's. */
  lemma OneStopAtMost(s: Session, c: Camera, d: Camera)
    requires StopEnabled(s, c) && StopEnabled(s, d)
    ensures c == d
  {
  }

  /** "Start all" is enabled exactly when some camera's Start is. */
  lemma StartAllIffSomeStart(s: Session)
    requires Complete(s.addresses)
    ensures StartAllEnabled(s) <==> exists c: Camera :: StartEnabled(s, c)
  {
    if StartAllEnabled(s) {
      if Cab in s.scanning {
        assert StartEnabled(s, Cab);
      } else {
        var c: Camera :| |s.addresses[c]| > 0;
        assert StartEnabled(s, c);
      }
    }
  }

  /** "Stop all" is enabled exactly when some camera's Stop is. */
  lemma StopAllIffSomeStop(s: Session)
    ensures StopAllEnabled(s) <==> exists c: Camera :: StopEnabled(s, c)
  {
    if StopAllEnabled(s) {
      assert StopEnabled(s, s.active);
    }
  }

  // ---------------------------------------------------------------------------
  // The window, updated in place
  // ---------------------------------------------------------------------------

  class TrackIRPanel {
    var addresses: map<Camera, seq<string>>
    var gamePid: int
    var writerPid: Option<int>
    var scanning: set<Camera>
    var active: Camera
    var effects: seq<Effect>

    function State(): Session
      reads this
    {
      Session(addresses, gamePid, writerPid, scanning, active, effects)
    }

    predicate Valid()
      reads this
    {
      Complete(addresses)
    }

    constructor()
      ensures Valid() && State() == Session(NO_ADDRESSES, 0, None, {}, Cab, [])
    {
      NoAddressesComplete();
      addresses := NO_ADDRESSES;
      gamePid := 0;
      writerPid := None;
      scanning := {};
      active := Cab;
      effects := [];
    }

    /** The bookkeeping of `start_camera_scan` once the scanner process exists. */
    method ScannerStarted(c: Camera)
      modifies this
      ensures State() == old(State()).(scanning := old(scanning) + {c})
    {
      scanning := scanning + {c};
    }

    /** One line of a scanner's output. */
    method ReadScannerLine(line: string, admin: bool, spawned: Option<int>)
      requires Valid()
      modifies this
      ensures Valid() && State() == ScannerStep(old(State()), ScannerEventOf(line), admin, spawned)
    {
      var e := ScannerEventOf(line);
      match e
      case NoEvent =>
      case PidFound(pid) => RecordPid(pid);
      case AddressFound(name, address) =>
        var c := CameraNamed(name);
        if c.Some? && address !in addresses[c.value] {
          RecordAddress(c.value, address, admin, spawned);
        }
    }

    method RecordPid(pid: int)
      requires Valid()
      modifies this
      ensures Valid() && State() == ScannerStep(old(State()), PidFound(pid), false, None)
    {
      if gamePid != 0 && gamePid != pid {
        NoAddressesComplete();
        addresses := NO_ADDRESSES;
      }
      gamePid := pid;
    }

    method RecordAddress(c: Camera, address: string, admin: bool, spawned: Option<int>)
      requires Valid()
      modifies this
      ensures Valid() && State() == Found(old(State()), c, address, admin, spawned)
    {
      addresses := addresses[c := addresses[c] + [address]];
      if writerPid.Some? {
        effects := effects + [WriteFile(UpdateFileName(writerPid.value), UpdateLine(c, address))];
      } else if c == Cab {
        StartTrackIRWriter(admin, spawned);
      }
    }

    method StartTrackIRWriter(admin: bool, spawned: Option<int>)
      requires Valid()
      modifies this
      ensures Valid() && State() == LaunchWriter(old(State()), admin, spawned)
    {
      if !admin {
        return;
      }
      StopTrackIRWriter();
      if addresses[Cab] == [] {
        return;
      }
      effects := effects + [StartWriter(First(addresses[Cab]), First(addresses[External]),
                                        First(addresses[Interior]), active)];
      writerPid := spawned;
    }

    method StopTrackIRWriter()
      modifies this
      ensures writerPid == None
      ensures effects == old(effects) + (if old(writerPid).Some? then [StopWriter] else [])
      ensures addresses == old(addresses) && gamePid == old(gamePid) && scanning == old(scanning) && active == old(active)
    {
      if writerPid.None? {
        return;
      }
      effects := effects + [StopWriter];
      writerPid := None;
    }

    method StopCameraScan(c: Camera)
      modifies this
      ensures scanning == old(scanning) - {c}
      ensures effects == old(effects) + (if c in old(scanning) then [StopScanner(c)] else [])
      ensures addresses == old(addresses) && gamePid == old(gamePid) && writerPid == old(writerPid) && active == old(active)
    {
      if c !in scanning {
        return;
      }
      effects := effects + [StopScanner(c)];
      scanning := scanning - {c};
    }

    /** The writer first, then each scanner that runs, in dictionary order. */
    method StopWorkers()
      modifies this
      ensures State() == old(State()).(writerPid := None, scanning := {},
        effects := old(effects) + (if old(writerPid).Some? then [StopWriter] else []) + StopScanners(old(scanning)))
    {
      ghost var running := scanning;
      StopTrackIRWriter();
      ghost var e0 := effects;
      StopCameraScan(Cab);
      StopCameraScan(External);
      StopCameraScan(Interior);
      NoCameraLeft(scanning);
      assert effects == e0 + StopScanners(running);
    }

    method SwitchCameraAddress(c: Camera, text: string)
      requires Valid()
      modifies this
      ensures Valid() && State() == SwitchStep(old(State()), c, text)
    {
      var words := Split(text);
      if words == [] {
        return;
      }
      if writerPid.Some? {
        effects := effects + [WriteFile(ManualSwitchFileName(writerPid.value), UpdateLine(c, words[0]))];
      } else {
        addresses := addresses[c := [words[0]]];
      }
    }

    method TryNextAddress(c: Camera)
      requires Valid()
      modifies this
      ensures Valid() && State() == TryNextStep(old(State()), c)
    {
      var xs := addresses[c];
      if |xs| < 2 {
        return;
      }
      xs := xs[1..] + [xs[0]];
      addresses := addresses[c := xs];
      SwitchCameraAddress(c, xs[0]);
    }

    method CheckGameStatus(gameAlive: bool)
      requires Valid()
      modifies this
      ensures Valid() && State() == GameCheckStep(old(State()), gameAlive)
    {
      if gamePid == 0 || gameAlive {
        return;
      }
      StopWorkers();
      NoAddressesComplete();
      gamePid := 0;
      addresses := NO_ADDRESSES;
    }
  }
}
