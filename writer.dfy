/**
 * The live writer session: once per loop iteration it picks up an address
 * update, turns a head-tracking sample into clamped camera angles (and,
 * optionally, a translation from a baseline captured once), and writes
 * them into the game's memory; any failure disarms it.
 *
 * The game's memory is a map from addresses to float values (the readable
 * cells) plus the set of writable addresses. The device, the files and the
 * process checks of one iteration arrive as a `CycleInput`.
 */
module Writer {
  import opened Common
  import opened PyText

  /** Raw device units at full deflection. */
  const FULL_SCALE: real := 16383.0

  /** One head-tracking sample (`TRACKIRDATA`'s angles and translations). */
  datatype Pose = Pose(roll: real, pitch: real, yaw: real, x: real, y: real, z: real)

  /** The active camera's settings; `None` is a key absent from the JSON object. */
  datatype Config = Config(
    xLimit: Option<real>, yLimit: Option<real>,
    xOffset: Option<string>, yOffset: Option<string>,
    enableCameraMovement: Option<bool>,
    forwardBackwardAdd: Option<real>, upDownAdd: Option<real>, leftRightAdd: Option<real>,
    forwardBackwardOffset: Option<string>, upDownOffset: Option<string>, leftRightOffset: Option<string>)

  const EMPTY_CONFIG: Config := Config(None, None, None, None, None, None, None, None, None, None, None)

  /** The writer's own state: the armed address, the translation baseline and the parent-check counter. */
  datatype WriterState = WriterState(address: Option<int>, baseline: Option<(real, real, real)>,
                                     counter: nat, running: bool)

  /** Why the loop ended. */
  datatype Exit = GameEnded | ShutdownRequested | ParentDied

  /** What one iteration sees of the outside world. */
  datatype CycleInput = CycleInput(gameAlive: bool, shutdownFlag: bool, update: Option<string>,
                                   sample: Option<Pose>, parentAlive: bool)

  /** The state after one iteration, the memory after it, and whether the loop ended. */
  datatype CycleResult = CycleResult(state: WriterState, cells: map<int, real>, exit: Option<Exit>)

  // ---------------------------------------------------------------------------
  // Rotation
  // ---------------------------------------------------------------------------

  /** `max(-limit, min(limit, v))` */
  function Clamp(v: real, limit: real): real {
    MaxReal(-limit, MinReal(limit, v))
  }

  function ScaledYaw(rawYaw: real, xLimit: real): real {
    Clamp((-rawYaw / FULL_SCALE) * xLimit, xLimit)
  }

  function ScaledPitch(rawPitch: real, yLimit: real): real {
    Clamp((rawPitch / FULL_SCALE) * yLimit, yLimit)
  }

  /** For a non-negative limit the clamped value never leaves [-limit, limit], and values inside are kept. */
  lemma ClampBounds(v: real, limit: real)
    requires limit >= 0.0
    ensures -limit <= Clamp(v, limit) <= limit
    ensures -limit <= v <= limit ==> Clamp(v, limit) == v
  {
  }

  /** The camera angles never exceed their limits, whatever the device reports. */
  lemma AnglesBounded(p: Pose, xLimit: real, yLimit: real)
    requires xLimit >= 0.0 && yLimit >= 0.0
    ensures Abs(ScaledYaw(p.yaw, xLimit)) <= xLimit
    ensures Abs(ScaledPitch(p.pitch, yLimit)) <= yLimit
  {
    ClampBounds((-p.yaw / FULL_SCALE) * xLimit, xLimit);
    ClampBounds((p.pitch / FULL_SCALE) * yLimit, yLimit);
  }

  /** Full deflection maps onto the limit: yaw is inverted, pitch is not. */
  lemma FullScaleReachesLimit(xLimit: real, yLimit: real)
    requires xLimit >= 0.0 && yLimit >= 0.0
    ensures ScaledYaw(FULL_SCALE, xLimit) == -xLimit && ScaledYaw(-FULL_SCALE, xLimit) == xLimit
    ensures ScaledPitch(FULL_SCALE, yLimit) == yLimit && ScaledPitch(-FULL_SCALE, yLimit) == -yLimit
    ensures ScaledYaw(0.0, xLimit) == 0.0 && ScaledPitch(0.0, yLimit) == 0.0
  {
  }

  // ---------------------------------------------------------------------------
  // Offsets
  // ---------------------------------------------------------------------------

  /** `int(p.strip(), 16)` for each part (`int` ignores the surrounding whitespace itself). */
  function HexValues(parts: seq<string>): seq<Option<int>> {
    seq(|parts|, i requires 0 <= i < |parts| => ParseInt(parts[i], 16))
  }

  /** `sum(...)` of parsed parts; `None` if any part did not parse. */
  function SumValues(vs: seq<Option<int>>): Option<int> {
    if vs == [] then Some(0)
    else
      var tail := SumValues(vs[1..]);
      if vs[0].Some? && tail.Some? then Some(vs[0].value + tail.value) else None
  }

  function SumHex(parts: seq<string>): Option<int> {
    SumValues(HexValues(parts))
  }

  /** The forward/backward offset: a `+`-separated sum of hexadecimal parts, or one hexadecimal number. */
  function ForwardOffset(text: string): Option<int> {
    if '+' in text then SumHex(SplitOn(text, '+')) else ParseInt(text, 16)
  }

  /**
   * `a+b`: the forward offset is the sum of the two parsed parts, or `None`
   * when either part is not hexadecimal (see `SumValuesPair`).
   */
  lemma ForwardOffsetSum(a: string, b: string)
    requires '+' !in a && '+' !in b
    ensures ForwardOffset(a + "+" + b) == SumValues([ParseInt(a, 16), ParseInt(b, 16)])
  {
    var text := a + "+" + b;
    assert text == a + ['+'] + b;
    assert text[|a|] == '+';
    SplitOnSecondPiece(a, b, '+');
    HexValuesPair(a, b);
  }

  lemma HexValuesPair(a: string, b: string)
    ensures HexValues([a, b]) == [ParseInt(a, 16), ParseInt(b, 16)]
  {
  }

  lemma SumValuesPair(u: Option<int>, v: Option<int>)
    ensures SumValues([u, v]) == if u.Some? && v.Some? then Some(u.value + v.value) else None
  {
    var t := [v];
    assert t[0] == v && t[1..] == [];
    assert SumValues(t) == if v.Some? then Some(v.value) else None;
    var s := [u, v];
    assert s[0] == u && s[1..] == t;
  }

  /**
   * A configuration as one iteration uses it: limits, offsets and increments
   * with their defaults filled in. An offset that does not parse is `None`;
   * the loop then fails on every sample. The configuration never changes
   * while the writer runs, so this is the same on every iteration.
   */
  datatype Settings = Settings(
    xLimit: real, yLimit: real, rotationOffsets: Option<(int, int)>,
    cameraMovement: bool, forwardBackwardAdd: real, upDownAdd: real, leftRightAdd: real,
    translationOffsets: Option<(int, int, int)>)

  function RotationOffsets(cfg: Config): Option<(int, int)> {
    var x := ParseInt(cfg.xOffset.GetOr("C"), 16);
    var y := ParseInt(cfg.yOffset.GetOr("0"), 16);
    if x.Some? && y.Some? then Some((x.value, y.value)) else None
  }

  function TranslationOffsets(cfg: Config): Option<(int, int, int)> {
    var f := ForwardOffset(cfg.forwardBackwardOffset.GetOr("6c"));
    var u := ParseInt(cfg.upDownOffset.GetOr("68"), 16);
    var l := ParseInt(cfg.leftRightOffset.GetOr("64"), 16);
    if f.Some? && u.Some? && l.Some? then Some((f.value, u.value, l.value)) else None
  }

  function Resolve(cfg: Config): Settings {
    Settings(cfg.xLimit.GetOr(2.7), cfg.yLimit.GetOr(1.5), RotationOffsets(cfg),
             cfg.enableCameraMovement.GetOr(false),
             cfg.forwardBackwardAdd.GetOr(0.6), cfg.upDownAdd.GetOr(0.5), cfg.leftRightAdd.GetOr(0.6),
             TranslationOffsets(cfg))
  }

  lemma SingleHexDigit(s: string, d: nat)
    requires |s| == 1 && DigitValue(s[0]) == Some(d)
    ensures ParseInt(s, 16) == Some(d)
  {
    assert NoSpace(s);
    assert DropPrefix(s, 16) == s;
    assert s[..0] == [];
    ParseUnsigned(s, 16);
  }

  lemma TwoHexDigits(s: string, hi: nat, lo: nat)
    requires |s| == 2 && s[0] != '0' && DigitValue(s[0]) == Some(hi) && DigitValue(s[1]) == Some(lo)
    ensures ParseInt(s, 16) == Some(hi * 16 + lo)
  {
    assert NoSpace(s);
    assert DropPrefix(s, 16) == s;
    assert forall i :: 0 <= i < |s| ==> IsDigit(s[i], 16);
    DigitsAreValid(s, 16);
    assert s[..1] == [s[0]] && s[..1][..0] == [];
    assert DigitsValue(s[..1], 16) == hi;
    ParseUnsigned(s, 16);
  }

  /** An empty configuration: limits 2.7 and 1.5, offsets 0xC, 0x0, 0x6c, 0x68, 0x64, no translation. */
  lemma DefaultSettings()
    ensures Resolve(EMPTY_CONFIG) == Settings(2.7, 1.5, Some((0xC, 0)), false, 0.6, 0.5, 0.6,
                                              Some((0x6c, 0x68, 0x64)))
  {
    DefaultRotationOffsets();
    DefaultTranslationOffsets();
  }

  lemma DefaultRotationOffsets()
    ensures RotationOffsets(EMPTY_CONFIG) == Some((0xC, 0))
  {
    SingleHexDigit("C", 12);
    SingleHexDigit("0", 0);
  }

  lemma DefaultTranslationOffsets()
    ensures TranslationOffsets(EMPTY_CONFIG) == Some((0x6c, 0x68, 0x64))
  {
    DefaultForwardOffset();
    DefaultUpDownOffset();
    DefaultLeftRightOffset();
  }

  lemma DefaultForwardOffset()
    ensures ForwardOffset(EMPTY_CONFIG.forwardBackwardOffset.GetOr("6c")) == Some(0x6c)
  {
    assert '+' !in "6c";
    TwoHexDigits("6c", 6, 12);
  }

  lemma DefaultUpDownOffset()
    ensures ParseInt(EMPTY_CONFIG.upDownOffset.GetOr("68"), 16) == Some(0x68)
  {
    TwoHexDigits("68", 6, 8);
  }

  lemma DefaultLeftRightOffset()
    ensures ParseInt(EMPTY_CONFIG.leftRightOffset.GetOr("64"), 16) == Some(0x64)
  {
    TwoHexDigits("64", 6, 4);
  }

  // ---------------------------------------------------------------------------
  // One iteration of the loop, as a function of the state it starts from
  // ---------------------------------------------------------------------------

  /** `if not self.address`: no address, or address 0. */
  predicate Armed(address: Option<int>) {
    address.Some? && address.value != 0
  }

  /** What a write failure or any other error does: disarm and forget the baseline. */
  function Disarmed(s: WriterState): WriterState {
    s.(address := None, baseline := None)
  }

  /**
   * The address the update file names: its stripped text, if it contains
   * `:`, holds the new address after the first `:`. `None` when there is no
   * `:` or the address does not parse (the error is swallowed).
   */
  function UpdateTarget(text: string): Option<int> {
    var line := Strip(text);
    if ':' !in line then None else ParseInt(Strip(AfterFirst(line, ':')), 16)
  }

  /** A new address re-arms the writer and forgets the baseline. */
  function Retarget(s: WriterState, target: Option<int>): WriterState {
    match target
    case Some(a) => s.(address := Some(a), baseline := None)
    case None => s
  }

  /** Picking up the update file, if there is one. */
  function ApplyUpdate(s: WriterState, update: Option<string>): WriterState {
    if update.None? then s else Retarget(s, UpdateTarget(update.value))
  }

  /** `write_float`: `None` when the address is not writable. */
  function Write(cells: map<int, real>, writable: set<int>, addr: int, v: real): Option<map<int, real>> {
    if addr in writable then Some(cells[addr := v]) else None
  }

  /** The three baseline reads; any failed read makes all three 0.0. */
  function ReadBaseline(cells: map<int, real>, fb: int, ud: int, lr: int): (real, real, real) {
    if fb in cells && ud in cells && lr in cells then (cells[fb], cells[ud], cells[lr]) else (0.0, 0.0, 0.0)
  }

  function ForwardDelta(p: Pose, st: Settings): real { -(p.z / FULL_SCALE) * st.forwardBackwardAdd }
  function UpDownDelta(p: Pose, st: Settings): real { (p.y / FULL_SCALE) * st.upDownAdd }
  function LeftRightDelta(p: Pose, st: Settings): real { -(p.x / FULL_SCALE) * st.leftRightAdd }

  /** The translation part, once the rotation is written; `reachedEnd` is false after a reset. */
  function TranslationSpec(s: WriterState, cells: map<int, real>, writable: set<int>, st: Settings, p: Pose)
    : (r: (WriterState, map<int, real>, bool))
    requires Armed(s.address)
  {
    var a := s.address.value;
    match st.translationOffsets
    case None => (Disarmed(s), cells, false)
    case Some((fbo, udo, lro)) =>
      var b := if s.baseline.None? then ReadBaseline(cells, a + fbo, a + udo, a + lro) else s.baseline.value;
      var s1 := s.(baseline := Some(b));
      match Write(cells, writable, a + fbo, b.0 + ForwardDelta(p, st))
      case None => (Disarmed(s1), cells, false)
      case Some(c1) =>
        match Write(c1, writable, a + udo, b.1 + UpDownDelta(p, st))
        case None => (Disarmed(s1), c1, false)
        case Some(c2) =>
          match Write(c2, writable, a + lro, b.2 + LeftRightDelta(p, st))
          case None => (Disarmed(s1), c2, false)
          case Some(c3) => (s1, c3, true)
  }

  /** Rotation and then (if enabled) translation for one sample. */
  function MotionSpec(s: WriterState, cells: map<int, real>, writable: set<int>, st: Settings, p: Pose)
    : (WriterState, map<int, real>, bool)
    requires Armed(s.address)
  {
    var a := s.address.value;
    match st.rotationOffsets
    case None => (Disarmed(s), cells, false)
    case Some((xo, yo)) =>
      var yaw := ScaledYaw(p.yaw, st.xLimit);
      var pitch := ScaledPitch(p.pitch, st.yLimit);
      match Write(cells, writable, a + xo, yaw)
      case None => (Disarmed(s), cells, false)
      case Some(c1) =>
        match Write(c1, writable, a + yo, pitch)
        case None => (Disarmed(s), c1, false)
        case Some(c2) =>
          if st.cameraMovement then TranslationSpec(s, c2, writable, st, p)
          else (s, c2, true)
  }

  /** The parent check at the end of an iteration: every 100th completed iteration looks at the parent. */
  function ParentCheckSpec(s: WriterState, parentAlive: bool): (WriterState, Option<Exit>) {
    var c := s.counter + 1;
    if c >= 100 then
      if parentAlive then (s.(counter := 0), None)
      else (s.(counter := 0, running := false), Some(ParentDied))
    else (s.(counter := c), None)
  }

  /** One iteration of `SimpleTrackIRWriter.run`'s loop. */
  function CycleSpec(s: WriterState, cells: map<int, real>, writable: set<int>, st: Settings, inp: CycleInput)
    : CycleResult
  {
    if !inp.gameAlive then CycleResult(s, cells, Some(GameEnded))
    else if inp.shutdownFlag then CycleResult(s, cells, Some(ShutdownRequested))
    else
      var s1 := ApplyUpdate(s, inp.update);
      if !Armed(s1.address) then CycleResult(s1, cells, None)
      else
        var (s2, c2, reachedEnd) :=
          if inp.sample.None? then (s1, cells, true) else MotionSpec(s1, cells, writable, st, inp.sample.value);
        if !reachedEnd then CycleResult(s2, c2, None)
        else
          var (s3, exit) := ParentCheckSpec(s2, inp.parentAlive);
          CycleResult(s3, c2, exit)
  }

  // ---------------------------------------------------------------------------
  // What one iteration promises
  // ---------------------------------------------------------------------------

  /** The line the controller writes, `<camera>:<hex address>`, arms the writer at that address. */
  lemma UpdateRearms(s: WriterState, camera: string, n: int)
    requires ':' !in camera && NoSpace(camera)
    ensures UpdateTarget(camera + ":" + Hex(n) + "\n") == Some(n)
    ensures ApplyUpdate(s, Some(camera + ":" + Hex(n) + "\n")) == s.(address := Some(n), baseline := None)
  {
    HexNoSpaceNoColon(n);
    StripUpdateLine(camera, Hex(n));
    TargetAfterColon(camera, Hex(n));
    ParseIntHex(n);
  }

  lemma StripUpdateLine(camera: string, h: string)
    requires NoSpace(camera) && NoSpace(h) && |h| > 0
    ensures Strip(camera + ":" + h + "\n") == camera + ":" + h
  {
    var body := camera + ":" + h;
    var text := body + "\n";
    assert NoSpace(body) by {
      forall i | 0 <= i < |body| ensures !IsSpace(body[i]) {
        if i < |camera| { assert body[i] == camera[i]; }
        else if i > |camera| { assert body[i] == h[i - |camera| - 1]; }
      }
    }
    assert LStrip(text) == text by { assert text[0] == body[0]; }
    assert text[..|text| - 1] == body;
    StripNoSpace(body);
  }

  lemma TargetAfterColon(camera: string, h: string)
    requires ':' !in camera && ':' !in h && NoSpace(h)
    requires Strip(camera + ":" + h + "\n") == camera + ":" + h
    ensures UpdateTarget(camera + ":" + h + "\n") == ParseInt(h, 16)
  {
    AfterColon(camera, h);
    StripNoSpace(h);
  }

  lemma AfterColon(camera: string, h: string)
    requires ':' !in camera
    ensures ':' in camera + ":" + h && AfterFirst(camera + ":" + h, ':') == h
  {
    var body := camera + ":" + h;
    assert body == camera + [':'] + h;
    assert body[|camera|] == ':';
    IndexOfFirst(camera, h, ':');
    assert body[|camera| + 1..] == h;
  }

  lemma HexNoSpaceNoColon(n: int)
    ensures NoSpace(Hex(n)) && ':' !in Hex(n)
  {
    var m: nat := if n < 0 then -n else n;
    var d := NatDigits(m, 16);
    DigitsHaveNoSpace(d, 16);
    var h := Hex(n);
    if n < 0 {
      assert h == "-" + ("0x" + d);
      forall i | 0 <= i < |h| ensures !IsSpace(h[i]) && h[i] != ':' {
        if i >= 3 { assert h[i] == d[i - 3]; assert IsDigit(d[i - 3], 16); }
      }
    } else {
      assert h == "0x" + d;
      forall i | 0 <= i < |h| ensures !IsSpace(h[i]) && h[i] != ':' {
        if i >= 2 { assert h[i] == d[i - 2]; assert IsDigit(d[i - 2], 16); }
      }
    }
  }

  /** A text without `:` changes nothing, and so does one whose address does not parse. */
  lemma MalformedUpdateIgnored(s: WriterState, text: string)
    requires ':' !in Strip(text) || ParseInt(Strip(AfterFirst(Strip(text), ':')), 16).None?
    ensures UpdateTarget(text).None? && ApplyUpdate(s, Some(text)) == s
  {
  }

  /** Without an armed address (after the update) the iteration writes nothing and keeps the counter. */
  lemma UnarmedWritesNothing(s: WriterState, cells: map<int, real>, writable: set<int>, st: Settings, inp: CycleInput)
    requires !Armed(ApplyUpdate(s, inp.update).address)
    ensures CycleSpec(s, cells, writable, st, inp).cells == cells
    ensures CycleSpec(s, cells, writable, st, inp).state.counter == s.counter
  {
  }

  /** Without a sample nothing is written and the state changes only by the update and the counter. */
  lemma NoSampleWritesNothing(s: WriterState, cells: map<int, real>, writable: set<int>, st: Settings, inp: CycleInput)
    requires inp.gameAlive && !inp.shutdownFlag && inp.sample.None?
    ensures CycleSpec(s, cells, writable, st, inp).cells == cells
    ensures CycleSpec(s, cells, writable, st, inp).state.address == ApplyUpdate(s, inp.update).address
    ensures CycleSpec(s, cells, writable, st, inp).state.baseline == ApplyUpdate(s, inp.update).baseline
  {
  }

  /** A rotation target that is not writable disarms the writer and clears the baseline. */
  lemma RotationWriteFailureResets(s: WriterState, cells: map<int, real>, writable: set<int>, st: Settings, p: Pose)
    requires Armed(s.address) && st.rotationOffsets.Some?
    requires s.address.value + st.rotationOffsets.value.0 !in writable
    ensures MotionSpec(s, cells, writable, st, p) == (Disarmed(s), cells, false)
    ensures Disarmed(s).address.None? && Disarmed(s).baseline.None?
  {
  }

  /** Every way out of the motion step either completes or disarms; it never leaves a half-armed state. */
  lemma MotionCompletesOrResets(s: WriterState, cells: map<int, real>, writable: set<int>, st: Settings, p: Pose)
    requires Armed(s.address)
    ensures var (s2, _, done) := MotionSpec(s, cells, writable, st, p);
      if done then s2.address == s.address && s2.counter == s.counter
      else s2.address.None? && s2.baseline.None? && s2.counter == s.counter
  {
  }

  /**
   * The baseline is read only while there is none, and becomes (0, 0, 0)
   * when any of the three reads fails.
   */
  lemma BaselineCapture(s: WriterState, cells: map<int, real>, writable: set<int>, st: Settings, p: Pose)
    requires Armed(s.address) && st.translationOffsets.Some?
    ensures var (s2, _, _) := TranslationSpec(s, cells, writable, st, p);
      var a := s.address.value;
      var (fbo, udo, lro) := st.translationOffsets.value;
      s2.baseline.Some? ==>
        if s.baseline.Some? then s2.baseline == s.baseline
        else if a + fbo in cells && a + udo in cells && a + lro in cells then
          s2.baseline == Some((cells[a + fbo], cells[a + udo], cells[a + lro]))
        else s2.baseline == Some((0.0, 0.0, 0.0))
  {
  }

  /**
   * Once captured, the baseline fixes the translation: a successful write
   * puts `baseline + delta(sample)` at each target, whatever the memory held
   * before, so repeated iterations never drift.
   */
  lemma TranslationFromBaseline(s: WriterState, cells: map<int, real>, writable: set<int>, st: Settings, p: Pose)
    requires Armed(s.address) && st.translationOffsets.Some? && s.baseline.Some?
    requires var a := s.address.value;
      var (fbo, udo, lro) := st.translationOffsets.value;
      a + fbo in writable && a + udo in writable && a + lro in writable && fbo != udo && fbo != lro && udo != lro
    ensures var a := s.address.value;
      var (fbo, udo, lro) := st.translationOffsets.value;
      var b := s.baseline.value;
      var (s2, c2, done) := TranslationSpec(s, cells, writable, st, p);
      && done && s2 == s
      && c2[a + fbo] == b.0 + ForwardDelta(p, st)
      && c2[a + udo] == b.1 + UpDownDelta(p, st)
      && c2[a + lro] == b.2 + LeftRightDelta(p, st)
  {
  }

  /** Translation is off unless the configuration turns it on: only the two rotation cells change. */
  lemma RotationOnlyByDefault(s: WriterState, cells: map<int, real>, writable: set<int>, st: Settings, p: Pose)
    requires Armed(s.address) && !st.cameraMovement && st.rotationOffsets.Some?
    ensures var (_, c2, _) := MotionSpec(s, cells, writable, st, p);
      var (xo, yo) := st.rotationOffsets.value;
      forall k :: k in c2 && k != s.address.value + xo && k != s.address.value + yo ==> k in cells && c2[k] == cells[k]
  {
  }

  /** The translation step changes no cell other than its three targets. */
  lemma TranslationFrame(s: WriterState, cells: map<int, real>, writable: set<int>, st: Settings, p: Pose, k: int)
    requires Armed(s.address) && st.translationOffsets.Some? && k in cells
    requires var a := s.address.value;
      var (fbo, udo, lro) := st.translationOffsets.value;
      k != a + fbo && k != a + udo && k != a + lro
    ensures var (_, c, _) := TranslationSpec(s, cells, writable, st, p);
      k in c && c[k] == cells[k]
  {
  }

  /**
   * After a completed motion step the two rotation cells hold the scaled yaw
   * and pitch of the sample, provided the two rotation offsets differ and,
   * with camera movement on, no translation target overwrites them.
   */
  lemma CompletedMotionAngles(s: WriterState, cells: map<int, real>, writable: set<int>, st: Settings, p: Pose)
    requires Armed(s.address) && st.rotationOffsets.Some?
    requires st.rotationOffsets.value.0 != st.rotationOffsets.value.1
    requires st.cameraMovement && st.translationOffsets.Some? ==>
      var (xo, yo) := st.rotationOffsets.value;
      var (fbo, udo, lro) := st.translationOffsets.value;
      xo != fbo && xo != udo && xo != lro && yo != fbo && yo != udo && yo != lro
    ensures var a := s.address.value;
      var (xo, yo) := st.rotationOffsets.value;
      var (_, c, done) := MotionSpec(s, cells, writable, st, p);
      done ==> (a + xo in c && a + yo in c &&
                c[a + xo] == ScaledYaw(p.yaw, st.xLimit) && c[a + yo] == ScaledPitch(p.pitch, st.yLimit))
  {
    var a := s.address.value;
    var (xo, yo) := st.rotationOffsets.value;
    if a + xo in writable && a + yo in writable && st.cameraMovement && st.translationOffsets.Some? {
      var c2 := cells[a + xo := ScaledYaw(p.yaw, st.xLimit)][a + yo := ScaledPitch(p.pitch, st.yLimit)];
      TranslationFrame(s, c2, writable, st, p, a + xo);
      TranslationFrame(s, c2, writable, st, p, a + yo);
    }
  }

  /** The parent is looked at on every 100th completed iteration, and only its death ends the loop there. */
  lemma ParentCheckEvery100(s: WriterState, parentAlive: bool)
    requires s.counter < 100
    ensures var (s2, exit) := ParentCheckSpec(s, parentAlive);
      && s2.counter < 100
      && (exit.Some? <==> s.counter == 99 && !parentAlive)
      && (s.counter < 99 ==> s2.counter == s.counter + 1)
  {
  }

  /** The loop's exits: the game ending and the shutdown flag are checked before anything else. */
  lemma ExitsFirst(s: WriterState, cells: map<int, real>, writable: set<int>, st: Settings, inp: CycleInput)
    requires !inp.gameAlive || inp.shutdownFlag
    ensures CycleSpec(s, cells, writable, st, inp) == CycleResult(s, cells,
      Some(if !inp.gameAlive then GameEnded else ShutdownRequested))
  {
  }

  // ---------------------------------------------------------------------------
  // Start-up (`__main__` and the constructor)
  // ---------------------------------------------------------------------------

  /** The active camera's `--<camera>-address` argument, unless it is "0". */
  function InitialAddressArgument(activeCamera: string, cabAddress: string, externalAddress: string,
                                  interiorAddress: string): (r: Option<string>)
    ensures r.Some? ==> r.value != "0"
    ensures r.Some? <==>
      (activeCamera == "cab" && cabAddress != "0") || (activeCamera == "external" && externalAddress != "0")
      || (activeCamera == "interior" && interiorAddress != "0")
  {
    if activeCamera == "cab" && cabAddress != "0" then Some(cabAddress)
    else if activeCamera == "external" && externalAddress != "0" then Some(externalAddress)
    else if activeCamera == "interior" && interiorAddress != "0" then Some(interiorAddress)
    else None
  }

  /** The constructor's address: `None` for no argument, "" or "0"; `Crashed` when it does not parse. */
  datatype Startup = Started(address: Option<int>) | Crashed

  function InitialAddress(arg: Option<string>): Startup {
    match arg
    case None => Started(None)
    case Some(text) =>
      if text == "" || text == "0" then Started(None)
      else match ParseInt(text, 16)
        case Some(a) => Started(Some(a))
        case None => Crashed
  }

  /** `all.get(active, all.get('cab', {}))` */
  function SelectConfig(all: map<string, Config>, activeCamera: string): Config {
    if activeCamera in all then all[activeCamera]
    else if "cab" in all then all["cab"]
    else EMPTY_CONFIG
  }

  /** Only the active camera's argument matters, and a `hex()` address starts the writer armed there. */
  lemma StartupAddress(activeCamera: string, cab: string, ext: string, int_: string, n: int)
    requires (activeCamera == "cab" && cab == Hex(n)) || (activeCamera == "external" && ext == Hex(n))
      || (activeCamera == "interior" && int_ == Hex(n))
    ensures InitialAddress(InitialAddressArgument(activeCamera, cab, ext, int_)) == Started(Some(n))
  {
    var h := Hex(n);
    assert h[0] == '0' || h[0] == '-';
    assert h != "0" && h != "" by { assert |h| >= 3; }
    ParseIntHex(n);
  }

  /** A camera without its own settings falls back to the cab's, and then to the defaults. */
  lemma ConfigFallback(all: map<string, Config>, activeCamera: string)
    ensures activeCamera !in all && "cab" in all ==> SelectConfig(all, activeCamera) == all["cab"]
    ensures activeCamera !in all && "cab" !in all ==> SelectConfig(all, activeCamera) == EMPTY_CONFIG
    ensures activeCamera in all ==> SelectConfig(all, activeCamera) == all[activeCamera]
  {
  }

  // ---------------------------------------------------------------------------
  // The objects
  // ---------------------------------------------------------------------------

  /** The game's memory as the writer sees it through `read_float`/`write_float`. */
  class GameMemory {
    var cells: map<int, real>
    const writable: set<int>

    constructor (cells: map<int, real>, writable: set<int>)
      ensures this.cells == cells && this.writable == writable
    {
      this.cells := cells;
      this.writable := writable;
    }

    method ReadFloat(addr: int) returns (v: Option<real>)
      ensures v == (if addr in cells then Some(cells[addr]) else None)
    {
      if addr in cells {
        v := Some(cells[addr]);
      } else {
        v := None;
      }
    }

    method WriteFloat(addr: int, v: real) returns (ok: bool)
      modifies this
      ensures ok == (addr in writable)
      ensures cells == if ok then old(cells)[addr := v] else old(cells)
    {
      ok := addr in writable;
      if ok {
        cells := cells[addr := v];
      }
    }
  }

  class SimpleTrackIRWriter {
    const config: Config
    /** The configuration with defaults filled in and offsets parsed. */
    const settings: Settings
    var address: Option<int>
    var baseline: Option<(real, real, real)>
    var counter: nat
    var running: bool

    function State(): WriterState
      reads this
    {
      WriterState(address, baseline, counter, running)
    }

    /** A writer that did not crash at start-up. */
    constructor (config: Config, initialAddress: Option<string>)
      requires InitialAddress(initialAddress).Started?
      ensures this.config == config && settings == Resolve(config)
      ensures State() == WriterState(InitialAddress(initialAddress).address, None, 0, true)
    {
      this.config := config;
      settings := Resolve(config);
      var start := InitialAddress(initialAddress);
      address := start.address;
      baseline := None;
      counter := 0;
      running := true;
    }

    method Reset()
      modifies this
      ensures State() == Disarmed(old(State()))
    {
      address := None;
      baseline := None;
    }

    /** The update-file step. */
    method CheckUpdate(update: Option<string>)
      modifies this
      ensures State() == ApplyUpdate(old(State()), update)
    {
      if update.Some? {
        var parsed := UpdateTarget(update.value);
        SetTarget(parsed);
      }
    }

    method SetTarget(target: Option<int>)
      modifies this
      ensures State() == Retarget(old(State()), target)
    {
      if target.Some? {
        address := target;
        baseline := None;
      }
    }

    /** The translation step: offsets, the baseline (captured once) and three writes. */
    method WriteTranslation(mem: GameMemory, p: Pose) returns (reachedEnd: bool)
      requires Armed(address)
      modifies this, mem
      ensures (State(), mem.cells, reachedEnd) == TranslationSpec(old(State()), old(mem.cells), mem.writable, settings, p)
    {
      var offsets := settings.translationOffsets;
      if offsets.None? {
        Reset();
        return false;
      }
      var a := address.value;
      var (fbo, udo, lro) := offsets.value;
      var fb := ForwardDelta(p, settings);
      var ud := UpDownDelta(p, settings);
      var lr := LeftRightDelta(p, settings);
      if baseline.None? {
        CaptureBaseline(mem, a + fbo, a + udo, a + lro);
      }
      var b := baseline.value;
      var ok := mem.WriteFloat(a + fbo, b.0 + fb);
      if ok {
        ok := mem.WriteFloat(a + udo, b.1 + ud);
        if ok {
          ok := mem.WriteFloat(a + lro, b.2 + lr);
        }
      }
      if !ok {
        Reset();
        return false;
      }
      return true;
    }

    /** The three baseline reads; if any of them fails, all three become 0.0. */
    method CaptureBaseline(mem: GameMemory, fb: int, ud: int, lr: int)
      modifies this
      ensures State() == old(State()).(baseline := Some(ReadBaseline(mem.cells, fb, ud, lr)))
    {
      var bfb := mem.ReadFloat(fb);
      var bud := mem.ReadFloat(ud);
      var blr := mem.ReadFloat(lr);
      if bfb.Some? && bud.Some? && blr.Some? {
        baseline := Some((bfb.value, bud.value, blr.value));
      } else {
        baseline := Some((0.0, 0.0, 0.0));
      }
    }

    /** The rotation step, followed by translation when it is enabled. */
    method WriteMotion(mem: GameMemory, p: Pose) returns (reachedEnd: bool)
      requires Armed(address)
      modifies this, mem
      ensures (State(), mem.cells, reachedEnd) == MotionSpec(old(State()), old(mem.cells), mem.writable, settings, p)
    {
      var offsets := settings.rotationOffsets;
      if offsets.None? {
        Reset();
        return false;
      }
      var (xo, yo) := offsets.value;
      var finalYaw := ScaledYaw(p.yaw, settings.xLimit);
      var finalPitch := ScaledPitch(p.pitch, settings.yLimit);
      var ok := mem.WriteFloat(address.value + xo, finalYaw);
      if ok {
        ok := mem.WriteFloat(address.value + yo, finalPitch);
      }
      if !ok {
        Reset();
        return false;
      }
      if settings.cameraMovement {
        reachedEnd := WriteTranslation(mem, p);
      } else {
        reachedEnd := true;
      }
    }

    /** One pass through the body of the `run` loop. */
    method Cycle(mem: GameMemory, inp: CycleInput) returns (exit: Option<Exit>)
      modifies this, mem
      ensures CycleResult(State(), mem.cells, exit) == CycleSpec(old(State()), old(mem.cells), mem.writable, settings, inp)
    {
      if !inp.gameAlive {
        return Some(GameEnded);
      }
      if inp.shutdownFlag {
        return Some(ShutdownRequested);
      }
      CheckUpdate(inp.update);
      if !Armed(address) {
        return None;
      }
      if inp.sample.Some? {
        var reachedEnd := WriteMotion(mem, inp.sample.value);
        if !reachedEnd {
          return None;
        }
      }
      counter := counter + 1;
      if counter >= 100 {
        counter := 0;
        if !inp.parentAlive {
          running := false;
          return Some(ParentDied);
        }
      }
      return None;
    }
  }
}
