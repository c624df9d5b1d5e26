/**
 * The commands the helper issues, as a trace: calls into the IT8951 driver
 * (the hardware commands), captures of the page, and the PNG a mock draw
 * writes instead of drawing. The power commands are modelled as issued by
 * IT8951_activate and IT8951_sleep; the draw command as issued by IT8951_draw.
 */
module Trace {
  import opened Pixels
  import opened Observer
  import opened Decisions

  /** IT8951_sysrun: undefined, true or false. */
  datatype SysRun = Unset | On | Off

  datatype Event =
    | DriverInit
    | DriverWaitForReady
    | DriverWaitForDisplayReady
    | DriverActivate
    | DriverSleep
    | DriverDraw(area: Area, packed: seq<bv8>, mode: Waveform)
    | Capture(area: Area)
    | MockPng(area: Area, colours: nat)

  predicate IsHardware(e: Event) {
    !e.Capture? && !e.MockPng?
  }

  /** The power state the last power command of t left the panel in. */
  function LastPower(t: seq<Event>): SysRun
    decreases |t|
  {
    if t == [] then Unset
    else if t[|t| - 1] == DriverActivate then On
    else if t[|t| - 1] == DriverSleep then Off
    else LastPower(t[..|t| - 1])
  }

  /** Every draw command was issued while the panel was awake. */
  predicate DrawsWhileAwake(t: seq<Event>)
    decreases |t|
  {
    t == [] ||
    (DrawsWhileAwake(t[..|t| - 1]) && (t[|t| - 1].DriverDraw? ==> LastPower(t[..|t| - 1]) == On))
  }

  /** No command of t reaches the driver. */
  predicate HardwareFree(t: seq<Event>)
    decreases |t|
  {
    t == [] || (HardwareFree(t[..|t| - 1]) && !IsHardware(t[|t| - 1]))
  }

  /**
   * The power bookkeeping: in mock mode nothing reaches the driver; otherwise
   * the recorded sysrun is the state the last power command left, and no draw
   * was issued to a sleeping panel.
   */
  predicate PowerInvariant(mock: bool, t: seq<Event>, sysrun: SysRun) {
    (mock ==> HardwareFree(t)) && (!mock ==> LastPower(t) == sysrun) && DrawsWhileAwake(t)
  }

  function NextPower(s: SysRun, e: Event): SysRun {
    if e == DriverActivate then On else if e == DriverSleep then Off else s
  }

  /** IT8951_activate's hardware sequence: wait, activate, wait, unless mock or already running. */
  function ActivateCommands(mock: bool, sysrun: SysRun): seq<Event> {
    if !mock && sysrun != On then [DriverWaitForReady, DriverActivate, DriverWaitForReady] else []
  }

  /** IT8951_sleep's hardware sequence: wait for the display, sleep, unless mock or already asleep. */
  function SleepCommands(mock: bool, sysrun: SysRun): seq<Event> {
    if !mock && sysrun != Off then [DriverWaitForDisplayReady, DriverSleep] else []
  }

  /**
   * IT8951_draw of a decoded frame. On the panel: the level is decided (the
   * hint, else the palette check), the frame packed at that level and drawn
   * with the matching waveform. In mock mode: a PNG of 4 or 16 colours, by the
   * hint alone.
   */
  function DrawEvents(config: Config, area: Area, data: seq<bv8>, is4levels: bool): seq<Event> {
    if config.mock then [MockPng(area, if is4levels then 4 else 16)]
    else
      var lv := EffectiveIs4Levels(is4levels, data);
      [DriverDraw(area, Downscaled(data, lv), DisplayMode(config.force6inch, lv))]
  }

  /** One drawn rectangle of processStack: capture it, then draw it without a level hint. */
  function DrainStep(config: Config, area: Area, screen: Area -> seq<bv8>): seq<Event> {
    [Capture(area)] + DrawEvents(config, area, screen(area), false)
  }

  /** The commands for drawing the rectangles rs one after another. */
  function DrainEvents(config: Config, rs: seq<Area>, screen: Area -> seq<bv8>): seq<Event>
    decreases |rs|
  {
    if rs == [] then [] else DrainEvents(config, rs[..|rs| - 1], screen) + DrainStep(config, rs[|rs| - 1], screen)
  }

  /** A whole drain: activate, draw the rectangles, sleep. */
  function DrainSession(config: Config, sysrun: SysRun, rs: seq<Area>, screen: Area -> seq<bv8>): seq<Event> {
    ActivateCommands(config.mock, sysrun) + DrainEvents(config, rs, screen) + SleepCommands(config.mock, On)
  }

  function Count(t: seq<Event>, e: Event): nat
    decreases |t|
  {
    if t == [] then 0 else Count(t[..|t| - 1], e) + (if t[|t| - 1] == e then 1 else 0)
  }

  /** The rectangles captured, in order. */
  function Captured(t: seq<Event>): seq<Area>
    decreases |t|
  {
    if t == [] then [] else Captured(t[..|t| - 1]) + (if t[|t| - 1].Capture? then [t[|t| - 1].area] else [])
  }

  /** The rectangles drawn (on the panel or, in mock mode, to a PNG), in order. */
  function Drawn(t: seq<Event>): seq<Area>
    decreases |t|
  {
    if t == [] then []
    else Drawn(t[..|t| - 1]) + (if t[|t| - 1].DriverDraw? || t[|t| - 1].MockPng? then [t[|t| - 1].area] else [])
  }

  lemma {:induction false} CountConcat(a: seq<Event>, b: seq<Event>, e: Event)
    ensures Count(a + b, e) == Count(a, e) + Count(b, e)
    decreases |b|
  {
    if b != [] {
      var b' := b[..|b| - 1];
      assert (a + b)[..|a + b| - 1] == a + b';
      CountConcat(a, b', e);
    } else {
      assert a + b == a;
    }
  }

  lemma {:induction false} CapturedConcat(a: seq<Event>, b: seq<Event>)
    ensures Captured(a + b) == Captured(a) + Captured(b)
    decreases |b|
  {
    if b != [] {
      var b' := b[..|b| - 1];
      assert (a + b)[..|a + b| - 1] == a + b';
      CapturedConcat(a, b');
    } else {
      assert a + b == a;
    }
  }

  lemma {:induction false} DrawnConcat(a: seq<Event>, b: seq<Event>)
    ensures Drawn(a + b) == Drawn(a) + Drawn(b)
    decreases |b|
  {
    if b != [] {
      var b' := b[..|b| - 1];
      assert (a + b)[..|a + b| - 1] == a + b';
      DrawnConcat(a, b');
    } else {
      assert a + b == a;
    }
  }

  lemma ConcatAssoc<T>(t: seq<T>, a: seq<T>, d: seq<T>, z: seq<T>)
    ensures t + a + d + z == t + (a + d + z)
  {
  }

  lemma ConcatAssoc3<T>(t: seq<T>, x: seq<T>, c: seq<T>, d: seq<T>)
    ensures t + x + c + d == t + (x + (c + d))
  {
  }

  lemma DropLast<T>(rs: seq<T>)
    requires rs != []
    ensures rs[..|rs| - 1] + [rs[|rs| - 1]] == rs
  {
  }

  lemma ConcatAssoc5<T>(t: seq<T>, c: seq<T>, a: seq<T>, d: seq<T>, z: seq<T>)
    ensures t + c + a + d + z == t + (c + a + d + z)
  {
  }

  /** Drawing one more rectangle appends its capture and its draw. */
  lemma DrainEventsSnoc(config: Config, rs: seq<Area>, r: Area, screen: Area -> seq<bv8>)
    ensures DrainEvents(config, rs + [r], screen) == DrainEvents(config, rs, screen) + DrainStep(config, r, screen)
  {
    assert (rs + [r])[..|rs|] == rs;
  }

  /** Appending one command keeps the power bookkeeping, with sysrun following the command. */
  lemma PowerStep(mock: bool, t: seq<Event>, s: SysRun, e: Event)
    requires PowerInvariant(mock, t, s)
    requires mock ==> !IsHardware(e)
    requires !mock && e.DriverDraw? ==> s == On
    ensures PowerInvariant(mock, t + [e], NextPower(s, e))
  {
    assert (t + [e])[..|t|] == t;
  }

  /** The activate sequence keeps the bookkeeping and leaves the panel running. */
  lemma ActivateKeepsInvariant(mock: bool, t: seq<Event>, s: SysRun)
    requires PowerInvariant(mock, t, s)
    ensures PowerInvariant(mock, t + ActivateCommands(mock, s), On)
  {
    if !mock && s != On {
      var t1 := t + [DriverWaitForReady];
      var t2 := t1 + [DriverActivate];
      PowerStep(mock, t, s, DriverWaitForReady);
      PowerStep(mock, t1, s, DriverActivate);
      PowerStep(mock, t2, On, DriverWaitForReady);
      assert t2 + [DriverWaitForReady] == t + ActivateCommands(mock, s);
    } else {
      assert t + ActivateCommands(mock, s) == t;
    }
  }

  /** The sleep sequence keeps the bookkeeping and leaves the panel asleep. */
  lemma SleepKeepsInvariant(mock: bool, t: seq<Event>, s: SysRun)
    requires PowerInvariant(mock, t, s)
    ensures PowerInvariant(mock, t + SleepCommands(mock, s), Off)
  {
    if !mock && s != Off {
      var t1 := t + [DriverWaitForDisplayReady];
      PowerStep(mock, t, s, DriverWaitForDisplayReady);
      PowerStep(mock, t1, s, DriverSleep);
      assert t1 + [DriverSleep] == t + SleepCommands(mock, s);
    } else {
      assert t + SleepCommands(mock, s) == t;
    }
  }

  /** A draw issued to a running panel keeps the bookkeeping. */
  lemma DrawKeepsInvariant(config: Config, t: seq<Event>, area: Area, data: seq<bv8>, is4levels: bool)
    requires PowerInvariant(config.mock, t, On)
    ensures PowerInvariant(config.mock, t + DrawEvents(config, area, data, is4levels), On)
  {
    var d := DrawEvents(config, area, data, is4levels);
    assert d == [d[0]] && (config.mock ==> d[0].MockPng?);
    PowerStep(config.mock, t, On, d[0]);
  }

  lemma {:induction false} DrainEventsKeepInvariant(config: Config, t: seq<Event>, rs: seq<Area>, screen: Area -> seq<bv8>)
    requires PowerInvariant(config.mock, t, On)
    ensures PowerInvariant(config.mock, t + DrainEvents(config, rs, screen), On)
    decreases |rs|
  {
    if rs != [] {
      var p := rs[..|rs| - 1];
      var r := rs[|rs| - 1];
      DrainEventsKeepInvariant(config, t, p, screen);
      var t1 := t + DrainEvents(config, p, screen);
      PowerStep(config.mock, t1, On, Capture(r));
      DrawKeepsInvariant(config, t1 + [Capture(r)], r, screen(r), false);
      ConcatAssoc3(t, DrainEvents(config, p, screen), [Capture(r)], DrawEvents(config, r, screen(r), false));
    } else {
      assert t + DrainEvents(config, rs, screen) == t;
    }
  }

  /**
   * A drain session keeps the power bookkeeping and leaves the panel asleep:
   * in mock mode it issues no driver command, otherwise every draw lands on an
   * awake panel.
   */
  lemma DrainSessionKeepsInvariant(config: Config, t: seq<Event>, s: SysRun, rs: seq<Area>, screen: Area -> seq<bv8>)
    requires PowerInvariant(config.mock, t, s)
    ensures PowerInvariant(config.mock, t + DrainSession(config, s, rs, screen), Off)
  {
    var mock := config.mock;
    ActivateKeepsInvariant(mock, t, s);
    var t1 := t + ActivateCommands(mock, s);
    DrainEventsKeepInvariant(config, t1, rs, screen);
    var t2 := t1 + DrainEvents(config, rs, screen);
    SleepKeepsInvariant(mock, t2, On);
    ConcatAssoc(t, ActivateCommands(mock, s), DrainEvents(config, rs, screen), SleepCommands(mock, On));
  }

  lemma SingleFacts(e: Event, x: Event)
    ensures Count([e], x) == (if e == x then 1 else 0)
    ensures Captured([e]) == (if e.Capture? then [e.area] else [])
    ensures Drawn([e]) == (if e.DriverDraw? || e.MockPng? then [e.area] else [])
  {
    assert [e][..0] == [];
  }

  /** The single command of a draw: a panel draw or a mock PNG of the area. */
  lemma DrawEventsSingle(config: Config, area: Area, data: seq<bv8>, is4levels: bool)
    ensures |DrawEvents(config, area, data, is4levels)| == 1
    ensures var e := DrawEvents(config, area, data, is4levels)[0]; (e.MockPng? || e.DriverDraw?) && e.area == area
  {
  }

  /** A draw captures nothing, draws its area and issues no power command. */
  lemma DrawEventsFacts(config: Config, area: Area, data: seq<bv8>, is4levels: bool)
    ensures Captured(DrawEvents(config, area, data, is4levels)) == []
    ensures Drawn(DrawEvents(config, area, data, is4levels)) == [area]
    ensures Count(DrawEvents(config, area, data, is4levels), DriverActivate) == 0
    ensures Count(DrawEvents(config, area, data, is4levels), DriverSleep) == 0
  {
    var d := DrawEvents(config, area, data, is4levels);
    DrawEventsSingle(config, area, data, is4levels);
    assert d == [d[0]];
    SingleFacts(d[0], DriverActivate);
    SingleFacts(d[0], DriverSleep);
  }

  /** One drain step captures its rectangle. */
  lemma DrainStepCaptured(config: Config, r: Area, screen: Area -> seq<bv8>)
    ensures Captured(DrainStep(config, r, screen)) == [r]
  {
    var d := DrawEvents(config, r, screen(r), false);
    DrawEventsFacts(config, r, screen(r), false);
    CapturedConcat([Capture(r)], d);
    SingleFacts(Capture(r), DriverSleep);
  }

  /** One drain step draws its rectangle. */
  lemma DrainStepDrawn(config: Config, r: Area, screen: Area -> seq<bv8>)
    ensures Drawn(DrainStep(config, r, screen)) == [r]
  {
    var d := DrawEvents(config, r, screen(r), false);
    DrawEventsFacts(config, r, screen(r), false);
    DrawnConcat([Capture(r)], d);
    SingleFacts(Capture(r), DriverSleep);
  }

  /** One drain step issues no power command. */
  lemma DrainStepNoPower(config: Config, r: Area, screen: Area -> seq<bv8>, e: Event)
    requires e == DriverActivate || e == DriverSleep
    ensures Count(DrainStep(config, r, screen), e) == 0
  {
    var d := DrawEvents(config, r, screen(r), false);
    DrawEventsFacts(config, r, screen(r), false);
    CountConcat([Capture(r)], d, e);
    SingleFacts(Capture(r), e);
  }

  lemma CapturedSnoc(d: seq<Event>, step: seq<Event>, p: seq<Area>, r: Area)
    requires Captured(d) == p && Captured(step) == [r]
    ensures Captured(d + step) == p + [r]
  {
    CapturedConcat(d, step);
  }

  lemma DrawnSnoc(d: seq<Event>, step: seq<Event>, p: seq<Area>, r: Area)
    requires Drawn(d) == p && Drawn(step) == [r]
    ensures Drawn(d + step) == p + [r]
  {
    DrawnConcat(d, step);
  }

  /** Drawing a run of rectangles captures them in order. */
  lemma {:induction false} DrainEventsCaptured(config: Config, rs: seq<Area>, screen: Area -> seq<bv8>)
    ensures Captured(DrainEvents(config, rs, screen)) == rs
    decreases |rs|
  {
    if rs != [] {
      var p, r := rs[..|rs| - 1], rs[|rs| - 1];
      var d, step := DrainEvents(config, p, screen), DrainStep(config, r, screen);
      DrainEventsCaptured(config, p, screen);
      DrainStepCaptured(config, r, screen);
      CapturedSnoc(d, step, p, r);
      DropLast(rs);
    }
  }

  /** Drawing a run of rectangles draws them in order. */
  lemma {:induction false} DrainEventsDrawn(config: Config, rs: seq<Area>, screen: Area -> seq<bv8>)
    ensures Drawn(DrainEvents(config, rs, screen)) == rs
    decreases |rs|
  {
    if rs != [] {
      var p, r := rs[..|rs| - 1], rs[|rs| - 1];
      var d, step := DrainEvents(config, p, screen), DrainStep(config, r, screen);
      DrainEventsDrawn(config, p, screen);
      DrainStepDrawn(config, r, screen);
      DrawnSnoc(d, step, p, r);
      DropLast(rs);
    }
  }

  /** Drawing a run of rectangles issues no power command. */
  lemma {:induction false} DrainEventsNoPower(config: Config, rs: seq<Area>, screen: Area -> seq<bv8>, e: Event)
    requires e == DriverActivate || e == DriverSleep
    ensures Count(DrainEvents(config, rs, screen), e) == 0
    decreases |rs|
  {
    if rs != [] {
      var p, r := rs[..|rs| - 1], rs[|rs| - 1];
      var d, step := DrainEvents(config, p, screen), DrainStep(config, r, screen);
      DrainEventsNoPower(config, p, screen, e);
      DrainStepNoPower(config, r, screen, e);
      CountConcat(d, step, e);
    }
  }

  /** A power command: one of the driver calls IT8951_activate and IT8951_sleep make. */
  predicate IsPowerCommand(e: Event) {
    e.DriverWaitForReady? || e.DriverActivate? || e.DriverWaitForDisplayReady? || e.DriverSleep?
  }

  /** A run of power commands captures and draws nothing. */
  lemma {:induction false} PowerCommandsOnly(t: seq<Event>)
    requires forall i :: 0 <= i < |t| ==> IsPowerCommand(t[i])
    ensures Captured(t) == [] && Drawn(t) == []
    decreases |t|
  {
    if t != [] {
      PowerCommandsOnly(t[..|t| - 1]);
    }
  }

  /** The activate sequence holds one activate, exactly when it is issued, and no sleep. */
  lemma ActivateCommandsCount(mock: bool, s: SysRun, e: Event)
    requires e == DriverActivate || e == DriverSleep
    ensures Count(ActivateCommands(mock, s), e) == (if e == DriverActivate && !mock && s != On then 1 else 0)
  {
    var l := ActivateCommands(mock, s);
    if l != [] {
      assert l[..2] == [DriverWaitForReady, DriverActivate];
      assert l[..2][..1] == [DriverWaitForReady];
      assert [DriverWaitForReady][..0] == [];
      assert Count([DriverWaitForReady], e) == 0;
      assert Count([DriverWaitForReady, DriverActivate], e) == (if e == DriverActivate then 1 else 0);
    }
  }

  /** The sleep sequence holds one sleep, exactly when it is issued, and no activate. */
  lemma SleepCommandsCount(mock: bool, s: SysRun, e: Event)
    requires e == DriverActivate || e == DriverSleep
    ensures Count(SleepCommands(mock, s), e) == (if e == DriverSleep && !mock && s != Off then 1 else 0)
  {
    var l := SleepCommands(mock, s);
    if l != [] {
      assert l[..1] == [DriverWaitForDisplayReady];
      assert [DriverWaitForDisplayReady][..0] == [];
      assert Count([DriverWaitForDisplayReady], e) == 0;
    }
  }

  /** Neither power sequence captures or draws anything. */
  lemma PowerSequencesAreaFree(mock: bool, s: SysRun)
    ensures Captured(ActivateCommands(mock, s)) == [] && Drawn(ActivateCommands(mock, s)) == []
    ensures Captured(SleepCommands(mock, s)) == [] && Drawn(SleepCommands(mock, s)) == []
  {
    PowerCommandsOnly(ActivateCommands(mock, s));
    PowerCommandsOnly(SleepCommands(mock, s));
  }

  /** A drain session captures the given rectangles, in order. */
  lemma DrainSessionCaptured(config: Config, s: SysRun, rs: seq<Area>, screen: Area -> seq<bv8>)
    ensures Captured(DrainSession(config, s, rs, screen)) == rs
  {
    var a, d, z := ActivateCommands(config.mock, s), DrainEvents(config, rs, screen), SleepCommands(config.mock, On);
    PowerSequencesAreaFree(config.mock, s);
    PowerSequencesAreaFree(config.mock, On);
    DrainEventsCaptured(config, rs, screen);
    CapturedConcat(a, d);
    CapturedConcat(a + d, z);
  }

  /** A drain session draws the given rectangles, in order. */
  lemma DrainSessionDrawn(config: Config, s: SysRun, rs: seq<Area>, screen: Area -> seq<bv8>)
    ensures Drawn(DrainSession(config, s, rs, screen)) == rs
  {
    var a, d, z := ActivateCommands(config.mock, s), DrainEvents(config, rs, screen), SleepCommands(config.mock, On);
    PowerSequencesAreaFree(config.mock, s);
    PowerSequencesAreaFree(config.mock, On);
    DrainEventsDrawn(config, rs, screen);
    DrawnConcat(a, d);
    DrawnConcat(a + d, z);
  }

  /** The activates and sleeps of a drain session are those of its one activate and its one sleep. */
  lemma DrainSessionCount(config: Config, s: SysRun, rs: seq<Area>, screen: Area -> seq<bv8>, e: Event)
    requires e == DriverActivate || e == DriverSleep
    ensures Count(DrainSession(config, s, rs, screen), e) ==
      Count(ActivateCommands(config.mock, s), e) + Count(SleepCommands(config.mock, On), e)
  {
    var a, d, z := ActivateCommands(config.mock, s), DrainEvents(config, rs, screen), SleepCommands(config.mock, On);
    DrainEventsNoPower(config, rs, screen, e);
    CountConcat(a, d, e);
    CountConcat(a + d, z, e);
  }

  /**
   * What a drain session issues: the rectangles are captured and drawn in
   * the given order, one each; on the panel there is at most one activate
   * (none when the panel is already running) before the draws and exactly one
   * sleep, as the last command.
   */
  lemma DrainSessionShape(config: Config, s: SysRun, rs: seq<Area>, screen: Area -> seq<bv8>)
    ensures Captured(DrainSession(config, s, rs, screen)) == rs
    ensures Drawn(DrainSession(config, s, rs, screen)) == rs
    ensures !config.mock ==>
      Count(DrainSession(config, s, rs, screen), DriverActivate) == (if s == On then 0 else 1) &&
      Count(DrainSession(config, s, rs, screen), DriverSleep) == 1 &&
      DrainSession(config, s, rs, screen)[|DrainSession(config, s, rs, screen)| - 1] == DriverSleep
  {
    DrainSessionCaptured(config, s, rs, screen);
    DrainSessionDrawn(config, s, rs, screen);
    DrainSessionCount(config, s, rs, screen, DriverActivate);
    DrainSessionCount(config, s, rs, screen, DriverSleep);
    ActivateCommandsCount(config.mock, s, DriverActivate);
    ActivateCommandsCount(config.mock, s, DriverSleep);
    SleepCommandsCount(config.mock, On, DriverActivate);
    SleepCommandsCount(config.mock, On, DriverSleep);
  }

  /** A second activate right after a first issues nothing: the wake sequence goes out once. */
  lemma ActivateTwiceIssuesOnce(mock: bool, s: SysRun)
    ensures ActivateCommands(mock, s) + ActivateCommands(mock, On) == ActivateCommands(mock, s)
    ensures Count(ActivateCommands(mock, s), DriverActivate) == (if !mock && s != On then 1 else 0)
  {
    ActivateCommandsCount(mock, s, DriverActivate);
  }

  /** Likewise for sleep; and in mock mode neither sequence issues anything. */
  lemma SleepTwiceIssuesOnce(mock: bool, s: SysRun)
    ensures SleepCommands(mock, s) + SleepCommands(mock, Off) == SleepCommands(mock, s)
    ensures Count(SleepCommands(mock, s), DriverSleep) == (if !mock && s != Off then 1 else 0)
    ensures mock ==> ActivateCommands(mock, s) == [] && SleepCommands(mock, s) == []
  {
    SleepCommandsCount(mock, s, DriverSleep);
  }

  /**
   * A single draw bracketed by its own power cycle, as fullRefresh and the
   * immediate 4-level path of puppeteerMutation issue it: capture, activate,
   * draw, sleep.
   */
  function SingleDrawSession(config: Config, sysrun: SysRun, area: Area, data: seq<bv8>, is4levels: bool): seq<Event> {
    [Capture(area)] + ActivateCommands(config.mock, sysrun) + DrawEvents(config, area, data, is4levels)
      + SleepCommands(config.mock, On)
  }

  /** A single-draw session keeps the power bookkeeping and leaves the panel asleep. */
  lemma SingleDrawSessionKeepsInvariant(config: Config, t: seq<Event>, s: SysRun, area: Area, data: seq<bv8>, is4levels: bool)
    requires PowerInvariant(config.mock, t, s)
    ensures PowerInvariant(config.mock, t + SingleDrawSession(config, s, area, data, is4levels), Off)
  {
    var mock := config.mock;
    var c, a, d, z := [Capture(area)], ActivateCommands(mock, s), DrawEvents(config, area, data, is4levels), SleepCommands(mock, On);
    PowerStep(mock, t, s, Capture(area));
    ActivateKeepsInvariant(mock, t + c, s);
    DrawKeepsInvariant(config, t + c + a, area, data, is4levels);
    SleepKeepsInvariant(mock, t + c + a + d, On);
    ConcatAssoc5(t, c, a, d, z);
  }

  lemma AreasOfFour(c: seq<Event>, a: seq<Event>, d: seq<Event>, z: seq<Event>, area: Area)
    requires Captured(c) == [area] && Captured(a) == [] && Captured(d) == [] && Captured(z) == []
    requires Drawn(c) == [] && Drawn(a) == [] && Drawn(d) == [area] && Drawn(z) == []
    ensures Captured(c + a + d + z) == [area] && Drawn(c + a + d + z) == [area]
  {
    CapturedConcat(c, a);
    CapturedConcat(c + a, d);
    CapturedConcat(c + a + d, z);
    DrawnConcat(c, a);
    DrawnConcat(c + a, d);
    DrawnConcat(c + a + d, z);
  }

  /** A single-draw session captures and draws just its area. */
  lemma SingleDrawSessionContents(config: Config, s: SysRun, area: Area, data: seq<bv8>, is4levels: bool)
    ensures Captured(SingleDrawSession(config, s, area, data, is4levels)) == [area]
    ensures Drawn(SingleDrawSession(config, s, area, data, is4levels)) == [area]
  {
    DrawEventsFacts(config, area, data, is4levels);
    SingleFacts(Capture(area), Capture(area));
    PowerSequencesAreaFree(config.mock, s);
    PowerSequencesAreaFree(config.mock, On);
    AreasOfFour([Capture(area)], ActivateCommands(config.mock, s), DrawEvents(config, area, data, is4levels),
                SleepCommands(config.mock, On), area);
  }
}
