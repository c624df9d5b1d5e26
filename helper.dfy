/**
 * The node helper's refresh controller: its fields, the power state machine
 * (IT8951_activate, IT8951_sleep), the draw, the damage-queue drain
 * (processStack), the mutation callback (puppeteerMutation), the full
 * refresh, the initialisation and the message dispatch.
 *
 * Driver calls and page captures are appended to the ghost trace. The page
 * is a parameter: `screen` gives the decoded 8-bit gray frame of a captured
 * area. Timers are not modelled: where the source arms a delay before a
 * drain, the mutation callback reports that a drain was started and the
 * drain is the separate method ProcessStack.
 */
module Helper {
  import opened Wrappers
  import opened Pixels
  import opened Observer
  import opened Decisions
  import opened Trace
  import opened Drain

  /** The page size assumed in mock mode when the window size is not configured. */
  const MockDefaultWidth: int := 1872
  const MockDefaultHeight: int := 1404

  /** A configured window dimension, where 0 stands for an absent one. */
  function MockDimension(windowSize: int, fallback: int): int {
    if windowSize != 0 then windowSize else fallback
  }

  /** What the outside world supplies to one handled message. */
  datatype Environment = Environment(
    panelWidth: int, panelHeight: int,     // display.width / display.height reported by the driver
    windowWidth: int, windowHeight: int,   // electronOptions.width / height, 0 when absent
    counts: ModuleCounts,                  // getNbVisibleModules
    screen: Area -> seq<bv8>)              // captureScreen followed by the gray decode

  class NodeHelper {
    var config: Config
    var isInitialized: bool
    var stackAreas: seq<Area>
    var sysrun: SysRun
    /** this.refreshTimeout is set: clearTimeout never unsets it, so once set it stays set. */
    var refreshArmed: bool
    var width: int
    var height: int
    ghost var trace: seq<Event>

    ghost predicate Valid()
      reads this
    {
      PowerInvariant(config.mock, trace, sysrun) &&
      (!isInitialized ==> trace == [] && sysrun == Unset && stackAreas == [] && !refreshArmed)
    }

    /** The whole page, as captureScreen takes it when no rectangle is given. */
    function FullArea(): Area
      reads this
    {
      Area(0, 0, width, height)
    }

    constructor ()
      ensures Valid() && !isInitialized && config == EmptyConfig
      ensures stackAreas == [] && sysrun == Unset && !refreshArmed && trace == []
    {
      config := EmptyConfig;
      isInitialized := false;
      stackAreas := [];
      sysrun := Unset;
      refreshArmed := false;
      width, height := 0, 0;
      trace := [];
    }

    /** IT8951_activate. */
    method Activate()
      modifies this`sysrun, this`trace
      ensures sysrun == On
      ensures trace == old(trace) + ActivateCommands(config.mock, old(sysrun))
    {
      ghost var t0 := trace;
      if !config.mock && sysrun != On {
        trace := trace + [DriverWaitForReady];
        trace := trace + [DriverActivate];
        trace := trace + [DriverWaitForReady];
      }
      assert trace == t0 + ActivateCommands(config.mock, sysrun);
      sysrun := On;
    }

    /** IT8951_sleep. */
    method Sleep()
      modifies this`sysrun, this`trace
      ensures sysrun == Off
      ensures trace == old(trace) + SleepCommands(config.mock, old(sysrun))
    {
      ghost var t0 := trace;
      if !config.mock && sysrun != Off {
        trace := trace + [DriverWaitForDisplayReady];
        trace := trace + [DriverSleep];
      }
      assert trace == t0 + SleepCommands(config.mock, sysrun);
      sysrun := Off;
    }

    /** captureScreen: no rectangle means the whole page. */
    method CaptureScreen(rect: Option<Area>, screen: Area -> seq<bv8>) returns (data: seq<bv8>, area: Area)
      modifies this`trace
      ensures area == (if rect.None? then FullArea() else rect.value) && data == screen(area)
      ensures trace == old(trace) + [Capture(area)]
    {
      area := if rect.None? then Area(0, 0, width, height) else rect.value;
      trace := trace + [Capture(area)];
      data := screen(area);
    }

    /**
     * IT8951_draw of a decoded frame; every caller activates the panel first.
     * An absent hint (processStack) behaves as false in both branches.
     */
    method Draw(area: Area, data: seq<bv8>, is4levels: bool)
      modifies this`trace
      ensures trace == old(trace) + DrawEvents(config, area, data, is4levels)
    {
      if !config.mock {
        var lv := is4levels;
        if !lv {
          lv := IsBufferOnlyGray4Levels(data);
        }
        var mode := DisplayMode(config.force6inch, lv);
        var buffer4b := Downscale8BitsTo4Bits(data, lv);
        trace := trace + [DriverDraw(area, buffer4b[..], mode)];
      } else {
        trace := trace + [MockPng(area, if is4levels then 4 else 16)];
      }
    }

    /**
     * processStack: one activate, then the queue is drawn, then one sleep.
     */
    method ProcessStack(screen: Area -> seq<bv8>)
      requires Valid() && isInitialized
      modifies this`stackAreas, this`sysrun, this`trace
      ensures Valid() && stackAreas == [] && sysrun == Off
      ensures trace == old(trace) + DrainSession(config, old(sysrun), Dedup(old(stackAreas)), screen)
    {
      ghost var t0, s0 := trace, sysrun;
      Activate();
      var rectDone := DrainQueue(screen);
      ghost var d := DrainEvents(config, rectDone, screen);
      Sleep();
      ConcatAssoc(t0, ActivateCommands(config.mock, s0), d, SleepCommands(config.mock, On));
      DrainSessionKeepsInvariant(config, t0, s0, rectDone, screen);
    }

    /**
     * The loop of processStack: the queue is shifted to empty, and each
     * rectangle not drawn before in this drain (rectDone) is captured and drawn.
     */
    method DrainQueue(screen: Area -> seq<bv8>) returns (rectDone: seq<Area>)
      modifies this`stackAreas, this`trace
      ensures stackAreas == []
      ensures rectDone == Dedup(old(stackAreas))
      ensures trace == old(trace) + DrainEvents(config, rectDone, screen)
    {
      ghost var q0, t0 := stackAreas, trace;
      rectDone := [];
      while |stackAreas| > 0
        invariant Dedup(q0) == rectDone + DedupFrom(stackAreas, rectDone)
        invariant trace == t0 + DrainEvents(config, rectDone, screen)
        decreases |stackAreas|
      {
        var rect := stackAreas[0];
        DedupFromStep(stackAreas, rectDone);
        stackAreas := stackAreas[1..];
        if rect !in rectDone {
          DrawRect(rect, screen);
          DrainEventsSnoc(config, rectDone, rect, screen);
          rectDone := rectDone + [rect];
        }
      }
    }

    /** One drawn rectangle of the drain: capture it and draw it without a level hint. */
    method DrawRect(rect: Area, screen: Area -> seq<bv8>)
      modifies this`trace
      ensures trace == old(trace) + DrainStep(config, rect, screen)
    {
      var data, area := CaptureScreen(Some(rect), screen);
      Draw(area, data, false);
    }

    /**
     * One capture drawn inside its own power cycle: capture the area (the
     * whole page when none is given), activate, draw with the hint, sleep.
     */
    method DrawInPowerCycle(rect: Option<Area>, is4levels: bool, screen: Area -> seq<bv8>)
      requires PowerInvariant(config.mock, trace, sysrun)
      modifies this`sysrun, this`trace
      ensures PowerInvariant(config.mock, trace, sysrun) && sysrun == Off
      ensures trace == old(trace) + SingleDrawSession(config, old(sysrun),
        if rect.None? then FullArea() else rect.value, screen(if rect.None? then FullArea() else rect.value), is4levels)
    {
      ghost var t0, s0 := trace, sysrun;
      var data, area := CaptureScreen(rect, screen);
      Activate();
      ghost var a := ActivateCommands(config.mock, s0);
      Draw(area, data, is4levels);
      ghost var d := DrawEvents(config, area, data, is4levels);
      Sleep();
      ConcatAssoc5(t0, [Capture(area)], a, d, SleepCommands(config.mock, On));
      SingleDrawSessionKeepsInvariant(config, t0, s0, area, data, is4levels);
    }

    /**
     * The puppeteerMutation callback. Before the first full refresh has armed
     * its timer it does nothing; a 4-level notice is drawn at once inside its
     * own power cycle; any other is queued, and the push that makes the queue
     * one long starts a drain.
     */
    method PuppeteerMutation(rect: Area, hasClass4levels: bool, hasClassNo4levels: bool, screen: Area -> seq<bv8>)
      returns (drainStarted: bool)
      requires Valid()
      modifies this`stackAreas, this`sysrun, this`trace
      ensures Valid()
      ensures RouteMutation(refreshArmed, config, hasClass4levels, hasClassNo4levels) == Ignore ==>
        stackAreas == old(stackAreas) && sysrun == old(sysrun) && trace == old(trace) && !drainStarted
      ensures RouteMutation(refreshArmed, config, hasClass4levels, hasClassNo4levels) == DrawNow ==>
        stackAreas == old(stackAreas) && sysrun == Off && !drainStarted &&
        trace == old(trace) + SingleDrawSession(config, old(sysrun), rect, screen(rect), true)
      ensures RouteMutation(refreshArmed, config, hasClass4levels, hasClassNo4levels) == Enqueue ==>
        stackAreas == old(stackAreas) + [rect] && sysrun == old(sysrun) && trace == old(trace) &&
        drainStarted == (old(stackAreas) == [])
    {
      drainStarted := false;
      if refreshArmed {
        if hasClass4levels || (config.defaultTo4levels && !hasClassNo4levels) {
          DrawInPowerCycle(Some(rect), true, screen);
        } else {
          stackAreas := stackAreas + [rect];
          drainStarted := |stackAreas| == 1;
        }
      }
    }

    /**
     * fullRefresh: drops the pending queue, captures the whole page, draws it
     * with the level hint of the configuration and the visible modules (none
     * when 16 levels are forced) inside one power cycle, and arms the timer.
     */
    method FullRefresh(force16levels: bool, counts: ModuleCounts, screen: Area -> seq<bv8>)
      requires Valid() && isInitialized
      modifies this`stackAreas, this`sysrun, this`trace, this`refreshArmed
      ensures Valid() && stackAreas == [] && refreshArmed && sysrun == Off
      ensures trace == old(trace) + SingleDrawSession(config, old(sysrun), FullArea(), screen(FullArea()),
                                                      FullRefreshIs4Levels(force16levels, config, counts))
    {
      stackAreas := [];
      var is4levels := FullRefreshIs4Levels(force16levels, config, counts);
      DrawInPowerCycle(None, is4levels, screen);
      refreshArmed := true;
    }

    /**
     * initializeEink: on a real panel, init and sleep the driver and take its
     * size; in mock mode take the window size. Then one forced 16-level full
     * refresh.
     */
    method InitializeEink(env: Environment)
      requires Valid() && !isInitialized
      modifies this
      ensures Valid() && isInitialized && config == old(config)
      ensures stackAreas == [] && refreshArmed && sysrun == Off
      ensures width == (if config.mock then MockDimension(env.windowWidth, MockDefaultWidth) else env.panelWidth)
      ensures height == (if config.mock then MockDimension(env.windowHeight, MockDefaultHeight) else env.panelHeight)
      ensures trace == (if config.mock then [] else [DriverInit] + SleepCommands(false, Unset)) +
        SingleDrawSession(config, if config.mock then Unset else Off, FullArea(), env.screen(FullArea()),
                          FullRefreshIs4Levels(true, config, env.counts))
    {
      if !config.mock {
        PowerStep(config.mock, trace, sysrun, DriverInit);
        trace := trace + [DriverInit];
        SleepKeepsInvariant(config.mock, trace, sysrun);
        Sleep();
        width, height := env.panelWidth, env.panelHeight;
      } else {
        width := MockDimension(env.windowWidth, MockDefaultWidth);
        height := MockDimension(env.windowHeight, MockDefaultHeight);
      }
      isInitialized := true;
      FullRefresh(true, env.counts, env.screen);
    }

    /** socketNotificationReceived: CONFIG once before initialisation, full-refresh requests after it. */
    method SocketNotificationReceived(notification: string, payload: Payload, env: Environment)
      requires Valid()
      modifies this
      ensures Valid()
      ensures Dispatch(old(isInitialized), notification, payload).Configure? ==>
        config == ConfigOf(payload) && isInitialized && stackAreas == [] && refreshArmed && sysrun == Off &&
        width == (if config.mock then MockDimension(env.windowWidth, MockDefaultWidth) else env.panelWidth) &&
        height == (if config.mock then MockDimension(env.windowHeight, MockDefaultHeight) else env.panelHeight) &&
        trace == (if config.mock then [] else [DriverInit] + SleepCommands(false, Unset)) +
          SingleDrawSession(config, if config.mock then Unset else Off, FullArea(), env.screen(FullArea()),
                            FullRefreshIs4Levels(true, config, env.counts))
      ensures Dispatch(old(isInitialized), notification, payload).FullRefresh? ==>
        config == old(config) && isInitialized && stackAreas == [] && refreshArmed && sysrun == Off &&
        width == old(width) && height == old(height) &&
        trace == old(trace) + SingleDrawSession(config, old(sysrun), FullArea(), env.screen(FullArea()),
                                                FullRefreshIs4Levels(Force16Levels(payload), config, env.counts))
      ensures Dispatch(old(isInitialized), notification, payload) == NoAction ==>
        config == old(config) && isInitialized == old(isInitialized) && stackAreas == old(stackAreas) &&
        sysrun == old(sysrun) && refreshArmed == old(refreshArmed) && trace == old(trace) &&
        width == old(width) && height == old(height)
    {
      if !isInitialized && notification == "CONFIG" {
        config := ConfigOf(payload);
        InitializeEink(env);
      } else if isInitialized && notification == "IT8951_ASK_FULL_REFRESH" {
        var force16levels := !payload.BoolPayload? || payload.b;
        FullRefresh(force16levels, env.counts, env.screen);
      }
    }
  }
}
