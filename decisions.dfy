/**
 * The pure refresh decisions of node_helper.js: the effective gray level and
 * waveform of a draw, the full-refresh level hint, the payload rule of the
 * full-refresh request, the routing of one mutation notice, and the message
 * dispatch.
 */
module Decisions {
  import opened Pixels

  /** IT8951 display update modes used by the helper. */
  const DisplayUpdateModeGLD16: int := 5
  const DisplayUpdateModeDU4: int := 7

  /** The tunables the helper reads from its configuration; an absent entry reads as false. */
  datatype Config = Config(mock: bool, defaultTo4levels: bool, force6inch: bool)

  /** The configuration before any has been received (an empty object). */
  const EmptyConfig: Config := Config(false, false, false)

  /** The mode argument of display.draw: false (the driver's default) or an update mode. */
  datatype Waveform = DriverDefault | UpdateMode(code: int)

  /** Counts of visible MagicMirror modules, and of those carrying each 4-level class. */
  datatype ModuleCounts = ModuleCounts(nbModules: nat, nbModules4levels: nat, nbModulesNo4levels: nat)

  /** A message payload as far as the helper looks at it. */
  datatype Payload = ConfigPayload(config: Config) | BoolPayload(b: bool) | OtherPayload

  /** The level of a draw: 4 when the caller passed true, otherwise whatever the palette check says. */
  function EffectiveIs4Levels(is4levels: bool, data: seq<bv8>): (r: bool)
    ensures r <==> is4levels || OnlyGray4Levels(data)
  {
    if is4levels then true else OnlyGray4Levels(data)
  }

  /** The waveform of a draw: GLD16 or DU4 for a 4-level draw, by panel variant; the driver's default otherwise. */
  function DisplayMode(force6inch: bool, is4levels: bool): (m: Waveform)
    ensures m.DriverDefault? <==> !is4levels
    ensures m.UpdateMode? ==> m.code == (if force6inch then DisplayUpdateModeGLD16 else DisplayUpdateModeDU4)
  {
    if force6inch then (if is4levels then UpdateMode(DisplayUpdateModeGLD16) else DriverDefault)
    else (if is4levels then UpdateMode(DisplayUpdateModeDU4) else DriverDefault)
  }

  /** The level hint fullRefresh passes to the draw. */
  function FullRefreshIs4Levels(force16levels: bool, config: Config, counts: ModuleCounts): bool {
    !force16levels &&
    ((config.defaultTo4levels && counts.nbModulesNo4levels == 0) ||
     (!config.defaultTo4levels && counts.nbModules == counts.nbModules4levels))
  }

  /** The payload rule of IT8951_ASK_FULL_REFRESH: anything but a boolean forces 16 levels. */
  function Force16Levels(payload: Payload): bool {
    !payload.BoolPayload? || payload.b
  }

  /** What puppeteerMutation does with a notice. */
  datatype Route = Ignore | DrawNow | Enqueue

  function RouteMutation(refreshArmed: bool, config: Config, hasClass4levels: bool, hasClassNo4levels: bool): Route {
    if !refreshArmed then Ignore
    else if hasClass4levels || (config.defaultTo4levels && !hasClassNo4levels) then DrawNow
    else Enqueue
  }

  /** What socketNotificationReceived does with a message. */
  datatype Action = Configure(config: Config) | FullRefresh(force16levels: bool) | NoAction

  /** The configuration the helper keeps: a payload without the expected fields reads as all false. */
  function ConfigOf(payload: Payload): Config {
    if payload.ConfigPayload? then payload.config else EmptyConfig
  }

  function Dispatch(isInitialized: bool, notification: string, payload: Payload): Action {
    if !isInitialized && notification == "CONFIG" then Configure(ConfigOf(payload))
    else if isInitialized && notification == "IT8951_ASK_FULL_REFRESH" then FullRefresh(Force16Levels(payload))
    else NoAction
  }

  /** Only an explicit boolean false lets a requested full refresh use 4 levels. */
  lemma Force16LevelsUnlessFalse(payload: Payload)
    ensures !Force16Levels(payload) <==> payload == BoolPayload(false)
  {
  }

  /** A forced full refresh asks for 16 levels, whatever the modules on screen. */
  lemma ForcedFullRefreshHint(config: Config, counts: ModuleCounts)
    ensures !FullRefreshIs4Levels(true, config, counts)
  {
  }

  /**
   * The full-refresh hint under each default: with 4 levels by default it
   * holds unless some visible module refuses 4 levels; without, only when
   * every visible module asks for 4 levels.
   */
  lemma FullRefreshHintMeaning(config: Config, counts: ModuleCounts)
    ensures config.defaultTo4levels ==>
      (FullRefreshIs4Levels(false, config, counts) <==> counts.nbModulesNo4levels == 0)
    ensures !config.defaultTo4levels ==>
      (FullRefreshIs4Levels(false, config, counts) <==> counts.nbModules4levels == counts.nbModules)
  {
  }

  /**
   * Forcing 16 levels only withholds the hint: the draw still runs the
   * palette check, so content limited to the four gray codes is still drawn
   * in 4-level mode with the fast waveform.
   */
  lemma ForcedFullRefreshStillChecksPalette(config: Config, counts: ModuleCounts, data: seq<bv8>)
    ensures EffectiveIs4Levels(FullRefreshIs4Levels(true, config, counts), data) == OnlyGray4Levels(data)
    ensures OnlyGray4Levels(data) ==>
      DisplayMode(config.force6inch, EffectiveIs4Levels(FullRefreshIs4Levels(true, config, counts), data)).UpdateMode?
  {
  }

  /** A 4-level hint always yields 4-level packing and a 4-gray waveform, whatever the content. */
  lemma HintedDrawIsFewLevel(force6inch: bool, data: seq<bv8>)
    ensures EffectiveIs4Levels(true, data)
    ensures DisplayMode(force6inch, EffectiveIs4Levels(true, data)) != DriverDefault
  {
  }

  /**
   * The routing of a notice: nothing happens before the first full refresh has
   * armed its timer; then class .eink-4levels, or the 4-level default without
   * .no-eink-4levels, draws at once, and anything else is queued.
   */
  lemma RouteMeaning(refreshArmed: bool, config: Config, has4: bool, hasNo4: bool)
    ensures RouteMutation(refreshArmed, config, has4, hasNo4) == Ignore <==> !refreshArmed
    ensures RouteMutation(refreshArmed, config, has4, hasNo4) == DrawNow <==>
      refreshArmed && (has4 || (config.defaultTo4levels && !hasNo4))
    ensures has4 && refreshArmed ==> RouteMutation(refreshArmed, config, has4, hasNo4) == DrawNow
    ensures !config.defaultTo4levels && !has4 && refreshArmed ==> RouteMutation(refreshArmed, config, has4, hasNo4) == Enqueue
  {
  }

  /** CONFIG is taken only once, before initialization; a refresh request only after. */
  lemma DispatchMeaning(isInitialized: bool, notification: string, payload: Payload)
    ensures Dispatch(isInitialized, notification, payload).Configure? <==> !isInitialized && notification == "CONFIG"
    ensures Dispatch(isInitialized, notification, payload).FullRefresh? <==>
      isInitialized && notification == "IT8951_ASK_FULL_REFRESH"
    ensures Dispatch(isInitialized, notification, payload).FullRefresh? ==>
      (Dispatch(isInitialized, notification, payload).force16levels <==> payload != BoolPayload(false))
  {
  }
}
