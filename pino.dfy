/**
 * The command-line entry point (src/main.rs): argument defaults, the frame forwarded to an
 * already running popup, the colour selection and the window placement.
 *
 * The configuration is taken as already loaded, whether the single-instance socket accepted the
 * connection is a parameter, and the rectangle of the chosen monitor is passed in as fltk's
 * `screen_xywh` would report it.
 */
module Pino {
  import opened Wrappers
  import Text
  import Colors

  /** Rust's `u64`. */
  type U64 = x: int | 0 <= x < 0x1_0000_0000_0000_0000

  /** The command-line options that reach the popup. */
  datatype Args = Args(title: Option<string>, message: Option<string>, delay: Option<U64>)

  /** The `[screen]` section: monitor, placement name, offsets, window size and default delay. */
  datatype ScreenCfg = ScreenCfg(monitor: int, placement: string, x: int, y: int, width: int, height: int, delay: U64)
  datatype FrameCfg = FrameCfg(fgColor: string, fontFamily: string)
  datatype BorderCfg = BorderCfg(weight: int, color: string, radius: int)
  /** The `[title]` and `[message]` sections, which have the same fields. */
  datatype TextCfg = TextCfg(color: string, fontSize: int, x: int, y: int)
  datatype PywalCfg = PywalCfg(pywal: bool, backgroundColor: string, borderColor: string, titleColor: string, messageColor: string)
  datatype Config = Config(screen: ScreenCfg, frame: FrameCfg, border: BorderCfg, title: TextCfg, message: TextCfg, pywal: PywalCfg)

  /** A screen or window rectangle: x, y, width, height. */
  type Rect = (int, int, int, int)
  /** Colours in the order the window uses them: background, border, title, message. */
  type Colors4 = (string, string, string, string)

  const DefaultTitle: string := "Title"
  const DefaultMessage: string := "you didn't set the title or message"
  const Separator: string := "|+|"

  // ---------------------------------------------------------------------------
  // Argument defaults and the forwarded frame
  // ---------------------------------------------------------------------------

  /** The text `format!("{}|+|{}|+|{}", title, message, delay)` writes to the socket. */
  function Frame(title: string, message: string, delay: U64): (r: string)
    ensures |r| == |title| + |message| + 2 * |Separator| + |Text.Decimal(delay)|
    ensures r[..|title|] == title
    ensures r[|title|..|title| + 3] == Separator
    ensures r[|title| + 3..|title| + 3 + |message|] == message
    ensures r[|title| + 3 + |message|..|title| + 6 + |message|] == Separator
    ensures var tail := r[|title| + 6 + |message|..];
      Text.AllDigits(tail) && Text.DigitsValue(tail) == delay
  {
    var r := title + Separator + message + Separator + Text.Decimal(delay);
    assert r[|title| + 6 + |message|..] == Text.Decimal(delay);
    Text.DecimalValue(delay);
    r
  }

  /** The frame the forwarding branch sends, with its defaults written out as at src/main.rs:140-146. */
  function ForwardFrame(args: Args, cfg: Config): (r: string)
    ensures var title := if args.title.Some? then args.title.value else DefaultTitle;
      var message := if args.message.Some? then args.message.value else DefaultMessage;
      var delay := if args.delay.Some? then args.delay.value else cfg.screen.delay;
      var n := |title| + 6 + |message|;
      n <= |r| && r[..|title|] == title && r[|title|..|title| + 3] == Separator &&
      r[|title| + 3..n - 3] == message && r[n - 3..n] == Separator &&
      Text.AllDigits(r[n..]) && Text.DigitsValue(r[n..]) == delay
  {
    Frame(args.title.UnwrapOr(DefaultTitle),
          args.message.UnwrapOr(DefaultMessage),
          args.delay.UnwrapOr(cfg.screen.delay))
  }

  /** The (title, message, delay) the display branch hands to the window, as at src/main.rs:194-199. */
  function DisplayArgs(args: Args, cfg: Config): (t: (string, string, U64))
    ensures t.0 == (if args.title.Some? then args.title.value else DefaultTitle)
    ensures t.1 == (if args.message.Some? then args.message.value else DefaultMessage)
    ensures t.2 == (if args.delay.Some? then args.delay.value else cfg.screen.delay)
  {
    (args.title.UnwrapOr(DefaultTitle),
     args.message.UnwrapOr(DefaultMessage),
     args.delay.UnwrapOr(cfg.screen.delay))
  }

  /** Both branches apply the same defaults: the forwarded frame encodes what the window would show. */
  lemma ForwardedEqualsDisplayed(args: Args, cfg: Config)
    ensures var t := DisplayArgs(args, cfg); ForwardFrame(args, cfg) == Frame(t.0, t.1, t.2)
  {
  }

  // ---------------------------------------------------------------------------
  // Placement
  // ---------------------------------------------------------------------------

  /** Rust's `/` on integers: the quotient rounded toward zero. */
  function TruncDiv(a: int, b: int): (q: int)
    requires b > 0
    ensures var rem := a - b * q; -b < rem < b && (rem > 0 ==> a > 0) && (rem < 0 ==> a < 0)
  {
    if a >= 0 then a / b else -((-a) / b)
  }

  predicate IsLeft(placement: string) { placement == "top_left" || placement == "bottom_left" }
  predicate IsCenter(placement: string) { placement == "top_center" || placement == "bottom_center" }
  predicate IsRight(placement: string) { placement == "top_right" || placement == "bottom_right" }
  predicate IsTop(placement: string) { placement == "top_left" || placement == "top_center" || placement == "top_right" }
  predicate IsBottom(placement: string) { placement == "bottom_left" || placement == "bottom_center" || placement == "bottom_right" }
  predicate IsKnown(placement: string) { IsTop(placement) || IsBottom(placement) }

  /**
   * A window of width `w` at `x` is centred on the span `[sx, sx + sw)`: the gaps on its two
   * sides differ by at most one pixel, the extra pixel going where truncation toward zero puts it.
   */
  predicate CenteredOn(x: int, w: int, sx: int, sw: int) {
    var left := x - sx;
    var right := (sx + sw) - (x + w);
    if sw >= w then 0 <= right - left <= 1 else -1 <= right - left <= 0
  }

  /** The window's top-left corner for a placement name; an unknown name gives the fixed (20, 30). */
  function Place(placement: string, screen: Rect, s: ScreenCfg): (pos: (int, int))
    ensures !IsKnown(placement) ==> pos == (20, 30)
    ensures IsLeft(placement) ==> pos.0 - screen.0 == s.x
    ensures IsRight(placement) ==> (screen.0 + screen.2) - (pos.0 + s.width) == s.x
    ensures IsCenter(placement) ==> CenteredOn(pos.0, s.width, screen.0, screen.2)
    ensures IsTop(placement) ==> pos.1 - screen.1 == s.y
    ensures IsBottom(placement) ==> (screen.1 + screen.3) - (pos.1 + s.height) == s.y
  {
    var (sx, sy, sw, sh) := screen;
    match placement
    case "top_left" => (sx + s.x, sy + s.y)
    case "top_center" => (sx + TruncDiv(sw - s.width, 2), sy + s.y)
    case "top_right" => (sx + sw - s.width - s.x, sy + s.y)
    case "bottom_left" => (sx + s.x, sy + sh - s.height - s.y)
    case "bottom_center" => (sx + TruncDiv(sw - s.width, 2), sy + sh - s.height - s.y)
    case "bottom_right" => (sx + sw - s.width - s.x, sy + sh - s.height - s.y)
    case _ => (20, 30)
  }

  /** The centring rule pins the position down: only one x satisfies it. */
  lemma CenteredIsUnique(x1: int, x2: int, w: int, sx: int, sw: int)
    requires CenteredOn(x1, w, sx, sw) && CenteredOn(x2, w, sx, sw)
    ensures x1 == x2
  {
  }

  // ---------------------------------------------------------------------------
  // Colours and the whole run
  // ---------------------------------------------------------------------------

  /** The four colours: the pywal palette lookups when `pywal` is on, the configured colours otherwise. */
  function SelectColors(cfg: Config, env: Colors.Env, present: string -> bool, load: string -> Result<Colors.Palette>): (r: Result<Colors4>)
    ensures !cfg.pywal.pywal ==> r == Ok((cfg.frame.fgColor, cfg.border.color, cfg.title.color, cfg.message.color))
    ensures cfg.pywal.pywal ==>
      var p := Colors.Pywal(env, present, load, cfg.pywal.backgroundColor, cfg.pywal.borderColor,
                            cfg.pywal.titleColor, cfg.pywal.messageColor);
      r.Ok? == p.Ok? && (r.Ok? ==> r.value == p.value.colors)
  {
    if cfg.pywal.pywal then
      match Colors.Pywal(env, present, load, cfg.pywal.backgroundColor, cfg.pywal.borderColor,
                         cfg.pywal.titleColor, cfg.pywal.messageColor)
      case Panic(m) => Panic(m)
      case Ok(run) => Ok(run.colors)
    else
      Ok((cfg.frame.fgColor, cfg.border.color, cfg.title.color, cfg.message.color))
  }

  /** The arguments of `ui::ui`: window rectangle, font, border, title and message styles, colours, texts. */
  datatype UiCall = UiCall(window: Rect, fontFamily: string, border: (int, int), title: (int, int, int),
                           message: (int, int, int), colors: Colors4, args: (string, string, U64))

  /** What one invocation does: forward a frame to the running popup, or show a popup itself. */
  datatype Launch = Forwarded(frame: string) | Shown(ui: UiCall)

  /**
   * `main` once the configuration is loaded: `connected` says whether the single-instance socket
   * accepted a connection, `monitor` is `screen_xywh(config.screen.monitor)`.
   */
  function Run(env: Colors.Env, args: Args, cfg: Config, connected: bool, monitor: Rect,
               present: string -> bool, load: string -> Result<Colors.Palette>): (r: Result<Launch>)
    ensures Colors.GetConfigDir(env).Panic? ==> r.Panic?
    ensures connected ==> (r.Ok? <==> Colors.GetConfigDir(env).Ok?)
    ensures r.Ok? && connected ==> r.value == Forwarded(ForwardFrame(args, cfg))
    ensures r.Ok? && !connected ==>
      r.value.Shown? && r.value.ui.args == DisplayArgs(args, cfg) &&
      var pos := Place(cfg.screen.placement, monitor, cfg.screen);
      r.value.ui.window == (pos.0, pos.1, cfg.screen.width, cfg.screen.height)
    ensures !connected && Colors.GetConfigDir(env).Ok? ==> (r.Ok? <==> SelectColors(cfg, env, present, load).Ok?)
    ensures r.Ok? && !connected ==>
      r.value.ui.colors == SelectColors(cfg, env, present, load).value &&
      r.value.ui.fontFamily == cfg.frame.fontFamily &&
      r.value.ui.border == (cfg.border.weight, cfg.border.radius) &&
      r.value.ui.title == (cfg.title.x, cfg.title.y, cfg.title.fontSize) &&
      r.value.ui.message == (cfg.message.x, cfg.message.y, cfg.message.fontSize)
  {
    match Colors.GetConfigDir(env)
    case Panic(m) => Panic(m)
    case Ok(_) =>
      if connected then
        Ok(Forwarded(ForwardFrame(args, cfg)))
      else
        match SelectColors(cfg, env, present, load)
        case Panic(m) => Panic(m)
        case Ok(colors) =>
          var pos := Place(cfg.screen.placement, monitor, cfg.screen);
          Ok(Shown(UiCall((pos.0, pos.1, cfg.screen.width, cfg.screen.height),
                          cfg.frame.fontFamily,
                          (cfg.border.weight, cfg.border.radius),
                          (cfg.title.x, cfg.title.y, cfg.title.fontSize),
                          (cfg.message.x, cfg.message.y, cfg.message.fontSize),
                          colors,
                          DisplayArgs(args, cfg))))
  }

  /** When both branches can run, the popup ends up with the same (title, message, delay) whichever runs. */
  lemma {:induction false} BranchesAgree(env: Colors.Env, args: Args, cfg: Config, monitor: Rect,
                                         present: string -> bool, load: string -> Result<Colors.Palette>)
    requires Colors.GetConfigDir(env).Ok? && SelectColors(cfg, env, present, load).Ok?
    ensures Run(env, args, cfg, false, monitor, present, load).Ok?
    ensures Run(env, args, cfg, true, monitor, present, load).Ok?
    ensures var t := Run(env, args, cfg, false, monitor, present, load).value.ui.args;
      Run(env, args, cfg, true, monitor, present, load).value.frame == Frame(t.0, t.1, t.2)
  {
    ForwardedEqualsDisplayed(args, cfg);
  }
}
