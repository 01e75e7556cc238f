# pino-rs in Dafny

A model of pino, a desktop notification popup written in Rust with fltk, and of its D-Bus
companion `pino-dbus`. The model covers the deterministic core of each source file:

- `Pino` (src/main.rs): the defaults for a missing title, message and delay; the
  `title|+|message|+|delay` frame sent to an instance that is already running; the choice between
  the configured colours and the pywal palette; the six named window placements; and the whole
  decision of one invocation, given the loaded configuration and whether the single-instance
  socket answered.
- `Screen` (src/screen.rs): the older `get_size`. It collects the screens in a loop, then picks a
  corner from case-insensitive horizontal and vertical selectors.
- `Colors` (src/colors.rs): the configuration directory taken from `XDG_CONFIG_HOME` or `HOME`; the
  template and cache paths, using Unix `PathBuf::join` rules; `get_color` over the eighteen palette
  keys; and `pywal`.
- `Ui` (src/ui.rs): splitting text on the two-character escape backslash-n; `draw_wrapped_text`
  as a loop over a canvas that stands for fltk's drawing state; the draw callback (inner rounded
  box, text origins, colour slots); the window set-up; and the click handler.
- `Notifications` (scripts/pino-dbus/src/main.rs): media-player notifications, the polling round
  over the known players, Discord rewriting, and the routing and reply of `Notify`.
- `Text` and `Wrappers`: ASCII lower-casing, substring search, decimal rendering, `Option` and a
  `Result` whose error case is a panic with its message.

Panics (`panic!`, `expect`, an out-of-range index) are `Result.Panic(message)`. The message is only the literal text in the source: the model leaves out the `: <error>` suffix that `expect` appends and the lengths and index that an out-of-range index reports. Environment
variables are optional strings. Whether a file exists, and what the colour cache holds, are
functions of the path. fltk's screen queries and text measurement are parameters.

## Model

| member | source | states |
|---|---|---|
| `Text.Lower` | src/screen.rs:18-19 | `to_lowercase` keeps the length, lowers each character on its own, and leaves no capital letter |
| `Text.LowerIdempotent` | src/screen.rs:18-19 | lowering a lowered string changes nothing |
| `Text.Contains` | scripts/pino-dbus/src/main.rs:184 | `str::contains` finds the empty pattern everywhere, never finds a pattern longer than the text, and finds one the text starts with |
| `Text.ContainsSpec` | scripts/pino-dbus/src/main.rs:184 | the substring search succeeds exactly when the pattern occurs at some index |
| `Text.Decimal` | src/main.rs:141-145 | `{}` on the delay gives a non-empty string of decimal digits with no leading zero, and exactly "0" for zero |
| `Text.DecimalValue` | src/main.rs:141-145 | the rendered digits denote exactly the delay |
| `Colors.Join` | src/colors.rs:16-19 | an absolute component replaces the path; a relative one adds at most one separator between base and component |
| `Colors.JoinParts` | src/colors.rs:16-19 | a relative component keeps the base as prefix and the component as suffix, and adds a `/` exactly when the base is non-empty and does not already end in one |
| `Colors.JoinNested` | src/colors.rs:16-19 | joining relative components one by one equals joining their slash-separated concatenation |
| `Colors.GetConfigDir` | src/colors.rs:5-13 | `XDG_CONFIG_HOME` when set, otherwise `HOME` joined with `.config`; it panics exactly when neither is set |
| `Colors.XdgWins` | src/colors.rs:6-8 | once `XDG_CONFIG_HOME` is set, `HOME` has no effect |
| `Colors.CreateTemplate` | src/colors.rs:15-19 | the template goes to `<config dir>/<app>/templates/colors-pino.toml`; it panics exactly when the config directory does |
| `Colors.TemplateIsProbed` | src/colors.rs:111-119 | the path `pywal` probes is exactly the path `create_template` writes, for `wal` and `walrs` |
| `Colors.CachePath` | src/colors.rs:122-125 | the palette is read from `HOME` joined with `.cache/wal/colors-pino.toml` |
| `Colors.GetColor` | src/colors.rs:79-101 | `bg` and `fg` select the background and foreground; every success is one of the palette's eighteen colours; the only failure is the "Invalid key!" panic |
| `Colors.GetColorNumbered` | src/colors.rs:83-98 | key `color<i>` selects the i-th numbered colour, for i from 0 to 15 |
| `Colors.GetColorSucceedsIff` | src/colors.rs:79-101 | `get_color` succeeds exactly for `bg`, `fg` and `color0` to `color15`, and panics on any other key |
| `Colors.Pywal` | src/colors.rs:103-134 | panics without `HOME`; on success the palette comes from the cache path, and the result is the lookups of background, border, title and message, in that order; it creates no file other than the `wal` and `walrs` templates, never one that is already present, and each of the two exactly when it is missing |
| `Colors.MissingTemplatesSpec` | src/colors.rs:111-119 | the templates to create are at most the `wal` and `walrs` ones, each exactly when absent |
| `Colors.TemplatesDiffer` | src/colors.rs:111-119 | the `wal` and `walrs` templates are different files, so each probe decides its own template |
| `Colors.PywalSucceedsIff` | src/colors.rs:126-133 | `pywal` succeeds exactly when `HOME` is set, the cache loads and all four keys are palette keys |
| `Pino.Frame` | src/main.rs:140-146 | the frame is laid out as title, separator, message, separator, then digits whose value is the delay; the separator is the three characters bar, plus, bar |
| `Pino.ForwardFrame` | src/main.rs:140-146 | the forwarded frame is the given or default title ("Title"), the separator, the given or default message, the separator, and digits denoting the given or configured delay |
| `Pino.DisplayArgs` | src/main.rs:194-199 | a missing title becomes "Title", a missing message becomes the fixed reminder text, and a missing delay becomes the configured delay |
| `Pino.ForwardedEqualsDisplayed` | src/main.rs:142-145 | the forwarded frame encodes exactly the triple the display branch would use |
| `Pino.TruncDiv` | src/main.rs:180 | division rounds toward zero: the remainder is smaller than the divisor and has the dividend's sign |
| `Pino.Place` | src/main.rs:178-186 | left placements sit x pixels inside the screen's left edge, right placements x pixels inside its right edge, centre placements are centred with truncation; top and bottom likewise with y; an unknown name gives (20, 30) |
| `Pino.CenteredIsUnique` | src/main.rs:180 | the centring rule determines the x position uniquely |
| `Pino.SelectColors` | src/main.rs:151-164 | with pywal off, the colours are (frame fg, border, title, message) in that order; with pywal on, they are what `pywal` returns, and a pywal panic propagates |
| `Pino.Run` | src/main.rs:105-201 | panics without a config directory; when connected it forwards the defaulted frame; otherwise it shows a window of the configured size at the placed position with the defaulted texts, the selected colours, the configured font family, the border (weight, radius) and the title and message (x, y, size) styles; the display branch succeeds exactly when the colours can be selected, so a pywal panic ends it |
| `Pino.BranchesAgree` | src/main.rs:137-200 | when the config directory resolves and the colours can be selected, both branches succeed, and the forwarded frame encodes the triple the display branch shows |
| `Screen.CollectScreens` | src/screen.rs:12-16 | the list has one entry per screen, and entry i is `screen_xywh(i)` |
| `Screen.SizeFor` | src/screen.rs:18-46 | unmatched selectors give (0, 0, 100, 100) without indexing; matched selectors panic exactly when the monitor is out of range, and otherwise keep the size and offset the window from the chosen screen edges |
| `Screen.GetSize` | src/screen.rs:3-47 | `get_size` is the placement computed over the collected screens |
| `Screen.SelectorsIgnoreCase` | src/screen.rs:18-37 | selectors that differ only in case give the same result |
| `Screen.CornersAgreeWithPlace` | src/screen.rs:18-43 | each corner of `get_size` equals the position of the corresponding `top_left` … `bottom_right` placement in src/main.rs |
| `Ui.SplitLines` | src/ui.rs:14 | there is always at least one piece, and the first piece is a prefix of the text |
| `Ui.SplitJoin` | src/ui.rs:14 | joining the pieces with the escape gives back the text |
| `Ui.SplitCount` | src/ui.rs:14 | a text with n escapes splits into n + 1 pieces |
| `Ui.SplitPiecesHaveNoBreak` | src/ui.rs:14 | no piece contains the escape |
| `Ui.StackedSnoc` | src/ui.rs:15-17 | one more line is drawn at the same x, below the others by the sum of their heights |
| `Ui.Canvas.DrawWrappedText` | src/ui.rs:13-19 | draws one line per piece, each at x, with line k at y plus the measured heights of lines 0 to k-1, and leaves colour and font unchanged |
| `Ui.InnerRect` | src/ui.rs:49-55 | the inner box is inset by border − 1 on all four sides |
| `Ui.TextOrigin` | src/ui.rs:61-70 | each text block starts offset.x + 5 pixels right of the inner box's left edge, with its baseline offset.y + font size − 3 pixels below the inner box's top |
| `Ui.DrawPopup` | src/ui.rs:47-72 | the callback draws the inner box, then the title lines, then the message lines, each block at its origin and using the font size just set |
| `Ui.ColourSlots` | src/ui.rs:48-65 | slot 0 fills the inner box, slot 2 colours every title line, and slot 3 every message line |
| `Ui.FirstLines` | src/ui.rs:58-71 | the first title line is at (title.x + border + 4, title.y + border + title size − 4) in the title colour and size; the message follows the same rule |
| `Ui.Setup` | src/ui.rs:37-88 | the window takes the given rectangle, colour slot 1 and the caption "Pino", bypasses the window manager, and closes after the delay |
| `Ui.Handle` | src/ui.rs:74-81 | the handler consumes an event and quits exactly on a press |
| `Notifications.ToNotification` | scripts/pino-dbus/src/main.rs:79-107 | the summary is "player - status"; the body is "artist - title", the title alone, or "Now Playing", and is never empty; the only possible hint is "album", present exactly when the album is non-empty; the source is "Media" and there are no actions |
| `Notifications.Polled` | scripts/pino-dbus/src/main.rs:154-160 | a polling round shows no more notifications than there are players |
| `Notifications.PolledOnePerPlayer` | scripts/pino-dbus/src/main.rs:155-158 | when no player is listed twice, no two notifications of a round come from the same player |
| `Notifications.MonitorShowsOnePerPlayer` | scripts/pino-dbus/src/main.rs:155-158 | a round over the six known players shows at most one notification per player |
| `Notifications.PolledShowsAnswered` | scripts/pino-dbus/src/main.rs:155-158 | every listed player that answers is shown, with the notification built from what it reported |
| `Notifications.MonitorMediaPlayers` | scripts/pino-dbus/src/main.rs:154-160 | the loop shows, in list order, the notification of each player that answers |
| `Notifications.PolledAreMedia` | scripts/pino-dbus/src/main.rs:154-160 | every polled notification has source "Media" and is the notification built from the answer of a polled player that answered; a silent player contributes nothing |
| `Notifications.DiscordNotification` | scripts/pino-dbus/src/main.rs:162-171 | source and app are "Discord", the summary gets the prefix "Discord: ", the body is unchanged, and there are no actions or hints |
| `Notifications.IsMediaPlayer` | scripts/pino-dbus/src/main.rs:199 | the rescan test holds exactly when one of the six player names occurs somewhere in the lower-cased app name |
| `Notifications.GetCapabilities` | scripts/pino-dbus/src/main.rs:209-220 | exactly the four capabilities actions, body, body-markup and icon-static, each listed once |
| `Notifications.Notify` | scripts/pino-dbus/src/main.rs:179-206 | returns `replaces_id`; routes to Discord exactly when the lower-cased app name contains "discord", and otherwise passes every field through under "System"; rescans exactly when the name contains a known player |
| `Notifications.NotifyIgnoresCase` | scripts/pino-dbus/src/main.rs:184-199 | an app name and its lower case get the same route, rescan and id |
| `Notifications.DiscordAnywhereInName` | scripts/pino-dbus/src/main.rs:184 | any name with "Discord" anywhere in it, in any surrounding text, is routed to Discord |

## Left out

- The Unix socket connect and write (src/main.rs:137-149) are I/O. Whether the connection succeeds is an input to `Pino.Run`. Nothing in the source reads the frame, so there is no decoder.
- Command-line parsing, `--version` and `--font` (src/main.rs:107-117) are not modelled. Neither are the config-file path choice, config generation, or reading and parsing the TOML (src/main.rs:119-134, src/config.rs). The loaded `Config` is an input.
- Writing the template file (src/colors.rs:20-54) and reading and parsing the colour cache (src/colors.rs:126-127) are file I/O. `Colors.Pywal` takes them as a presence test and a loader, both functions of the path.
- All fltk calls are treated as foreign code: `App`, window creation, `show`, `run`, `quit`, `screen_count`, `screen_xywh`, `measure`, `Font::by_name` and `Color::from_hex_str` with its `expect`. Screens and measured heights are parameters, and the drawing primitives are recorded on a `Ui.Canvas`. The timeout is modelled only as the delay handed to the timer (`Ui.Setup`).
- `print_fonts` (src/ui.rs:21-25) prints, and `NotificationData::print` spawns `pino` and prints. The D-Bus connection, name request, Crossroads registration, `get_media_info` proxy reads, the 5-second polling thread, and the `CloseNotification` and `GetServerInformation` methods, which only acknowledge or return fixed strings, are also left out. The answer to `GetCapabilities` is `Notifications.GetCapabilities`.
- src/utils.rs (`is_running`, which spawns `pgrep`) is not part of this model. No shown file declares it as a module.
- src/screen.rs is dead code: its call is commented out and it is not declared as a module. It is modelled as written, beside the `placement` match that replaced it.
- `ui` declares its delay as `i32` (src/ui.rs:34), but `main` passes the `u64` delay. The model carries the `u64` value through unchanged.
- The generated config writes `horizontal`/`vertical` (src/config.rs:25-26), but `Screen` reads `placement`. This mismatch belongs to config loading, which is left out.
- Text.Lower: lowers ASCII letters only. Rust's `to_lowercase` also lowers non-ASCII capitals.
- Pino.Place: computed over unbounded integers. `i32` overflow (a panic in debug builds, wrap-around in release) is not modelled.
- Screen.SizeFor: computed over unbounded integers. `i32` overflow is not modelled.
- Ui.DrawPopup: the coordinates and the `y += height` accumulation in `Ui.Canvas.DrawWrappedText` use unbounded integers. `i32` overflow is not modelled.
- Colors.Pywal: a panic after the templates are written (reading or parsing the cache, an invalid key) is only its message. The templates already created on disk at that point are not part of the result.
- Colors.Join: follows Unix `PathBuf::push` for absolute and relative components. It does not normalise `.` or repeated separators, because `Path` comparison in Rust does that and the source never compares paths.
