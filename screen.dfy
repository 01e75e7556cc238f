/**
 * The older placement routine `get_size` (src/screen.rs), which chooses a corner from a
 * horizontal and a vertical selector. fltk's `screen_count` and `screen_xywh` are passed in.
 */
module Screen {
  import opened Wrappers
  import Text
  import Pino

  type Rect = Pino.Rect

  /** The screens in fltk's numbering: `screens[i]` is `screen_xywh(i)`. */
  method CollectScreens(count: nat, screenXywh: nat -> Rect) returns (screens: seq<Rect>)
    ensures |screens| == count
    ensures forall i :: 0 <= i < count ==> screens[i] == screenXywh(i)
  {
    screens := [];
    for i := 0 to count
      invariant |screens| == i
      invariant forall j :: 0 <= j < i ==> screens[j] == screenXywh(j)
    {
      screens := screens + [screenXywh(i)];
    }
  }

  /** Both selectors name a corner (compared without regard to case). */
  predicate Matched(v: string, h: string) {
    (Text.Lower(h) == "left" || Text.Lower(h) == "right") && (Text.Lower(v) == "top" || Text.Lower(v) == "bottom")
  }

  /** `screens[monitor]`, which panics when the monitor is out of range. */
  function ScreenAt(screens: seq<Rect>, monitor: nat): Result<Rect> {
    if monitor < |screens| then Ok(screens[monitor]) else Panic("index out of bounds")
  }

  /**
   * The window rectangle for vertical selector `v` and horizontal selector `h`. A corner is offset
   * by (ax, ay) from the matching screen edges; any other pair of selectors gives (0, 0, 100, 100)
   * without looking at the screens.
   */
  function SizeFor(screens: seq<Rect>, monitor: nat, v: string, h: string, ax: int, ay: int, aw: int, ah: int): (r: Result<Rect>)
    ensures !Matched(v, h) ==> r == Ok((0, 0, 100, 100))
    ensures Matched(v, h) ==> (r.Panic? <==> monitor >= |screens|)
    ensures r.Ok? && Matched(v, h) ==> r.value.2 == aw && r.value.3 == ah
    ensures r.Ok? && Matched(v, h) && Text.Lower(h) == "left" ==> r.value.0 - screens[monitor].0 == ax
    ensures r.Ok? && Matched(v, h) && Text.Lower(h) == "right" ==>
      (screens[monitor].0 + screens[monitor].2) - (r.value.0 + aw) == ax
    ensures r.Ok? && Matched(v, h) && Text.Lower(v) == "top" ==> r.value.1 - screens[monitor].1 == ay
    ensures r.Ok? && Matched(v, h) && Text.Lower(v) == "bottom" ==>
      (screens[monitor].1 + screens[monitor].3) - (r.value.1 + ah) == ay
  {
    var lh, lv := Text.Lower(h), Text.Lower(v);
    if lh == "left" && lv == "top" then
      match ScreenAt(screens, monitor)
      case Panic(m) => Panic(m)
      case Ok(s) => Ok((s.0 + ax, ay + s.1, aw, ah))
    else if lh == "left" && lv == "bottom" then
      match ScreenAt(screens, monitor)
      case Panic(m) => Panic(m)
      case Ok(s) => Ok((s.0 + ax, s.1 + s.3 - ah - ay, aw, ah))
    else if lh == "right" && lv == "top" then
      match ScreenAt(screens, monitor)
      case Panic(m) => Panic(m)
      case Ok(s) => Ok((s.0 + s.2 - aw - ax, s.1 + ay, aw, ah))
    else if lh == "right" && lv == "bottom" then
      match ScreenAt(screens, monitor)
      case Panic(m) => Panic(m)
      case Ok(s) => Ok((s.0 + s.2 - aw - ax, s.1 + s.3 - ah - ay, aw, ah))
    else
      Ok((0, 0, 100, 100))
  }

  /** `get_size`: collect the screens, then place the window on the chosen one. */
  method GetSize(count: nat, screenXywh: nat -> Rect, monitor: nat, v: string, h: string,
                 ax: int, ay: int, aw: int, ah: int) returns (r: Result<Rect>)
    ensures r == SizeFor(seq(count, i requires 0 <= i => screenXywh(i)), monitor, v, h, ax, ay, aw, ah)
  {
    var screens := CollectScreens(count, screenXywh);
    assert screens == seq(count, i requires 0 <= i => screenXywh(i));
    r := SizeFor(screens, monitor, v, h, ax, ay, aw, ah);
  }

  /** The selectors are case-insensitive: "LEFT" and "Top" act as "left" and "top". */
  lemma SelectorsIgnoreCase(screens: seq<Rect>, monitor: nat, v: string, h: string, ax: int, ay: int, aw: int, ah: int)
    ensures SizeFor(screens, monitor, v, h, ax, ay, aw, ah)
         == SizeFor(screens, monitor, Text.Lower(v), Text.Lower(h), ax, ay, aw, ah)
  {
    Text.LowerIdempotent(v);
    Text.LowerIdempotent(h);
  }

  /** The four lower-case selectors are their own lower case. */
  lemma LowerSelectors()
    ensures Text.Lower("top") == "top" && Text.Lower("bottom") == "bottom"
    ensures Text.Lower("left") == "left" && Text.Lower("right") == "right"
  {
    Text.LowerKeepsLowercase("top");
    Text.LowerKeepsLowercase("bottom");
    Text.LowerKeepsLowercase("left");
    Text.LowerKeepsLowercase("right");
  }

  /**
   * The four corners agree with the placement names of the newer code: selectors `v` and `h`
   * land where `<v>_<h>` does, for a window of the same size and offsets.
   */
  lemma {:induction false} CornersAgreeWithPlace(screens: seq<Rect>, monitor: nat, v: string, h: string, cfg: Pino.ScreenCfg)
    requires v == "top" || v == "bottom"
    requires h == "left" || h == "right"
    requires monitor < |screens|
    ensures var pos := Pino.Place(v + "_" + h, screens[monitor], cfg);
      SizeFor(screens, monitor, v, h, cfg.x, cfg.y, cfg.width, cfg.height) == Ok((pos.0, pos.1, cfg.width, cfg.height))
  {
    LowerSelectors();
    if v == "top" && h == "left" {
      assert v + "_" + h == "top_left";
    } else if v == "top" && h == "right" {
      assert v + "_" + h == "top_right";
    } else if v == "bottom" && h == "left" {
      assert v + "_" + h == "bottom_left";
    } else {
      assert v + "_" + h == "bottom_right";
    }
  }
}
