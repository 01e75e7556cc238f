/**
 * The popup window (src/ui.rs): splitting text on the escaped line break, the draw callback and
 * the click handler.
 *
 * fltk's drawing state (current colour, font and size) is modelled by a `Canvas` that records what
 * is drawn; `measure` stands for fltk's text measurement, as a function of font, size and text.
 */
module Ui {

  /** The two characters backslash and `n`, which the text uses as its line break. */
  const LineBreak: string := "\\n"

  /** A line break starts at index `i` of `s`. */
  predicate BreakAt(s: string, i: int) {
    0 <= i && i + 1 < |s| && s[i] == '\\' && s[i + 1] == 'n'
  }

  /** The number of indices of `s` where a line break starts. */
  function Breaks(s: string): nat {
    if |s| < 2 then 0 else (if BreakAt(s, 0) then 1 else 0) + Breaks(s[1..])
  }

  ghost predicate NoBreak(s: string) {
    forall i :: !BreakAt(s, i)
  }

  // ---------------------------------------------------------------------------
  // text.split("\\n")
  // ---------------------------------------------------------------------------

  /** `str::split` on the escaped line break: the pieces between the breaks, in order. */
  function SplitLines(s: string): (r: seq<string>)
    ensures |r| >= 1
    ensures |r[0]| <= |s| && r[0] == s[..|r[0]|]
    decreases |s|
  {
    if |s| < 2 then [s]
    else if BreakAt(s, 0) then [""] + SplitLines(s[2..])
    else
      var rest := SplitLines(s[1..]);
      [[s[0]] + rest[0]] + rest[1..]
  }

  /** The pieces put back together with a line break between each two. */
  function JoinLines(parts: seq<string>): string
    requires |parts| >= 1
  {
    if |parts| == 1 then parts[0] else parts[0] + LineBreak + JoinLines(parts[1..])
  }

  /** Prefixing the first piece prefixes the joined text. */
  lemma {:induction false} JoinLinesPrefix(c: string, parts: seq<string>)
    requires |parts| >= 1
    ensures JoinLines([c + parts[0]] + parts[1..]) == c + JoinLines(parts)
  {
    var r := [c + parts[0]] + parts[1..];
    assert r[0] == c + parts[0];
    if |parts| > 1 {
      assert r[1..] == parts[1..];
      calc {
        JoinLines(r);
        r[0] + LineBreak + JoinLines(r[1..]);
        c + (parts[0] + LineBreak + JoinLines(parts[1..]));
      }
    }
  }

  /** Joining the pieces with the line break gives back the text. */
  lemma {:induction false} SplitJoin(s: string)
    ensures JoinLines(SplitLines(s)) == s
    decreases |s|
  {
    if |s| < 2 {
    } else if BreakAt(s, 0) {
      var rest := SplitLines(s[2..]);
      SplitJoin(s[2..]);
      var r := [""] + rest;
      assert SplitLines(s) == r && r[1..] == rest;
      assert JoinLines(r) == "" + LineBreak + JoinLines(rest);
      assert s == LineBreak + s[2..];
    } else {
      var rest := SplitLines(s[1..]);
      SplitJoin(s[1..]);
      JoinLinesPrefix([s[0]], rest);
      assert SplitLines(s) == [[s[0]] + rest[0]] + rest[1..];
      assert s == [s[0]] + s[1..];
    }
  }

  /** A text with n line breaks splits into n + 1 pieces. */
  lemma {:induction false} SplitCount(s: string)
    ensures |SplitLines(s)| == Breaks(s) + 1
    decreases |s|
  {
    if |s| < 2 {
    } else if BreakAt(s, 0) {
      SplitCount(s[2..]);
      var t := s[1..];
      if |t| >= 2 {
        assert !BreakAt(t, 0);
        assert t[1..] == s[2..];
      }
    } else {
      SplitCount(s[1..]);
    }
  }

  /** No piece holds a line break. */
  lemma {:induction false} SplitPiecesHaveNoBreak(s: string)
    ensures forall k :: 0 <= k < |SplitLines(s)| ==> NoBreak(SplitLines(s)[k])
    decreases |s|
  {
    if |s| < 2 {
    } else if BreakAt(s, 0) {
      SplitPiecesHaveNoBreak(s[2..]);
      assert NoBreak("");
    } else {
      var rest := SplitLines(s[1..]);
      SplitPiecesHaveNoBreak(s[1..]);
      var first := [s[0]] + rest[0];
      forall i ensures !BreakAt(first, i) {
        if i == 0 && |first| >= 2 {
          assert first[1] == rest[0][0] == s[1];
        } else if i > 0 {
          assert !BreakAt(rest[0], i - 1);
        }
      }
      var r := [first] + rest[1..];
      forall k | 0 <= k < |r| ensures NoBreak(r[k]) {
        if k > 0 {
          assert r[k] == rest[k];
        }
      }
    }
  }

  // ---------------------------------------------------------------------------
  // What gets drawn
  // ---------------------------------------------------------------------------

  /** A drawing primitive with the colour, font and size that were current when it was called. */
  datatype Op =
    | RoundedBox(color: string, x: int, y: int, w: int, h: int, radius: int)
    | Label(color: string, font: string, size: int, text: string, x: int, y: int)

  /** The height of the given lines stacked, as fltk measures them. */
  function Above(lines: seq<string>, font: string, size: int, measure: (string, int, string) -> int): int {
    if lines == [] then 0 else Above(lines[..|lines| - 1], font, size, measure) + measure(font, size, lines[|lines| - 1])
  }

  /** The lines drawn one under another: line k at x, at y0 plus the heights of the lines before it. */
  function Stacked(lines: seq<string>, color: string, font: string, size: int, x: int, y0: int,
                   measure: (string, int, string) -> int): (r: seq<Op>)
    ensures |r| == |lines|
  {
    seq(|lines|, k requires 0 <= k < |lines| =>
      Label(color, font, size, lines[k], x, y0 + Above(lines[..k], font, size, measure)))
  }

  /** Stacking one more line appends it just below the others. */
  lemma StackedSnoc(lines: seq<string>, line: string, color: string, font: string, size: int, x: int, y0: int,
                    measure: (string, int, string) -> int)
    ensures Stacked(lines + [line], color, font, size, x, y0, measure)
         == Stacked(lines, color, font, size, x, y0, measure)
            + [Label(color, font, size, line, x, y0 + Above(lines, font, size, measure))]
  {
    var ls := lines + [line];
    assert ls[..|lines|] == lines;
    forall k | 0 <= k < |lines| ensures ls[..k] == lines[..k] { }
  }

  /** fltk's global drawing state and the primitives drawn so far. */
  class Canvas {
    var color: string
    var font: string
    var size: int
    var ops: seq<Op>

    constructor (color: string, font: string, size: int)
      ensures this.color == color && this.font == font && this.size == size && ops == []
    {
      this.color, this.font, this.size, ops := color, font, size, [];
    }

    /** `set_draw_color`. */
    method SetDrawColor(c: string)
      modifies this
      ensures color == c && font == old(font) && size == old(size) && ops == old(ops)
    {
      color := c;
    }

    /** `set_font`. */
    method SetFont(f: string, s: int)
      modifies this
      ensures font == f && size == s && color == old(color) && ops == old(ops)
    {
      font, size := f, s;
    }

    /** `draw_rounded_rectf`, filled in the current colour. */
    method DrawRoundedRectf(x: int, y: int, w: int, h: int, radius: int)
      modifies this
      ensures ops == old(ops) + [RoundedBox(color, x, y, w, h, radius)]
      ensures color == old(color) && font == old(font) && size == old(size)
    {
      ops := ops + [RoundedBox(color, x, y, w, h, radius)];
    }

    /** `draw_text2`, left aligned, in the current colour, font and size. */
    method DrawText2(text: string, x: int, y: int)
      modifies this
      ensures ops == old(ops) + [Label(color, font, size, text, x, y)]
      ensures color == old(color) && font == old(font) && size == old(size)
    {
      ops := ops + [Label(color, font, size, text, x, y)];
    }

    /**
     * `draw_wrapped_text`: one label per piece of the text split on the escaped line break, all at
     * x, each one lower than the previous by the previous line's measured height.
     */
    method DrawWrappedText(text: string, x: int, y: int, measure: (string, int, string) -> int)
      modifies this
      ensures ops == old(ops) + Stacked(SplitLines(text), color, font, size, x, y, measure)
      ensures color == old(color) && font == old(font) && size == old(size)
    {
      var lines := SplitLines(text);
      var cursor := y;
      for i := 0 to |lines|
        invariant color == old(color) && font == old(font) && size == old(size)
        invariant cursor == y + Above(lines[..i], font, size, measure)
        invariant ops == old(ops) + Stacked(lines[..i], color, font, size, x, y, measure)
      {
        var height := measure(font, size, lines[i]);
        DrawText2(lines[i], x, cursor);
        StackedSnoc(lines[..i], lines[i], color, font, size, x, y, measure);
        assert lines[..i + 1] == lines[..i] + [lines[i]];
        cursor := cursor + height;
      }
      assert lines[..|lines|] == lines;
    }
  }

  // ---------------------------------------------------------------------------
  // The draw callback
  // ---------------------------------------------------------------------------

  /** The rounded inner box of a w x h window with border weight b: inset by b - 1 on every side. */
  function InnerRect(b: int, w: int, h: int): (r: (int, int, int, int))
    ensures r.0 == b - 1 && r.1 == b - 1
    ensures w - (r.0 + r.2) == b - 1 && h - (r.1 + r.3) == b - 1
  {
    (b - 1, b - 1, w - (b - 1) * 2, h - (b - 1) * 2)
  }

  /**
   * Where a text block starts, measured from the inner box's top-left corner (b - 1, b - 1): five
   * pixels right of its offset, and its baseline one font size below the offset, less three.
   */
  function TextOrigin(offsetX: int, offsetY: int, b: int, fontSize: int): (o: (int, int))
    ensures o.0 - (b - 1) == offsetX + 5
    ensures o.1 - (b - 1) == offsetY + fontSize - 3
  {
    (offsetX + b + 4, offsetY + b + fontSize - 4)
  }

  /** Everything the draw callback draws, in order: the inner box, the title lines, the message lines. */
  function PopupOps(w: int, h: int, fontFamily: string, border: (int, int), title: (int, int, int),
                    message: (int, int, int), colors: (string, string, string, string), texts: (string, string),
                    measure: (string, int, string) -> int): seq<Op>
  {
    var inner := InnerRect(border.0, w, h);
    var t := TextOrigin(title.0, title.1, border.0, title.2);
    var m := TextOrigin(message.0, message.1, border.0, message.2);
    [RoundedBox(colors.0, inner.0, inner.1, inner.2, inner.3, border.1)]
    + Stacked(SplitLines(texts.0), colors.2, fontFamily, title.2, t.0, t.1, measure)
    + Stacked(SplitLines(texts.1), colors.3, fontFamily, message.2, m.0, m.1, measure)
  }

  /**
   * The draw callback on a w x h window. Each text block's baseline is computed from
   * `font_size()` right after `set_font` chose that block's size.
   */
  method DrawPopup(canvas: Canvas, w: int, h: int, fontFamily: string, border: (int, int), title: (int, int, int),
                   message: (int, int, int), colors: (string, string, string, string), texts: (string, string),
                   measure: (string, int, string) -> int)
    modifies canvas
    ensures canvas.ops == old(canvas.ops) + PopupOps(w, h, fontFamily, border, title, message, colors, texts, measure)
    ensures canvas.color == colors.3 && canvas.font == fontFamily && canvas.size == message.2
  {
    canvas.SetDrawColor(colors.0);
    canvas.DrawRoundedRectf(border.0 - 1, border.0 - 1, w - (border.0 - 1) * 2, h - (border.0 - 1) * 2, border.1);

    canvas.SetDrawColor(colors.2);
    canvas.SetFont(fontFamily, title.2);
    canvas.DrawWrappedText(texts.0, title.0 + border.0 + 4, title.1 + border.0 + canvas.size - 4, measure);

    canvas.SetDrawColor(colors.3);
    canvas.SetFont(fontFamily, message.2);
    canvas.DrawWrappedText(texts.1, message.0 + border.0 + 4, message.1 + border.0 + canvas.size - 4, measure);
  }

  /**
   * Colour slots: 0 fills the inner box, 2 colours every title line and 3 every message line
   * (slot 1 is the window's own colour, see `Setup`).
   */
  lemma ColourSlots(w: int, h: int, fontFamily: string, border: (int, int), title: (int, int, int),
                    message: (int, int, int), colors: (string, string, string, string), texts: (string, string),
                    measure: (string, int, string) -> int, i: int)
    requires 0 <= i < |PopupOps(w, h, fontFamily, border, title, message, colors, texts, measure)|
    ensures var ops := PopupOps(w, h, fontFamily, border, title, message, colors, texts, measure);
      var titleLines := |SplitLines(texts.0)|;
      ops[i].color == (if i == 0 then colors.0 else if i <= titleLines then colors.2 else colors.3)
  {
  }

  /**
   * The first title line starts at (title.x + border + 4, title.y + border + title size - 4), in
   * the title's colour and size; the first message line likewise with the message's values.
   */
  lemma {:induction false} FirstLines(w: int, h: int, fontFamily: string, border: (int, int), title: (int, int, int),
                                      message: (int, int, int), colors: (string, string, string, string), texts: (string, string),
                                      measure: (string, int, string) -> int)
    ensures var ops := PopupOps(w, h, fontFamily, border, title, message, colors, texts, measure);
      var n := |SplitLines(texts.0)|;
      ops[1] == Label(colors.2, fontFamily, title.2, SplitLines(texts.0)[0],
                      title.0 + border.0 + 4, title.1 + border.0 + title.2 - 4) &&
      ops[n + 1] == Label(colors.3, fontFamily, message.2, SplitLines(texts.1)[0],
                          message.0 + border.0 + 4, message.1 + border.0 + message.2 - 4)
  {
    var t := SplitLines(texts.0);
    var m := SplitLines(texts.1);
    assert t[..0] == [] && m[..0] == [];
  }

  // ---------------------------------------------------------------------------
  // Window set-up and events
  // ---------------------------------------------------------------------------

  /** The window `ui` opens: its rectangle, caption, colour, whether it bypasses the window manager, and its timeout. */
  datatype WindowSetup = WindowSetup(rect: (int, int, int, int), caption: string, color: string,
                                     overrideRedirect: bool, closeAfterSeconds: int)

  /** The window takes the given rectangle and colour slot 1 (the border colour) and closes after `delay` seconds. */
  function Setup(screenInfo: (int, int, int, int), colors: (string, string, string, string), delay: int): (s: WindowSetup)
    ensures s.rect == screenInfo && s.color == colors.1 && s.closeAfterSeconds == delay
    ensures s.caption == "Pino" && s.overrideRedirect
  {
    WindowSetup(screenInfo, "Pino", colors.1, true, delay)
  }

  /** The fltk events the window can receive. */
  datatype Event = Push | Released | Drag | Move | Enter | Leave | KeyDown | KeyUp | MouseWheel | Other(code: int)

  /** What the handler does with an event: whether it consumed it, and whether it asked the app to quit. */
  datatype Reaction = Reaction(handled: bool, quit: bool)

  /** The event handler: a press anywhere quits and is consumed; every other event is passed on. */
  function Handle(e: Event): (r: Reaction)
    ensures r.handled <==> e == Push
    ensures r.quit <==> e == Push
  {
    if e == Push then Reaction(true, true) else Reaction(false, false)
  }
}
