/**
 * Configuration directory lookup and pywal theme integration (src/colors.rs).
 *
 * Environment variables are passed in as optional strings; whether a template file exists and
 * what the colour cache file holds are passed in as functions of the path, so the file system
 * itself stays outside the model.
 */
module Colors {
  import opened Wrappers
  import Text

  /** The two environment variables the program consults. `None` stands for "not set". */
  datatype Env = Env(xdgConfigHome: Option<string>, home: Option<string>)

  // ---------------------------------------------------------------------------
  // Paths
  // ---------------------------------------------------------------------------

  /**
   * `PathBuf::join` on Unix: an absolute component replaces the path, otherwise a separator is
   * inserted unless the base is empty or already ends in one.
   */
  function Join(base: string, part: string): (r: string)
    ensures |part| > 0 && part[0] == '/' ==> r == part
    ensures !(|part| > 0 && part[0] == '/') ==> |base| + |part| <= |r| <= |base| + |part| + 1
  {
    if |part| > 0 && part[0] == '/' then part
    else if base == [] || base[|base| - 1] == '/' then base + part
    else base + "/" + part
  }

  /** A relative component is appended after the base, with one separator unless the base is empty or ends in one. */
  lemma JoinParts(base: string, part: string)
    requires !(|part| > 0 && part[0] == '/')
    ensures var r := Join(base, part);
      r[..|base|] == base && r[|r| - |part|..] == part &&
      (|r| == |base| + |part| + 1 <==> base != [] && base[|base| - 1] != '/') &&
      (|r| == |base| + |part| + 1 ==> r[|base|] == '/')
  {
  }

  /** Joining two relative components one after the other is joining their slash-separated concatenation. */
  lemma JoinNested(base: string, a: string, b: string)
    requires |a| > 0 && a[0] != '/' && a[|a| - 1] != '/'
    requires |b| == 0 || b[0] != '/'
    ensures Join(Join(base, a), b) == Join(base, a + "/" + b)
  {
    var ab := a + "/" + b;
    assert ab[0] == a[0];
    var ba := Join(base, a);
    assert ba[|ba| - 1] == a[|a| - 1];
    if base == [] || base[|base| - 1] == '/' {
      assert Join(ba, b) == base + a + "/" + b;
      assert Join(base, ab) == base + ab;
    } else {
      assert Join(ba, b) == base + "/" + a + "/" + b;
      assert Join(base, ab) == base + "/" + ab;
    }
  }

  const TemplateName: string := "colors-pino.toml"

  /** The configuration directory: `XDG_CONFIG_HOME` when set, else `$HOME/.config`, else a panic. */
  function GetConfigDir(env: Env): (r: Result<string>)
    ensures env.xdgConfigHome.Some? ==> r == Ok(env.xdgConfigHome.value)
    ensures env.xdgConfigHome.None? && env.home.Some? ==> r == Ok(Join(env.home.value, ".config"))
    ensures r.Panic? <==> env.xdgConfigHome.None? && env.home.None?
  {
    match env.xdgConfigHome
    case Some(xdg) => Ok(xdg)
    case None =>
      match env.home
      case Some(home) => Ok(Join(home, ".config"))
      case None => Panic("Could not determine config directory")
  }

  /** `XDG_CONFIG_HOME`, once set, decides the directory whatever `HOME` holds. */
  lemma XdgWins(xdg: string, home1: Option<string>, home2: Option<string>)
    ensures GetConfigDir(Env(Some(xdg), home1)) == GetConfigDir(Env(Some(xdg), home2)) == Ok(xdg)
  {
  }

  /** Where `create_template(app)` writes: `<config dir>/<app>/templates/colors-pino.toml`. */
  function TemplatePath(configDir: string, app: string): string {
    Join(Join(Join(configDir, app), "templates"), TemplateName)
  }

  /** The path `pywal` probes before creating the template of `app`. */
  function ProbedTemplate(configDir: string, app: string): string {
    Join(configDir, app + "/templates/" + TemplateName)
  }

  /** The template `create_template(app)` writes. */
  function CreateTemplate(env: Env, app: string): (r: Result<string>)
    ensures r.Panic? <==> GetConfigDir(env).Panic?
    ensures r.Ok? && |app| > 0 && app[0] != '/' && app[|app| - 1] != '/' ==>
      r.value == ProbedTemplate(GetConfigDir(env).value, app)
  {
    match GetConfigDir(env)
    case Panic(m) => Panic(m)
    case Ok(dir) => TemplateIsProbed(dir, app); Ok(TemplatePath(dir, app))
  }

  /** The probe and the write agree: `pywal` checks for exactly the file `create_template` writes. */
  lemma TemplateIsProbed(configDir: string, app: string)
    ensures |app| > 0 && app[0] != '/' && app[|app| - 1] != '/' ==>
      TemplatePath(configDir, app) == ProbedTemplate(configDir, app)
  {
    if |app| > 0 && app[0] != '/' && app[|app| - 1] != '/' {
      JoinNested(configDir, app, "templates");
      var at := app + "/" + "templates";
      assert at[0] == app[0] && at[|at| - 1] == 's';
      JoinNested(configDir, at, TemplateName);
      assert at + "/" + TemplateName == app + "/templates/" + TemplateName;
    }
  }

  /** The colour cache `pywal` reads: `$HOME/.cache/wal/colors-pino.toml`. */
  function CachePath(home: string): (r: string)
    ensures r == Join(home, ".cache/wal/" + TemplateName)
  {
    var p := Join(Join(Join(home, ".cache"), "wal"), TemplateName);
    JoinNested(home, ".cache", "wal");
    var cw := ".cache" + "/" + "wal";
    assert cw[0] == '.' && cw[|cw| - 1] == 'l';
    JoinNested(home, cw, TemplateName);
    assert cw + "/" + TemplateName == ".cache/wal/" + TemplateName;
    p
  }

  // ---------------------------------------------------------------------------
  // The pywal palette
  // ---------------------------------------------------------------------------

  /** The colour cache file's contents: background, foreground and the sixteen numbered colours. */
  datatype Palette = Palette(
    bg: string, fg: string,
    color0: string, color1: string, color2: string, color3: string,
    color4: string, color5: string, color6: string, color7: string,
    color8: string, color9: string, color10: string, color11: string,
    color12: string, color13: string, color14: string, color15: string)

  /** The numbered colours in order, so that `Numbered(p)[i]` is the field `color<i>`. */
  function Numbered(p: Palette): (r: seq<string>)
    ensures |r| == 16
  {
    [p.color0, p.color1, p.color2, p.color3, p.color4, p.color5, p.color6, p.color7,
     p.color8, p.color9, p.color10, p.color11, p.color12, p.color13, p.color14, p.color15]
  }

  /** The keys a theme setting may name: "bg", "fg" and "color0" up to "color15". */
  predicate IsColorKey(key: string) {
    key == "bg" || key == "fg" || exists i :: 0 <= i < 16 && key == "color" + Text.Decimal(i)
  }

  /** `get_color`: the palette field the key names; any other key panics. */
  function GetColor(p: Palette, key: string): (r: Result<string>)
    ensures key == "bg" ==> r == Ok(p.bg)
    ensures key == "fg" ==> r == Ok(p.fg)
    ensures r.Ok? ==> r.value == p.bg || r.value == p.fg || r.value in Numbered(p)
    ensures r.Panic? ==> r.message == "Invalid key!"
  {
    if key == "bg" then Ok(p.bg)
    else if key == "fg" then Ok(p.fg)
    else if key == "color0" then Ok(p.color0)
    else if key == "color1" then Ok(p.color1)
    else if key == "color2" then Ok(p.color2)
    else if key == "color3" then Ok(p.color3)
    else if key == "color4" then Ok(p.color4)
    else if key == "color5" then Ok(p.color5)
    else if key == "color6" then Ok(p.color6)
    else if key == "color7" then Ok(p.color7)
    else if key == "color8" then Ok(p.color8)
    else if key == "color9" then Ok(p.color9)
    else if key == "color10" then Ok(p.color10)
    else if key == "color11" then Ok(p.color11)
    else if key == "color12" then Ok(p.color12)
    else if key == "color13" then Ok(p.color13)
    else if key == "color14" then Ok(p.color14)
    else if key == "color15" then Ok(p.color15)
    else Panic("Invalid key!")
  }

  /** The rendering of 0 .. 15 that the numbered keys are built from. */
  lemma SmallDecimals()
    ensures Text.Decimal(0) == "0" && Text.Decimal(1) == "1" && Text.Decimal(2) == "2"
    ensures Text.Decimal(3) == "3" && Text.Decimal(4) == "4" && Text.Decimal(5) == "5"
    ensures Text.Decimal(6) == "6" && Text.Decimal(7) == "7" && Text.Decimal(8) == "8"
    ensures Text.Decimal(9) == "9" && Text.Decimal(10) == "10" && Text.Decimal(11) == "11"
    ensures Text.Decimal(12) == "12" && Text.Decimal(13) == "13" && Text.Decimal(14) == "14"
    ensures Text.Decimal(15) == "15"
  {
  }

  /** Key "color<i>" selects the i-th numbered colour. */
  lemma {:induction false} GetColorNumbered(p: Palette, i: int)
    requires 0 <= i < 16
    ensures GetColor(p, "color" + Text.Decimal(i)) == Ok(Numbered(p)[i])
  {
    SmallDecimals();
    if i == 0 {
      assert "color" + Text.Decimal(0) == "color0";
    } else if i == 1 {
      assert "color" + Text.Decimal(1) == "color1";
    } else if i == 2 {
      assert "color" + Text.Decimal(2) == "color2";
    } else if i == 3 {
      assert "color" + Text.Decimal(3) == "color3";
    } else if i == 4 {
      assert "color" + Text.Decimal(4) == "color4";
    } else if i == 5 {
      assert "color" + Text.Decimal(5) == "color5";
    } else if i == 6 {
      assert "color" + Text.Decimal(6) == "color6";
    } else if i == 7 {
      assert "color" + Text.Decimal(7) == "color7";
    } else if i == 8 {
      assert "color" + Text.Decimal(8) == "color8";
    } else if i == 9 {
      assert "color" + Text.Decimal(9) == "color9";
    } else if i == 10 {
      assert "color" + Text.Decimal(10) == "color10";
    } else if i == 11 {
      assert "color" + Text.Decimal(11) == "color11";
    } else if i == 12 {
      assert "color" + Text.Decimal(12) == "color12";
    } else if i == 13 {
      assert "color" + Text.Decimal(13) == "color13";
    } else if i == 14 {
      assert "color" + Text.Decimal(14) == "color14";
    } else if i == 15 {
      assert "color" + Text.Decimal(15) == "color15";
    }
  }

  /** Each literal numbered key is "color" followed by the rendering of its number. */
  lemma NumberedKeyIsColorKey(key: string)
    requires key in ["color0", "color1", "color2", "color3", "color4", "color5", "color6", "color7", "color8", "color9", "color10", "color11", "color12", "color13", "color14", "color15"]
    ensures IsColorKey(key)
  {
    SmallDecimals();
    if key == "color0" {
      assert key == "color" + Text.Decimal(0);
    } else if key == "color1" {
      assert key == "color" + Text.Decimal(1);
    } else if key == "color2" {
      assert key == "color" + Text.Decimal(2);
    } else if key == "color3" {
      assert key == "color" + Text.Decimal(3);
    } else if key == "color4" {
      assert key == "color" + Text.Decimal(4);
    } else if key == "color5" {
      assert key == "color" + Text.Decimal(5);
    } else if key == "color6" {
      assert key == "color" + Text.Decimal(6);
    } else if key == "color7" {
      assert key == "color" + Text.Decimal(7);
    } else if key == "color8" {
      assert key == "color" + Text.Decimal(8);
    } else if key == "color9" {
      assert key == "color" + Text.Decimal(9);
    } else if key == "color10" {
      assert key == "color" + Text.Decimal(10);
    } else if key == "color11" {
      assert key == "color" + Text.Decimal(11);
    } else if key == "color12" {
      assert key == "color" + Text.Decimal(12);
    } else if key == "color13" {
      assert key == "color" + Text.Decimal(13);
    } else if key == "color14" {
      assert key == "color" + Text.Decimal(14);
    } else if key == "color15" {
      assert key == "color" + Text.Decimal(15);
    }
  }

  /** `get_color` succeeds exactly on the eighteen palette keys and panics on every other key. */
  lemma {:induction false} GetColorSucceedsIff(p: Palette, key: string)
    ensures GetColor(p, key).Ok? <==> IsColorKey(key)
  {
    SmallDecimals();
    if IsColorKey(key) && key != "bg" && key != "fg" {
      var i :| 0 <= i < 16 && key == "color" + Text.Decimal(i);
      GetColorNumbered(p, i);
    }
    if GetColor(p, key).Ok? && key != "bg" && key != "fg" {
      NumberedKeyIsColorKey(key);
    }
  }

  // ---------------------------------------------------------------------------
  // pywal
  // ---------------------------------------------------------------------------

  /** The two templates `pywal` may create are different files. */
  lemma TemplatesDiffer(dir: string)
    ensures TemplatePath(dir, "wal") != TemplatePath(dir, "walrs")
  {
    TemplateIsProbed(dir, "wal");
    TemplateIsProbed(dir, "walrs");
    var a, b := "wal/templates/" + TemplateName, "walrs/templates/" + TemplateName;
    assert |Join(dir, a)| < |Join(dir, b)|;
  }

  /** What `pywal` does: the templates it had to create, and the four colours it returns. */
  datatype PywalRun = PywalRun(templatesCreated: seq<string>, colors: (string, string, string, string))

  /** The templates `pywal` creates: one per tool (`wal`, `walrs`) whose probed template is missing. */
  function MissingTemplates(dir: string, present: string -> bool): seq<string> {
    (if present(ProbedTemplate(dir, "wal")) then [] else [TemplatePath(dir, "wal")]) +
    (if present(ProbedTemplate(dir, "walrs")) then [] else [TemplatePath(dir, "walrs")])
  }

  /**
   * Only the `wal` and `walrs` templates are ever created, each exactly when it is missing, and
   * never one that is already present.
   */
  lemma MissingTemplatesSpec(dir: string, present: string -> bool)
    ensures var m := MissingTemplates(dir, present);
      |m| <= 2 && (forall t :: t in m ==> !present(t)) &&
      (TemplatePath(dir, "wal") in m <==> !present(TemplatePath(dir, "wal"))) &&
      (TemplatePath(dir, "walrs") in m <==> !present(TemplatePath(dir, "walrs"))) &&
      forall t :: t in m ==> t == TemplatePath(dir, "wal") || t == TemplatePath(dir, "walrs")
  {
    TemplateIsProbed(dir, "wal");
    TemplateIsProbed(dir, "walrs");
    TemplatesDiffer(dir);
  }

  /**
   * `pywal`: requires `HOME`, creates the missing templates, reads the palette from the cache file
   * (`load` stands for reading and parsing it, with its own panics) and looks up the four keys.
   */
  function Pywal(env: Env, present: string -> bool, load: string -> Result<Palette>,
                 background: string, border: string, title: string, message: string): (r: Result<PywalRun>)
    ensures env.home.None? ==> r == Panic("Can't Find Home Dir")
    ensures r.Ok? ==> env.home.Some? && load(CachePath(env.home.value)).Ok?
    ensures r.Ok? ==>
      var p := load(CachePath(env.home.value)).value;
      GetColor(p, background).Ok? && GetColor(p, border).Ok? && GetColor(p, title).Ok? && GetColor(p, message).Ok? &&
      r.value.colors == (GetColor(p, background).value, GetColor(p, border).value,
                         GetColor(p, title).value, GetColor(p, message).value)
    ensures r.Ok? ==> |r.value.templatesCreated| <= 2 && forall t :: t in r.value.templatesCreated ==> !present(t)
    ensures r.Ok? ==>
      var dir := GetConfigDir(env).value;
      (TemplatePath(dir, "wal") in r.value.templatesCreated <==> !present(TemplatePath(dir, "wal"))) &&
      (TemplatePath(dir, "walrs") in r.value.templatesCreated <==> !present(TemplatePath(dir, "walrs")))
    ensures r.Ok? ==>
      var dir := GetConfigDir(env).value;
      forall t :: t in r.value.templatesCreated ==> t == TemplatePath(dir, "wal") || t == TemplatePath(dir, "walrs")
  {
    match env.home
    case None => Panic("Can't Find Home Dir")
    case Some(home) =>
      var dir := GetConfigDir(env).value;
      var created := MissingTemplates(dir, present);
      MissingTemplatesSpec(dir, present);
      match load(CachePath(home))
      case Panic(m) => Panic(m)
      case Ok(p) =>
        var bg, bd, ti, me := GetColor(p, background), GetColor(p, border), GetColor(p, title), GetColor(p, message);
        if bg.Ok? && bd.Ok? && ti.Ok? && me.Ok? then Ok(PywalRun(created, (bg.value, bd.value, ti.value, me.value)))
        else Panic("Invalid key!")
  }

  /** `pywal` returns colours exactly when `HOME` is set, the cache loads and all four keys are palette keys. */
  lemma {:induction false} PywalSucceedsIff(env: Env, present: string -> bool, load: string -> Result<Palette>,
                                             background: string, border: string, title: string, message: string)
    ensures Pywal(env, present, load, background, border, title, message).Ok? <==>
      env.home.Some? && load(CachePath(env.home.value)).Ok? &&
      IsColorKey(background) && IsColorKey(border) && IsColorKey(title) && IsColorKey(message)
  {
    if env.home.Some? && load(CachePath(env.home.value)).Ok? {
      var p := load(CachePath(env.home.value)).value;
      GetColorSucceedsIff(p, background);
      GetColorSucceedsIff(p, border);
      GetColorSucceedsIff(p, title);
      GetColorSucceedsIff(p, message);
    }
  }
}
