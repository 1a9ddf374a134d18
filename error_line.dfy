/** One line of the CI viewer's issue table: its category styling, the
    file name it shows and the style of its left border. */
module ErrorLine {
  import opened Wrappers
  import opened JsStrings

  datatype Category = Error | Warning | Info

  datatype CategoryConfig = CategoryConfig(color: string, caption: string, selectedStyle: string)

  /** `CATEGORY_CONFIG`. */
  function Config(category: Category): CategoryConfig {
    match category
    case Error => CategoryConfig("text-failure-fg", "Error", "border-failure-fg bg-failure-bg/40")
    case Warning => CategoryConfig("text-waiting-fg", "Warn", "border-waiting-fg bg-waiting-bg/50")
    case Info => CategoryConfig("text-info-fg", "Info", "border-info-fg bg-info-bg/50")
  }

  const SELECTED_HEALING_STYLE: string := "border-healing-fg bg-healing-bg/40"
  const HEALING_STYLE: string := "border-l-transparent"
  const DEFAULT_STYLE: string := "border-l-transparent hover:bg-surface"

  /** `getLineStyle`: selected-and-healing first, then selected (the
      category's own style), then healing, then the hover default. */
  function LineStyle(selected: bool, healing: bool, selectedStyle: string): (r: string)
    ensures selected && healing ==> r == SELECTED_HEALING_STYLE
    ensures selected && !healing ==> r == selectedStyle
    ensures !selected ==> r == (if healing then HEALING_STYLE else DEFAULT_STYLE)
  {
    if selected && healing then SELECTED_HEALING_STYLE
    else if selected then selectedStyle
    else if healing then HEALING_STYLE
    else DEFAULT_STYLE
  }

  /** Whatever the category and the healing state, a selected line never
      looks like an unselected one, and a selected healing line never looks
      like a selected line that is not healing. */
  lemma SelectionAlwaysVisible(category: Category, healing: bool, healing': bool)
    ensures LineStyle(true, healing, Config(category).selectedStyle)
         != LineStyle(false, healing', Config(category).selectedStyle)
    ensures LineStyle(true, true, Config(category).selectedStyle)
         != LineStyle(true, false, Config(category).selectedStyle)
  {
    var style := Config(category).selectedStyle;
    assert style[7] != HEALING_STYLE[7] && style[7] != DEFAULT_STYLE[7];
    assert SELECTED_HEALING_STYLE[7] != HEALING_STYLE[7] && SELECTED_HEALING_STYLE[7] != DEFAULT_STYLE[7];
    assert SELECTED_HEALING_STYLE[7] != style[7];
  }

  /** The text after the last '/', as `path.split("/").at(-1)` gives it. */
  function LastSegment(path: string): (r: string)
    ensures |r| <= |path| && r == path[|path| - |r|..]
    ensures forall i :: 0 <= i < |r| ==> r[i] != '/'
    ensures |r| < |path| ==> path[|path| - |r| - 1] == '/'
  {
    if path == [] || path[|path| - 1] == '/' then []
    else LastSegment(path[..|path| - 1]) + [path[|path| - 1]]
  }

  /** `extractFilename`: "Global" for a missing or empty path, otherwise its
      last '/'-separated segment. */
  function ExtractFilename(path: Option<string>): (r: string)
    ensures !Truthy(path) ==> r == "Global"
    ensures Truthy(path) ==> r == LastSegment(path.value)
  {
    if !Truthy(path) then "Global" else LastSegment(path.value)
  }

  /** A path made of a directory and a file name yields that file name. */
  lemma {:induction false} FilenameOfPath(dir: string, name: string)
    requires name != [] && forall i :: 0 <= i < |name| ==> name[i] != '/'
    ensures ExtractFilename(Some(dir + "/" + name)) == name
  {
    FilenameSegment(dir + "/", name);
    assert dir + "/" + name == (dir + "/") + name;
  }

  lemma {:induction false} FilenameSegment(prefix: string, name: string)
    requires |prefix| > 0 && prefix[|prefix| - 1] == '/'
    requires forall i :: 0 <= i < |name| ==> name[i] != '/'
    ensures LastSegment(prefix + name) == name
    decreases |name|
  {
    if name == [] {
      assert prefix + name == prefix;
    } else {
      var init := name[..|name| - 1];
      assert (prefix + name)[..|prefix + name| - 1] == prefix + init;
      FilenameSegment(prefix, init);
      assert name == init + [name[|name| - 1]];
    }
  }

  const DEFAULT_MESSAGE: string := "Unable to load dependency @detent/autofix"
  const DEFAULT_STATUS: string := "Found"
  const HEALING_STATUS: string := "Healing"

  /** What an `ErrorLine` renders from its props once the defaults are
      applied. */
  datatype LineView = LineView(
    caption: string, filename: string, message: string, status: string,
    healing: bool, style: string)

  /** `ErrorLine`: an absent category is "Error", an absent status "Found",
      an absent message the fixed default; the line is healing exactly when
      its status is "Healing". */
  function RenderErrorLine(
    category: Option<Category>, selected: Option<bool>, location: Option<string>,
    message: Option<string>, status: Option<string>): (v: LineView)
    ensures v.status == status.GetOr(DEFAULT_STATUS)
    ensures v.message == message.GetOr(DEFAULT_MESSAGE)
    ensures v.caption == Config(category.GetOr(Error)).caption
    ensures v.healing <==> v.status == HEALING_STATUS
    ensures v.filename == ExtractFilename(location)
    ensures v.style == LineStyle(selected.GetOr(false), v.healing, Config(category.GetOr(Error)).selectedStyle)
  {
    var config := Config(category.GetOr(Error));
    var st := status.GetOr(DEFAULT_STATUS);
    var healing := st == HEALING_STATUS;
    LineView(config.caption, ExtractFilename(location), message.GetOr(DEFAULT_MESSAGE), st,
      healing, LineStyle(selected.GetOr(false), healing, config.selectedStyle))
  }

  /** With every prop left out, a line shows an unselected, non-healing
      "Error" found in "Global". */
  lemma DefaultLine()
    ensures var v := RenderErrorLine(None, None, None, None, None);
      && v.caption == "Error" && v.status == "Found" && !v.healing
      && v.filename == "Global" && v.style == DEFAULT_STYLE
  {
  }
}
