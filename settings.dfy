/**
 * The module's settings as seen by the rest of the code: the viewer gate
 * (`getTargetUser`, `isTargetViewer`) and the default value of every setting
 * `registerSettings` declares.
 */
module Settings {
  import opened Wrappers

  /** What reading the `targetUser` setting from the host's store can give. */
  datatype TargetRead =
    | Unregistered             // `game.settings.settings.has(...)` is false
    | ReadThrows               // registered, but `game.settings.get` throws
    | Registered(value: string)

  /** `getTargetUser()`: the configured viewer id, or "" whenever it cannot be read. */
  function GetTargetUser(read: TargetRead): (u: string)
    ensures read.Registered? ==> u == read.value
    ensures !read.Registered? ==> u == ""
  {
    match read
    case Registered(v) => v
    case _ => ""
  }

  /**
   * `isTargetViewer()`: `targetUser && game.user.id === targetUser`, read as a
   * boolean. It holds exactly when the setting is readable, non-empty and names
   * the current user; it never throws.
   */
  predicate IsTargetViewer(read: TargetRead, userId: string)
    ensures IsTargetViewer(read, userId) <==> read.Registered? && read.value != "" && read.value == userId
  {
    var target := GetTargetUser(read);
    target != "" && userId == target
  }

  /** An empty viewer id (the setting's default) never names a viewer, whoever the user is. */
  lemma EmptyTargetNeverViewer(userId: string)
    ensures !IsTargetViewer(Registered(""), userId)
    ensures !IsTargetViewer(Unregistered, userId)
    ensures !IsTargetViewer(ReadThrows, userId)
  {
  }

  datatype SettingDefault =
    | BoolDefault(b: bool)
    | NumberDefault(n: real)
    | StringDefault(s: string)

  /** The eight UI regions that each have a "hide" flag. */
  const HideFlagKeys: seq<string> :=
    ["navBar", "chatLog", "combatTracker", "sidebarTabs", "players", "logo", "sceneControls", "macroHotbar"]

  const PaddingKeys: seq<string> :=
    ["statusTrackerTopPadding", "statusTrackerRightPadding", "statusTrackerBottomPadding", "statusTrackerLeftPadding"]

  /** The choices of `statusTrackerPosition`. */
  const PositionChoices: set<string> := {"top-left", "top-right", "bottom-left", "bottom-right"}

  /** The table of defaults `registerSettings` declares, keyed by setting name. */
  const DefaultTable: map<string, SettingDefault> :=
    map["navBar" := BoolDefault(false), "chatLog" := BoolDefault(false),
        "combatTracker" := BoolDefault(false), "sidebarTabs" := BoolDefault(false),
        "players" := BoolDefault(false), "logo" := BoolDefault(false),
        "sceneControls" := BoolDefault(false), "macroHotbar" := BoolDefault(false),
        "minimalSidebar" := BoolDefault(false),
        "playerOffsetTop" := NumberDefault(30.0), "sidebarHeight" := NumberDefault(600.0),
        "zoomInLevel" := NumberDefault(1.5), "maxZoomOut" := NumberDefault(0.3),
        "defaultZoom" := NumberDefault(1.0), "dwellTime" := NumberDefault(5000.0),
        "enableStatusTracker" := BoolDefault(false),
        "statusTrackerPosition" := StringDefault("top-right"),
        "statusTrackerTopPadding" := NumberDefault(10.0),
        "statusTrackerRightPadding" := NumberDefault(10.0),
        "statusTrackerBottomPadding" := NumberDefault(10.0),
        "statusTrackerLeftPadding" := NumberDefault(10.0),
        "statusTrackerAttributes" := StringDefault("attributes.hp.value"),
        "statusBarColors" := StringDefault("red,blue,green"),
        "targetUser" := StringDefault("")]

  /** The default of a setting, if the module registers it. */
  function DefaultOf(key: string): (d: Option<SettingDefault>)
    ensures key in HideFlagKeys ==> d == Some(BoolDefault(false))
    ensures key == "minimalSidebar" || key == "enableStatusTracker" ==> d == Some(BoolDefault(false))
    ensures key in PaddingKeys ==> d == Some(NumberDefault(10.0))
    ensures key == "statusTrackerPosition" ==> d == Some(StringDefault("top-right")) && "top-right" in PositionChoices
    ensures key == "playerOffsetTop" ==> d == Some(NumberDefault(30.0))
    ensures key == "sidebarHeight" ==> d == Some(NumberDefault(600.0))
    ensures key == "statusTrackerAttributes" ==> d == Some(StringDefault("attributes.hp.value"))
    ensures key == "statusBarColors" ==> d == Some(StringDefault("red,blue,green"))
    ensures key == "zoomInLevel" ==> d == Some(NumberDefault(1.5))
    ensures key == "maxZoomOut" ==> d == Some(NumberDefault(0.3))
    ensures key == "defaultZoom" ==> d == Some(NumberDefault(1.0))
    ensures key == "dwellTime" ==> d == Some(NumberDefault(5000.0))
    ensures key == "targetUser" ==> d == Some(StringDefault(""))
  {
    if key in DefaultTable then Some(DefaultTable[key]) else None
  }

  /** With the default viewer id, nobody is the viewer. */
  lemma DefaultTargetIsNobody(userId: string)
    ensures DefaultOf("targetUser") == Some(StringDefault(""))
    ensures !IsTargetViewer(Registered(DefaultOf("targetUser").value.s), userId)
  {
  }
}
