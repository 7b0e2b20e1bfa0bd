/**
 * The main menu: which submenu and which menu camera is active, the player-name rule
 * applied when a game starts, the FPS-counter preference and the hangar-door glow that
 * precedes loading the game scene.
 */
module Menu {
  import opened Results
  import opened Prefs
  import opened Leaderboard

  // ---------------------------------------------------------------------------
  // Player names

  /** The characters the runtime classes as white space (separators and the listed controls). */
  predicate IsWhiteSpace(c: char)
  {
    var n := c as int;
    (0x09 <= n <= 0x0D) || n == 0x20 || n == 0x85 || n == 0xA0 || n == 0x1680 ||
    (0x2000 <= n <= 0x200A) || n == 0x2028 || n == 0x2029 || n == 0x202F || n == 0x205F ||
    n == 0x3000
  }

  /** An empty text, or one made only of white space. */
  predicate IsBlank(s: string)
  {
    forall i :: 0 <= i < |s| ==> IsWhiteSpace(s[i])
  }

  predicate NoWhiteSpace(s: string)
  {
    forall i :: 0 <= i < |s| ==> !IsWhiteSpace(s[i])
  }

  /**
   * The text with every white-space character removed, the rest kept in order. It is empty
   * exactly for a blank text, and no character of it is white space.
   */
  function RemoveWhiteSpace(s: string): (r: string)
    ensures NoWhiteSpace(r)
    ensures |r| <= |s|
    ensures r == [] <==> IsBlank(s)
    ensures multiset(r) <= multiset(s)
  {
    if s == [] then []
    else
      assert s == [s[0]] + s[1..];
      if IsWhiteSpace(s[0]) then RemoveWhiteSpace(s[1..])
    else [s[0]] + RemoveWhiteSpace(s[1..])
  }

  /**
   * Stripping works character by character and keeps the order: a white-space character
   * vanishes, any other stays, and the stripped form of a concatenation is the
   * concatenation of the stripped parts.
   */
  lemma {:induction false} RemoveWhiteSpaceAppend(a: string, b: string)
    ensures RemoveWhiteSpace(a + b) == RemoveWhiteSpace(a) + RemoveWhiteSpace(b)
    ensures |a| == 1 ==> RemoveWhiteSpace(a) == if IsWhiteSpace(a[0]) then [] else a
  {
    if a != [] {
      assert (a + b)[0] == a[0] && (a + b)[1..] == a[1..] + b;
      RemoveWhiteSpaceAppend(a[1..], b);
    } else {
      assert a + b == b;
    }
  }

  /** Stripping keeps every character that is not white space as often as it occurs. */
  lemma {:induction false} RemoveWhiteSpaceCounts(s: string, c: char)
    requires !IsWhiteSpace(c)
    ensures multiset(RemoveWhiteSpace(s))[c] == multiset(s)[c]
  {
    if s != [] {
      RemoveWhiteSpaceCounts(s[1..], c);
      assert s == [s[0]] + s[1..];
    }
  }

  /** A text without white space is its own stripped form. */
  lemma {:induction false} RemoveWhiteSpaceKeeps(s: string)
    requires NoWhiteSpace(s)
    ensures RemoveWhiteSpace(s) == s
  {
    if s != [] {
      assert NoWhiteSpace(s[1..]) by {
        forall i | 0 <= i < |s[1..]|
          ensures !IsWhiteSpace(s[1..][i])
        {
          assert s[1..][i] == s[i + 1];
        }
      }
      RemoveWhiteSpaceKeeps(s[1..]);
      assert s == [s[0]] + s[1..];
    }
  }

  /** Upper case for the basic Latin letters; every other character is left as it is. */
  function ToUpperChar(c: char): (r: char)
    ensures IsWhiteSpace(r) <==> IsWhiteSpace(c)
    ensures 'a' <= c <= 'z' ==> 'A' <= r <= 'Z'
    ensures !('a' <= c <= 'z') ==> r == c
  {
    if 'a' <= c <= 'z' then (c as int - 'a' as int + 'A' as int) as char else c
  }

  function ToUpper(s: string): (r: string)
    ensures |r| == |s|
    ensures forall i :: 0 <= i < |s| ==> r[i] == ToUpperChar(s[i])
  {
    seq(|s|, i requires 0 <= i < |s| => ToUpperChar(s[i]))
  }

  /**
   * The name stored for a player: the text without white space, cut to its first three
   * characters and upper-cased when it is longer than three, and kept as typed otherwise.
   */
  function SanitiseName(text: string): (r: string)
    ensures NoWhiteSpace(r)
    ensures |r| <= 3
    ensures |RemoveWhiteSpace(text)| <= 3 ==> r == RemoveWhiteSpace(text)
    ensures |RemoveWhiteSpace(text)| > 3 ==> |r| == 3
    ensures |RemoveWhiteSpace(text)| > 3 ==> forall i :: 0 <= i < 3 ==>
      r[i] == ToUpperChar(RemoveWhiteSpace(text)[i])
  {
    var stripped := RemoveWhiteSpace(text);
    if |stripped| > 3 then ToUpper(stripped[..3]) else stripped
  }

  /** Sanitising a stored name gives it back unchanged. */
  lemma SanitiseNameIdempotent(text: string)
    ensures SanitiseName(SanitiseName(text)) == SanitiseName(text)
  {
    RemoveWhiteSpaceKeeps(SanitiseName(text));
  }

  // ---------------------------------------------------------------------------
  // Menu views

  /** Which submenus and menu cameras are active. */
  datatype MenuView = MenuView(
    mainMenu: bool, leaderboardMenu: bool, startMenu: bool,
    orbitCamera: bool, startCamera: bool, playCamera: bool)

  /** The view at start-up: only the main menu and the orbit camera. */
  const MainOnly := MenuView(true, false, false, true, false, false)

  function OpenStart(v: MenuView): MenuView
  {
    v.(orbitCamera := false, startCamera := true, mainMenu := false, startMenu := true)
  }

  function CloseStart(v: MenuView): MenuView
  {
    v.(startCamera := false, orbitCamera := true, startMenu := false, mainMenu := true)
  }

  function OpenBoard(v: MenuView): MenuView
  {
    v.(mainMenu := false, leaderboardMenu := true)
  }

  function CloseBoard(v: MenuView): MenuView
  {
    v.(leaderboardMenu := false, mainMenu := true)
  }

  /** The view once a named game starts: the start menu and its camera off, the play camera on. */
  function Play(v: MenuView): MenuView
  {
    v.(startMenu := false, startCamera := false, playCamera := true)
  }

  /**
   * Opening and closing a submenu gives the view back whenever the main menu (and, for the
   * start menu, the orbit camera) was showing and the submenu (and its camera) was not. From
   * the start-up view, the start menu shows alone with only the start camera on.
   */
  lemma MenuRoundTrips(v: MenuView)
    ensures v.mainMenu && v.orbitCamera && !v.startMenu && !v.startCamera ==> CloseStart(OpenStart(v)) == v
    ensures v.mainMenu && !v.leaderboardMenu ==> CloseBoard(OpenBoard(v)) == v
    ensures OpenStart(MainOnly) == MenuView(false, false, true, false, true, false)
    ensures CloseStart(OpenStart(MainOnly)) == MainOnly
    ensures OpenBoard(MainOnly) == MenuView(false, true, false, true, false, false)
    ensures CloseBoard(OpenBoard(MainOnly)) == MainOnly
  {
  }

  // ---------------------------------------------------------------------------
  // Preferences

  const FpsKey := "FPS"
  const PlayerNameKey := "PlayerName"

  /** The FPS toggle's listener: writes 1 for on and 0 for off, and no other key. */
  function ToggleFPS(value: bool, prefs: Store): (r: Store)
    ensures FpsKey in r && GetInt(r, FpsKey, 0) == (if value then 1 else 0)
    ensures r.Keys == prefs.Keys + {FpsKey}
    ensures forall k :: k in prefs && k != FpsKey ==> r[k] == prefs[k]
  {
    prefs[FpsKey := IntPref(if value then 1 else 0)]
  }

  /** The toggle shows the stored preference after a write by ToggleFPS. */
  lemma ToggleRoundTrip(value: bool, prefs: Store)
    ensures (GetInt(ToggleFPS(value, prefs), FpsKey, 0) == 1) == value
  {
  }

  // ---------------------------------------------------------------------------
  // The menu object

  datatype FieldColor = White | Red

  class MenuButtonManager {
    var view: MenuView
    var fpsToggleOn: bool
    var nameFieldColor: FieldColor
    /** Whether the hangar door glass shows the glowing material. */
    var glassGlowing: bool
    var leaderboardDatabase: LeaderboardDatabase?

    constructor (view: MenuView)
      ensures this.view == view && !fpsToggleOn && nameFieldColor == White && !glassGlowing
      ensures leaderboardDatabase == null
    {
      this.view := view;
      fpsToggleOn := false;
      nameFieldColor := White;
      glassGlowing := false;
      leaderboardDatabase := null;
    }

    /**
     * Start-up: the orbit camera and the main menu alone are active, the board is taken
     * when one exists, the FPS key is written as 0 only when absent, and the toggle shows
     * whether the stored value is 1.
     */
    method Start(board: LeaderboardDatabase?, prefs: Store) returns (saved: Store)
      modifies this
      ensures view == MainOnly
      ensures leaderboardDatabase == if board != null then board else old(leaderboardDatabase)
      ensures saved == if FpsKey in prefs then prefs else prefs[FpsKey := IntPref(0)]
      ensures fpsToggleOn <==> GetInt(saved, FpsKey, 0) == 1
      ensures FpsKey !in prefs ==> !fpsToggleOn
      ensures nameFieldColor == old(nameFieldColor) && glassGlowing == old(glassGlowing)
    {
      view := view.(orbitCamera := true, startCamera := false, playCamera := false);
      if board != null {
        leaderboardDatabase := board;
      }
      view := view.(mainMenu := true, leaderboardMenu := false, startMenu := false);
      saved := prefs;
      if FpsKey !in saved {
        saved := saved[FpsKey := IntPref(0)];
      }
      fpsToggleOn := GetInt(saved, FpsKey, 0) == 1;
    }

    /** Typing in the name field turns it back to white. */
    method OnNameChanged()
      modifies this
      ensures nameFieldColor == White
      ensures view == old(view) && glassGlowing == old(glassGlowing) && fpsToggleOn == old(fpsToggleOn)
      ensures leaderboardDatabase == old(leaderboardDatabase)
    {
      nameFieldColor := White;
    }

    /**
     * The play button. A blank name only turns the field red. Any other name switches to the
     * play camera, stores the sanitised name, lights the hangar glass and starts the glow
     * (`glowStarted`).
     */
    method PlayGame(text: string, prefs: Store) returns (saved: Store, glowStarted: bool)
      modifies this
      ensures glowStarted <==> !IsBlank(text)
      ensures IsBlank(text) ==>
        saved == prefs && view == old(view) && nameFieldColor == Red && glassGlowing == old(glassGlowing)
      ensures !IsBlank(text) ==>
        saved == prefs[PlayerNameKey := StringPref(SanitiseName(text))] &&
        view == Play(old(view)) && nameFieldColor == old(nameFieldColor) && glassGlowing
      ensures fpsToggleOn == old(fpsToggleOn) && leaderboardDatabase == old(leaderboardDatabase)
    {
      if !IsBlank(text) {
        view := view.(startMenu := false);
        view := view.(startCamera := false, playCamera := true);
        var name := RemoveWhiteSpace(text);
        if |name| > 3 {
          name := ToUpper(name[..3]);
        }
        saved := prefs[PlayerNameKey := StringPref(name)];
        glassGlowing := true;
        glowStarted := true;
      } else {
        nameFieldColor := Red;
        saved := prefs;
        glowStarted := false;
      }
    }

    method OpenStartMenu()
      modifies this
      ensures view == OpenStart(old(view))
      ensures nameFieldColor == old(nameFieldColor) && glassGlowing == old(glassGlowing)
      ensures fpsToggleOn == old(fpsToggleOn) && leaderboardDatabase == old(leaderboardDatabase)
    {
      view := view.(orbitCamera := false, startCamera := true);
      view := view.(mainMenu := false, startMenu := true);
    }

    method CloseStartMenu()
      modifies this
      ensures view == CloseStart(old(view))
      ensures nameFieldColor == old(nameFieldColor) && glassGlowing == old(glassGlowing)
      ensures fpsToggleOn == old(fpsToggleOn) && leaderboardDatabase == old(leaderboardDatabase)
    {
      view := view.(startCamera := false, orbitCamera := true);
      view := view.(startMenu := false, mainMenu := true);
    }

    /**
     * Shows the leaderboard menu and fills its rows from the board. Without a board the menus
     * have already switched when the call on the missing board raises (None).
     */
    method OpenLeaderboard() returns (rows: Option<seq<Row>>)
      requires leaderboardDatabase != null ==> leaderboardDatabase.Valid()
      modifies this
      ensures nameFieldColor == old(nameFieldColor) && glassGlowing == old(glassGlowing)
      ensures fpsToggleOn == old(fpsToggleOn) && leaderboardDatabase == old(leaderboardDatabase)
      ensures view == OpenBoard(old(view))
      ensures rows.Some? <==> leaderboardDatabase != null
      ensures leaderboardDatabase != null ==> leaderboardDatabase.scores == old(leaderboardDatabase.scores)
      ensures rows.Some? ==>
        leaderboardDatabase != null && |rows.value| == EntryCount && |leaderboardDatabase.scores| == EntryCount
      ensures rows.Some? && leaderboardDatabase != null ==> forall i :: 0 <= i < EntryCount ==>
        (rows.value[i].rank == DecimalString(i + 1) &&
         (rows.value[i].time == Blank <==> leaderboardDatabase.scores[i].score.PositiveInfinity?))
    {
      view := view.(mainMenu := false, leaderboardMenu := true);
      if leaderboardDatabase == null {
        return None;
      }
      var shown := leaderboardDatabase.DisplayLeaderboard();
      rows := Some(shown);
    }

    method CloseLeaderboard()
      modifies this
      ensures view == CloseBoard(old(view))
      ensures nameFieldColor == old(nameFieldColor) && glassGlowing == old(glassGlowing)
      ensures fpsToggleOn == old(fpsToggleOn) && leaderboardDatabase == old(leaderboardDatabase)
    {
      view := view.(leaderboardMenu := false, mainMenu := true);
    }
  }

  /**
   * The glow before the game: the emission intensity is set to 2, 4, ..., 48 (one step per
   * tenth of a second, 24 steps), then the game scene is loaded.
   */
  method HangarDoorGlowing() returns (intensities: seq<real>, scene: string)
    ensures |intensities| == 24
    ensures forall k :: 0 <= k < |intensities| ==> intensities[k] == 2.0 * (k + 1) as real
    ensures forall k :: 0 <= k < |intensities| ==> intensities[k] < 50.0
    ensures scene == "GameScene"
  {
    intensities := [];
    var i := 2.0;
    while i < 50.0
      invariant i == 2.0 * (|intensities| + 1) as real
      invariant |intensities| <= 24
      invariant forall k :: 0 <= k < |intensities| ==> intensities[k] == 2.0 * (k + 1) as real
      decreases 24 - |intensities|
    {
      intensities := intensities + [i];
      i := i + 2.0;
    }
    scene := "GameScene";
  }
}
