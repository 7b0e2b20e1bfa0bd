# High Altitude Havoc: a verified model of the game logic

This project models, in Dafny, the sequential logic under the Unity scripts of the game
*High Altitude Havoc*. In the game a stealth bomber climbs out in a cutscene. The player then
flies it, looks around its cockpit, and mans its minigun turret. Times are recorded on a
leaderboard kept in the engine's preference store.

The engine is not modelled. Each of its inputs is a parameter of the model:

- the mouse axes and button, as `FrameInput`, and the C key, as a flag;
- the frame time (`Time.deltaTime` and `Time.fixedDeltaTime`);
- the object under the crosshair, which the script finds with `Physics.Raycast`;
- the preference store (`PlayerPrefs`), as a map from key to typed value.

Engine exceptions become `Result` or `Option` error values:

- a dictionary lookup of a missing key;
- the camera manager's out-of-range state;
- a call through a null reference.

An error value also ends the calling method at that point, as the exception would: the
statements after the failing call do not run.

Floats are `real`. The leaderboard's +infinity is an explicit `Float` value.

Modules, one per script or shared piece:

| module | models |
|---|---|
| `GameStates` | the `GameState` enum and the holder of the current state |
| `Results` | `Option` and `Result` |
| `UnityMath` | `Mathf.Clamp`, `Mathf.Clamp01`, `Vector2.Lerp`, and floats with +infinity |
| `Prefs` | `PlayerPrefs` reads with defaults |
| `Leaderboard` | `Menu/LeaderboardDatabase.cs` |
| `Combat` | `Game/Bullet.cs`, `Game/BulletPool.cs` and `Game/Health.cs` |
| `Cameras` | `Game/CameraManager.cs` |
| `Menu` | `Menu/MenuButtonManger.cs` |
| `TurretMechanics` | the spin, fire-timer and aim rules the turret and cockpit scripts share |
| `Turret` | `StealthBomber/TurretController.cs` |
| `TurretAim` | `StealthBomber/TurretAimController.cs` |
| `TurretFiring` | `StealthBomber/TurretFiringController.cs` |
| `Cockpit` | `StealthBomber/CockpitLookController.cs` and the two interactables |
| `GameCutscene` | `Game/InitialCutScene.cs` |
| `BomberMovement` | `StealthBomber/InitialCutScene.cs` (class `StealthBomberMovement`) |

Scripts that change fields frame by frame are Dafny classes whose methods modify those fields.
Each method is tied by its `ensures` to a pure function, such as `SpinStep`, `FireStep`, `Aim`,
`TransitionFor`, `NextHighlighted`, `Climb` or `WriteSlots`. The properties are proved about
those functions as lemmas.

### Where the code and its design description disagree

The model follows the code in both cases.

- The `GameState` enum in `Assets/Scripts/GameState.cs` has five values and no `Monitor`
  state.
- The leaderboard is sorted with `List.Sort`, which is not stable, by a comparison that puts
  the highest score first. So the contracts promise only "sorted and a permutation", and
  `SortedPermutationsAgreeOnScores` shows that any two such results have the same score
  sequence.

### Which state holder each script reads

`Game/CameraManager.cs` and `Game/InitialCutScene.cs` resolve `GameStateManager` to the
global class in `Assets/Scripts/GameStateManager.cs`. They share one `GameStateManager`
object in the model.

The turret and cockpit scripts live in the `StealthBomber` namespace and read
`StealthBomber.GameStateManager`, a separate singleton. That file is not part of this model.
Its current state is a parameter of their update methods.

## Model

| member | source | states |
|---|---|---|
| `GameStates.GameStateManager.constructor` | Assets/Scripts/GameStateManager.cs:45-48 | the current state starts as `CutsceneWidePan` |
| `UnityMath.Clamp` | Assets/Scripts/StealthBomber/TurretController.cs:170-171 | the result lies in any non-empty range, and a value already inside is returned unchanged |
| `UnityMath.LerpBetweenEnds` | Assets/Scripts/StealthBomber/TurretController.cs:174 | `Lerp` with its factor clamped to [0, 1] gives a value between the two end points, for either order of the end points |
| `UnityMath.LerpStaysInBox` | Assets/Scripts/StealthBomber/TurretController.cs:174 | smoothing between two points of an angle box stays in the box |
| `Prefs.GetString` | Assets/Scripts/Menu/LeaderboardDatabase.cs:99 | a missing key reads as the default |
| `Prefs.GetFloat` | Assets/Scripts/Menu/LeaderboardDatabase.cs:100 | a missing key reads as the default |
| `Prefs.GetInt` | Assets/Scripts/Menu/MenuButtonManger.cs:78 | a missing key reads as the default |
| `Prefs.SetThenGet` | Assets/Scripts/Menu/LeaderboardDatabase.cs:125-126 | reading a key just written gives back the written value, for each of the three types |
| `Leaderboard.Insert` | Assets/Scripts/Menu/LeaderboardDatabase.cs:113 | one insertion step of the sort: one entry longer, and the multiset gains exactly the new entry |
| `Leaderboard.InsertSorted` | Assets/Scripts/Menu/LeaderboardDatabase.cs:113 | inserting into a sorted list keeps it sorted (by induction) |
| `Leaderboard.SortEntries` | Assets/Scripts/Menu/LeaderboardDatabase.cs:113 | the result is sorted in the given order and is a permutation of the input |
| `Leaderboard.SortedPermutationsAgreeOnScores` | Assets/Scripts/Menu/LeaderboardDatabase.cs:113 | an unstable sort is still determined up to equal scores: any two sorted permutations have the same score sequence |
| `Leaderboard.SlotKeysDistinct` | Assets/Scripts/Menu/LeaderboardDatabase.cs:120-128 | the keys `"[i].name"` and `"[i].score"` of slots 0 to 6 never collide |
| `Leaderboard.StoredEntries` | Assets/Scripts/Menu/LeaderboardDatabase.cs:94-102 | seven entries are read in slot order, and a slot with no keys reads as ("", +infinity) |
| `Leaderboard.WriteSlotsSpec` | Assets/Scripts/Menu/LeaderboardDatabase.cs:120-128 | writing n slots adds exactly the 2n slot keys, stores each entry's name and score under them, and leaves every other key as it was |
| `Leaderboard.LoadAfterSave` | Assets/Scripts/Menu/LeaderboardDatabase.cs:94-128 | reading the seven slots after saving seven entries gives back the same entries in the same order |
| `Leaderboard.ReloadRestoresBoard` | Assets/Scripts/Menu/LeaderboardDatabase.cs:94-128 | saving a sorted board and then loading and sorting it again gives the same entries (as a multiset) and the same score sequence |
| `Leaderboard.RecordDropsLast` | Assets/Scripts/Menu/LeaderboardDatabase.cs:179-185 | recording keeps the length and the order, and drops exactly one of the old entries plus the new one; every kept entry may precede the dropped one (under the source's order: the dropped score is the lowest) |
| `Leaderboard.FreshBoardDropsEveryTime` | Assets/Scripts/Menu/LeaderboardDatabase.cs:179-185 | as written, recording a finite time on a board of seven placeholders leaves the board unchanged |
| `Leaderboard.RecordFastestFirst` | Assets/Scripts/Menu/LeaderboardDatabase.cs:179-185 | the corrected recording keeps seven entries sorted fastest first and drops the slowest |
| `Leaderboard.FastestFirstAdmitsTime` | Assets/Scripts/Menu/LeaderboardDatabase.cs:179-185 | with the corrected order, a finite time always enters a board that still holds a placeholder |
| `Leaderboard.LeaderboardDatabase.Start` | Assets/Scripts/Menu/LeaderboardDatabase.cs:77-88 | after start-up the board holds exactly the seven stored entries, sorted |
| `Leaderboard.LeaderboardDatabase.LoadScores` | Assets/Scripts/Menu/LeaderboardDatabase.cs:94-105 | the seven stored entries are appended to the list, which is then sorted, with the old entries plus the stored ones as its multiset |
| `Leaderboard.LeaderboardDatabase.SortScores` | Assets/Scripts/Menu/LeaderboardDatabase.cs:111-114 | the list is sorted highest score first and is a permutation of the old list |
| `Leaderboard.LeaderboardDatabase.SaveScores` | Assets/Scripts/Menu/LeaderboardDatabase.cs:120-128 | the new store adds exactly the fourteen slot keys, holds entry i's name and score under slot i's keys, and keeps every other key |
| `Leaderboard.LeaderboardDatabase.RecordScore` | Assets/Scripts/Menu/LeaderboardDatabase.cs:179-185 | the new board is the first seven entries of a sorted arrangement of the old board plus the new entry, it stays valid (seven entries, sorted), and the store is the board saved |
| `Leaderboard.LeaderboardDatabase.DisplayLeaderboard` | Assets/Scripts/Menu/LeaderboardDatabase.cs:134-173 | seven rows; row i shows rank i+1; name and time are blank exactly when the score is +infinity, and show the entry otherwise |
| `Combat.Bullet.constructor` | Assets/Scripts/Game/Bullet.cs:24-27 | a new bullet is active with its timer at zero |
| `Combat.Bullet.SetActive` | Assets/Scripts/Game/Bullet.cs:24-27 | activating an inactive bullet runs its enable hook, which zeroes the timer; otherwise the timer is kept |
| `Combat.Bullet.Update` | Assets/Scripts/Game/Bullet.cs:33-40 | the timer grows by the frame time, and the bullet is deactivated and queued at the back of the pool exactly when the timer reaches 4 |
| `Combat.Bullet.OnTriggerEnter` | Assets/Scripts/Game/Bullet.cs:56-65 | a target with a health component loses exactly 1; the bullet is always deactivated and queued at the back of the pool |
| `Combat.BulletPool.constructor` | Assets/Scripts/Game/BulletPool.cs:23-26 | the queue and the body table start empty |
| `Combat.BulletPool.Awake` | Assets/Scripts/Game/BulletPool.cs:28-47 | with a pool already registered, this one asks to be destroyed and changes nothing else; otherwise it registers and appends 100 new inactive bullets, all distinct and each with its body in the table |
| `Combat.BulletPool.GetBullet` | Assets/Scripts/Game/BulletPool.cs:54-68 | hands out the front bullet, activated, and the rest keep their order and their state; from an empty queue, a new bullet that the table does not know |
| `Combat.BulletPool.GetBulletCached` | Assets/Scripts/Game/BulletPool.cs:54-68 | the corrected version: a new bullet from an empty queue is entered in the table, so every bullet handed out has a body; the queued bullets keep their state |
| `Combat.BulletPool.ReturnBullet` | Assets/Scripts/Game/BulletPool.cs:75-79 | deactivates the bullet and appends it at the back, with no duplicate check; the pool invariant is kept when the bullet was active |
| `Combat.BulletPool.GetBulletRigidbody` | Assets/Scripts/Game/BulletPool.cs:87-90 | gives the cached body exactly when the bullet is in the table, and None where the lookup would throw |
| `Combat.Health.constructor` | Assets/Scripts/Game/Health.cs:7-11 | the maximum set in the editor, zero current health until start-up, no destruction request |
| `Combat.Health.Default` | Assets/Scripts/Game/Health.cs:7 | a component left at its default has maximum 100 |
| `Combat.Health.Start` | Assets/Scripts/Game/Health.cs:13-16 | current health becomes the maximum |
| `Combat.Health.TakeDamage` | Assets/Scripts/Game/Health.cs:26-35 | health drops by exactly the amount, without clamping, and destruction is requested exactly when the result is at most 0 |
| `Combat.Health.Die` | Assets/Scripts/Game/Health.cs:45-49 | one more destruction request, and nothing else changes |
| `Combat.Health.OnParticleCollision` | Assets/Scripts/Game/Health.cs:18-24 | a particle hit from an object tagged "Bullet" deals 10 damage; any other tag deals none |
| `Combat.ParticleDamageFrom` | Assets/Scripts/Game/Health.cs:20-22 | 10 exactly for the tag "Bullet", and 0 exactly for every other tag |
| `Combat.Launch` | Assets/Scripts/StealthBomber/TurretController.cs:282-287 | a shot takes the next bullet; its body is found when the queue was non-empty and its bullets registered, and never when the queue was empty |
| `Combat.LaunchCached` | Assets/Scripts/StealthBomber/TurretController.cs:282-287 | over the corrected pool, every shot from a registered pool finds its bullet's body |
| `Combat.ExhaustedPoolLaunchFails` | Assets/Scripts/Game/BulletPool.cs:63-67 | after a fresh pool hands out its 100 bullets, the 101st shot's body lookup fails |
| `Combat.ExhaustedPoolLaunchCached` | Assets/Scripts/Game/BulletPool.cs:63-67 | with the corrected pool the 101st shot finds its body |
| `Cameras.TransitionFor` | Assets/Scripts/Game/CameraManager.cs:72-109 | only Cockpit, Flying and Minigun are accepted. Every accepted change ends on the camera that `CameraIndex` (the state-to-index table at lines 16-23: wide pan 0, follow 1, flying 1, cockpit 2, minigun 4) gives its target, except Minigun. Cameras: Cockpit from Minigun is 4 then 2, other Cockpit is 2, Flying is 1, Minigun is 4 then 3. The first fade is white exactly for Minigun and for Cockpit from Minigun, black otherwise. A second switch follows exactly a white fade, and the second fade always clears after a 1 s wait |
| `Cameras.CameraManager.SwitchCamera` | Assets/Scripts/Game/CameraManager.cs:117-124 | every camera identical to camera i gets priority 10 and every other camera 0; an index outside the array raises and changes nothing |
| `Cameras.CameraManager.UpdateGameState` | Assets/Scripts/Game/CameraManager.cs:67-110 | the new state is recorded before branching, even when it then raises; the immediate switch and the returned fade sequence are those of `TransitionFor`; when the switch raises on an index outside a non-empty camera array, every camera keeps its priority |
| `Cameras.CameraManager.RunFadeSequence` | Assets/Scripts/Game/CameraManager.cs:135-146 | the bomber and cockpit active flags each flip once, and the optional second switch runs; when it raises, every camera keeps its priority |
| `Cameras.CameraManager.Start` | Assets/Scripts/Game/CameraManager.cs:41-44 | start-up is the state change from the current state to itself: its result and the camera priorities are those of `TransitionFor` and the switch; from the initial `CutsceneWidePan`, or on an index outside the camera array, it raises and no priority changes |
| `Cameras.CameraManager.Update` | Assets/Scripts/Game/CameraManager.cs:50-60 | with C pressed, Minigun and Flying change to Cockpit, with the fade sequence and camera priorities of `TransitionFor` into Cockpit, and no priority changes when the switch raises; anything else changes nothing |
| `Menu.RemoveWhiteSpace` | Assets/Scripts/Menu/MenuButtonManger.cs:95 | the result has no white space, is never longer than the text, takes no character the text lacks, and is empty exactly for a blank text |
| `Menu.RemoveWhiteSpaceCounts` | Assets/Scripts/Menu/MenuButtonManger.cs:95 | every character that is not white space occurs in the result exactly as often as in the text |
| `Menu.RemoveWhiteSpaceAppend` | Assets/Scripts/Menu/MenuButtonManger.cs:95 | stripping keeps the order: a single white-space character vanishes, any other stays, and stripping a concatenation concatenates the stripped parts |
| `Menu.RemoveWhiteSpaceKeeps` | Assets/Scripts/Menu/MenuButtonManger.cs:95 | a text without white space is unchanged |
| `Menu.ToUpperChar` | Assets/Scripts/Menu/MenuButtonManger.cs:100 | a to z map to A to Z; every other character is kept, so white space stays white space |
| `Menu.ToUpper` | Assets/Scripts/Menu/MenuButtonManger.cs:100 | upper-cases each character and keeps the length |
| `Menu.SanitiseName` | Assets/Scripts/Menu/MenuButtonManger.cs:95-103 | the stored name has no white space and at most 3 characters. A stripped name of at most 3 characters is kept as typed; a longer one becomes its first three characters upper-cased |
| `Menu.SanitiseNameIdempotent` | Assets/Scripts/Menu/MenuButtonManger.cs:95-103 | sanitising a stored name gives it back unchanged |
| `Menu.MenuRoundTrips` | Assets/Scripts/Menu/MenuButtonManger.cs:133-180 | for any view with the main menu and orbit camera showing and the start menu and its camera hidden, opening and then closing the start menu gives the view back; for any view with the main menu showing and the leaderboard hidden, the same holds for the leaderboard pair; from the start-up view the start menu shows alone with only the start camera on |
| `Menu.ToggleFPS` | Assets/Scripts/Menu/MenuButtonManger.cs:194-197 | writes 1 for on and 0 for off under "FPS", and no other key |
| `Menu.ToggleRoundTrip` | Assets/Scripts/Menu/MenuButtonManger.cs:72-79 | the toggle shown at start-up (the stored value equals 1) matches the last value written by the toggle |
| `Menu.MenuButtonManager.Start` | Assets/Scripts/Menu/MenuButtonManger.cs:51-80 | only the main menu and the orbit camera are active; the board is taken when one exists; "FPS" is written as 0 only when absent; the toggle shows whether the stored value is 1 |
| `Menu.MenuButtonManager.OnNameChanged` | Assets/Scripts/Menu/MenuButtonManger.cs:69 | typing turns the name field white |
| `Menu.MenuButtonManager.PlayGame` | Assets/Scripts/Menu/MenuButtonManger.cs:86-115 | a blank name stores nothing, changes no menu or camera, and turns the field red. Any other name stores the sanitised name, switches to the play camera, lights the glass and starts the glow |
| `Menu.MenuButtonManager.OpenStartMenu` | Assets/Scripts/Menu/MenuButtonManger.cs:133-143 | orbit camera off, start camera on, main menu off, start menu on |
| `Menu.MenuButtonManager.CloseStartMenu` | Assets/Scripts/Menu/MenuButtonManger.cs:149-159 | the reverse of opening |
| `Menu.MenuButtonManager.OpenLeaderboard` | Assets/Scripts/Menu/MenuButtonManger.cs:165-171 | the menus switch, then the board's seven rows are produced; with no board the call raises (None) after the switch |
| `Menu.MenuButtonManager.CloseLeaderboard` | Assets/Scripts/Menu/MenuButtonManger.cs:176-180 | leaderboard menu off, main menu on |
| `Menu.HangarDoorGlowing` | Assets/Scripts/Menu/MenuButtonManger.cs:117-127 | the glow intensities are 2, 4, ..., 48 (24 steps), then "GameScene" is loaded |
| `TurretMechanics.SpinStep` | Assets/Scripts/StealthBomber/TurretController.cs:184-251 | the latch sets only with the button held at full speed. Holding never clears it, and reaching full speed while held sets it. Released, the speed is never negative; the latch clears at once (clear-on-release) or exactly when the barrel stops (clear-at-rest) |
| `TurretMechanics.SpinStepBounds` | Assets/Scripts/StealthBomber/TurretController.cs:202-222 | with non-negative frame time and rates, the speed stays in [0, max]; it never falls while held and never rises while released |
| `TurretMechanics.SpinStepKeepsInvariant` | Assets/Scripts/StealthBomber/TurretController.cs:184-251 | each spin step preserves the invariant: speed in [0, max], and a set latch means full speed (clear-on-release) or a turning barrel (clear-at-rest) |
| `TurretMechanics.FiresOnlyAtFullSpin` | Assets/Scripts/StealthBomber/TurretController.cs:184-269 | under clear-on-release, a frame that fires has the barrel at full speed and the button held |
| `TurretMechanics.FiringOutlivesRelease` | Assets/Scripts/StealthBomber/TurretFiringController.cs:40-48 | under clear-at-rest, releasing at full speed keeps the latch set while the barrel slows down |
| `TurretMechanics.FireStep` | Assets/Scripts/StealthBomber/TurretController.cs:257-269 | not firing changes nothing. Firing shoots exactly when the timer is at most 0; the timer then becomes rate minus frame time, and otherwise drops by the frame time |
| `TurretMechanics.FireRunRateLimit` | Assets/Scripts/StealthBomber/TurretController.cs:257-269 | over any run of firing frames, shots times rate plus the starting timer is at most the elapsed time plus the final timer |
| `TurretMechanics.FireRunTimerBound` | Assets/Scripts/StealthBomber/TurretController.cs:257-269 | with non-negative frame times the timer never exceeds the larger of its start and the rate |
| `TurretMechanics.FireRunFromRest` | Assets/Scripts/StealthBomber/TurretController.cs:257-269 | from a spent timer, shots times rate is at most the elapsed time plus one rate |
| `TurretMechanics.AimTarget` | Assets/Scripts/StealthBomber/TurretController.cs:163-171 | the new target lies within any non-empty limits, and moves by exactly the mouse deltas when no clamping is needed |
| `TurretMechanics.Aim` | Assets/Scripts/StealthBomber/TurretController.cs:160-178 | the new target is within the limits, and a current rotation within the limits stays within them after smoothing |
| `Turret.TurretController.constructor` | Assets/Scripts/StealthBomber/TurretController.cs:36-52 | sensitivity 100, smoothing 10, rotations (0, 0), barrel at rest, latch clear |
| `Turret.TurretController.Start` | Assets/Scripts/StealthBomber/TurretController.cs:83-89 | runs the enable reset and nothing else that is modelled |
| `Turret.TurretController.OnEnable` | Assets/Scripts/StealthBomber/TurretController.cs:95-100 | both rotations become (0, 0) and nothing else changes |
| `Turret.TurretController.Update` | Assets/Scripts/StealthBomber/TurretController.cs:146-154 | outside Minigun nothing changes. In Minigun it applies the aim, spin and fire steps; the invariant is kept for non-negative frame times, a shot comes only from a full-speed barrel with the button held, and a shot from an empty queue finds no body. That failed lookup throws, so the timer keeps its spent value and the next frame shoots again; otherwise the timer follows `FireStep`. A frame without a shot leaves the pool untouched, and the body table never changes |
| `Turret.TurretController.AimTurret` | Assets/Scripts/StealthBomber/TurretController.cs:160-178 | the rotations are those of `Aim` with limits [-10, 20] x [-50, 50]; the invariant is kept |
| `Turret.TurretController.HandleSpin` | Assets/Scripts/StealthBomber/TurretController.cs:184-251 | the spin is `SpinStep` with 2000/3000/1000 and clear-on-release; the invariant is kept |
| `Turret.TurretController.HandleFiring` | Assets/Scripts/StealthBomber/TurretController.cs:257-269 | whether a shot is fired is `FireStep`'s decision with rate 0.01; a shot launches the front bullet of the pool. When its body lookup throws (an empty queue), the timer is neither restarted nor decremented and stays spent; otherwise the timer follows `FireStep`. No shot leaves the pool untouched; the body table never changes |
| `TurretAim.TurretAimController.constructor` | Assets/Scripts/StealthBomber/TurretAimController.cs:24-61 | spin 2000/1200/1000, fire rate 0.01, sensitivity 100, smoothing 10, rotations (0, 0), at rest |
| `TurretAim.TurretAimController.Start` | Assets/Scripts/StealthBomber/TurretAimController.cs:68-74 | runs the enable reset |
| `TurretAim.TurretAimController.OnEnable` | Assets/Scripts/StealthBomber/TurretAimController.cs:80-85 | both rotations become (0, 0) |
| `TurretAim.TurretAimController.Update` | Assets/Scripts/StealthBomber/TurretAimController.cs:131-139 | outside Minigun nothing changes; in Minigun, aim, spin and fire steps with the configured parameters; a shot comes only at full speed with the button held, and always yields a body; a frame without a shot leaves the pool untouched, and the body table never changes |
| `TurretAim.TurretAimController.AimTurret` | Assets/Scripts/StealthBomber/TurretAimController.cs:145-163 | the rotations are those of `Aim` with limits [-10, 20] x [-50, 50] |
| `TurretAim.TurretAimController.HandleSpin` | Assets/Scripts/StealthBomber/TurretAimController.cs:169-241 | the spin is `SpinStep` with the configured parameters and clear-on-release; the invariant is kept |
| `TurretAim.TurretAimController.HandleFiring` | Assets/Scripts/StealthBomber/TurretAimController.cs:243-267 | the fire step is `FireStep` with the configured rate; a shot takes the pool's next bullet and reads its own body component; no shot leaves the pool untouched; the body table never changes |
| `TurretFiring.TurretFiringController.constructor` | Assets/Scripts/StealthBomber/TurretFiringController.cs:9-19 | spin 2000/500/1000, fire rate 0.1, at rest, latch clear |
| `TurretFiring.TurretFiringController.Update` | Assets/Scripts/StealthBomber/TurretFiringController.cs:22-26 | with no game-state gate, the spin and fire steps run every frame; a shot comes from a turning barrel |
| `TurretFiring.TurretFiringController.HandleSpin` | Assets/Scripts/StealthBomber/TurretFiringController.cs:28-52 | the spin is `SpinStep` with clear-at-rest: the latch clears only when the barrel stops |
| `TurretFiring.TurretFiringController.HandleFiring` | Assets/Scripts/StealthBomber/TurretFiringController.cs:54-72 | the fire step is `FireStep` with the configured rate; a shot changes nothing else |
| `Cockpit.RequestedState` | Assets/Scripts/StealthBomber/JoystickInteractable.cs:18-21 | the joystick asks for Flying and the monitor for Minigun |
| `Cockpit.TryAdd` | Assets/Scripts/StealthBomber/CockpitLookController.cs:118 | adds the entry exactly when the key is absent, and never overwrites a value |
| `Cockpit.Click` | Assets/Scripts/StealthBomber/CockpitLookController.cs:188-191 | a missing key raises; a cached object with an interactable runs its action, requesting that control's state |
| `Cockpit.NextHighlighted` | Assets/Scripts/StealthBomber/CockpitLookController.cs:171-197 | a miss clears a cached highlight. As written, a hit takes the highlight exactly when nothing is highlighted; with the intended test, every hit takes it |
| `Cockpit.StaleHighlight` | Assets/Scripts/StealthBomber/CockpitLookController.cs:180-185 | looking from one object straight to another keeps the first highlighted as written, and moves to the second with the intended test |
| `Cockpit.CockpitLookController.constructor` | Assets/Scripts/StealthBomber/CockpitLookController.cs:28-50 | sensitivity 150, smoothing 10, nothing highlighted, empty caches |
| `Cockpit.CockpitLookController.Start` | Assets/Scripts/StealthBomber/CockpitLookController.cs:56-62 | rest rotation (25, 0), then every tagged object cached with its own renderer and interactable |
| `Cockpit.CockpitLookController.OnEnable` | Assets/Scripts/StealthBomber/CockpitLookController.cs:68-73 | both rotations become (25, 0) and nothing else changes |
| `Cockpit.CockpitLookController.CacheObjectRenderers` | Assets/Scripts/StealthBomber/CockpitLookController.cs:92-104 | both caches gain exactly the tagged objects, each with its own renderer and interactable; the cockpit ends switched off |
| `Cockpit.CockpitLookController.HighlightObject` | Assets/Scripts/StealthBomber/CockpitLookController.cs:112-122 | an uncached object changes nothing. A cached one gets the highlight material, and its original material is recorded only if none was recorded before |
| `Cockpit.CockpitLookController.ResetHighlight` | Assets/Scripts/StealthBomber/CockpitLookController.cs:128-141 | a cached highlighted object gets its recorded material back and the highlight clears; with nothing or an uncached object highlighted, nothing changes |
| `Cockpit.CockpitLookController.FixedUpdate` | Assets/Scripts/StealthBomber/CockpitLookController.cs:79-86 | outside Cockpit nothing changes; in Cockpit the view aims and the interaction runs with the effects of `HandleInteraction` on the highlight, the renderers and the recorded materials (unchanged on a miss, and at most the hit's renderer added on a switch); recorded materials are never overwritten and the invariant is kept |
| `Cockpit.CockpitLookController.HandleAiming` | Assets/Scripts/StealthBomber/CockpitLookController.cs:147-165 | the rotations are those of `Aim` with vertical input inverted and limits [-15, 60] x [-50, 50] |
| `Cockpit.CockpitLookController.HandleInteraction` | Assets/Scripts/StealthBomber/CockpitLookController.cs:171-197 | as written: the highlight follows `NextHighlighted` with the implicit-bool test; a newly highlighted cached object shows the highlight material and has its original material recorded unless one was recorded already; the recorded materials change only by that entry, and not at all on a miss; a click runs `Click`; a miss restores the recorded material; a hit while something is highlighted changes no renderer |
| `Cockpit.CockpitLookController.HandleInteractionIntended` | Assets/Scripts/StealthBomber/CockpitLookController.cs:171-197 | corrected: any hit object takes the highlight and the highlight material, and the previous object gets its recorded material back |
| `Cockpit.LookFromOneToAnother` | Assets/Scripts/StealthBomber/CockpitLookController.cs:180-185 | as written, looking at one cached control and then another leaves the first highlighted and the second with its own material |
| `Cockpit.LookFromOneToAnotherIntended` | Assets/Scripts/StealthBomber/CockpitLookController.cs:180-185 | with the intended test the highlight moves to the second control and the first gets its material back |
| `GameCutscene.InitialCutScene.constructor` | Assets/Scripts/Game/InitialCutScene.cs:21-24 | climb speed 200, guard unset, script enabled |
| `GameCutscene.InitialCutScene.Start` | Assets/Scripts/Game/InitialCutScene.cs:30-33 | the bomber starts at altitude 10000 |
| `GameCutscene.InitialCutScene.FixedUpdate` | Assets/Scripts/Game/InitialCutScene.cs:39-56 | at or above 15000, Flying is set and the script disabled; either way the bomber climbs one step. Above 12000 with the guard unset, the speed becomes 400 and the follow request raises after recording `CutsceneFollow`, so the guard never changes |
| `GameCutscene.InitialCutScene.FixedUpdateGuardFirst` | Assets/Scripts/Game/InitialCutScene.cs:51-55 | with the guard set before the request, the guard is set exactly once the bomber has passed 12000 |
| `GameCutscene.CutsceneAsWritten` | Assets/Scripts/Game/InitialCutScene.cs:39-56 | the whole cutscene as written ends in `CutsceneFollow`, not Flying |
| `GameCutscene.CutsceneGuardFirst` | Assets/Scripts/Game/InitialCutScene.cs:51-55 | with the guard set first, the cutscene ends in Flying |
| `BomberMovement.AltitudeAfterClosedForm` | Assets/Scripts/StealthBomber/InitialCutScene.cs:36-38 | with a positive climb, the altitude never falls; below the top it is start + n x climb; at or above the top it overshoots by less than one step unless it started there |
| `BomberMovement.AltitudeAfterStops` | Assets/Scripts/StealthBomber/InitialCutScene.cs:36-50 | once at or above the top, further steps change nothing |
| `BomberMovement.StealthBomberMovement.constructor` | Assets/Scripts/StealthBomber/InitialCutScene.cs:12-24 | start 5000, end 8900, speed 200, both switches unset |
| `BomberMovement.StealthBomberMovement.Start` | Assets/Scripts/StealthBomber/InitialCutScene.cs:29-32 | the bomber starts at the starting altitude |
| `BomberMovement.StealthBomberMovement.FixedUpdate` | Assets/Scripts/StealthBomber/InitialCutScene.cs:34-51 | below the top, one climb step, otherwise no change. The follow camera is requested exactly on a climbing step that ends above end - 3000 while the guard is unset, and the guard records it |
| `BomberMovement.StealthBomberMovement.Ascend` | Assets/Scripts/StealthBomber/InitialCutScene.cs:34-51 | over n steps the altitude follows `AltitudeAfter`, and the follow camera is requested at most once, and not at all when it already was; otherwise it is requested exactly when some climbing step ends above end − 3000 (`ReachesMargin`) |

## Findings

| source | as written | input that shows it | evidently intended | confidence | as-written member | corrected member |
|---|---|---|---|---|---|---|
| Assets/Scripts/Menu/LeaderboardDatabase.cs:113 | the board is sorted highest score first, and recording drops the last entry; scores are elapsed times | a fresh store (seven ("", +infinity) slots), then recording any finite time: the new time is the lowest score and is dropped | fastest time first, so the slowest (or a placeholder) is dropped | high (not executed) | `Leaderboard.FreshBoardDropsEveryTime` | `Leaderboard.RecordFastestFirst`, `Leaderboard.FastestFirstAdmitsTime` |
| Assets/Scripts/Game/BulletPool.cs:63-67 | a bullet made when the queue is empty is not entered in the body table, and the turret's shot looks its body up there (TurretController.cs:287; `BulletPool` there resolves to `Game.BulletPool` through `using Game`, since no `StealthBomber.BulletPool` is part of this model) | a fresh pool and 101 shots with no bullet returned: the 101st lookup throws | enter the new bullet's body in the table, as the wake-up loop does | high (not executed) | `Combat.ExhaustedPoolLaunchFails` | `Combat.ExhaustedPoolLaunchCached` |
| Assets/Scripts/Game/InitialCutScene.cs:54-55 | the guard is set after the follow request, and the request always throws (the camera manager rejects cutscene states, Game/CameraManager.cs:107-108) | the cutscene from altitude 10000 at the default fixed step: every step above 12000 requests again, and the last one overrides Flying with `CutsceneFollow` | a one-shot request that leaves the game Flying at the top | medium (not executed) | `GameCutscene.CutsceneAsWritten` | `GameCutscene.CutsceneGuardFirst` |
| Assets/Scripts/StealthBomber/CockpitLookController.cs:180 | the hit object is compared with the negated highlighted object, which through the implicit bool conversion means "nothing is highlighted" | look at one cached control, then straight at another: the first stays highlighted | switch the highlight whenever a different object is hit | high (not executed) | `Cockpit.LookFromOneToAnother` | `Cockpit.LookFromOneToAnotherIntended` |

## Left out

- Audio is not modelled: every `AudioSource` call in the turret scripts, `AudioManager`, `MenuAudioManager` and `StealthBomberEngineManager`.
- Particles, the muzzle light and its coroutine are not modelled either.
- Transforms are not applied. The model keeps the rotation and altitude values but does not write `localEulerAngles`, `Translate`, `barrel.Rotate`, or the bullet's position and rotation.
- Bullet velocity and `BulletSpeed` are not modelled. A shot's effect is the pool operation and the body lookup.
- Cursor locking and hiding are not modelled, nor is the audio set-up in `Start`.
- Coroutine timing is not modelled: fade durations, `WaitForSeconds`, and the 0.1 s glow steps. The fade sequence is modelled as the step between its two fades (`RunFadeSequence`). `ScreenFade` is not part of this model.
- Singletons are not modelled. `Awake` and `DontDestroyOnLoad` of `GameStateManager`, `LeaderboardDatabase` and `StealthBomber.GameStateManager` are left out. The bullet pool's singleton guard is modelled as a registry object.
- Float rounding, NaN and -infinity are not modelled: numbers are `real`, and +infinity appears only as the leaderboard's sentinel.
- Destroyed engine objects are not modelled. Unity's implicit bool conversion is modelled as a null test.
- `Die` is modelled as a count of destruction requests.
- `GetComponent` is assumed to find a renderer on every tagged cockpit object. A missing renderer is not modelled.
- `Menu.ToUpperChar`: upper-cases a to z only and leaves every other character unchanged. The runtime's culture-sensitive `ToUpper` also upper-cases other letters (é becomes É), and under some cultures maps a to z differently (Turkish i becomes İ).
- `Menu.SanitiseName`: counts Unicode scalar values. The runtime's `Length` and `Substring` count UTF-16 code units, so a name with characters outside the Basic Multilingual Plane is cut differently: "😀😀" is four code units, which the runtime cuts to three (splitting a surrogate pair), while the model keeps the two characters whole.
- `Leaderboard.LeaderboardDatabase.DisplayLeaderboard`: the time column is the number of seconds. The `TimeSpan` "mm:ss:ff" text is not modelled. Creating and destroying the row objects and their placement are not modelled.
- `Menu.MenuButtonManager.OpenLeaderboard`: uses the board's rows. The `GetComponent` indirection on the board object is not modelled.
- `ExitGame` (`Application.Quit`) and scene loading are not modelled. Scene loading is the name of the scene only.
- The hangar glass material swap is modelled as a flag.
- The cockpit interactables are not wired to a camera manager. A click yields the state the control requests (`Cockpit.Click`) and the model stops there. Inside the `StealthBomber` namespace their `CameraManager` field names `StealthBomber.CameraManager`, which is not part of this model, so what the request does next is not modelled.
- `Combat.BulletPool.GetBullet`: the bullet made from an empty queue is taken to be active, that is, the bullet prefab is assumed to be saved active; the instantiated copy takes the prefab's active state.
- `StealthBomber/CameraManager.cs` is not part of this model. The bomber scene's follow-camera switch is the `followRequested` output of `StealthBomberMovement.FixedUpdate`.
- The stealth bomber scene's state holder is not modelled. The turret and cockpit scripts take the current state as a parameter.
- The cutscene runs (`CutsceneAsWritten`, `CutsceneGuardFirst`) assume the engine's default fixed step of 0.02 s and a camera manager with no cameras.
- Other scripts are not part of this model: `EnemyPlaneController`, `AirplaneController`, `MovementController`, `CloudOrientation`, `OrbitCamera` and `FPSCounter`. They are engine motion and display smoothing.
