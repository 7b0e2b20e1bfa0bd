/**
 * The cockpit view (the CockpitLookController script): while the game is in the cockpit
 * state the camera turns with the mouse within its limits, the interactable object under the
 * crosshair is highlighted by swapping its renderer's material (the original material is
 * recorded once and put back on reset), and a click runs the object's action.
 */
module Cockpit {
  import opened UnityMath
  import opened GameStates
  import opened TurretMechanics
  import opened Results

  /** Pitch (x) in [-15, 60] degrees, yaw (y) in [-50, 50] degrees. */
  const LookLimits: Box := Box(-15.0, 60.0, -50.0, 50.0)

  /** The view an enable resets to: 25 degrees down, straight ahead. */
  const RestRotation: Vec2 := Vec2(25.0, 0.0)

  datatype Material = Material(name: string)

  class Renderer {
    var material: Material

    constructor (material: Material)
      ensures this.material == material
    {
      this.material := material;
    }
  }

  /** The two cockpit controls and the game state each one asks the camera manager for. */
  datatype Interactable = Joystick | Monitor

  function RequestedState(i: Interactable): (s: GameState)
    ensures s == Flying || s == Minigun
    ensures (s == Flying) <==> i == Joystick
  {
    match i
    case Joystick => Flying
    case Monitor => Minigun
  }

  /** A scene object tagged interactable: its renderer and, when it has one, its interactable script. */
  class CockpitObject {
    const renderer: Renderer
    const interactable: Option<Interactable>

    constructor (renderer: Renderer, interactable: Option<Interactable>)
      ensures this.renderer == renderer && this.interactable == interactable
    {
      this.renderer := renderer;
      this.interactable := interactable;
    }
  }

  /** `m1` keeps every entry of `m0` with its value. */
  ghost predicate Extends<K, V>(m0: map<K, V>, m1: map<K, V>)
  {
    forall k :: k in m0 ==> k in m1 && m1[k] == m0[k]
  }

  /**
   * Dictionary.TryAdd: add the entry only when the key is absent, and say whether it was
   * added. An existing value is never overwritten.
   */
  function TryAdd<K, V>(m: map<K, V>, k: K, v: V): (r: (bool, map<K, V>))
    ensures r.0 <==> k !in m
    ensures Extends(m, r.1) && r.1.Keys == m.Keys + {k}
    ensures r.1[k] == if k in m then m[k] else v
  {
    if k in m then (false, m) else (true, m[k := v])
  }

  /** What a click does: nothing, the action of the hit object, or one of the two exceptions. */
  datatype ClickOutcome = NoClick | Performed(request: GameState) | MissingKey | NullInteractable

  /** The click on a hit object: look its interactable up in the cache and run it. */
  function Click(interactables: map<CockpitObject, Option<Interactable>>, hit: CockpitObject): (r: ClickOutcome)
    ensures r == MissingKey <==> hit !in interactables
    ensures r.Performed? <==> hit in interactables && interactables[hit].Some?
    ensures r.Performed? ==> r.request == RequestedState(interactables[hit].value)
  {
    if hit !in interactables then MissingKey
    else match interactables[hit]
      case None => NullInteractable
      case Some(i) => Performed(RequestedState(i))
  }

  /**
   * When a hit object replaces the highlighted one. The script compares the hit object with
   * the negated highlighted object; Unity's implicit bool conversion turns both sides into
   * booleans, and as the hit object is alive the test reads "nothing is highlighted". The
   * evidently intended test is "a different object is hit".
   */
  datatype SwitchRule = WhenNothingHighlighted | WhenDifferentObject

  predicate Switches(rule: SwitchRule, current: CockpitObject?, hit: CockpitObject)
  {
    match rule
    case WhenNothingHighlighted => current == null
    case WhenDifferentObject => hit != current
  }

  /**
   * The highlighted object after one interaction frame. A miss resets the highlight, which
   * clears it only when the highlighted object is cached; a hit that switches makes the hit
   * object the highlighted one.
   */
  function NextHighlighted(rule: SwitchRule, cached: set<CockpitObject>, current: CockpitObject?, hit: CockpitObject?): (r: CockpitObject?)
    ensures hit == null ==> (r == null <==> current == null || current in cached)
    ensures hit == null && r != null ==> r == current
    ensures hit != null ==> r == hit || r == current
    ensures rule == WhenDifferentObject && hit != null ==> r == hit
    ensures rule == WhenNothingHighlighted && hit != null ==> (r == hit <==> current == null || current == hit)
  {
    if hit == null then
      (if current != null && current in cached then null else current)
    else if Switches(rule, current, hit) then hit
    else current
  }

  /**
   * The implicit-bool test keeps a stale highlight: with one object highlighted, looking
   * straight at another leaves the first one highlighted; the intended test moves it.
   */
  lemma StaleHighlight(cached: set<CockpitObject>, first: CockpitObject, second: CockpitObject)
    requires first != second
    ensures NextHighlighted(WhenNothingHighlighted, cached, first, second) == first
    ensures NextHighlighted(WhenDifferentObject, cached, first, second) == second
  {
  }

  class CockpitLookController {
    var sensitivity: real
    var aimSmoothing: real
    var currentRotation: Vec2
    var targetRotation: Vec2
    var currentlyHighlightedObject: CockpitObject?
    var highlightMaterial: Material
    var cockpitActive: bool
    var objectRenderers: map<CockpitObject, Renderer>
    var originalMaterials: map<Renderer, Material>
    var objectInteractables: map<CockpitObject, Option<Interactable>>

    /**
     * Both rotations stay within the limits, and both caches hold, for the same objects, the
     * objects' own renderer and interactable.
     */
    ghost predicate Valid()
      reads this
    {
      LookLimits.Contains(targetRotation) && LookLimits.Contains(currentRotation) &&
      objectRenderers.Keys == objectInteractables.Keys &&
      (forall o :: o in objectRenderers ==> objectRenderers[o] == o.renderer) &&
      (forall o :: o in objectInteractables ==> objectInteractables[o] == o.interactable)
    }

    /** The cached renderer of an object, as a set: empty for null or an uncached object. */
    function RendererOf(o: CockpitObject?): (r: set<Renderer>)
      reads this
      ensures |r| <= 1
      ensures r == {} <==> o == null || o !in objectRenderers
    {
      if o != null && o in objectRenderers then {objectRenderers[o]} else {}
    }

    constructor (highlightMaterial: Material, cockpitActive: bool)
      ensures sensitivity == 150.0 && aimSmoothing == 10.0
      ensures currentRotation == Vec2(0.0, 0.0) && targetRotation == Vec2(0.0, 0.0)
      ensures currentlyHighlightedObject == null
      ensures this.highlightMaterial == highlightMaterial && this.cockpitActive == cockpitActive
      ensures objectRenderers == map[] && originalMaterials == map[] && objectInteractables == map[]
      ensures Valid()
    {
      sensitivity := 150.0;
      aimSmoothing := 10.0;
      currentRotation := Vec2(0.0, 0.0);
      targetRotation := Vec2(0.0, 0.0);
      currentlyHighlightedObject := null;
      this.highlightMaterial := highlightMaterial;
      this.cockpitActive := cockpitActive;
      objectRenderers := map[];
      originalMaterials := map[];
      objectInteractables := map[];
    }

    /** Start: the rest view of OnEnable, then the cache of the objects tagged interactable. */
    method Start(tagged: seq<CockpitObject>)
      modifies this
      ensures currentRotation == RestRotation && targetRotation == RestRotation
      ensures objectRenderers.Keys == old(objectRenderers).Keys + set o | o in tagged
      ensures forall o :: o in objectRenderers ==>
        objectRenderers[o] == if o in tagged then o.renderer else old(objectRenderers)[o]
      ensures objectInteractables.Keys == old(objectInteractables).Keys + set o | o in tagged
      ensures forall o :: o in objectInteractables ==>
        objectInteractables[o] == if o in tagged then o.interactable else old(objectInteractables)[o]
      ensures !cockpitActive
      ensures originalMaterials == old(originalMaterials)
      ensures currentlyHighlightedObject == old(currentlyHighlightedObject)
      ensures highlightMaterial == old(highlightMaterial)
      ensures sensitivity == old(sensitivity) && aimSmoothing == old(aimSmoothing)
      ensures old(Valid()) ==> Valid()
    {
      OnEnable();
      CacheObjectRenderers(tagged);
    }

    /** Each enable resets the view to the rest rotation. */
    method OnEnable()
      modifies this
      ensures currentRotation == RestRotation && targetRotation == RestRotation
      ensures objectRenderers == old(objectRenderers) && objectInteractables == old(objectInteractables)
      ensures originalMaterials == old(originalMaterials)
      ensures currentlyHighlightedObject == old(currentlyHighlightedObject)
      ensures cockpitActive == old(cockpitActive) && highlightMaterial == old(highlightMaterial)
      ensures sensitivity == old(sensitivity) && aimSmoothing == old(aimSmoothing)
      ensures old(Valid()) ==> Valid()
    {
      targetRotation := RestRotation;
      currentRotation := targetRotation;
    }

    /**
     * With the cockpit switched on for the duration, every tagged object is entered in both
     * caches with its own renderer and interactable; the cockpit ends up switched off.
     */
    method CacheObjectRenderers(tagged: seq<CockpitObject>)
      modifies this
      ensures objectRenderers.Keys == old(objectRenderers).Keys + set o | o in tagged
      ensures forall o :: o in objectRenderers ==>
        objectRenderers[o] == if o in tagged then o.renderer else old(objectRenderers)[o]
      ensures objectInteractables.Keys == old(objectInteractables).Keys + set o | o in tagged
      ensures forall o :: o in objectInteractables ==>
        objectInteractables[o] == if o in tagged then o.interactable else old(objectInteractables)[o]
      ensures !cockpitActive
      ensures currentRotation == old(currentRotation) && targetRotation == old(targetRotation)
      ensures originalMaterials == old(originalMaterials)
      ensures currentlyHighlightedObject == old(currentlyHighlightedObject)
      ensures highlightMaterial == old(highlightMaterial)
      ensures sensitivity == old(sensitivity) && aimSmoothing == old(aimSmoothing)
      ensures old(Valid()) ==> Valid()
    {
      cockpitActive := true;
      for i := 0 to |tagged|
        invariant objectRenderers.Keys == old(objectRenderers).Keys + set o | o in tagged[..i]
        invariant forall o :: o in objectRenderers ==>
          objectRenderers[o] == if o in tagged[..i] then o.renderer else old(objectRenderers)[o]
        invariant objectInteractables.Keys == old(objectInteractables).Keys + set o | o in tagged[..i]
        invariant forall o :: o in objectInteractables ==>
          objectInteractables[o] == if o in tagged[..i] then o.interactable else old(objectInteractables)[o]
        invariant currentRotation == old(currentRotation) && targetRotation == old(targetRotation)
        invariant originalMaterials == old(originalMaterials)
        invariant currentlyHighlightedObject == old(currentlyHighlightedObject)
        invariant highlightMaterial == old(highlightMaterial)
        invariant sensitivity == old(sensitivity) && aimSmoothing == old(aimSmoothing)
      {
        CacheObject(tagged[i]);
        assert tagged[..i + 1] == tagged[..i] + [tagged[i]];
      }
      assert tagged[..|tagged|] == tagged;
      cockpitActive := false;
    }

    /** One step of the caching loop: the object is entered in both caches, overwriting any earlier entry. */
    method CacheObject(interactableObject: CockpitObject)
      modifies this
      ensures objectRenderers == old(objectRenderers)[interactableObject := interactableObject.renderer]
      ensures objectInteractables == old(objectInteractables)[interactableObject := interactableObject.interactable]
      ensures cockpitActive == old(cockpitActive) && originalMaterials == old(originalMaterials)
      ensures currentRotation == old(currentRotation) && targetRotation == old(targetRotation)
      ensures currentlyHighlightedObject == old(currentlyHighlightedObject)
      ensures highlightMaterial == old(highlightMaterial)
      ensures sensitivity == old(sensitivity) && aimSmoothing == old(aimSmoothing)
    {
      objectRenderers := objectRenderers[interactableObject := interactableObject.renderer];
      objectInteractables := objectInteractables[interactableObject := interactableObject.interactable];
    }

    /**
     * Highlight a cached object: record its renderer's material unless one is already
     * recorded, then show the highlight material. An uncached object changes nothing.
     */
    method HighlightObject(interactableObject: CockpitObject)
      modifies this, RendererOf(interactableObject)
      ensures interactableObject !in old(objectRenderers) ==> originalMaterials == old(originalMaterials)
      ensures interactableObject in old(objectRenderers) ==>
        var r := old(objectRenderers[interactableObject]);
        originalMaterials == TryAdd(old(originalMaterials), r, old(r.material)).1 &&
        r.material == highlightMaterial
      ensures Extends(old(originalMaterials), originalMaterials)
      ensures objectRenderers == old(objectRenderers) && objectInteractables == old(objectInteractables)
      ensures currentRotation == old(currentRotation) && targetRotation == old(targetRotation)
      ensures currentlyHighlightedObject == old(currentlyHighlightedObject)
      ensures cockpitActive == old(cockpitActive) && highlightMaterial == old(highlightMaterial)
      ensures sensitivity == old(sensitivity) && aimSmoothing == old(aimSmoothing)
    {
      if interactableObject !in objectRenderers {
        return;
      }
      var objectRenderer := objectRenderers[interactableObject];
      var added := TryAdd(originalMaterials, objectRenderer, objectRenderer.material);
      originalMaterials := added.1;
      objectRenderer.material := highlightMaterial;
    }

    /**
     * Put the recorded material back on the highlighted object's renderer and clear the
     * highlight; with nothing highlighted, or an uncached highlighted object, change nothing.
     */
    method ResetHighlight()
      modifies this, RendererOf(currentlyHighlightedObject)
      ensures old(currentlyHighlightedObject) == null || old(currentlyHighlightedObject) !in old(objectRenderers) ==>
        currentlyHighlightedObject == old(currentlyHighlightedObject)
      ensures old(currentlyHighlightedObject) != null && old(currentlyHighlightedObject) in old(objectRenderers) ==>
        currentlyHighlightedObject == null
      ensures old(currentlyHighlightedObject) != null && old(currentlyHighlightedObject) in old(objectRenderers) ==>
        var r := old(objectRenderers[currentlyHighlightedObject]);
        r.material == if r in originalMaterials then originalMaterials[r] else old(r.material)
      ensures originalMaterials == old(originalMaterials)
      ensures objectRenderers == old(objectRenderers) && objectInteractables == old(objectInteractables)
      ensures currentRotation == old(currentRotation) && targetRotation == old(targetRotation)
      ensures cockpitActive == old(cockpitActive) && highlightMaterial == old(highlightMaterial)
      ensures sensitivity == old(sensitivity) && aimSmoothing == old(aimSmoothing)
    {
      if currentlyHighlightedObject == null || currentlyHighlightedObject !in objectRenderers {
        return;
      }
      var objectRenderer := objectRenderers[currentlyHighlightedObject];
      if objectRenderer in originalMaterials {
        objectRenderer.material := originalMaterials[objectRenderer];
      }
      currentlyHighlightedObject := null;
    }

    /**
     * One fixed-update step: nothing at all unless the game is in the cockpit state;
     * otherwise turn the view, then handle the object under the crosshair (`hit`, null on a
     * miss) and the click.
     */
    method FixedUpdate(state: GameState, input: FrameInput, hit: CockpitObject?, clicked: bool) returns (outcome: ClickOutcome)
      modifies this, RendererOf(currentlyHighlightedObject) + RendererOf(hit)
      ensures state != Cockpit ==> outcome == NoClick && unchanged(this) && unchanged(RendererOf(currentlyHighlightedObject) + RendererOf(hit))
      ensures objectRenderers == old(objectRenderers) && objectInteractables == old(objectInteractables)
      ensures sensitivity == old(sensitivity) && aimSmoothing == old(aimSmoothing)
      ensures state == Cockpit ==>
        (targetRotation, currentRotation) ==
          Aim(old(currentRotation), old(targetRotation), input.(mouseY := -input.mouseY), sensitivity, aimSmoothing, LookLimits)
      ensures state == Cockpit ==>
        currentlyHighlightedObject ==
          NextHighlighted(WhenNothingHighlighted, objectRenderers.Keys, old(currentlyHighlightedObject), hit)
      ensures state == Cockpit ==>
        outcome == if hit != null && clicked then Click(objectInteractables, hit) else NoClick
      ensures Extends(old(originalMaterials), originalMaterials)
      ensures state == Cockpit && hit != null && old(currentlyHighlightedObject) == null && hit in objectRenderers ==>
        var r := objectRenderers[hit];
        r.material == highlightMaterial &&
        r in originalMaterials && (r !in old(originalMaterials) ==> originalMaterials[r] == old(r.material))
      ensures var previous := old(currentlyHighlightedObject);
        state == Cockpit && hit == null && previous != null && previous in objectRenderers &&
        objectRenderers[previous] in old(originalMaterials) ==>
          objectRenderers[previous].material == old(originalMaterials)[objectRenderers[previous]]
      ensures state == Cockpit && hit == null ==> originalMaterials == old(originalMaterials)
      ensures state == Cockpit && hit != null && old(currentlyHighlightedObject) == null ==>
        originalMaterials == if hit in objectRenderers then
          TryAdd(old(originalMaterials), objectRenderers[hit], old(objectRenderers[hit].material)).1
        else old(originalMaterials)
      ensures state == Cockpit && hit != null && old(currentlyHighlightedObject) != null ==>
        originalMaterials == old(originalMaterials) &&
        unchanged(old(RendererOf(currentlyHighlightedObject) + RendererOf(hit)))
      ensures old(Valid()) ==> Valid()
    {
      outcome := NoClick;
      if state != Cockpit {
        return;
      }
      HandleAiming(input);
      outcome := HandleInteraction(hit, clicked);
    }

    /** The view target follows the mouse, with vertical movement inverted, within the limits; the view eases toward it. */
    method HandleAiming(input: FrameInput)
      modifies this
      ensures objectRenderers == old(objectRenderers) && objectInteractables == old(objectInteractables)
      ensures originalMaterials == old(originalMaterials)
      ensures currentlyHighlightedObject == old(currentlyHighlightedObject)
      ensures cockpitActive == old(cockpitActive) && highlightMaterial == old(highlightMaterial)
      ensures sensitivity == old(sensitivity) && aimSmoothing == old(aimSmoothing)
      ensures (targetRotation, currentRotation) ==
        Aim(old(currentRotation), old(targetRotation), input.(mouseY := -input.mouseY), sensitivity, aimSmoothing, LookLimits)
      ensures old(Valid()) ==> Valid()
    {
      var aimed := Aim(currentRotation, targetRotation, input.(mouseY := -input.mouseY), sensitivity, aimSmoothing, LookLimits);
      targetRotation, currentRotation := aimed.0, aimed.1;
    }

    /**
     * The object under the crosshair: on a hit, switch the highlight to it when nothing is
     * highlighted (the script's implicit-bool test), and run its action on a click; on a
     * miss, reset the highlight.
     */
    method HandleInteraction(hit: CockpitObject?, clicked: bool) returns (outcome: ClickOutcome)
      modifies this, RendererOf(currentlyHighlightedObject) + RendererOf(hit)
      ensures objectRenderers == old(objectRenderers) && objectInteractables == old(objectInteractables)
      ensures currentRotation == old(currentRotation) && targetRotation == old(targetRotation)
      ensures cockpitActive == old(cockpitActive) && highlightMaterial == old(highlightMaterial)
      ensures sensitivity == old(sensitivity) && aimSmoothing == old(aimSmoothing)
      ensures currentlyHighlightedObject ==
        NextHighlighted(WhenNothingHighlighted, objectRenderers.Keys, old(currentlyHighlightedObject), hit)
      ensures outcome == if hit != null && clicked then Click(objectInteractables, hit) else NoClick
      ensures Extends(old(originalMaterials), originalMaterials)
      ensures hit != null && old(currentlyHighlightedObject) == null && hit in objectRenderers ==>
        objectRenderers[hit].material == highlightMaterial
      ensures var previous := old(currentlyHighlightedObject);
        hit == null && previous != null && previous in objectRenderers && objectRenderers[previous] in old(originalMaterials) ==>
          objectRenderers[previous].material == old(originalMaterials)[objectRenderers[previous]]
      ensures hit != null && old(currentlyHighlightedObject) == null && hit in objectRenderers ==>
        var r := objectRenderers[hit];
        r in originalMaterials && (r !in old(originalMaterials) ==> originalMaterials[r] == old(r.material))
      ensures hit == null ==> originalMaterials == old(originalMaterials)
      ensures hit != null && old(currentlyHighlightedObject) == null ==>
        originalMaterials == if hit in objectRenderers then
          TryAdd(old(originalMaterials), objectRenderers[hit], old(objectRenderers[hit].material)).1
        else old(originalMaterials)
      ensures hit != null && old(currentlyHighlightedObject) != null ==>
        originalMaterials == old(originalMaterials) &&
        unchanged(old(RendererOf(currentlyHighlightedObject) + RendererOf(hit)))
    {
      if hit != null {
        if Switches(WhenNothingHighlighted, currentlyHighlightedObject, hit) {
          ResetHighlight();
          currentlyHighlightedObject := hit;
          HighlightObject(currentlyHighlightedObject);
        }
        outcome := if clicked then Click(objectInteractables, hit) else NoClick;
      } else {
        ResetHighlight();
        outcome := NoClick;
      }
    }

    /** HandleInteraction with the intended test: any hit object other than the highlighted one takes the highlight. */
    method HandleInteractionIntended(hit: CockpitObject?, clicked: bool) returns (outcome: ClickOutcome)
      modifies this, RendererOf(currentlyHighlightedObject) + RendererOf(hit)
      ensures objectRenderers == old(objectRenderers) && objectInteractables == old(objectInteractables)
      ensures currentRotation == old(currentRotation) && targetRotation == old(targetRotation)
      ensures cockpitActive == old(cockpitActive) && highlightMaterial == old(highlightMaterial)
      ensures sensitivity == old(sensitivity) && aimSmoothing == old(aimSmoothing)
      ensures currentlyHighlightedObject ==
        NextHighlighted(WhenDifferentObject, objectRenderers.Keys, old(currentlyHighlightedObject), hit)
      ensures hit != null ==> currentlyHighlightedObject == hit
      ensures outcome == if hit != null && clicked then Click(objectInteractables, hit) else NoClick
      ensures Extends(old(originalMaterials), originalMaterials)
      ensures hit != null && old(currentlyHighlightedObject) != hit && hit in objectRenderers ==>
        objectRenderers[hit].material == highlightMaterial
      ensures var previous := old(currentlyHighlightedObject);
        previous != null && previous != hit && previous in objectRenderers && objectRenderers[previous] in old(originalMaterials) &&
        (hit == null || hit !in objectRenderers || objectRenderers[hit] != objectRenderers[previous]) ==>
          objectRenderers[previous].material == old(originalMaterials)[objectRenderers[previous]]
      ensures hit != null && old(currentlyHighlightedObject) != hit && hit in objectRenderers ==>
        var r := objectRenderers[hit];
        r in originalMaterials && (r !in old(originalMaterials) ==> originalMaterials[r] == old(r.material))
    {
      if hit != null {
        if Switches(WhenDifferentObject, currentlyHighlightedObject, hit) {
          ResetHighlight();
          currentlyHighlightedObject := hit;
          HighlightObject(currentlyHighlightedObject);
        }
        outcome := if clicked then Click(objectInteractables, hit) else NoClick;
      } else {
        ResetHighlight();
        outcome := NoClick;
      }
    }
  }

  /** A fresh cockpit view with two cached controls side by side, one of metal and one of glass. */
  method TwoCachedControls() returns (view: CockpitLookController, first: CockpitObject, second: CockpitObject)
    ensures fresh(view) && fresh(first.renderer) && fresh(second.renderer)
    ensures first != second && first.renderer != second.renderer
    ensures first.renderer.material == Material("Metal") && second.renderer.material == Material("Glass")
    ensures view.highlightMaterial == Material("Glow") && view.currentlyHighlightedObject == null
    ensures view.originalMaterials == map[]
    ensures first in view.objectRenderers && view.objectRenderers[first] == first.renderer
    ensures second in view.objectRenderers && view.objectRenderers[second] == second.renderer
  {
    var metal := new Renderer(Material("Metal"));
    var glass := new Renderer(Material("Glass"));
    first := new CockpitObject(metal, Some(Joystick));
    second := new CockpitObject(glass, Some(Monitor));
    view := new CockpitLookController(Material("Glow"), false);
    view.CacheObjectRenderers([first, second]);
  }

  /**
   * Two cached controls side by side: look at the first, then straight at the second. The
   * script leaves the highlight, and the highlight material, on the first, and the second
   * keeps its own material.
   */
  method LookFromOneToAnother() returns (stale: bool)
    ensures stale
  {
    var view, first, second := TwoCachedControls();
    var _ := view.HandleInteraction(first, false);
    var _ := view.HandleInteraction(second, false);
    stale := view.currentlyHighlightedObject == first &&
      first.renderer.material == Material("Glow") && second.renderer.material == Material("Glass");
  }

  /** The same two looks with the intended test: the highlight moves and the first control gets its material back. */
  method LookFromOneToAnotherIntended() returns (moved: bool)
    ensures moved
  {
    var view, first, second := TwoCachedControls();
    var _ := view.HandleInteractionIntended(first, false);
    var _ := view.HandleInteractionIntended(second, false);
    moved := view.currentlyHighlightedObject == second &&
      second.renderer.material == Material("Glow") && first.renderer.material == Material("Metal");
  }
}
