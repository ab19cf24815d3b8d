/** The host's canvas as the module reads it: tokens, their actors and positions. */
module Canvas {
  import opened Wrappers
  import opened JsValue

  /** An actor: its type and its data (`actor.system`, or `actor.data.data` on older hosts). */
  datatype Actor = Actor(actorType: string, system: JsVal, legacyData: JsVal)

  /**
   * A placed token: identity, display name and image, its actor (if any), whether
   * the current user can see it, its rectangle, and the centre point the host reports.
   */
  datatype Token = Token(
    id: string, name: string, img: string,
    actor: Option<Actor>, visible: bool,
    x: real, y: real, w: real, h: real,
    centerX: real, centerY: real)

  /** `t.actor?.type === "character"`. */
  predicate IsCharacter(t: Token)
    ensures IsCharacter(t) ==> t.actor.Some?
  {
    t.actor.Some? && t.actor.value.actorType == "character"
  }

  /** `actor.system || actor.data.data`. */
  function ActorData(a: Actor): (d: JsVal)
    ensures Truthy(a.system) ==> d == a.system
    ensures !Truthy(a.system) ==> d == a.legacyData
  {
    if Truthy(a.system) then a.system else a.legacyData
  }

  /** `placeables.filter(t => t.actor?.type === "character")`, in canvas order. */
  function Characters(ts: seq<Token>): (r: seq<Token>)
    ensures forall t :: t in r <==> t in ts && IsCharacter(t)
  {
    if ts == [] then []
    else (if IsCharacter(ts[0]) then [ts[0]] else []) + Characters(ts[1..])
  }

  /** `placeables.filter(t => t.actor?.type === "character" && t.visible)`, in canvas order. */
  function VisibleCharacters(ts: seq<Token>): (r: seq<Token>)
    ensures forall t :: t in r <==> t in ts && IsCharacter(t) && t.visible
    ensures |r| <= |ts|
  {
    if ts == [] then []
    else (if IsCharacter(ts[0]) && ts[0].visible then [ts[0]] else []) + VisibleCharacters(ts[1..])
  }

  /** The filter keeps canvas order: filtering a concatenation concatenates the filtered parts. */
  lemma {:induction false} VisibleCharactersAppend(a: seq<Token>, b: seq<Token>)
    ensures VisibleCharacters(a + b) == VisibleCharacters(a) + VisibleCharacters(b)
  {
    if a == [] {
      assert a + b == b;
    } else {
      assert (a + b)[1..] == a[1..] + b;
      VisibleCharactersAppend(a[1..], b);
    }
  }

  /** Every token has a positive width and height. */
  predicate PositiveExtents(ts: seq<Token>)
  {
    forall k :: 0 <= k < |ts| ==> ts[k].w > 0.0 && ts[k].h > 0.0
  }

  /** Every visible character token has a positive width and height; other tokens may have any size. */
  predicate VisibleCharactersSized(ts: seq<Token>)
  {
    forall k :: 0 <= k < |ts| && IsCharacter(ts[k]) && ts[k].visible ==> ts[k].w > 0.0 && ts[k].h > 0.0
  }

  /** `canvas.tokens.get(id)`: the token with that id, if any. */
  function FindToken(ts: seq<Token>, id: string): (r: Option<Token>)
    ensures r.None? <==> forall k :: 0 <= k < |ts| ==> ts[k].id != id
    ensures r.Some? ==> r.value in ts && r.value.id == id
  {
    if ts == [] then None
    else if ts[0].id == id then Some(ts[0])
    else
      var r := FindToken(ts[1..], id);
      assert forall k :: 1 <= k < |ts| ==> ts[k] == ts[1..][k - 1];
      r
  }
}
