/** The hit detection of components/Perro3D.tsx. Each body part has a hidden
    canvas holding its layer; the part under the pointer is the topmost layer
    whose pixel there is opaque enough. The pixel read (after mapping client
    coordinates onto the 990x1080 image) is an input. */
module DogMap {
  import opened Wrappers

  /** The layers in drawing order; later ones are on top. */
  const BodyParts: seq<string> := ["cuello", "hombro", "nalgas", "pata_front", "rodilla_back"]

  /** A hit needs an alpha strictly above this. */
  const AlphaThreshold: int := 10

  /** A mounted canvas; `hasContext` is whether `getContext('2d')` returned one. */
  datatype Canvas = Canvas(hasContext: bool)

  /** The part's canvas is mounted and has a context, and the container is mounted. */
  predicate Readable(canvasRefs: map<string, Option<Canvas>>, containerPresent: bool, partId: string) {
    partId in canvasRefs && canvasRefs[partId].Some? && containerPresent && canvasRefs[partId].value.hasContext
  }

  /** `getAlphaAtEvent`: 0 without a canvas, container or context, otherwise
      the alpha byte the canvas holds under the pointer. */
  function AlphaAtEvent(canvasRefs: map<string, Option<Canvas>>, containerPresent: bool,
                        pixelAlpha: string -> int, partId: string): (a: int)
    ensures !Readable(canvasRefs, containerPresent, partId) ==> a == 0
    ensures Readable(canvasRefs, containerPresent, partId) ==> a == pixelAlpha(partId)
  {
    if partId !in canvasRefs || canvasRefs[partId].None? || !containerPresent then 0
    else if !canvasRefs[partId].value.hasContext then 0
    else pixelAlpha(partId)
  }

  predicate IsHit(canvasRefs: map<string, Option<Canvas>>, containerPresent: bool, pixelAlpha: string -> int, i: nat)
    requires i < |BodyParts|
  {
    AlphaAtEvent(canvasRefs, containerPresent, pixelAlpha, BodyParts[i]) > AlphaThreshold
  }

  /** The topmost hit among the first `k` layers. */
  function TopmostHitBelow(canvasRefs: map<string, Option<Canvas>>, containerPresent: bool,
                           pixelAlpha: string -> int, k: nat): Option<nat>
    requires k <= |BodyParts|
  {
    if k == 0 then None
    else if IsHit(canvasRefs, containerPresent, pixelAlpha, k - 1) then Some(k - 1)
    else TopmostHitBelow(canvasRefs, containerPresent, pixelAlpha, k - 1)
  }

  /** The part the pointer is over. */
  function PartUnderPointer(canvasRefs: map<string, Option<Canvas>>, containerPresent: bool,
                            pixelAlpha: string -> int): Option<string>
  {
    match TopmostHitBelow(canvasRefs, containerPresent, pixelAlpha, |BodyParts|)
    case None => None
    case Some(i) => if i < |BodyParts| then Some(BodyParts[i]) else None
  }

  /** The search picks the highest layer above the threshold, and finds none
      only when no layer is above it. */
  lemma {:induction false} TopmostHitBelowSpec(canvasRefs: map<string, Option<Canvas>>, containerPresent: bool,
                                               pixelAlpha: string -> int, k: nat)
    requires k <= |BodyParts|
    ensures TopmostHitBelow(canvasRefs, containerPresent, pixelAlpha, k).None? <==>
      forall j :: 0 <= j < k ==> !IsHit(canvasRefs, containerPresent, pixelAlpha, j)
    ensures TopmostHitBelow(canvasRefs, containerPresent, pixelAlpha, k).Some? ==>
      var i := TopmostHitBelow(canvasRefs, containerPresent, pixelAlpha, k).value;
      i < k && IsHit(canvasRefs, containerPresent, pixelAlpha, i)
      && forall j :: i < j < k ==> !IsHit(canvasRefs, containerPresent, pixelAlpha, j)
  {
    if k > 0 && !IsHit(canvasRefs, containerPresent, pixelAlpha, k - 1) {
      TopmostHitBelowSpec(canvasRefs, containerPresent, pixelAlpha, k - 1);
    }
  }

  /** Part `i` is chosen exactly when it is a hit and nothing above it is. */
  lemma PartUnderPointerIff(canvasRefs: map<string, Option<Canvas>>, containerPresent: bool,
                            pixelAlpha: string -> int, i: nat)
    requires i < |BodyParts|
    ensures PartUnderPointer(canvasRefs, containerPresent, pixelAlpha) == Some(BodyParts[i]) <==>
      IsHit(canvasRefs, containerPresent, pixelAlpha, i)
      && forall j :: i < j < |BodyParts| ==> !IsHit(canvasRefs, containerPresent, pixelAlpha, j)
  {
    TopmostHitBelowSpec(canvasRefs, containerPresent, pixelAlpha, |BodyParts|);
    var r := TopmostHitBelow(canvasRefs, containerPresent, pixelAlpha, |BodyParts|);
    if r.Some? && BodyParts[r.value] == BodyParts[i] {
      DistinctParts(r.value, i);
    }
  }

  lemma DistinctParts(i: nat, j: nat)
    requires i < |BodyParts| && j < |BodyParts| && BodyParts[i] == BodyParts[j]
    ensures i == j
  {
    var parts := BodyParts;
    assert parts[0] == "cuello" && parts[1] == "hombro" && parts[2] == "nalgas";
    assert parts[3] == "pata_front" && parts[4] == "rodilla_back";
  }

  /** An alpha of exactly the threshold is not a hit, and a part without a
      mounted canvas, a context or the container is never hit. */
  lemma ThresholdIsStrict(canvasRefs: map<string, Option<Canvas>>, containerPresent: bool,
                          pixelAlpha: string -> int, i: nat)
    requires i < |BodyParts|
    requires AlphaAtEvent(canvasRefs, containerPresent, pixelAlpha, BodyParts[i]) == AlphaThreshold
             || !Readable(canvasRefs, containerPresent, BodyParts[i])
    ensures PartUnderPointer(canvasRefs, containerPresent, pixelAlpha) != Some(BodyParts[i])
  {
    PartUnderPointerIff(canvasRefs, containerPresent, pixelAlpha, i);
  }

  class DogMapView {
    var activePart: Option<string>
    var mousePos: (int, int)
    /** `canvasRefs.current`, filled by the canvases' ref callbacks. */
    var canvasRefs: map<string, Option<Canvas>>
    var containerPresent: bool

    constructor()
      ensures activePart.None? && mousePos == (0, 0) && canvasRefs == map[] && !containerPresent
    {
      activePart := None;
      mousePos := (0, 0);
      canvasRefs := map[];
      containerPresent := false;
    }

    /** A canvas's ref callback (`el` is null on unmount). */
    method SetCanvasRef(partId: string, el: Option<Canvas>)
      modifies this
      ensures canvasRefs == old(canvasRefs)[partId := el]
      ensures activePart == old(activePart) && mousePos == old(mousePos) && containerPresent == old(containerPresent)
    {
      canvasRefs := canvasRefs[partId := el];
    }

    /** The container's ref. */
    method SetContainer(present: bool)
      modifies this
      ensures containerPresent == present
      ensures activePart == old(activePart) && mousePos == old(mousePos) && canvasRefs == old(canvasRefs)
    {
      containerPresent := present;
    }

    /** The search loop shared by both handlers, from the top layer down. */
    method FindHit(pixelAlpha: string -> int) returns (hit: Option<string>)
      ensures hit == PartUnderPointer(canvasRefs, containerPresent, pixelAlpha)
    {
      var i := |BodyParts| - 1;
      while i >= 0
        invariant -1 <= i < |BodyParts|
        invariant TopmostHitBelow(canvasRefs, containerPresent, pixelAlpha, |BodyParts|)
               == TopmostHitBelow(canvasRefs, containerPresent, pixelAlpha, i + 1)
        decreases i
      {
        var part := BodyParts[i];
        var alpha := AlphaAtEvent(canvasRefs, containerPresent, pixelAlpha, part);
        if alpha > AlphaThreshold {
          return Some(part);
        }
        i := i - 1;
      }
      return None;
    }

    method HandleMouseMove(clientX: int, clientY: int, pixelAlpha: string -> int)
      modifies this
      ensures activePart == PartUnderPointer(canvasRefs, containerPresent, pixelAlpha)
      ensures mousePos == (clientX, clientY)
      ensures canvasRefs == old(canvasRefs) && containerPresent == old(containerPresent)
    {
      mousePos := (clientX, clientY);
      activePart := FindHit(pixelAlpha);
    }

    /** The `onPartSelect` calls a click makes: at most one, with the part the
        hover rule picks, and none when nothing is hit or no callback is given. */
    method HandleClick(pixelAlpha: string -> int, callbackPresent: bool) returns (selected: seq<string>)
      ensures |selected| <= 1
      ensures selected == (if callbackPresent && PartUnderPointer(canvasRefs, containerPresent, pixelAlpha).Some?
                           then [PartUnderPointer(canvasRefs, containerPresent, pixelAlpha).value] else [])
    {
      var hit := FindHit(pixelAlpha);
      selected := [];
      if hit.Some? && callbackPresent {
        selected := [hit.value];
      }
    }

    method HandleMouseLeave()
      modifies this
      ensures activePart.None?
      ensures mousePos == old(mousePos) && canvasRefs == old(canvasRefs) && containerPresent == old(containerPresent)
    {
      activePart := None;
    }
  }
}
