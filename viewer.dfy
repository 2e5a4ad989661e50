/**
 * The viewing mode of src/viewer.js: hover highlighting and the tooltip.
 * Features are objects whose style the viewer sets; the hit test at the
 * pointer is an input sequence, in the order the map reports the features.
 * The tooltip is its shown flag, its content and its position.
 */
module Viewer {
  import opened Wrappers
  import opened Text

  /** A feature's style: none (`setStyle(null)`) or the viewing style function. */
  datatype Style = NoStyle | ViewStyle

  /** A map coordinate. */
  datatype Coordinate = Coordinate(x: real, y: real)

  class MapFeature {
    const id: Option<string>
    var style: Style

    constructor (id: Option<string>)
      ensures this.id == id && style == NoStyle
    {
      this.id := id;
      style := NoStyle;
    }
  }

  /** The tooltip a pointer move leaves, as an independent reference: shown
      with the first feature's id when that id is truthy, hidden otherwise. */
  datatype Tooltip = Tooltip(shown: bool, content: string, position: Option<Coordinate>)

  function NextTooltip(t: Tooltip, firstId: Option<Option<string>>, at: Coordinate): (r: Tooltip)
    ensures r.shown <==> firstId.Some? && Truthy(firstId.value)
    ensures r.shown ==> r.content == firstId.value.value && r.position == Some(at)
    ensures !r.shown ==> r.content == t.content && r.position == t.position
  {
    if firstId.Some? && Truthy(firstId.value) then Tooltip(true, firstId.value.value, Some(at))
    else t.(shown := false)
  }

  class Viewer {
    var enabled: bool
    var highlighted: seq<MapFeature>
    var tooltip: Tooltip

    constructor ()
      ensures !enabled && highlighted == []
      ensures !tooltip.shown
    {
      enabled := false;
      highlighted := [];
      tooltip := Tooltip(false, "", None);
    }

    /** `clearStyle_`: every highlighted feature loses its style, and the list
        is emptied. */
    method ClearStyle()
      modifies this, set f | f in highlighted
      ensures highlighted == []
      ensures forall f :: f in old(highlighted) ==> f.style == NoStyle
      ensures enabled == old(enabled) && tooltip == old(tooltip)
    {
      for i := 0 to |highlighted|
        invariant highlighted == old(highlighted) && enabled == old(enabled) && tooltip == old(tooltip)
        invariant forall k :: 0 <= k < i ==> highlighted[k].style == NoStyle
      {
        highlighted[i].style := NoStyle;
      }
      highlighted := [];
    }

    /** `disable`: clears the highlights and the enabled flag. */
    method Disable()
      modifies this, set f | f in highlighted
      ensures !enabled && highlighted == []
      ensures forall f :: f in old(highlighted) ==> f.style == NoStyle
      ensures tooltip == old(tooltip)
    {
      ClearStyle();
      enabled := false;
    }

    /** `enable`: sets the flag and leaves the highlights alone. */
    method Enable()
      modifies this
      ensures enabled && highlighted == old(highlighted) && tooltip == old(tooltip)
    {
      enabled := true;
    }

    /** `pointerMove_` with the features hit at the pixel: the tooltip follows
        the first feature hit; when enabled the previous highlights lose their
        style and exactly the features hit, in hit order, get the viewing style
        and become the highlighted list; when disabled the list is unchanged. */
    method PointerMove(hits: seq<MapFeature>, at: Coordinate)
      modifies this, set f | f in highlighted, set f | f in hits
      ensures tooltip == NextTooltip(old(tooltip), if |hits| > 0 then Some(hits[0].id) else None, at)
      ensures enabled == old(enabled)
      ensures old(enabled) ==> (highlighted == hits
        && (forall f :: f in hits ==> f.style == ViewStyle)
        && (forall f :: f in old(highlighted) && f !in hits ==> f.style == NoStyle))
      ensures !old(enabled) ==> (highlighted == old(highlighted)
        && (forall f :: f in old(highlighted) || f in hits ==> f.style == old(f.style)))
    {
      if |hits| > 0 {
        var id := hits[0].id;
        if Truthy(id) {
          tooltip := Tooltip(true, id.value, Some(at));
        } else {
          tooltip := tooltip.(shown := false);
        }
      } else {
        tooltip := tooltip.(shown := false);
      }
      if enabled {
        ghost var t := tooltip;
        ClearStyle();
        for i := 0 to |hits|
          invariant enabled == old(enabled) && tooltip == t
          invariant highlighted == hits[..i]
          invariant forall k :: 0 <= k < i ==> hits[k].style == ViewStyle
          invariant forall f :: f in old(highlighted) && f !in hits ==> f.style == NoStyle
        {
          hits[i].style := ViewStyle;
          highlighted := highlighted + [hits[i]];
        }
        assert hits[..|hits|] == hits;
      }
    }
  }
}
