/**
 * The feature context menu of src/menus.js. The wrapped context-menu control
 * is reduced to its item list, its enabled flag, its open flag and its
 * position; features are values carrying an opaque token, `getId()` and the
 * 'type' property. The item callbacks record what they would do in a trace.
 */
module Menus {
  import opened Wrappers
  import opened Text

  /** A feature as the menu reads it. */
  datatype Feature = Feature(token: nat, id: Option<string>, kind: Option<string>)

  /** A menu entry: the query item with its text, the '-' separator, or the
      annotate item. */
  datatype Item = Query(text: string) | Separator | Annotate

  /** A screen pixel. */
  datatype Pixel = Pixel(x: int, y: int)

  /** What an item's callback did when chosen: `query_` broadcasts the current
      feature with the action 'query', `annotate_` hands it to the annotator. */
  datatype Invocation = QueryBroadcast(feature: Option<Feature>) | AnnotateCall(feature: Option<Feature>)

  /** Whether a feature is queryable: a truthy id and a truthy type. */
  predicate Queryable(f: Feature) {
    Truthy(f.id) && Truthy(f.kind)
  }

  /** The items offered for a feature, as an independent reference: an
      optional query item, an optional annotate item, and the separator
      exactly when both are there. */
  function MenuItems(f: Feature, annotate: bool): seq<Item>
  {
    (if Queryable(f) then [Query("Query " + f.kind.value)] else [])
    + (if Queryable(f) && annotate then [Separator] else [])
    + (if annotate then [Annotate] else [])
  }

  /** A query item is offered iff the feature has a truthy id and type, and
      then its text names the type. */
  lemma QueryItemIff(f: Feature, annotate: bool)
    ensures (exists t :: Query(t) in MenuItems(f, annotate)) <==> Queryable(f)
    ensures Queryable(f) ==> MenuItems(f, annotate)[0] == Query("Query " + f.kind.value)
  {
    if Queryable(f) {
      assert Query("Query " + f.kind.value) in MenuItems(f, annotate);
    }
  }

  /** An annotate item is offered iff annotation is enabled on the map, and it
      is the last item. */
  lemma AnnotateItemIff(f: Feature, annotate: bool)
    ensures Annotate in MenuItems(f, annotate) <==> annotate
    ensures annotate ==> MenuItems(f, annotate)[|MenuItems(f, annotate)| - 1] == Annotate
  {
  }

  /** The separator appears only when both items do, and then sits between
      them. */
  lemma SeparatorBetween(f: Feature, annotate: bool)
    ensures Separator in MenuItems(f, annotate) <==> Queryable(f) && annotate
    ensures Separator in MenuItems(f, annotate) ==>
      MenuItems(f, annotate) == [Query("Query " + f.kind.value), Separator, Annotate]
  {
  }

  /** The items are never all separators: the list is empty exactly when the
      feature is not queryable and annotation is off. */
  lemma MenuItemsEmptyIff(f: Feature, annotate: bool)
    ensures |MenuItems(f, annotate)| == 0 <==> !Queryable(f) && !annotate
    ensures |MenuItems(f, annotate)| <= 3
  {
  }

  /** The feature `forEachFeatureAtPixel(pixel, ft => ft)` answers: the first
      feature hit, if any. */
  function FirstHit(hits: seq<Feature>): (r: Option<Feature>)
    ensures r.None? <==> |hits| == 0
    ensures r.Some? ==> r.value == hits[0]
  {
    if |hits| == 0 then None else Some(hits[0])
  }

  class PopupMenu {
    /** `map.options.annotate`, read as a truth value. */
    const annotate: bool
    var currentFeature: Option<Feature>
    var items: seq<Item>
    var enabled: bool
    var open: bool
    var position: Option<Pixel>
    var invocations: seq<Invocation>

    constructor (annotate: bool)
      ensures this.annotate == annotate
      ensures currentFeature == None && items == [] && !open && invocations == []
      ensures enabled && position == None
    {
      this.annotate := annotate;
      currentFeature := None;
      items := [];
      enabled := true;
      open := false;
      position := None;
      invocations := [];
    }

    /** The `active` getter. */
    function Active(): (r: bool)
      reads this
      ensures r == open
    {
      open
    }

    /** `setupMenu_`: for a feature with at least one item, the menu holds
        exactly those items, is enabled, remembers the feature and the answer
        is true; otherwise (no feature, or no item) the menu is disabled, the
        current feature is cleared and the answer is false. */
    method SetupMenu(feature: Option<Feature>) returns (r: bool)
      modifies this
      ensures r <==> feature.Some? && |MenuItems(feature.value, annotate)| > 0
      ensures r ==> items == MenuItems(feature.value, annotate) && enabled && currentFeature == feature
      ensures !r ==> items == old(items) && !enabled && currentFeature == None
      ensures open == old(open) && position == old(position) && invocations == old(invocations)
    {
      if feature.Some? {
        var f := feature.value;
        var menuItems: seq<Item> := [];
        if Truthy(f.id) && Truthy(f.kind) {
          menuItems := menuItems + [Query("Query " + f.kind.value)];
        }
        if annotate {
          if |menuItems| > 0 {
            menuItems := menuItems + [Separator];
          }
          menuItems := menuItems + [Annotate];
        }
        if |menuItems| > 0 {
          currentFeature := feature;
          items := menuItems;
          enabled := true;
          return true;
        }
      }
      currentFeature := None;
      enabled := false;
      return false;
    }

    /** The 'beforeopen' handler: sets the menu up for the first feature hit
        at the pixel. */
    method BeforeOpen(hits: seq<Feature>)
      modifies this
      ensures |hits| > 0 && |MenuItems(hits[0], annotate)| > 0 ==>
        items == MenuItems(hits[0], annotate) && enabled && currentFeature == Some(hits[0])
      ensures !(|hits| > 0 && |MenuItems(hits[0], annotate)| > 0) ==>
        items == old(items) && !enabled && currentFeature == None
      ensures open == old(open) && position == old(position) && invocations == old(invocations)
    {
      var _ := SetupMenu(FirstHit(hits));
    }

    /** A right-click handled by the context-menu control: it fires
        'beforeopen' and then opens at the pixel when it is enabled. */
    method ContextClick(pixel: Pixel, hits: seq<Feature>)
      modifies this
      ensures open == (old(open) || enabled)
      ensures enabled ==> position == Some(pixel)
      ensures !enabled ==> position == old(position)
      ensures enabled <==> |hits| > 0 && |MenuItems(hits[0], annotate)| > 0
      ensures enabled ==> items == MenuItems(hits[0], annotate) && currentFeature == Some(hits[0])
      ensures !enabled ==> items == old(items) && currentFeature == None
      ensures invocations == old(invocations)
    {
      BeforeOpen(hits);
      if enabled {
        open := true;
        position := Some(pixel);
      }
    }

    /** `close`: only an open menu is closed, and it forgets its feature. */
    method Close()
      modifies this
      ensures old(open) ==> !open && currentFeature == None
      ensures !old(open) ==> currentFeature == old(currentFeature) && open == old(open)
      ensures items == old(items) && enabled == old(enabled) && invocations == old(invocations)
      ensures position == old(position)
    {
      if open {
        currentFeature := None;
        open := false;
      }
    }

    /** `update`: an open menu is set up again for the feature and moved to
        the pixel; a closed one is left alone. */
    method Update(pixel: Pixel, feature: Option<Feature>)
      modifies this
      ensures !old(open) ==> (items == old(items) && enabled == old(enabled)
        && currentFeature == old(currentFeature) && position == old(position))
      ensures old(open) ==> (position == Some(pixel)
        && (enabled <==> feature.Some? && |MenuItems(feature.value, annotate)| > 0)
        && (enabled ==> items == MenuItems(feature.value, annotate) && currentFeature == feature)
        && (!enabled ==> currentFeature == None && items == old(items)))
      ensures open == old(open) && invocations == old(invocations)
    {
      if open {
        var _ := SetupMenu(feature);
        position := Some(pixel);
      }
    }

    /** The query item's callback. */
    method QueryChosen()
      modifies this
      ensures invocations == old(invocations) + [QueryBroadcast(currentFeature)]
      ensures currentFeature == old(currentFeature) && items == old(items) && open == old(open)
      ensures enabled == old(enabled) && position == old(position)
    {
      invocations := invocations + [QueryBroadcast(currentFeature)];
    }

    /** The annotate item's callback. */
    method AnnotateChosen()
      modifies this
      ensures invocations == old(invocations) + [AnnotateCall(currentFeature)]
      ensures currentFeature == old(currentFeature) && items == old(items) && open == old(open)
      ensures enabled == old(enabled) && position == old(position)
    {
      invocations := invocations + [AnnotateCall(currentFeature)];
    }
  }
}
