/**
 * The layer switcher control of src/layerswitcher.js. The DOM is abstracted to
 * ids: the rendered panel is a list of entries (one per titled layer, newest
 * layer first), each with a checkbox state and a label whose id is the entry
 * id followed by "-label"; the 'active-layer' class is a set of label ids.
 * The map's 'active-layer' property is undefined until first set, then null or
 * a layer. Listener keys are numbers handed out by the map.
 */
module LayerSwitcher {
  import opened Wrappers
  import opened Text
  import opened OpenLayers
  import Layers

  datatype ActiveLayer = Undefined | Null | Active(layer: Layers.Layer)

  /** JavaScript truthiness of `map.get('active-layer')`. */
  predicate IsSet(a: ActiveLayer) {
    a.Active?
  }

  /** One `li` of the panel: the layer and the id `renderLayer_` gives it. */
  datatype Entry = Entry(layer: Layers.Layer, id: string)

  /** The id of the entry at position k of the reversed layer list. */
  function EntryId(prefix: string, k: nat): string {
    prefix + "-" + NatToString(k)
  }

  function LabelId(id: string): string {
    id + "-label"
  }

  lemma EntryIdInjective(prefix: string, a: nat, b: nat)
    requires EntryId(prefix, a) == EntryId(prefix, b)
    ensures a == b
  {
    assert EntryId(prefix, a)[|prefix| + 1..] == NatToString(a);
    assert EntryId(prefix, b)[|prefix| + 1..] == NatToString(b);
    NatToStringInjective(a, b);
  }

  lemma LabelIdInjective(a: string, b: string)
    requires LabelId(a) == LabelId(b)
    ensures a == b
  {
    assert |a| == |b|;
    assert LabelId(a)[..|a|] == a;
    assert LabelId(b)[..|b|] == b;
  }

  function Reverse<T>(s: seq<T>): (r: seq<T>)
    ensures |r| == |s|
    ensures forall k :: 0 <= k < |s| ==> r[k] == s[|s| - 1 - k]
    decreases |s|
  {
    if |s| == 0 then [] else Reverse(s[1..]) + [s[0]]
  }

  /** `renderLayers_` on a list already reversed, from position `from`. */
  function EntriesFrom(lyrs: seq<Layers.Layer>, prefix: string, from: nat): seq<Entry>
    decreases |lyrs| - from
  {
    if from >= |lyrs| then []
    else if Truthy(lyrs[from].title) then [Entry(lyrs[from], EntryId(prefix, from))] + EntriesFrom(lyrs, prefix, from + 1)
    else EntriesFrom(lyrs, prefix, from + 1)
  }

  /** The entries `renderLayers_` produces from the manager's layers. */
  function RenderedEntries(layers: seq<Layers.Layer>, prefix: string): seq<Entry>
  {
    EntriesFrom(Reverse(layers), prefix, 0)
  }

  lemma {:induction false} EntriesFromCharacterised(lyrs: seq<Layers.Layer>, prefix: string, from: nat, e: Entry)
    ensures e in EntriesFrom(lyrs, prefix, from) <==>
      exists k :: from <= k < |lyrs| && Truthy(lyrs[k].title) && e == Entry(lyrs[k], EntryId(prefix, k))
    decreases |lyrs| - from
  {
    if from < |lyrs| {
      EntriesFromCharacterised(lyrs, prefix, from + 1, e);
      if e in EntriesFrom(lyrs, prefix, from) && e !in EntriesFrom(lyrs, prefix, from + 1) {
        assert Truthy(lyrs[from].title) && e == Entry(lyrs[from], EntryId(prefix, from));
      }
    }
  }

  /** The panel lists the manager's layers newest first: an entry is exactly a
      titled layer at position k of the reversed list, with id prefix-k. */
  lemma RenderedEntriesCharacterised(layers: seq<Layers.Layer>, prefix: string, e: Entry)
    ensures e in RenderedEntries(layers, prefix) <==>
      exists k :: 0 <= k < |layers| && Truthy(layers[|layers| - 1 - k].title)
        && e == Entry(layers[|layers| - 1 - k], EntryId(prefix, k))
  {
    EntriesFromCharacterised(Reverse(layers), prefix, 0, e);
  }

  /** Distinct positions give distinct ids, so an id names at most one entry. */
  lemma {:induction false} EntryIdsDistinct(lyrs: seq<Layers.Layer>, prefix: string, from: nat, i: nat, j: nat)
    requires i < j < |EntriesFrom(lyrs, prefix, from)|
    ensures EntriesFrom(lyrs, prefix, from)[i].id != EntriesFrom(lyrs, prefix, from)[j].id
    decreases |lyrs| - from
  {
    var es := EntriesFrom(lyrs, prefix, from);
    if Truthy(lyrs[from].title) {
      if i == 0 {
        EntriesFromCharacterised(lyrs, prefix, from + 1, es[j]);
        var k :| from + 1 <= k < |lyrs| && Truthy(lyrs[k].title) && es[j] == Entry(lyrs[k], EntryId(prefix, k));
        if es[i].id == es[j].id {
          EntryIdInjective(prefix, from, k);
        }
      } else {
        EntryIdsDistinct(lyrs, prefix, from + 1, i - 1, j - 1);
      }
    } else {
      EntryIdsDistinct(lyrs, prefix, from + 1, i, j);
    }
  }

  /** A layer tree as `forEachRecursive` walks it: a plain layer, or a group
      (a layer with `getLayers`) and its children, each named by a token. */
  datatype LayerNode = Plain(token: nat) | Group(token: nat, children: seq<LayerNode>)

  /** One call `fn(lyr, idx, a)`: the layer and its index among its siblings. */
  datatype Visit = Visit(token: nat, index: nat)

  function VisitsFrom(cs: seq<LayerNode>, from: nat): seq<Visit>
    decreases cs, |cs| - from
  {
    if from >= |cs| then []
    else
      [Visit(cs[from].token, from)]
      + (if cs[from].Group? then VisitsFrom(cs[from].children, 0) else [])
      + VisitsFrom(cs, from + 1)
  }

  /** The calls made by `forEachRecursive` on a group with children `cs`. */
  function PreOrder(cs: seq<LayerNode>): seq<Visit>
  {
    VisitsFrom(cs, 0)
  }

  /** The number of layers below a group with children `cs`. */
  function Size(cs: seq<LayerNode>): nat
    decreases cs
  {
    if |cs| == 0 then 0
    else 1 + (if cs[0].Group? then Size(cs[0].children) else 0) + Size(cs[1..])
  }

  /** Every layer below the root is visited exactly once. */
  lemma {:induction false} PreOrderSize(cs: seq<LayerNode>, from: nat)
    requires from <= |cs|
    ensures |VisitsFrom(cs, from)| == Size(cs[from..])
    decreases cs, |cs| - from
  {
    if from < |cs| {
      if cs[from].Group? {
        PreOrderSize(cs[from].children, 0);
        assert cs[from].children[0..] == cs[from].children;
      }
      PreOrderSize(cs, from + 1);
      assert cs[from..][1..] == cs[from + 1..];
    }
  }

  /** Pre-order: a group's own call comes first, immediately followed by the
      calls for everything below it. */
  lemma {:induction false} ParentBeforeChildren(cs: seq<LayerNode>, from: nat, k: nat)
    returns (before: seq<Visit>, after: seq<Visit>)
    requires from <= k < |cs| && cs[k].Group?
    ensures VisitsFrom(cs, from) == before + [Visit(cs[k].token, k)] + PreOrder(cs[k].children) + after
    decreases |cs| - from
  {
    VisitsFromUnfold(cs, from);
    if k == from {
      before := [];
      after := VisitsFrom(cs, from + 1);
    } else {
      var head := [Visit(cs[from].token, from)] + (if cs[from].Group? then VisitsFrom(cs[from].children, 0) else []);
      var b';
      b', after := ParentBeforeChildren(cs, from + 1, k);
      before := head + b';
      Regroup(head, b', [Visit(cs[k].token, k)], PreOrder(cs[k].children), after);
    }
  }

  lemma VisitsFromUnfold(cs: seq<LayerNode>, from: nat)
    requires from < |cs|
    ensures VisitsFrom(cs, from) == [Visit(cs[from].token, from)]
      + (if cs[from].Group? then VisitsFrom(cs[from].children, 0) else []) + VisitsFrom(cs, from + 1)
  {
  }

  lemma SeqAssoc<T>(x: seq<T>, y: seq<T>, z: seq<T>)
    ensures x + (y + z) == x + y + z
  {
  }

  lemma Regroup<T>(h: seq<T>, b: seq<T>, v: seq<T>, c: seq<T>, a: seq<T>)
    ensures h + (b + v + c + a) == h + b + v + c + a
  {
  }

  /** `forEachRecursive(lyr, fn)` for a group whose children are `cs`: the
      calls `fn` receives, in order. */
  method ForEachRecursive(cs: seq<LayerNode>) returns (visits: seq<Visit>)
    ensures visits == PreOrder(cs)
    decreases cs
  {
    visits := [];
    for idx := 0 to |cs|
      invariant visits + VisitsFrom(cs, idx) == PreOrder(cs)
    {
      var lyr := cs[idx];
      var below: seq<Visit> := [];
      if lyr.Group? {
        below := ForEachRecursive(lyr.children);
      }
      VisitsFromUnfold(cs, idx);
      SeqAssoc(visits, [Visit(lyr.token, idx)] + below, VisitsFrom(cs, idx + 1));
      visits := visits + ([Visit(lyr.token, idx)] + below);
    }
  }

  lemma UniqueIdsOf(es: seq<Entry>)
    requires forall i, j :: 0 <= i < j < |es| ==> es[i].id != es[j].id
    ensures forall e1, e2 :: e1 in es && e2 in es && e1.id == e2.id ==> e1 == e2
  {
    forall e1, e2 | e1 in es && e2 in es && e1.id == e2.id ensures e1 == e2 {
      var i :| 0 <= i < |es| && es[i] == e1;
      var j :| 0 <= j < |es| && es[j] == e2;
      assert i == j;
    }
  }

  function FirstLabel(es: seq<Entry>, layer: Layers.Layer): (r: Option<string>)
    ensures r.Some? <==> exists e :: e in es && e.layer == layer
    ensures r.Some? ==> exists e :: e in es && e.layer == layer && r.value == LabelId(e.id)
    decreases |es|
  {
    if |es| == 0 then None
    else if es[0].layer == layer then Some(LabelId(es[0].id))
    else
      FirstLabel(es[1..], layer)
  }

  /** The label found for the layer of the only entry holding that layer is
      that entry's label. */
  lemma OwnLabel(es: seq<Entry>, e: Entry)
    requires e in es && forall e' :: e' in es && e'.layer == e.layer ==> e' == e
    ensures FirstLabel(es, e.layer) == Some(LabelId(e.id))
  {
  }

  /** With unique ids, the label found for another layer is not this
      entry's label. */
  lemma OtherLabel(es: seq<Entry>, e: Entry, layer: Layers.Layer)
    requires e in es && layer != e.layer
    requires forall e1, e2 :: e1 in es && e2 in es && e1.id == e2.id ==> e1 == e2
    ensures FirstLabel(es, layer) != Some(LabelId(e.id))
  {
    var r := FirstLabel(es, layer);
    if r == Some(LabelId(e.id)) {
      var e' :| e' in es && e'.layer == layer && r.value == LabelId(e'.id);
      LabelIdInjective(e.id, e'.id);
    }
  }

  /** `renderLayers_`' loop over the reversed layer list: an entry per titled
      layer, its checkbox showing the layer's visibility, and the highlighted
      labels, those of the active layer's entries. */
  method RenderLayers(lyrs: seq<Layers.Layer>, prefix: string, active: ActiveLayer)
    returns (es: seq<Entry>, ch: map<string, bool>, hl: set<string>)
    ensures es == EntriesFrom(lyrs, prefix, 0)
    ensures forall e :: e in es ==> e.id in ch && ch[e.id] == e.layer.visible
    ensures forall l :: l in hl <==> exists e :: e in es && active == Active(e.layer) && l == LabelId(e.id)
  {
    es := [];
    ch := map[];
    hl := {};
    for i := 0 to |lyrs|
      invariant es + EntriesFrom(lyrs, prefix, i) == EntriesFrom(lyrs, prefix, 0)
      invariant forall e :: e in es ==> exists k :: 0 <= k < i && e.id == EntryId(prefix, k)
      invariant forall e :: e in es ==> e.id in ch && ch[e.id] == e.layer.visible
      invariant forall l :: l in hl <==> exists e :: e in es && active == Active(e.layer) && l == LabelId(e.id)
    {
      var l := lyrs[i];
      if Truthy(l.title) {
        var lyrId := EntryId(prefix, i);
        FreshEntryId(es, prefix, i);
        ch := ch[lyrId := l.visible];
        if active == Active(l) {
          hl := hl + {LabelId(lyrId)};
        }
        assert EntriesFrom(lyrs, prefix, i) == [Entry(l, lyrId)] + EntriesFrom(lyrs, prefix, i + 1);
        es := es + [Entry(l, lyrId)];
      }
    }
  }

  /** The entries made so far carry ids of earlier positions, so the id of
      position i is new. */
  lemma FreshEntryId(es: seq<Entry>, prefix: string, i: nat)
    requires forall e :: e in es ==> exists k :: 0 <= k < i && e.id == EntryId(prefix, k)
    ensures forall e :: e in es ==> e.id != EntryId(prefix, i)
  {
    forall e | e in es ensures e.id != EntryId(prefix, i) {
      var k :| 0 <= k < i && e.id == EntryId(prefix, k);
      if e.id == EntryId(prefix, i) {
        EntryIdInjective(prefix, k, i);
      }
    }
  }

  /** No two rendered entries share an id. */
  lemma RenderedIdsUnique(lyrs: seq<Layers.Layer>, prefix: string)
    ensures var es := EntriesFrom(lyrs, prefix, 0);
      forall e1, e2 :: e1 in es && e2 in es && e1.id == e2.id ==> e1 == e2
  {
    var es := EntriesFrom(lyrs, prefix, 0);
    forall i, j | 0 <= i < j < |es| ensures es[i].id != es[j].id {
      EntryIdsDistinct(lyrs, prefix, 0, i, j);
    }
    UniqueIdsOf(es);
  }

  /** The label set of an optional label: empty for none. */
  function LabelSet(l: Option<string>): set<string>
  {
    if l.Some? then {l.value} else {}
  }

  class Switcher {
    /** Keys of the listeners registered on the current map. */
    var mapListeners: seq<nat>
    /** Keys of the listeners removed with `Observable.unByKey`, in order. */
    var removedListeners: seq<nat>
    /** The key the map hands out to the next listener. */
    var nextKey: nat
    /** The id of the map the control is attached to, if any. */
    var attached: Option<string>
    /** Whether the element carries the 'shown' class. */
    var shown: bool
    /** The `li` elements of the panel, top to bottom. */
    var entries: seq<Entry>
    /** The checkbox state of each entry id. */
    var checked: map<string, bool>
    /** The labels carrying the 'layer-switcher-active-layer' class. */
    var highlighted: set<string>
    /** Whether the labels of the last rendering got a click handler. */
    var labelsClickable: bool
    /** The 'active-layer' property of the one map the switcher is attached
        to, held here on the switcher. */
    var active: ActiveLayer
    /** How many times the panel has been redrawn. */
    var renders: nat

    /** No two entries of the panel share an id. */
    ghost predicate IdsUnique()
      reads this
    {
      forall e1, e2 :: e1 in entries && e2 in entries && e1.id == e2.id ==> e1 == e2
    }

    constructor ()
      ensures mapListeners == [] && removedListeners == [] && attached == None && !shown
      ensures entries == [] && highlighted == {} && active == Undefined && renders == 0
      ensures checked == map[] && !labelsClickable && nextKey == 0
    {
      mapListeners := [];
      removedListeners := [];
      nextKey := 0;
      attached := None;
      shown := false;
      entries := [];
      checked := map[];
      highlighted := {};
      labelsClickable := false;
      active := Undefined;
      renders := 0;
    }

    /** `renderPanel`: rebuilds the panel from the manager's layers; each
        checkbox shows its layer's visibility, only the active layer's label is
        highlighted, and labels are clickable once 'active-layer' is defined. */
    method RenderPanel(mapId: string, layers: seq<Layers.Layer>)
      modifies this
      ensures entries == RenderedEntries(layers, "layer-switcher-" + mapId)
      ensures IdsUnique()
      ensures forall e :: e in entries ==> e.id in checked && checked[e.id] == e.layer.visible
      ensures forall l :: l in highlighted <==> exists e :: e in entries && active == Active(e.layer) && l == LabelId(e.id)
      ensures labelsClickable == (active != Undefined)
      ensures renders == old(renders) + 1
      ensures mapListeners == old(mapListeners) && removedListeners == old(removedListeners)
      ensures nextKey == old(nextKey) && attached == old(attached) && shown == old(shown) && active == old(active)
    {
      var prefix := "layer-switcher-" + mapId;
      var es, ch, hl := RenderLayers(Reverse(layers), prefix, active);
      entries := es;
      checked := ch;
      highlighted := hl;
      labelsClickable := active != Undefined;
      renders := renders + 1;
      RenderedIdsUnique(Reverse(layers), prefix);
    }

    /** `setMap`: drops every listener of the previous map; for a map (and only
        then) registers one 'pointerdown' listener and redraws the panel. */
    method SetMap(m: Option<string>, layers: seq<Layers.Layer>)
      modifies this
      ensures removedListeners == old(removedListeners) + old(mapListeners)
      ensures attached == m
      ensures m.None? ==> mapListeners == [] && nextKey == old(nextKey)
      ensures m.None? ==> (entries == old(entries) && checked == old(checked) && highlighted == old(highlighted)
        && labelsClickable == old(labelsClickable) && renders == old(renders))
      ensures m.Some? ==> (mapListeners == [old(nextKey)] && nextKey == old(nextKey) + 1
        && entries == RenderedEntries(layers, "layer-switcher-" + m.value) && IdsUnique()
        && (forall e :: e in entries ==> e.id in checked && checked[e.id] == e.layer.visible)
        && (forall l :: l in highlighted <==> exists e :: e in entries && active == Active(e.layer) && l == LabelId(e.id))
        && labelsClickable == (active != Undefined)
        && renders == old(renders) + 1)
      ensures shown == old(shown) && active == old(active)
    {
      for i := 0 to |mapListeners|
        invariant removedListeners == old(removedListeners) + old(mapListeners)[..i]
        invariant mapListeners == old(mapListeners) && nextKey == old(nextKey)
        invariant attached == old(attached) && entries == old(entries) && renders == old(renders)
        invariant checked == old(checked) && highlighted == old(highlighted) && labelsClickable == old(labelsClickable)
        invariant shown == old(shown) && active == old(active)
      {
        removedListeners := removedListeners + [mapListeners[i]];
      }
      assert old(mapListeners)[..|mapListeners|] == old(mapListeners);
      mapListeners := [];
      attached := m;
      if m.Some? {
        mapListeners := mapListeners + [nextKey];
        nextKey := nextKey + 1;
        RenderPanel(m.value, layers);
      }
    }

    /** `showPanel`: adds the 'shown' class, redrawing only when it was absent. */
    method ShowPanel(mapId: string, layers: seq<Layers.Layer>)
      modifies this
      ensures shown
      ensures old(shown) ==> (entries == old(entries) && checked == old(checked) && highlighted == old(highlighted)
        && labelsClickable == old(labelsClickable) && renders == old(renders))
      ensures !old(shown) ==> (entries == RenderedEntries(layers, "layer-switcher-" + mapId) && IdsUnique()
        && (forall e :: e in entries ==> e.id in checked && checked[e.id] == e.layer.visible)
        && (forall l :: l in highlighted <==> exists e :: e in entries && active == Active(e.layer) && l == LabelId(e.id))
        && labelsClickable == (active != Undefined)
        && renders == old(renders) + 1)
      ensures active == old(active) && attached == old(attached)
      ensures mapListeners == old(mapListeners) && removedListeners == old(removedListeners) && nextKey == old(nextKey)
    {
      if !shown {
        shown := true;
        RenderPanel(mapId, layers);
      }
    }

    /** `hidePanel` (also the 'pointerdown' listener): the panel stays shown
        while an active layer is set. */
    method HidePanel()
      modifies this
      ensures shown == (old(shown) && IsSet(active))
      ensures active == old(active) && entries == old(entries) && checked == old(checked) && highlighted == old(highlighted)
      ensures labelsClickable == old(labelsClickable) && renders == old(renders) && attached == old(attached)
      ensures mapListeners == old(mapListeners) && removedListeners == old(removedListeners) && nextKey == old(nextKey)
    {
      if !IsSet(active) && shown {
        shown := false;
      }
    }

    /** `document.getElementById(layer.id + '-label')`: the label of the
        layer's first entry in the panel, if it has one. */
    function FindLabel(layer: Layers.Layer): (r: Option<string>)
      reads this
      ensures r.Some? <==> exists e :: e in entries && e.layer == layer
      ensures r.Some? ==> exists e :: e in entries && e.layer == layer && r.value == LabelId(e.id)
    {
      FirstLabel(entries, layer)
    }

    /** The label `removeActiveHighlight_` looks up: that of the active layer,
        when one is set and has an entry in the panel. */
    function ActiveLabel(): Option<string>
      reads this
    {
      if IsSet(active) then FindLabel(active.layer) else None
    }

    /** `removeActiveHighlight_`: when an active layer is set and its label is
        in the panel, unhighlights that label, sets 'active-layer' to null and
        returns the label; otherwise changes nothing and returns null. */
    method RemoveActiveHighlight() returns (prev: Option<string>)
      modifies this
      ensures IsSet(old(active)) && old(FindLabel(active.layer)).Some? ==>
        prev == old(FindLabel(active.layer)) && active == Null && highlighted == old(highlighted) - {prev.value}
      ensures !(IsSet(old(active)) && old(FindLabel(active.layer)).Some?) ==>
        prev == None && active == old(active) && highlighted == old(highlighted)
      ensures entries == old(entries) && checked == old(checked) && shown == old(shown)
      ensures labelsClickable == old(labelsClickable) && renders == old(renders) && attached == old(attached)
      ensures mapListeners == old(mapListeners) && removedListeners == old(removedListeners) && nextKey == old(nextKey)
    {
      prev := None;
      if IsSet(active) {
        prev := FindLabel(active.layer);
        if prev.Some? {
          highlighted := highlighted - {prev.value};
          active := Null;
        }
      }
    }

    /** The click handler of the label of entry `e`, through `toggleActive_`:
        clicking the active layer's label leaves no layer active and answers
        false; any other label becomes the only highlight, its layer becomes
        active, and the answer is its checkbox state. */
    method ToggleActive(e: Entry) returns (r: bool)
      requires labelsClickable && IdsUnique()
      requires e in entries && e.id in checked
      requires forall e' :: e' in entries && e'.layer == e.layer ==> e' == e
      modifies this
      ensures entries == old(entries) && checked == old(checked) && shown == old(shown)
      ensures labelsClickable == old(labelsClickable) && renders == old(renders) && attached == old(attached)
      ensures mapListeners == old(mapListeners) && removedListeners == old(removedListeners) && nextKey == old(nextKey)
      ensures old(active) == Active(e.layer) ==>
        !r && active == Null && highlighted == old(highlighted) - {LabelId(e.id)}
      ensures old(active) != Active(e.layer) ==>
        && r == checked[e.id] && active == Active(e.layer)
        && highlighted == old(highlighted) - LabelSet(old(ActiveLabel())) + {LabelId(e.id)}
    {
      var lbl := LabelId(e.id);
      if active == Active(e.layer) {
        OwnLabel(entries, e);
      } else if active.Active? {
        OtherLabel(entries, e, active.layer);
      }
      var prevLabel := RemoveActiveHighlight();
      if Some(lbl) != prevLabel {
        highlighted := highlighted + {lbl};
        active := Active(e.layer);
        r := checked[e.id];
        return;
      }
      r := false;
    }

    /** The checkbox `onchange` of entry `e`: the layer takes the new state,
        and unchecking the active layer also removes its highlight. */
    method CheckboxChanged(e: Entry, isChecked: bool)
      requires e in entries
      modifies this, e.layer, e.layer.features, e.layer.tiles
      ensures e.layer.visible == isChecked
      ensures e.layer.features != null ==> e.layer.features.visible == isChecked
      ensures e.layer.tiles != null ==> e.layer.tiles.visible == isChecked
      ensures checked == old(checked)[e.id := isChecked]
      ensures !isChecked && old(active) == Active(e.layer) ==>
        active == Null && highlighted == old(highlighted) - LabelSet(old(FindLabel(e.layer)))
      ensures old(FindLabel(e.layer)).Some?
      ensures isChecked || old(active) != Active(e.layer) ==> active == old(active) && highlighted == old(highlighted)
      ensures entries == old(entries) && shown == old(shown) && labelsClickable == old(labelsClickable) && renders == old(renders)
      ensures attached == old(attached) && mapListeners == old(mapListeners)
      ensures removedListeners == old(removedListeners) && nextKey == old(nextKey)
    {
      checked := checked[e.id := isChecked];
      e.layer.SetVisible(isChecked);
      if !isChecked && active == Active(e.layer) {
        var _ := RemoveActiveHighlight();
      }
    }
  }
}
