/**
 * The editing toolbar of src/toolbar.js. The toolbar's element is a row of
 * icons and spacers; each tool is an icon with an optional tooltip, an
 * optional action and a 'selected' highlight. Actions are opaque tokens and
 * invoking one with the current map is recorded in the toolbar's trace.
 */
module Toolbar {
  import opened Wrappers
  import opened Text

  /** An opaque action callback. */
  type Action = nat

  /** An opaque map object. */
  type MapToken = nat

  /** A child of the toolbar's element: a spacer, or a tool's `i` element with
      its two classes and its 'title' attribute (set only for a truthy tooltip). */
  datatype Element = Spacer | Icon(style: string, name: string, title: Option<string>)

  /** One invocation `action(map)`. */
  datatype Call = Call(action: Action, target: Option<MapToken>)

  function IconOf(style: string, name: string, tooltip: Option<string>): Element
  {
    Icon(style, name, if Truthy(tooltip) then tooltip else None)
  }

  /** The icons of a row of elements, in order. */
  function Icons(es: seq<Element>): (r: seq<Element>)
    ensures |r| <= |es|
    decreases |es|
  {
    if |es| == 0 then []
    else (if es[0].Icon? then [es[0]] else []) + Icons(es[1..])
  }

  function SpacerCount(es: seq<Element>): nat
    decreases |es|
  {
    if |es| == 0 then 0 else (if es[0].Spacer? then 1 else 0) + SpacerCount(es[1..])
  }

  lemma {:induction false} IconsAppend(a: seq<Element>, b: seq<Element>)
    ensures Icons(a + b) == Icons(a) + Icons(b)
    decreases |a|
  {
    if |a| == 0 {
      assert a + b == b;
    } else {
      var h := if a[0].Icon? then [a[0]] else [];
      assert (a + b)[0] == a[0] && (a + b)[1..] == a[1..] + b;
      assert Icons(a + b) == h + Icons(a[1..] + b);
      IconsAppend(a[1..], b);
      SeqAssoc(h, Icons(a[1..]), Icons(b));
    }
  }

  lemma SeqAssoc<T>(x: seq<T>, y: seq<T>, z: seq<T>)
    ensures x + (y + z) == x + y + z
  {
  }

  lemma {:induction false} SpacersAppend(a: seq<Element>, b: seq<Element>)
    ensures SpacerCount(a + b) == SpacerCount(a) + SpacerCount(b)
    decreases |a|
  {
    if |a| == 0 {
      assert a + b == b;
    } else {
      assert (a + b)[1..] == a[1..] + b;
      SpacersAppend(a[1..], b);
    }
  }

  /** The tools a new toolbar offers, in order: (style, name, tooltip). */
  const DefaultTools: seq<(string, string, string)> := [
    ("fas", "fa-mouse-pointer", "Select"),
    ("fas", "fa-map-marker", "Add point"),
    ("fas", "fa-pencil-alt", "Add line"),
    ("fas", "fa-vector-square", "Add rectangle"),
    ("fas", "fa-draw-polygon", "Add polygon"),
    ("far", "fa-trash-alt", "Delete"),
    ("fas", "fa-undo", "Undo"),
    ("fas", "fa-redo", "Redo"),
    ("fas", "fa-save", "Save changes")
  ]

  /** The icons of the default tools, in order. */
  const DefaultIcons: seq<Element> := []
    + [IconOf("fas", "fa-mouse-pointer", Some("Select"))]
    + [IconOf("fas", "fa-map-marker", Some("Add point"))]
    + [IconOf("fas", "fa-pencil-alt", Some("Add line"))]
    + [IconOf("fas", "fa-vector-square", Some("Add rectangle"))]
    + [IconOf("fas", "fa-draw-polygon", Some("Add polygon"))]
    + [IconOf("far", "fa-trash-alt", Some("Delete"))]
    + [IconOf("fas", "fa-undo", Some("Undo"))]
    + [IconOf("fas", "fa-redo", Some("Redo"))]
    + [IconOf("fas", "fa-save", Some("Save changes"))]

  /** The row of elements a new toolbar holds: the default tools, with a
      spacer after Select, after the drawing tools, after Delete and before
      Save changes. */
  const DefaultLayout: seq<Element> := []
    + [IconOf("fas", "fa-mouse-pointer", Some("Select"))]
    + [Spacer]
    + [IconOf("fas", "fa-map-marker", Some("Add point"))]
    + [IconOf("fas", "fa-pencil-alt", Some("Add line"))]
    + [IconOf("fas", "fa-vector-square", Some("Add rectangle"))]
    + [IconOf("fas", "fa-draw-polygon", Some("Add polygon"))]
    + [Spacer]
    + [IconOf("far", "fa-trash-alt", Some("Delete"))]
    + [Spacer]
    + [IconOf("fas", "fa-undo", Some("Undo"))]
    + [IconOf("fas", "fa-redo", Some("Redo"))]
    + [Spacer]
    + [IconOf("fas", "fa-save", Some("Save changes"))]

  lemma IconsStep(p: seq<Element>, q: seq<Element>, x: Element)
    requires Icons(p) == q
    ensures Icons(p + [x]) == if x.Icon? then q + [x] else q
  {
    IconsAppend(p, [x]);
  }

  /** The icons of the default row are the default tools' icons, in order. */
  lemma DefaultLayoutTools()
    ensures Icons(DefaultLayout) == DefaultIcons
  {
    var p: seq<Element> := [];
    var q: seq<Element> := [];
    IconsStep(p, q, IconOf("fas", "fa-mouse-pointer", Some("Select")));
    p, q := p + [IconOf("fas", "fa-mouse-pointer", Some("Select"))], q + [IconOf("fas", "fa-mouse-pointer", Some("Select"))];
    IconsStep(p, q, Spacer);
    p := p + [Spacer];
    IconsStep(p, q, IconOf("fas", "fa-map-marker", Some("Add point")));
    p, q := p + [IconOf("fas", "fa-map-marker", Some("Add point"))], q + [IconOf("fas", "fa-map-marker", Some("Add point"))];
    IconsStep(p, q, IconOf("fas", "fa-pencil-alt", Some("Add line")));
    p, q := p + [IconOf("fas", "fa-pencil-alt", Some("Add line"))], q + [IconOf("fas", "fa-pencil-alt", Some("Add line"))];
    IconsStep(p, q, IconOf("fas", "fa-vector-square", Some("Add rectangle")));
    p, q := p + [IconOf("fas", "fa-vector-square", Some("Add rectangle"))], q + [IconOf("fas", "fa-vector-square", Some("Add rectangle"))];
    IconsStep(p, q, IconOf("fas", "fa-draw-polygon", Some("Add polygon")));
    p, q := p + [IconOf("fas", "fa-draw-polygon", Some("Add polygon"))], q + [IconOf("fas", "fa-draw-polygon", Some("Add polygon"))];
    IconsStep(p, q, Spacer);
    p := p + [Spacer];
    IconsStep(p, q, IconOf("far", "fa-trash-alt", Some("Delete")));
    p, q := p + [IconOf("far", "fa-trash-alt", Some("Delete"))], q + [IconOf("far", "fa-trash-alt", Some("Delete"))];
    IconsStep(p, q, Spacer);
    p := p + [Spacer];
    IconsStep(p, q, IconOf("fas", "fa-undo", Some("Undo")));
    p, q := p + [IconOf("fas", "fa-undo", Some("Undo"))], q + [IconOf("fas", "fa-undo", Some("Undo"))];
    IconsStep(p, q, IconOf("fas", "fa-redo", Some("Redo")));
    p, q := p + [IconOf("fas", "fa-redo", Some("Redo"))], q + [IconOf("fas", "fa-redo", Some("Redo"))];
    IconsStep(p, q, Spacer);
    p := p + [Spacer];
    IconsStep(p, q, IconOf("fas", "fa-save", Some("Save changes")));
    p, q := p + [IconOf("fas", "fa-save", Some("Save changes"))], q + [IconOf("fas", "fa-save", Some("Save changes"))];
  }

  /** There are nine default tools, and each icon carries its tooltip as its
      title, since none is empty. */
  lemma DefaultIconsTitled()
    ensures |DefaultIcons| == |DefaultTools| == 9
    ensures forall k :: 0 <= k < 9 ==>
      DefaultIcons[k] == Icon(DefaultTools[k].0, DefaultTools[k].1, Some(DefaultTools[k].2))
  {
  }

  /** The default row holds four spacers. */
  lemma DefaultLayoutSpacers()
    ensures SpacerCount(DefaultLayout) == 4
  {
    var p: seq<Element> := [];
    SpacersAppend(p, [IconOf("fas", "fa-mouse-pointer", Some("Select"))]);
    p := p + [IconOf("fas", "fa-mouse-pointer", Some("Select"))];
    SpacersAppend(p, [Spacer]);
    p := p + [Spacer];
    SpacersAppend(p, [IconOf("fas", "fa-map-marker", Some("Add point"))]);
    p := p + [IconOf("fas", "fa-map-marker", Some("Add point"))];
    SpacersAppend(p, [IconOf("fas", "fa-pencil-alt", Some("Add line"))]);
    p := p + [IconOf("fas", "fa-pencil-alt", Some("Add line"))];
    SpacersAppend(p, [IconOf("fas", "fa-vector-square", Some("Add rectangle"))]);
    p := p + [IconOf("fas", "fa-vector-square", Some("Add rectangle"))];
    SpacersAppend(p, [IconOf("fas", "fa-draw-polygon", Some("Add polygon"))]);
    p := p + [IconOf("fas", "fa-draw-polygon", Some("Add polygon"))];
    SpacersAppend(p, [Spacer]);
    p := p + [Spacer];
    SpacersAppend(p, [IconOf("far", "fa-trash-alt", Some("Delete"))]);
    p := p + [IconOf("far", "fa-trash-alt", Some("Delete"))];
    SpacersAppend(p, [Spacer]);
    p := p + [Spacer];
    SpacersAppend(p, [IconOf("fas", "fa-undo", Some("Undo"))]);
    p := p + [IconOf("fas", "fa-undo", Some("Undo"))];
    SpacersAppend(p, [IconOf("fas", "fa-redo", Some("Redo"))]);
    p := p + [IconOf("fas", "fa-redo", Some("Redo"))];
    SpacersAppend(p, [Spacer]);
    p := p + [Spacer];
    SpacersAppend(p, [IconOf("fas", "fa-save", Some("Save changes"))]);
    p := p + [IconOf("fas", "fa-save", Some("Save changes"))];
  }

  class Tool {
    const toolbar: Bar
    const action: Option<Action>
    const element: Element
    var selected: bool

    constructor (toolbar: Bar, style: string, name: string, tooltip: Option<string>, action: Option<Action>)
      ensures this.toolbar == toolbar && this.action == action
      ensures element == IconOf(style, name, tooltip) && !selected
    {
      this.toolbar := toolbar;
      this.action := action;
      this.element := IconOf(style, name, tooltip);
      this.selected := false;
    }

    /** `highlight`: the 'selected' class is present exactly when asked for,
        whatever it was before, so repeating a call changes nothing. */
    method Highlight(sel: bool)
      modifies this
      ensures selected == sel
    {
      selected := sel;
    }

    /** The icon's `onclick`. */
    method Clicked()
      requires toolbar.Valid() && this in toolbar.tools
      modifies toolbar, toolbar.tools
      ensures toolbar.Valid() && toolbar.tools == old(toolbar.tools)
      ensures forall t :: t in toolbar.tools && t != this ==> !t.selected
      ensures selected == action.None?
      ensures toolbar.calls == old(toolbar.calls) + (if action.Some? then [Call(action.value, toolbar.currentMap)] else [])
    {
      toolbar.ToolClicked(this);
    }
  }

  class Bar {
    const id: string
    var currentMap: Option<MapToken>
    var tools: seq<Tool>
    var elements: seq<Element>
    var calls: seq<Call>

    /** The tools are distinct, belong to this toolbar, and their icons are
        the icons of the element row, in the same order. */
    ghost predicate Valid()
      reads this
    {
      && (forall i, j :: 0 <= i < j < |tools| ==> tools[i] != tools[j])
      && (forall t :: t in tools ==> t.toolbar == this)
      && |Icons(elements)| == |tools|
      && (forall k :: 0 <= k < |tools| ==> Icons(elements)[k] == tools[k].element)
    }

    /** No tool has an action and none is highlighted. */
    ghost predicate Pristine()
      reads this, tools
    {
      forall t :: t in tools ==> t.action.None? && !t.selected
    }

    /** The constructor: the nine default tools in order, none with an action
        and none highlighted, and four spacers among them. */
    constructor (containerId: string)
      ensures Valid()
      ensures id == containerId + "-toolbar" && currentMap == None && calls == []
      ensures elements == DefaultLayout
      ensures |tools| == |DefaultTools| && Pristine()
    {
      id := containerId + "-toolbar";
      currentMap := None;
      tools := [];
      elements := [];
      calls := [];
      new;
      AddStyledTool("fas", "fa-mouse-pointer", Some("Select"), None);
      AddSpacer();
      AddDrawingTools();
      AddSpacer();
      AddEditingTools();
    }

    /** Part of the constructor: the four drawing tools, with no spacer. */
    method AddDrawingTools()
      requires Valid()
      modifies this
      ensures Valid()
      ensures elements == old(elements)
        + [IconOf("fas", "fa-map-marker", Some("Add point"))]
        + [IconOf("fas", "fa-pencil-alt", Some("Add line"))]
        + [IconOf("fas", "fa-vector-square", Some("Add rectangle"))]
        + [IconOf("fas", "fa-draw-polygon", Some("Add polygon"))]
      ensures |tools| == |old(tools)| + 4
      ensures currentMap == old(currentMap) && calls == old(calls)
      ensures old(Pristine()) ==> Pristine()
    {
      AddStyledTool("fas", "fa-map-marker", Some("Add point"), None);
      AddStyledTool("fas", "fa-pencil-alt", Some("Add line"), None);
      AddStyledTool("fas", "fa-vector-square", Some("Add rectangle"), None);
      AddStyledTool("fas", "fa-draw-polygon", Some("Add polygon"), None);
    }

    /** Part of the constructor: Delete, Undo, Redo and Save changes, with
        their spacers. */
    method AddEditingTools()
      requires Valid()
      modifies this
      ensures Valid()
      ensures elements == old(elements)
        + [IconOf("far", "fa-trash-alt", Some("Delete"))]
        + [Spacer]
        + [IconOf("fas", "fa-undo", Some("Undo"))]
        + [IconOf("fas", "fa-redo", Some("Redo"))]
        + [Spacer]
        + [IconOf("fas", "fa-save", Some("Save changes"))]
      ensures |tools| == |old(tools)| + 4
      ensures currentMap == old(currentMap) && calls == old(calls)
      ensures old(Pristine()) ==> Pristine()
    {
      AddStyledTool("far", "fa-trash-alt", Some("Delete"), None);
      AddSpacer();
      AddStyledTool("fas", "fa-undo", Some("Undo"), None);
      AddStyledTool("fas", "fa-redo", Some("Redo"), None);
      AddSpacer();
      AddStyledTool("fas", "fa-save", Some("Save changes"), None);
    }

    /** `addSpacer`: appends one spacer and no tool. */
    method AddSpacer()
      requires Valid()
      modifies this
      ensures Valid()
      ensures elements == old(elements) + [Spacer]
      ensures tools == old(tools) && currentMap == old(currentMap) && calls == old(calls)
      ensures old(Pristine()) ==> Pristine()
    {
      IconsAppend(elements, [Spacer]);
      elements := elements + [Spacer];
    }

    /** `addStyledTool`: appends exactly one new tool, and its icon, at the end. */
    method AddStyledTool(style: string, name: string, tooltip: Option<string>, action: Option<Action>)
      requires Valid()
      modifies this
      ensures Valid()
      ensures |tools| == |old(tools)| + 1 && tools[..|old(tools)|] == old(tools)
      ensures var t := tools[|old(tools)|];
        fresh(t) && t.action == action && t.element == IconOf(style, name, tooltip) && !t.selected
      ensures elements == old(elements) + [IconOf(style, name, tooltip)]
      ensures currentMap == old(currentMap) && calls == old(calls)
      ensures old(Pristine()) && action.None? ==> Pristine()
    {
      var t := new Tool(this, style, name, tooltip, action);
      IconsAppend(elements, [t.element]);
      elements := elements + [t.element];
      tools := tools + [t];
    }

    method SetMap(m: Option<MapToken>)
      modifies this
      ensures currentMap == m
      ensures tools == old(tools) && elements == old(elements) && calls == old(calls)
    {
      currentMap := m;
    }

    /** `toolClicked(tool)`: every other tool loses its highlight; a tool
        without an action ends up the only highlighted one, while a tool with
        an action has it called once with the current map and ends up
        unhighlighted too. */
    method ToolClicked(tool: Tool)
      requires Valid()
      modifies this, tools, tool
      ensures Valid()
      ensures tools == old(tools) && elements == old(elements) && currentMap == old(currentMap)
      ensures forall t :: t in tools && t != tool ==> !t.selected
      ensures tool.action.Some? ==> !tool.selected && calls == old(calls) + [Call(tool.action.value, currentMap)]
      ensures tool.action.None? ==> (calls == old(calls)
        && tool.selected == (tool in tools || old(tool.selected)))
    {
      for i := 0 to |tools|
        invariant Valid() && tools == old(tools) && elements == old(elements)
        invariant currentMap == old(currentMap) && calls == old(calls)
        invariant forall k :: 0 <= k < i ==> tools[k].selected == (tools[k] == tool)
        invariant tool !in tools[..i] ==> tool.selected == old(tool.selected)
      {
        tools[i].Highlight(tools[i] == tool);
      }
      if tool.action.Some? {
        calls := calls + [Call(tool.action.value, currentMap)];
        tool.Highlight(false);
      }
    }
  }
}
