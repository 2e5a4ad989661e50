# flatmap-ol-viewer, modelled in Dafny

This project models the parts of the flatmap viewer that hold real logic. The
rest of the viewer is glue over OpenLayers, PIL, rdflib and networkx.

- **Layer stack** (`layers.dfy`). The `LayerManager` keeps two collections of
  library layers, one of tile layers and one of feature layers, and they stay
  index-aligned. `lower` and `raise` swap a layer with its neighbour in both
  collections at once.
- **Message passing** (`messages.dfy`). Clients are kept in a map that
  remembers insertion order. `connect` is idempotent and `disconnect` removes
  a client. `broadcast` delivers to every client except the sender, in order.
  `send` builds a fixed envelope.
- **UI state machines**:
  - the editing toolbar (`toolbar.dfy`);
  - the feature context menu (`menus.dfy`);
  - the layer switcher's panel, shown state and active layer
    (`layerswitcher.dfy`);
  - hover highlighting and the tooltip (`viewer.dfy`).
- **Tile-grid arithmetic** (`tiling.dfy`, `flatmap.dfy`, `staticflatmap.dfy`,
  `tilemaker.dfy`, `tilepyramid.dfy`):
  - the zoom-level count of the two map viewers;
  - their 22-entry resolution table;
  - the layers and controls each viewer adds;
  - tile counts, padded size and full zoom in the two tile makers;
  - the level, column and row loops of the Python tile pyramid, with each
    tile's crop box and file path.
- **Converters**:
  - the vector-tile to GeoJSON `replacer` and `pointFeature`
    (`controls.dfy`); GeoJSON is section 3.1 of RFC 7946;
  - the annotation form generator `htmlFields` (`annotation.dfy`);
  - the FMA triple filter of `sparc2rdf.py` (`sparc2rdf.dfy`);
  - the graph builder of `sparc2layers.py` (`sparc2layers.dfy`).

Support modules:

- `wrappers.dfy`: `Option` and `Result`.
- `text.dfy`: joining and splitting on a character, and decimal rendering with
  its parser, the way template literals and `str()` build text.
- `openlayers.dfy`: the library layer object (title, visibility, source) and
  the tile URL functions.

### Modelling conventions

- Library objects (layers, features, callbacks, maps) are opaque tokens or
  small classes with the fields the repository's code reads and writes.
- Invoking a callback appends an entry to a trace field. The trace stands for
  console output, delivered messages, called actions and written tiles.
- Hit tests at a pixel (`forEachFeatureAtPixel`) are input sequences, in the
  order the map reports them.
- URLs are the relative paths built before `utils.absoluteUrl` is applied.
- `Math.log2` and `math.log` become an exact integer ceiling of log2.
  log2(0), which is minus infinity in JavaScript and a domain error in Python,
  becomes `None`.
- Map sizes are whole pixel counts. The JavaScript zoom loop halves a real
  number, which is exact here.

## Model

| member | source | states |
|---|---|---|
| Layers.IndexOf | src/layers.js:150-151 | the linear search finds the first position holding the layer, or the length when the layer is absent |
| Layers.RemoveInsertLower | src/layers.js:153-156 | removing the entry at i and inserting it at i-1 is the swap of positions i-1 and i |
| Layers.RemoveInsertRaise | src/layers.js:171-174 | removing the entry at i and inserting it at i+1 is the swap of positions i and i+1 |
| Layers.LoweredAt | src/layers.js:146-162 | lowering moves exactly two entries, each by one place; every other position is unchanged |
| Layers.LoweredKeepsPairs | src/layers.js:150-161 | lowering permutes a collection, and the same swap on both collections keeps their multiset of (feature, tile) pairs |
| Layers.RaisedKeepsPairs | src/layers.js:168-179 | raising permutes a collection and keeps the multiset of (feature, tile) pairs |
| Layers.LowerThenRaise | src/layers.js:146-180 | after lowering, the layer is found one place lower, and raising it from there restores the collection |
| Layers.LowerRaiseRoundTrip | src/layers.js:146-180 | lowering a layer and then raising it restores both the feature and the tile collection |
| Layers.TileUrlShape | src/layers.js:133-137 | the tile URL splits into map id, "tiles", source and three numbers; the third is -c2-1 and maps back to c2 |
| Layers.FeatureUrlShape | src/layers.js:139-144 | the feature URL is null exactly for a null source; otherwise it splits into map id, "features" and source |
| Layers.Layer.constructor | src/layers.js:47-53 | a new layer keeps its title and sub-layers and starts visible |
| Layers.Layer.SetVisible | src/layers.js:67-77 | the flag becomes v, and v is forwarded to each sub-layer that is present |
| Layers.LayerManager.constructor | src/layers.js:84-96 | the manager starts with no layers and two empty collections |
| Layers.LayerManager.AddLayer | src/layers.js:98-125 | exactly one new entry at the end of the layer list and of each collection; alignment is kept; the tile URL exists only for a truthy source |
| Layers.LayerManager.Lower | src/layers.js:146-162 | both collections become the swap of i-1 and i, where i is the layer's index; for index 0 or an absent layer nothing changes; alignment is kept |
| Layers.LayerManager.Raise | src/layers.js:164-180 | both collections become the swap of i and i+1; for the top layer or an absent layer nothing changes; alignment is kept |
| Layers.LayerManager.MoveDown | src/layers.js:152-158 | the remove and insert at a found index i > 0, applied to both collections, keep the manager valid |
| Layers.LayerManager.MoveUp | src/layers.js:170-176 | the remove and insert at a found index below the top, applied to both collections, keep the manager valid |
| Messages.Recipients | src/messages.js:48-52 | the recipients are exactly the registered ids other than the sender, and there are no more of them than registered clients |
| Messages.RecipientsOnce | src/messages.js:46-53 | each registered id other than the sender receives the message exactly once; the sender never does |
| Messages.UnregisteredSenderReachesAll | src/messages.js:48-52 | a sender that is not registered reaches every registered client, in order |
| Messages.KindOf | src/messages.js:81 | the type is the resource's type when truthy, and '' otherwise |
| Messages.MakeEnvelope | src/messages.js:76-85 | the envelope carries the sender id, the resource id, the type or '', the action, and the data (default '') |
| Messages.MessageManager.constructor | src/messages.js:27-31 | a new manager has no clients |
| Messages.MessageManager.Connect | src/messages.js:33-39 | a new id registers a new client with that id and callback, at the end of the order; a known id returns the registered client and keeps its callback |
| Messages.MessageManager.Disconnect | src/messages.js:41-44 | the id is removed and the order of the others is kept; an absent id changes nothing |
| Messages.MessageManager.Broadcast | src/messages.js:46-53 | one delivery to each registered client except the sender, in registration order, with that client's callback |
| Messages.MessageClient.constructor | src/messages.js:65-70 | a client keeps its id, callback and manager |
| Messages.MessageClient.Send | src/messages.js:76-85 | broadcasts the envelope from the client's own id |
| LayerSwitcher.EntryIdInjective | src/layerswitcher.js:216 | the per-entry id `<prefix>-<i>` determines i |
| LayerSwitcher.LabelIdInjective | src/layerswitcher.js:161 | the label id `<id>-label` determines the entry id |
| LayerSwitcher.Reverse | src/layerswitcher.js:212 | position k of the copy holds position n-1-k of the layer list |
| LayerSwitcher.EntriesFromCharacterised | src/layerswitcher.js:213-218 | an entry is produced exactly for a titled layer at position k, with id `<prefix>-k` |
| LayerSwitcher.RenderedEntriesCharacterised | src/layerswitcher.js:211-219 | the panel lists the manager's layers newest first, skips untitled ones, and the id suffix is the index in the reversed list |
| LayerSwitcher.EntryIdsDistinct | src/layerswitcher.js:213-218 | two entries at different places in the panel have different ids |
| LayerSwitcher.RenderedIdsUnique | src/layerswitcher.js:211-219 | no two rendered entries share an id |
| LayerSwitcher.RenderLayers | src/layerswitcher.js:153-219 | the loop builds exactly the reference entries; each checkbox shows its layer's visibility; the highlighted labels are exactly the active layer's |
| LayerSwitcher.PreOrderSize | src/layerswitcher.js:228-235 | the walk calls `fn` once for every layer of the tree |
| LayerSwitcher.ParentBeforeChildren | src/layerswitcher.js:228-235 | a group's own call is followed at once by the calls for everything below it (pre-order) |
| LayerSwitcher.ForEachRecursive | src/layerswitcher.js:228-235 | the calls made, in order, are the pre-order walk of the group's children, each with its index among its siblings |
| LayerSwitcher.FirstLabel | src/layerswitcher.js:278 | a label is found exactly when some panel entry belongs to the layer, and it is that entry's label |
| LayerSwitcher.Switcher.constructor | src/layerswitcher.js:19-68 | the control starts hidden, with no listeners, no entries and 'active-layer' undefined |
| LayerSwitcher.Switcher.RenderPanel | src/layerswitcher.js:123-132 | the panel becomes the rendered entries of the manager's layers; ids are unique; only the active layer's label is highlighted; labels are clickable once 'active-layer' is defined |
| LayerSwitcher.Switcher.SetMap | src/layerswitcher.js:74-89 | every earlier listener is removed; for a map, exactly one new listener and one redraw that gives the panel exactly as renderPanel does; for no map, no listener and the panel, checkboxes, highlights and clickability are untouched |
| LayerSwitcher.Switcher.ShowPanel | src/layerswitcher.js:94-99 | the panel ends up shown; it is redrawn, as renderPanel does, only if it was hidden; on a shown panel every field stays as it was, so a second call changes nothing |
| LayerSwitcher.Switcher.HidePanel | src/layerswitcher.js:104-109 | the panel is hidden unless an active layer is set; every other field stays as it was |
| LayerSwitcher.Switcher.FindLabel | src/layerswitcher.js:278 | the label lookup succeeds exactly when the layer has an entry in the panel |
| LayerSwitcher.Switcher.RemoveActiveHighlight | src/layerswitcher.js:274-285 | with an active layer whose label is found: unhighlights it, sets 'active-layer' to null and returns the label; otherwise returns null and changes nothing |
| LayerSwitcher.Switcher.ToggleActive | src/layerswitcher.js:295-311 | clicking the active layer's label removes its highlight, leaves no active layer and answers false; any other label replaces the previous active label in the highlighted set, its layer becomes active, and the answer is its checkbox; the panel and the listeners are untouched |
| LayerSwitcher.Switcher.CheckboxChanged | src/layerswitcher.js:168-174 | the checkbox, the layer and its sub-layers take the new state; unchecking the active layer clears 'active-layer' and removes exactly its label from the highlighted set; otherwise the highlights and 'active-layer' stay; the panel and the listeners are untouched |
| Toolbar.DefaultLayoutTools | src/toolbar.js:86-98 | the icons of the default row are the nine default tools, in order |
| Toolbar.DefaultIconsTitled | src/toolbar.js:86-98 | there are nine default tools, and each icon carries its tooltip as its title |
| Toolbar.DefaultLayoutSpacers | src/toolbar.js:86-98 | the default row holds four spacers |
| Toolbar.Tool.constructor | src/toolbar.js:30-38 | a tool keeps its action and toolbar; its icon has the style, the name and the title of a truthy tooltip; it starts unselected |
| Toolbar.Tool.Highlight | src/toolbar.js:55-62 | the selected flag becomes the argument whatever it was, so repeating a call changes nothing |
| Toolbar.Tool.Clicked | src/toolbar.js:50-53 | a click is `toolClicked` on this tool: every other tool is unselected, this one stays selected only without an action, and an action is called once |
| Toolbar.Bar.constructor | src/toolbar.js:80-99 | the nine default tools in order, with four spacers between them; no tool has an action and none is selected |
| Toolbar.Bar.AddDrawingTools | src/toolbar.js:88-91 | appends the four drawing tools, in order, with no spacer |
| Toolbar.Bar.AddEditingTools | src/toolbar.js:93-98 | appends Delete, Undo, Redo and Save changes, with their spacers |
| Toolbar.Bar.AddSpacer | src/toolbar.js:106-111 | appends one spacer and no tool |
| Toolbar.Bar.AddStyledTool | src/toolbar.js:113-118 | appends exactly one new tool at the end of the list, and its icon at the end of the row |
| Toolbar.Bar.SetMap | src/toolbar.js:120-123 | records the map and changes nothing else |
| Toolbar.Bar.ToolClicked | src/toolbar.js:125-134 | every other tool is unselected; without an action the tool is the only selected one; with one, the action is called once with the current map and then no tool is selected |
| Menus.QueryItemIff | src/menus.js:70-75 | a "Query <type>" item is present exactly when the feature has a truthy id and type, and it comes first |
| Menus.AnnotateItemIff | src/menus.js:76-84 | an "Annotate" item is present exactly when annotation is on, and it comes last |
| Menus.SeparatorBetween | src/menus.js:77-79 | the separator appears exactly when both items do, and then sits between them |
| Menus.MenuItemsEmptyIff | src/menus.js:68-91 | there are no items exactly when the feature is not queryable and annotation is off; there are at most three |
| Menus.FirstHit | src/menus.js:46 | the feature under the cursor is the first one hit, or none |
| Menus.PopupMenu.constructor | src/menus.js:34-57 | the menu starts closed and enabled, with no items, no position and no current feature |
| Menus.PopupMenu.Active | src/menus.js:59-63 | the getter answers whether the menu is open |
| Menus.PopupMenu.SetupMenu | src/menus.js:65-96 | answers true exactly for a feature with at least one item; then the menu holds exactly those items, is enabled and remembers the feature; otherwise it is disabled, forgets the feature and answers false |
| Menus.PopupMenu.BeforeOpen | src/menus.js:45-54 | the menu is set up for the first feature hit at the pixel |
| Menus.PopupMenu.ContextClick | src/menus.js:45-54 | a right-click sets the menu up for the first hit: with items, the menu holds them, remembers the hit, is enabled and opens at the pixel; without, it keeps its items and position, forgets its feature and stays as open as it was; nothing is invoked |
| Menus.PopupMenu.Close | src/menus.js:110-117 | an open menu closes and forgets its feature; a closed one is left alone; items, enabled flag, position and invocations never change |
| Menus.PopupMenu.Update | src/menus.js:119-126 | an open menu is set up again for the feature and moved to the pixel, keeping its items when the new setup finds none; a closed one is left alone |
| Menus.PopupMenu.QueryChosen | src/menus.js:104-108 | the query item broadcasts the current feature with the action 'query'; the menu's state is unchanged |
| Menus.PopupMenu.AnnotateChosen | src/menus.js:98-102 | the annotate item hands the current feature to the annotator; the menu's state is unchanged |
| Viewer.NextTooltip | src/viewer.js:100-111 | the tooltip is shown exactly when a feature is hit and its id is truthy; the content is that id, placed at the cursor |
| Viewer.Viewer.constructor | src/viewer.js:47-70 | a new viewer is disabled, has no highlighted features, and its tooltip is hidden |
| Viewer.Viewer.ClearStyle | src/viewer.js:85-92 | every highlighted feature loses its style and the list becomes empty |
| Viewer.Viewer.Disable | src/viewer.js:72-77 | clears the highlights and the enabled flag |
| Viewer.Viewer.Enable | src/viewer.js:79-83 | sets the enabled flag and leaves the highlighted list untouched |
| Viewer.Viewer.PointerMove | src/viewer.js:94-120 | the tooltip follows the first hit; when enabled, the highlighted list becomes exactly the hits, in hit order, with the viewing style, and earlier highlights lose theirs; when disabled, the list and the styles are unchanged |
| Tiling.Max | src/flatmap.js:88 | the larger of the two sides |
| Tiling.MaxZoom | src/flatmap.js:87-94 | the halving count is the least z with maxDim < 256·2^z; so it is 0 below one tile, and otherwise 256·2^(z-1) <= maxDim |
| Tiling.MaxZoomZeroIff | src/flatmap.js:90-94 | the zoom count is 0 exactly when the map is smaller than one tile |
| Tiling.MaxZoomUnique | src/flatmap.js:90-94 | the characterisation determines the zoom count |
| Tiling.Resolutions | src/flatmap.js:96-100 | exactly 22 entries, entry i being 2^maxZoom / 2^i |
| Tiling.ResolutionHalves | src/flatmap.js:98-100 | each resolution is twice the next one |
| Tiling.ResolutionAtOrBelowMaxZoom | src/flatmap.js:96-99 | up to index maxZoom the resolution is the whole power 2^(maxZoom-i), and 1 at maxZoom |
| Tiling.MapExtent | src/flatmap.js:102 | the extent starts at the origin and spans the width and the height |
| Tiling.Centre | src/flatmap.js:119-120 | the view centre is the midpoint of the extent |
| Tiling.CeilDiv | scripts/tilemaker.js:41-42 | the ceiling division is the least count of 256-pixel tiles covering the side; it is 0 only for an empty side |
| Tiling.CeilDivUnique | scripts/tilemaker.js:41-42 | any count that covers with less than one tile to spare is the ceiling division |
| Tiling.CeilLog2 | scripts/tilemaker.js:46 | 2^k reaches n, and 2^(k-1) does not |
| Tiling.CeilLog2Least | scripts/tilemaker.js:46 | the ceiling of log2 is the least exponent whose power of two reaches n |
| Tiling.FullZoom | scripts/tilemaker.js:46 | no value (minus infinity) exactly for zero tiles; otherwise the ceiling of log2 of the tile count |
| Tiling.CeilDivHalved | scripts/tilemaker.py:104 | halving a tile count with rounding up equals dividing the side by twice the tile size, rounding up |
| FlatMap.RasterUrlShape | src/flatmap.js:236-245 | the raster tile URL splits into map id, "tiles", source and the three coordinates, unchanged and in order |
| FlatMap.FeatureCountBounds | src/flatmap.js:231-264 | every feature layer comes with its own top-level entry, and no configured layer adds more than one entry |
| FlatMap.FlatMapView.constructor | src/flatmap.js:85-221 | sets the zoom count, resolutions, extent, centre and target; then the grid (visible exactly without a layer switcher), the k-th configured entry shaped by the k-th configured layer with a source, the feature layers in the order of the configured layers with a feature source, the 'Features' layer (active, last), and the switcher and overview controls |
| FlatMap.FlatMapView.AddLayers | src/flatmap.js:164-196 | the debug grid, then one entry per configured layer with a source, in order and each with its shape, then the 'Features' layer; its URL is `<id>/features/` exactly when the `features` option is truthy; it becomes the active feature layer |
| FlatMap.FlatMapView.AddControls | src/flatmap.js:198-219 | the layer switcher, then the overview map with zoom 3, each only when its option is set |
| FlatMap.FlatMapView.AddConfiguredLayers | src/flatmap.js:180-184 | one `addNewLayer` per configured layer, in order: the k-th new entry has the shape the k-th configured layer with a source calls for, and the k-th new feature layer the title and URL of the k-th one with a feature source; earlier layers are untouched |
| FlatMap.FlatMapView.ActiveFeatureLayer | src/flatmap.js:223-229 | undefined for a negative index (or one outside the list); otherwise the feature layer at the index |
| FlatMap.FlatMapView.NewFeatureLayer | src/flatmap.js:273-286 | exactly one new vector layer, appended to the feature layers; its URL is undefined exactly when no source is given |
| FlatMap.FlatMapView.AddNewLayer | src/flatmap.js:231-264 | with both sources, one group [features, tiles] with sub-titles 'features' and 'image'; with one source, that layer; with neither, nothing; only a feature source adds a feature layer |
| StaticFlatMap.StaticTileUrlShape | static/scripts/flatmap.js:141-142 | the URL starts with `./tiles/<source>/` and carries the three coordinates in their given order |
| StaticFlatMap.StaticMap.constructor | static/scripts/flatmap.js:40-133 | same zoom count, resolutions, extent and centre as the main viewer; the grid, visible exactly without a layer switcher; one tile layer per configured entry, in order; then the controls |
| StaticFlatMap.StaticMap.AddImageTileLayers | static/scripts/flatmap.js:107-109 | one tile layer per entry, in order, after the existing layers |
| StaticFlatMap.StaticMap.AddImageTileLayer | static/scripts/flatmap.js:135-145 | appends one new visible tile layer with the entry's title and tile path |
| OpenLayers.TileUrlDecodes | src/flatmap.js:241-242 | a tile URL splits back into its fixed segments, and the three numbers parse back to the coordinate |
| Text.SplitJoin | src/annotation.js:149 | splitting a join on its separator gives the parts back when no part holds the separator |
| Text.IntRoundTrip | src/layers.js:136 | the decimal text of an integer parses back to it |
| Text.ParseNatToString | scripts/tilemaker.py:112 | `str(n)` of a natural parses back to n |
| TileMaker.TiledSizeBounds | scripts/tilemaker.js:43-44 | the padded size is a multiple of 256 covering the size with less than one tile to spare; the tile count is 0 only for an empty side |
| TileMaker.FullZoomCovers | scripts/tilemaker.js:45-46 | with at least one tile, 256·2^fullZoom covers both sides, and one halving fewer does not cover the larger one |
| TileMaker.Maker.constructor | scripts/tilemaker.js:37-48 | the tile counts, padded size and full zoom come from the map size |
| TileMaker.Maker.Tile | scripts/tilemaker.js:50-53 | `tile` logs the layer's id and does nothing else |
| TileMaker.Maker.TileAll | scripts/tilemaker.js:81-83 | `tile` runs once per layer, in specification order |
| TilePyramid.CropBoxesDisjoint | scripts/tilemaker.py:107-111 | the crop boxes of two different tiles of a level do not overlap |
| TilePyramid.CropBoxesCover | scripts/tilemaker.py:107-111 | the crop boxes of the grid cover its bottom-left region; y = 0 is the bottom row |
| TilePyramid.TileNameDecodes | scripts/tilemaker.py:112 | a tile's path splits back into the directory, the layer, z, x and `<y>.png` |
| TilePyramid.TileNameInjective | scripts/tilemaker.py:112 | different tiles of one layer go to different files |
| TilePyramid.TileSaved | scripts/tilemaker.py:117-122 | a tile is written exactly when it is non-empty, with its own path and crop box |
| TilePyramid.ColumnSaved | scripts/tilemaker.py:110-123 | a column writes exactly its non-empty tiles below the row count, each with its path and crop box |
| TilePyramid.LevelSaved | scripts/tilemaker.py:108-124 | a level writes exactly its non-empty tiles within the grid, each with its path and crop box |
| TilePyramid.PyramidLevelOrder | scripts/tilemaker.py:101-102 | the levels are processed from the top one down to 0, each exactly once |
| TilePyramid.PyramidLevelShape | scripts/tilemaker.py:101-126 | level z has the top grid divided by 2^(top-z), rounding up, and the image divided by it, rounding down |
| TilePyramid.BottomLevelIsOneTile | scripts/tilemaker.py:101-126 | with the full zoom as the top level, level 0 is a single tile |
| TilePyramid.DefaultOffsetBounds | scripts/tilemaker.py:90-93 | the default paste offset is [0, tiled height - map height], a drop of less than one tile |
| TilePyramid.PyramidMaker.constructor | scripts/tilemaker.py:67-78 | the tile counts, padded image size and full zoom come from the map bounds |
| TilePyramid.PyramidMaker.MakeTiles | scripts/tilemaker.py:81-126 | the image is placed at the given or the default offset, and then every level of the pyramid runs, from the full zoom down to 0 |
| TilePyramid.PyramidMaker.TileLevels | scripts/tilemaker.py:101-126 | the level loop produces the pyramid: z counts down, and the grid (rounding up) and the image (rounding down) are halved after each level |
| TilePyramid.PyramidMaker.TileLevel | scripts/tilemaker.py:107-124 | the columns are processed left to right, `left` advancing by one tile |
| TilePyramid.PyramidMaker.TileColumn | scripts/tilemaker.py:109-123 | the rows are processed bottom to top; a non-empty tile is written and pasted at (left//2, (lower-256)//2) |
| Controls.Replacer | controls.js:210-248 | fails exactly for a null or undefined value, where reading `geometry` throws |
| Controls.NoGeometryUnchanged | controls.js:245-247 | a value without a truthy `geometry` comes back unchanged |
| Controls.ConvertedIsFeature | controls.js:237-243 | a converted value is a Feature whose geometry has a type and coordinates, and whose properties are the tags |
| Controls.ReplacerRoundTrip | controls.js:217-235 | for type codes 1, 2 and 3, the type code and the raw geometry array can be read back from the result, so no coordinate is lost |
| Controls.MultiPartIff | controls.js:217-235 | the geometry name matches the type code; it is a multi-part type exactly when the array does not have one element (codes 1, 2) or has more than one ring (code 3) |
| Controls.ObjectGeometryByLength | controls.js:217-235 | an object geometry is read through its own `length` and `"0"` fields: length 1 gives a single point or line of its `"0"` field, and a polygon becomes multi-part exactly for a numeric length above 1 |
| Controls.PointFeature | controls.js:105-117 | a Feature whose `properties.name` is the name |
| Controls.PointFeatureIsReplacedPoint | controls.js:105-117 | a point feature is what the replacer makes of a one-point feature with type code 1 tagged with the name |
| Annotation.HtmlFields | src/annotation.js:126-150 | the output is the blocks of all properties, joined with newlines; it does not depend on the feature |
| Annotation.PushBlock | src/annotation.js:130-146 | one property's block is appended to the lines |
| Annotation.PushOptions | src/annotation.js:134-136 | one option line per value, in order |
| Annotation.FieldLinesAppend | src/annotation.js:129-147 | the lines of a list of properties are each property's block, in order |
| Annotation.BlockShape | src/annotation.js:130-146 | a block opens with `<div>` and the label naming the property and the prompt, and closes with `</div>` |
| Annotation.ValuesTakePrecedence | src/annotation.js:132-145 | with values present, the value type plays no part |
| Annotation.OptionLinesAt | src/annotation.js:134-136 | option line i holds value i |
| Annotation.AllOptions | src/annotation.js:134-136 | a list of values gives exactly one option line per value |
| Annotation.BlockOptions | src/annotation.js:132-145 | a block has one option per value when values are present, exactly two for a boolean property, and none otherwise, where it is a single text input |
| Annotation.ControlOptions | src/annotation.js:132-145 | the lines between the label and `</div>` hold the same option counts |
| Annotation.OptionValuesRoundTrip | src/annotation.js:135 | the `value` attribute read back from each option line is the value, in order |
| Annotation.HtmlLinesRoundTrip | src/annotation.js:149 | splitting the output at its newlines gives the generated lines back, when no description holds a newline |
| Sparc2Rdf.Process | sparc-data/sparc2rdf.py:18-32 | the graph is the label triples of the FMA nodes plus the triples of the kept edges |
| Sparc2Rdf.AddNodes | sparc-data/sparc2rdf.py:22-26 | the dictionary holds exactly the FMA node ids, each mapped to its subject IRI; the graph holds their label triples |
| Sparc2Rdf.AddEdges | sparc-data/sparc2rdf.py:27-31 | adds exactly the triples of the edges whose ends are FMA nodes and whose predicate starts with `fma:` |
| Sparc2Rdf.SubjectsAreFmaNodes | sparc-data/sparc2rdf.py:18-32 | every subject in the graph is an FMA node of the input |
| Sparc2Rdf.LabelTripleIff | sparc-data/sparc2rdf.py:22-26 | a label triple is in the graph exactly when an FMA node carries that id and label |
| Sparc2Rdf.EdgeTripleIff | sparc-data/sparc2rdf.py:27-31 | an edge triple is in the graph exactly when an input edge joins the two FMA nodes with `fma:` followed by that predicate |
| Sparc2Rdf.GraphShape | sparc-data/sparc2rdf.py:18-32 | every triple is a label triple (literal value) or a kept edge's triple (IRI value), and nothing else |
| Sparc2Rdf.FmaPredicateIsNotLabel | sparc-data/sparc2rdf.py:31 | a predicate in the FMA namespace is never `rdfs:label` |
| Sparc2Layers.Process | sparc-data/sparc2layers.py:14-24 | as written: the graph built from the dictionary of 0-based positions, or the key error of the first edge naming an unknown id |
| Sparc2Layers.ProcessCorrected | sparc-data/sparc2layers.py:14-24 | the same with the dictionary storing the graph key, position + 1 |
| Sparc2Layers.AddEdgesInOrder | sparc-data/sparc2layers.py:21-23 | the edge loop in order; the first failing lookup ends it |
| Sparc2Layers.ErrPersists | sparc-data/sparc2layers.py:21-22 | once a lookup has failed, the later edges change nothing |
| Sparc2Layers.IdIndexLastWins | sparc-data/sparc2layers.py:17-18 | the dictionary holds exactly the ids of the nodes, and a later duplicate overwrites an earlier one |
| Sparc2Layers.NodeTableNumbering | sparc-data/sparc2layers.py:17-19 | the node keys are exactly 1 to n, and key k+1 holds the k-th node's id and label |
| Sparc2Layers.NodesNumberedFromOne | sparc-data/sparc2layers.py:16-19 | in the result, the k-th input node is graph node k+1 with its id and label |
| Sparc2Layers.AddEdgesErrIff | sparc-data/sparc2layers.py:22 | the edge loop fails exactly when some edge names an id missing from the dictionary, and the error names a missing id |
| Sparc2Layers.AddEdgesNodes | sparc-data/sparc2layers.py:21-22 | the edge loop keeps every node with its attributes, and adds the missing ends of its edges without attributes |
| Sparc2Layers.AddEdgesPairs | sparc-data/sparc2layers.py:21-22 | the graph's edges are exactly the (object, subject) pairs of the input edges, reversed |
| Sparc2Layers.AddEdgesParts | sparc-data/sparc2layers.py:21-22 | an edge's `part` is the predicate of the last input edge on that pair |
| Sparc2Layers.AsWrittenMisplacesEdge | sparc-data/sparc2layers.py:18-22 | for nodes A, B and an edge with subject B and object A, the edge joins a node 0 without attributes to node 1 (named A) |
| Sparc2Layers.CorrectedEndsNamed | sparc-data/sparc2layers.py:14-24 | with the graph key stored, every edge joins the graph nodes named by its object and subject, and every node has attributes |
| Sparc2Layers.CorrectedJoinsNamedNodes | sparc-data/sparc2layers.py:14-24 | on the same input, the corrected build joins A's graph node to B's |

## Left out

- Rendering, projections, tile loading, styles, overlays and the DOM are the
  mapping library's and the browser's work. They are reduced to the fields
  these modules read and write: titles, visibility, sources, ids, class flags.
- `utils.absoluteUrl`: its source is not part of this model. URLs are the
  relative paths before it is applied.
- `src/editor.js`, `src/sources.js`, `src/styles.js` and `index.js` are not
  part of this model.
- The editable path of the `FlatMap` constructor (`new Editor`,
  `toolbar.setEditor`) is not modelled. `src/toolbar.js` defines no
  `setEditor`, so the call at src/flatmap.js:161 would throw. Only the
  resulting `target` id is kept.
- `demoTopoJSON_` in src/flatmap.js is not called anywhere and is not
  modelled.
- `Annotator.annotate` in src/annotation.js (a jsPanel modal and its focus
  handling) and the constant property lists it passes to `htmlFields` are not
  modelled. `htmlFields` is modelled for any property list.
- HTML text is not escaped by `htmlFields`. The model substitutes values as
  they are. The round-trip lemmas assume that no description holds a
  newline or a double quote.
- In controls.js, the DOM, overlay, popup and context-menu wiring and
  `normaliseCoordinates` (floating point) are not modelled. JavaScript
  numbers are exact reals, and NaN is not modelled.
- The PIL image work in scripts/tilemaker.py (resize, paste, crop pixels,
  `save`, directory creation) is not modelled. Whether a tile is non-empty
  (`getbbox`) is an input predicate. The commented-out `zoom_range` filter and
  the `scale` resize argument of `make_tiles` are not modelled.
- `TilePyramid.PyramidMaker.MakeTiles` requires a full zoom to exist. For an
  empty map the Python constructor already fails with a math domain error.
- Float `Math.log2` and `math.log` are exact integer ceilings of log2 here.
  Rounding error in the float logarithm is not modelled.
- TilePyramid.TileName: a plain join on '/'. The `os.path.join` rules for an
  empty part, a trailing '/' and an absolute layer name are not modelled. The
  script's only call passes 'tiles' and 'head', where the two agree.
- The console message of the `MessageManager_` constructor
  (src/messages.js:30) is not modelled. The manager's trace holds deliveries
  only.
- `fs`, argv and `process.exit` in scripts/tilemaker.js, and the script
  entry points of the Python files, are not modelled.
- rdflib namespace binding and Turtle serialisation, networkx's JSON export
  and the order networkx keeps nodes and edges in are not modelled. A graph
  is a set of triples, or maps of nodes and edges.
- The JSON input of the sparc scripts is taken to have the keys they read.
  The only `KeyError` modelled is the edge lookup in sparc2layers.py.
- The layer object of src/layers.js defines no `setId` or `id`, yet
  src/layerswitcher.js:158, :278 and :300 use them. As written, `lyr.setId`
  at :158 throws a TypeError at the first titled layer, so `renderPanel`, and
  with it `setMap` and `showPanel`, never completes; and `lyr.id` at :300 is
  undefined, so reading `checkbox.checked` in `toggleActive_` would throw.
  The model renders the intended behaviour: it keeps the ids the switcher
  assigns in its own entries and looks the checkbox up by them.
- `Controls.Replacer`: the `length` of a string is its number of characters,
  not of UTF-16 code units, so a string geometry holding characters outside
  the Basic Multilingual Plane is measured differently. A `length` field that
  is itself a string, array or object is not coerced to a number: it is taken
  as neither 1 nor above 1.
- The switcher's touch scrolling and touch-device detection are not modelled.
- `LayerSwitcher.Switcher.active`: the map's 'active-layer' property is a field
  of the switcher, so it models the property of one map only. A `SetMap` to
  another map keeps the previous map's value. No caller among the modelled
  sources constructs this switcher (src/flatmap.js:201 builds the one of the
  `ol-layerswitcher` package), so the model assumes it stays attached to one
  map.
- `Menus.PopupMenu.ContextClick`: the opening of the menu is the behaviour of
  the ol-contextmenu library, whose source is not part of this model. It is
  taken as opening at the pixel exactly when the menu is enabled.
- The getters that return a field (`title`, `visible`, `layers`, `action`,
  `domElement`) are the fields themselves.
- The source's single functions and loops are sometimes split into helper
  methods so that each verifies on its own. They combine to the same
  behaviour:
  - the level, column and row loops of `make_tiles`;
  - `PushBlock` and `PushOptions` in `htmlFields`;
  - `AddDrawingTools` and `AddEditingTools` in the toolbar constructor;
  - `AddLayers`, `AddControls` and `AddConfiguredLayers` in the `FlatMap`
    constructor;
  - `MoveDown` and `MoveUp` in `lower` and `raise`;
  - `RenderLayers` in `renderPanel`;
  - `AddNodes` and `AddEdges` in sparc2rdf's `process`.
- Nothing runs concurrently in the source. Callbacks are plain invocations
  recorded in a trace.

## Findings

| source | as written | input that shows it | evidently intended | confidence | as-written member | corrected member |
|---|---|---|---|---|---|---|
| sparc-data/sparc2layers.py:18-22 | the `nodes` dictionary stores the 0-based position `n`, while the graph node is added under `n+1`; edges are then added between positions, not graph keys | nodes A and B and one edge with subject B and object A: the edge lands on (0, 1), where node 0 has no attributes and node 1 is A; nothing joins A (1) and B (2) | the dictionary stores `n+1`, so that each edge joins the graph nodes named by its object and subject | not executed | Sparc2Layers.AsWrittenMisplacesEdge | Sparc2Layers.CorrectedEndsNamed |
