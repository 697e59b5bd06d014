# munimap map viewer: a Dafny model of its layer state and configuration pipeline

This project models the core logic of the munimap web map viewer. The viewer has two parts.

- A Svelte/TypeScript client holds the map layers, their visibility and opacity, and the stores behind its side panels.
- A Flask/Python backend turns YAML layer configurations into the layer definitions the client loads, and builds print requests for MapFish Print.

Everything is written as immutable datatypes and pure functions. Each store method becomes a function from state to state. OpenLayers objects become plain records. Network results, timers and number formatting become parameters.

The model is organised by the program's own structure:

| Dafny file | module | models |
|---|---|---|
| layer_types.dfy | LayerTypes | the configuration records of `src/lib/layers/types.ts` |
| layer.dfy | Layers | `Layer.ts`: defaults, the lazily created OpenLayers handle, visibility and opacity |
| wms.dfy, wmts.dfy | Wms, Wmts | `TiledWMS.ts`, `SingleTileWMS.ts`, `WMTS.ts`: the `LAYERS` toggle, legend URL, REST template, matrix ids |
| form_encoding.dfy | FormEncoding | `URLSearchParams` serialisation as used for the legend URL |
| js_number.dfy | JsNumber | JavaScript `parseInt` (radix 10 and 16) and `Math.max(lo, Math.min(hi, x))` |
| group.dfy, factory.dfy | Groups, Factory | `Group.ts` and `factory.ts` |
| layer_store.dfy | LayerStore | `layerStore.ts`: the name indexes and the single visible background |
| url_params.dfy | UrlParams | `urlParams.ts`: the `map`, `groups` and `layers` query parameters |
| catalog_store.dfy, sidebar_store.dfy, metadata_popup_store.dfy | CatalogStore, SidebarStore, MetadataPopupStore | the small UI stores |
| print_store.dfy | PrintStore | `printStore.ts`: settings clamping, job submission and polling |
| draw_store.dfy | DrawStore | `drawStore.ts`: feature ids, selection and popup state, style import and export |
| py_json.dfy | PyJson | JSON values with Python `dict`/`list` semantics and Python's exceptions |
| config_merge.dfy | ConfigMerge | `merge_dict`, `apply_base_config` (`layers.py`) and `deep_merge` (`app.py`) |
| anol_layers.dfy | AnolLayers | `layers.py`: conversion to client records and group building |
| app_layers_def.dfy | AppLayersDef | `app_layers_def.py`: include/exclude/explicit rules, URLs, ordering |
| catalog_names.dfy | CatalogNames | the name resolution of `get_catalog_names` (`app.py`) |
| export.dfy | Export | `export.py`: MapFish styles, the draw layer and the print spec |
| util.dfy | Util | strings, `split`/`join`, `str.strip`, decimal numerals, first-match search |

Python code that can raise is modelled with `PyResult`, which is `Ok(value)` or `Err(KeyError | TypeError | IndexError | …)`. A `try/except` that skips an item becomes an explicit filter over those results.

Some code in the repository differs from its own prose description. In each case the model follows the code.
- A group's `visible` is a stored flag. Only the group's own methods recompute it. Store-level layer changes (layerStore.ts:116-123) leave it stale, exactly as in the code.
- The code assigns no z-index and has no per-group nested URL format. The only URL format is the flat `layers=name[:percent],…` list, so that is all the model has.
- There is no display-change callback on layers.

## Model

| member | source | states |
|---|---|---|
| Layers.NewLayer | src/lib/layers/Layer.ts:25-40 | Visibility comes from `config.visible`, else `olLayer.visible`, else false. Opacity comes from `config.opacity`, else `olLayer.opacity`, else 1. `isBackground` defaults to false. A new layer has no handle. |
| Layers.AccessHandle | src/lib/layers/Layer.ts:51-58 | An existing handle is returned unchanged. Otherwise a handle is created holding the layer's current visibility and opacity, and nothing else about the layer changes. Only a WMTS layer can fail. |
| Layers.SetVisible | src/lib/layers/Layer.ts:77-83 | Stores the flag and pushes it into the handle only when a handle exists; the handle's opacity is untouched. |
| Layers.SetOpacity | src/lib/layers/Layer.ts:88-93 | The stored opacity is the input clamped to [0, 1], and a handle, if any, receives that clamped value. |
| Layers.Dispose | src/lib/layers/Layer.ts:106-111 | Drops the handle and keeps visibility and opacity, so a later access builds a fresh handle. |
| Layers.LegendGraphicUrl | src/lib/layers/Layer.ts:118-120 | Only single-tile WMS layers have a legend URL. |
| Layers.HandleAlwaysMirrors | src/lib/layers/Layer.ts:51-111 | Over any sequence of accesses, visibility and opacity changes and disposals, an existing handle always shows the layer's visibility and opacity. |
| Layers.NewLayerMirrors | src/lib/layers/Layer.ts:25-40 | A freshly constructed layer satisfies the mirroring invariant. |
| Layers.AccessHandleMirrors | src/lib/layers/Layer.ts:51-58 | Accessing the handle keeps the mirroring invariant. |
| Layers.SetVisibleMirrors | src/lib/layers/Layer.ts:77-83 | Changing visibility keeps the handle mirroring the layer. |
| Layers.SetOpacityMirrors | src/lib/layers/Layer.ts:88-93 | Changing opacity keeps the handle mirroring the layer. |
| Groups.NewGroup | src/lib/layers/Group.ts:22-38 | Settings take their defaults: `showGroup` true, `singleSelect` false, `collapsed` true, no default layers. The group flag is "some member visible". |
| Groups.SetVisible | src/lib/layers/Group.ts:64-86 | Hiding hides every member. Showing with default layers shows exactly the members named there. Otherwise single-select shows only the first member and the other mode shows all. The flag is set to the argument. |
| Groups.ToggleLayer | src/lib/layers/Group.ts:92-109 | An unknown name changes nothing. Single-select shows the members with that name if the first was hidden and hides all others. Otherwise only that member flips. The flag becomes "some member visible". |
| Groups.SingleSelectToggleShowsAtMostOne | src/lib/layers/Group.ts:96-101 | With unique names, a single-select toggle leaves at most one member visible, and the toggled one is visible iff it was hidden. |
| Groups.SingleSelectInvariant | src/lib/layers/Group.ts:64-109 | A single-select group without default layers that starts with at most one visible member keeps that property under any sequence of show, hide and toggle calls. |
| Groups.VisibleLayers | src/lib/layers/Group.ts:114-116 | Returns exactly the visible members, as many as are visible. |
| Groups.IsLayerVisible | src/lib/layers/Group.ts:121-124 | True iff the first member with that name is visible; false when there is none. |
| Groups.Dispose | src/lib/layers/Group.ts:129-131 | Every member drops its handle and nothing else changes. |
| Groups.FindLayer | src/lib/layers/Group.ts:93 | Finds the first member with the name, and nothing iff no member has it. |
| Groups.CountVisible | src/lib/layers/Group.ts:37 | The count is zero iff no member is visible. |
| Factory.KindOf | src/lib/layers/factory.ts:14-46 | Maps `tiledwms`, `wms` and `wmts` to their classes and the four GeoJSON-like kinds to the static GeoJSON class. Every other kind, `sensorthings` included, has none. |
| Factory.CreateLayer | src/lib/layers/factory.ts:12-52 | A layer exists iff its kind is supported, and it is the constructor's result for that kind. |
| Factory.Survivors | src/lib/layers/factory.ts:58-62 | The created layers are exactly those of the supported configurations. |
| Factory.SurvivorsAppend | src/lib/layers/factory.ts:58-62 | Creation works item by item: the survivors of two lists are the survivors of each, in order. |
| Factory.CreateGroup | src/lib/layers/factory.ts:57-63 | A group is always built, from the surviving layers in configuration order. |
| Factory.InitializeLayers | src/lib/layers/factory.ts:68-85 | Every surviving background is flagged as a background. There is exactly one group per overlay configuration, in order. |
| Factory.AsBackground | src/lib/layers/factory.ts:73-79 | The configuration with only `isBackground` set to true. |
| Wms.WmsLayers | src/lib/layers/TiledWMS.ts:16 | The configured `params.LAYERS`, or the empty string. |
| Wms.RequestAtCreation | src/lib/layers/TiledWMS.ts:20-30 | `LAYERS` is the layer list when visible, else empty. `FORMAT` defaults to `image/png`. `TRANSPARENT` is `TRUE`. `STYLES` is present iff it is configured non-empty. |
| Wms.CreateSingleTileHandle | src/lib/layers/SingleTileWMS.ts:20-38 | The image handle's `LAYERS` follows visibility, and the handle carries the layer's visibility and opacity. |
| Wms.CreateTiledHandle | src/lib/layers/TiledWMS.ts:20-38 | The tile handle's `LAYERS` follows visibility, and the handle carries the layer's visibility and opacity. |
| Wms.OnVisibilityChange | src/lib/layers/SingleTileWMS.ts:43-52 | Without a handle nothing happens. With one, only its `LAYERS` parameter changes, to the layer list when visible and empty otherwise. |
| Wms.Separator | src/lib/layers/SingleTileWMS.ts:114-118 | `?` when the URL has none; nothing when it ends in `?` or `&`; `&` otherwise. |
| Wms.SeparatorDelimitsQuery | src/lib/layers/SingleTileWMS.ts:114-120 | After the separator, the URL has a query part and ends where a new parameter can start. |
| Wms.LegendGraphicUrl | src/lib/layers/SingleTileWMS.ts:85-121 | There is no URL iff the legend is off, is a link or text legend, or the source has no URL. Otherwise the URL starts with the source URL. |
| Wms.LegendQueryParameters | src/lib/layers/SingleTileWMS.ts:104-120 | The legend URL is base, separator and query. The query splits at `&` into exactly six encoded pairs, in this order: `SERVICE=WMS`; `VERSION`: the legend's `version`, default `1.3.0`; `SLD_VERSION`: its `sldVersion`, default `1.1.0`; `REQUEST=GetLegendGraphic`; `FORMAT`: its `format`, default `image/png`; `LAYER`: the layer's WMS layers. |
| FormEncoding.EncodeHasNoSeparators | src/lib/layers/SingleTileWMS.ts:120 | An encoded name or value never contains `&`, `=` or `?`. |
| FormEncoding.EncodeUnreserved | src/lib/layers/SingleTileWMS.ts:120 | Text made of unreserved ASCII characters is serialised unchanged. |
| FormEncoding.SerializeSplitsIntoPairs | src/lib/layers/SingleTileWMS.ts:104-120 | Splitting a serialised parameter list at `&` gives back one encoded `name=value` per pair. |
| FormEncoding.Utf8 | src/lib/layers/SingleTileWMS.ts:120 | Each character becomes one to four bytes; ASCII is one byte equal to its code. |
| FormEncoding.Encode | src/lib/layers/SingleTileWMS.ts:120 | Every character of an encoded text is unreserved, `+` or part of a `%XX` escape. |
| FormEncoding.EncodedPairs | src/lib/layers/SingleTileWMS.ts:104-120 | One encoded `name=value` per pair, in order. |
| Wmts.Extension | src/lib/layers/WMTS.ts:93 | `png` when the format has no `/`. Otherwise it is the whole field after the first `/`: it ends at the next `/` or at the end of the text. |
| Wmts.ExtensionOfMimeType | src/lib/layers/WMTS.ts:93 | For `type/subtype` the extension is the subtype. |
| Wmts.BuildUrl | src/lib/layers/WMTS.ts:89-97 | The URL is exactly base URL, layer (default: the layer name), the REST tile template and the extension of the format (default `image/png`). |
| Wmts.MatrixIds | src/lib/layers/WMTS.ts:82-84 | One identifier per level; identifier i is the decimal numeral of i. |
| Wmts.MatrixIdsIdentifyLevels | src/lib/layers/WMTS.ts:82-84 | Matrix identifiers are pairwise distinct and parse back to their level. |
| Wmts.TileSizeValue | src/lib/layers/WMTS.ts:35-36 | The tile size defaults to 256. A number is used as is; an array contributes its first element. |
| Wmts.CreateHandle | src/lib/layers/WMTS.ts:21-63 | Fails iff the projection (default `EPSG:25832`) is not registered or has no extent. Otherwise the source uses the configured layer, matrix set and format defaults and one matrix id per level. |
| Wmts.FirstFieldAfterSlash | src/lib/layers/WMTS.ts:93 | With a `/`, the second field is exactly the text between the first `/` and the next one or the end. |
| JsNumber.ParseIntNatToString | src/lib/utils/urlParams.ts:9 | `parseInt(String(n), 10)` is n for every non-negative integer. |
| JsNumber.ParseIntIntToString | src/lib/utils/urlParams.ts:9 | `parseInt(String(i), 10)` is i for every integer. |
| JsNumber.ParseIntNoDigits | src/lib/utils/urlParams.ts:9 | A text whose first character is not a sign, blank or digit parses to NaN. |
| JsNumber.ParseIntTwoHexDigits | src/lib/stores/drawStore.ts:160-162 | Two hexadecimal digits parse in radix 16 to their positional value, at most 255. |
| JsNumber.Clamp | src/lib/layers/Layer.ts:89 | The result lies in [lo, hi], equals x when x does, and is the nearer bound otherwise. |
| JsNumber.ParseIntNegative | src/lib/utils/urlParams.ts:9 | `parseInt("-" + String(m), 10)` is -m. |
| JsNumber.HexByte | src/lib/stores/drawStore.ts:160-162 | Two hexadecimal digits are worth at most 255. |
| LayerStore.Initialize | src/lib/stores/layerStore.ts:30-62 | The active background is the first visible one, else the first one, else none. Exactly the active background is shown. The indexes hold every layer and every group by name. |
| LayerStore.InitialActive | src/lib/stores/layerStore.ts:49 | No choice iff there are no backgrounds. Otherwise the choice is the first visible background, or the first background when none is visible. |
| LayerStore.InitializeIndexesLastLayer | src/lib/stores/layerStore.ts:36-46 | A name resolves to the last layer carrying it, with backgrounds before overlays, group by group. |
| LayerStore.InitializeIndexesLastGroup | src/lib/stores/layerStore.ts:43-45 | A group name resolves to the last group carrying it. |
| LayerStore.InitializeShowsOneBackground | src/lib/stores/layerStore.ts:52-54 | With at least one background, exactly the active background is visible. |
| LayerStore.InitializeInv | src/lib/stores/layerStore.ts:30-62 | From factory output, the store satisfies the invariant: the indexes point at slots of that name, backgrounds are flagged, and at most one background is visible. |
| LayerStore.SetActiveBackground | src/lib/stores/layerStore.ts:67-80 | The chosen layer becomes active and the only visible background. Non-background slots and the indexes are untouched. |
| LayerStore.SetActiveBackgroundByName | src/lib/stores/layerStore.ts:85-99 | An unknown or non-background name changes nothing. Otherwise the named background is activated. |
| LayerStore.SetActiveBackgroundByNameShowsIt | src/lib/stores/layerStore.ts:85-99 | Activating a background by name shows exactly that background and records it as active. |
| LayerStore.SetLayerVisibility | src/lib/stores/layerStore.ts:116-123 | Unknown names and background layers are ignored. Otherwise exactly the named slot gets the new visibility. |
| LayerStore.ToggleLayerVisibility | src/lib/stores/layerStore.ts:104-111 | Unknown names and background layers are ignored. Otherwise exactly the named slot flips. |
| LayerStore.SetLayerOpacity | src/lib/stores/layerStore.ts:128-135 | Applies to any indexed layer, backgrounds included, with the layer's clamping; unknown names change nothing. |
| LayerStore.SetGroupVisibility | src/lib/stores/layerStore.ts:153-160 | An unknown group name changes nothing. Otherwise the indexed group gets the group's own show or hide policy. |
| LayerStore.ToggleGroupVisibility | src/lib/stores/layerStore.ts:140-148 | An unknown group name changes nothing. Otherwise the indexed group is shown if its flag was off and hidden if it was on. |
| LayerStore.GetLayerByName | src/lib/stores/layerStore.ts:165-167 | Returns the indexed layer, and nothing iff the name is not indexed. |
| LayerStore.GetGroupByName | src/lib/stores/layerStore.ts:172-174 | Returns the indexed group, which carries that name in a valid store. |
| LayerStore.GetVisibleOverlayLayers | src/lib/stores/layerStore.ts:179-192 | Lists exactly the visible overlay layers. |
| LayerStore.GetVisibleOverlayLayersOrder | src/lib/stores/layerStore.ts:179-192 | The result is the visible positions in group order, then member order. Each position appears once. |
| LayerStore.GetAllLayers | src/lib/stores/layerStore.ts:197-206 | The backgrounds first, then every group's layers in order. |
| LayerStore.Reset | src/lib/stores/layerStore.ts:211-221 | Both lists and both indexes are empty, there is no active background, and the store is uninitialised. |
| LayerStore.RunKeepsInv | src/lib/stores/layerStore.ts:67-160 | No sequence of store mutations breaks the invariant: valid indexes, flagged backgrounds and at most one visible background. |
| LayerStore.ApplyKeepsOneBackgroundShown | src/lib/stores/layerStore.ts:67-160 | When no overlay layer is flagged as a background, every store operation keeps exactly the active background shown, or none when there are no backgrounds. |
| LayerStore.RunKeepsOneBackgroundShown | src/lib/stores/layerStore.ts:67-160 | Under the same condition, no sequence of operations shows a second background or hides the active one. |
| LayerStore.ReachableShowsOneBackground | src/lib/stores/layerStore.ts:30-160 | From factory output with at least one background and no flagged overlay, every reachable store shows exactly its active background. |
| LayerStore.RunKeepsBackgroundCount | src/lib/stores/layerStore.ts:67-160 | No store operation adds or removes a background. |
| LayerStore.OverlayTarget | src/lib/stores/layerStore.ts:104-123 | The indexed layer when it is not a background, and nothing when the name is unknown or a background. |
| LayerStore.InitializeValid | src/lib/stores/layerStore.ts:36-46 | After initialisation every index entry points at a slot of that name. |
| LayerStore.PutLayerValid | src/lib/stores/layerStore.ts:104-135 | Replacing a layer by one of the same name keeps the indexes valid. |
| LayerStore.ActivateKeepsInv | src/lib/stores/layerStore.ts:85-99 | Activating a background by name keeps the invariant. |
| LayerStore.SetOpacityKeepsInv | src/lib/stores/layerStore.ts:128-135 | Setting an opacity keeps the invariant. |
| LayerStore.SetGroupKeepsInv | src/lib/stores/layerStore.ts:153-160 | Showing or hiding a group keeps the invariant. |
| LayerStore.ApplyKeepsInv | src/lib/stores/layerStore.ts:67-160 | Every single store mutation keeps the invariant. |
| UrlParams.ParseLayerEntry | src/lib/utils/urlParams.ts:6-11 | The name is the text before the first `:`. The opacity is the parsed second field, or 100 when there is none or it is NaN. |
| UrlParams.ParseLayerEntryRoundTrip | src/lib/utils/urlParams.ts:6-11 | `name` and `name:percent` read back as that name with 100 and with that percent. |
| UrlParams.KeepNonBlank | src/lib/utils/urlParams.ts:40-48 | Keeps exactly the entries that are not blank after trimming. |
| UrlParams.NonBlankOfJoin | src/lib/utils/urlParams.ts:40-48 | Comma-joined non-blank names read back as the same list. |
| UrlParams.ParseMapParam | src/lib/utils/urlParams.ts:25-36 | There is a map state iff the parameter has at least three comma fields and the first three parse as numbers. |
| UrlParams.ParseMapParamRoundTrip | src/lib/utils/urlParams.ts:25-36 | `zoom,x,y` reads back as those three numbers. |
| UrlParams.LastOpacity | src/lib/utils/urlParams.ts:74-78 | The percentage of the last entry naming a layer, and none iff no entry names it. |
| UrlParams.GroupOrder | src/lib/utils/urlParams.ts:70-94 | Lists the groups of the listed overlays once each, in order of first mention. |
| UrlParams.ApplyLayersParamOverlays | src/lib/utils/urlParams.ts:62-78 | A reachable overlay ends visible iff some entry names it. Its opacity is the last entry's percentage / 100, clamped, or unchanged when it is not listed. An overlay shadowed in the index is untouched. |
| UrlParams.ApplyLayersParamBackgrounds | src/lib/utils/urlParams.ts:55-67 | Only the first entry can switch the background. Background names elsewhere in the list change nothing. |
| UrlParams.ApplyLayersParamShape | src/lib/utils/urlParams.ts:47-95 | The `layers` parameter changes no index, slot, name or background flag. |
| UrlParams.ApplyUrlLayerState | src/lib/utils/urlParams.ts:23-99 | The map state is parsed and returned, not applied. `reorderGroups` runs at most once: with the non-blank `groups` list when that is given and non-empty, otherwise only when a `layers` list is given. |
| UrlParams.InferredGroupOrder | src/lib/utils/urlParams.ts:70-94 | Without `groups`, the single reorder request is the inferred first-mention group order, made only when that order is non-empty. |
| UrlParams.NonBlank | src/lib/utils/urlParams.ts:40-48 | Every kept name is non-blank and contains no comma. |
| UrlParams.EntryGroups | src/lib/utils/urlParams.ts:70-78 | Every group listed is the group of some listed overlay. Every listed overlay with a group contributes it. |
| UrlParams.ApplyLayersParam | src/lib/utils/urlParams.ts:47-95 | Groups are tracked only when no `groups` parameter was given. |
| UrlParams.HideShowEffect | src/lib/utils/urlParams.ts:62-78 | Hiding every overlay and then showing the entries leaves a slot visible iff an entry reaches it, with the last entry's opacity. |
| CatalogStore.Normalize | src/lib/stores/catalogStore.ts:48-53 | A missing abstract or metadata URL becomes the empty string; name and title are kept. |
| CatalogStore.StartLoad | src/lib/stores/catalogStore.ts:39 | Loading starts with no error, for the given configuration. |
| CatalogStore.FinishLoad | src/lib/stores/catalogStore.ts:55-66 | Items are replaced on success. An HTTP or thrown error leaves the items and sets its message. Loading stops either way. |
| CatalogStore.CatalogItems | src/lib/stores/catalogStore.ts:134-143 | Keeps the items' order, length and fields. An item is active iff an overlay group of the same name is on the map. |
| CatalogStore.BeginToggle | src/lib/stores/catalogStore.ts:74-75 | A name already in progress is refused and nothing changes; otherwise it is marked in progress. |
| CatalogStore.CompleteToggle | src/lib/stores/catalogStore.ts:81-112 | A group on the map is removed and nothing is added. Otherwise a good response adds the created group, and failures set their message. The name is always released. |
| CatalogStore.OverlappingToggles | src/lib/stores/catalogStore.ts:73-113 | A second toggle started while the first is in progress does nothing, and the name is free again once the first completes. |
| CatalogStore.Toggle | src/lib/stores/catalogStore.ts:118-120 | Flips `isOpen` and nothing else. |
| CatalogStore.Close | src/lib/stores/catalogStore.ts:125-127 | Sets `isOpen` false and nothing else. |
| CatalogStore.ToggleItem | src/lib/stores/catalogStore.ts:73-113 | A name in progress is refused. Otherwise the in-progress set ends as it began, and a group already on the map is removed. |
| SidebarStore.Initialize | src/lib/stores/sidebarStore.ts:24-26 | Sets `isOpen` to the argument and leaves the panels alone. |
| SidebarStore.Toggle | src/lib/stores/sidebarStore.ts:31-33 | Flips `isOpen` only. |
| SidebarStore.ShowCatalog | src/lib/stores/sidebarStore.ts:52-54 | Shows the catalog, hides the other two panels, and keeps `isOpen`. |
| SidebarStore.ShowPrint | src/lib/stores/sidebarStore.ts:66-68 | Shows the print panel, hides the other two, and keeps `isOpen`. |
| SidebarStore.ShowDraw | src/lib/stores/sidebarStore.ts:80-82 | Shows the draw panel, hides the other two, and keeps `isOpen`. |
| SidebarStore.HideCatalog | src/lib/stores/sidebarStore.ts:59-61 | Hides only the catalog. |
| SidebarStore.HidePrint | src/lib/stores/sidebarStore.ts:73-75 | Hides only the print panel. |
| SidebarStore.HideDraw | src/lib/stores/sidebarStore.ts:87-89 | Hides only the draw panel. |
| SidebarStore.InitialOnePanel | src/lib/stores/sidebarStore.ts:11-89 | From the initial state, no sequence of calls shows two panels at once. |
| SidebarStore.PanelOpsKeepOpenFlag | src/lib/stores/sidebarStore.ts:24-89 | Only `initialize`, `toggle`, `open` and `close` change `isOpen`. |
| SidebarStore.Open | src/lib/stores/sidebarStore.ts:38-40 | Sets `isOpen` and nothing else. |
| SidebarStore.Close | src/lib/stores/sidebarStore.ts:45-47 | Clears `isOpen` and nothing else. |
| SidebarStore.ApplyKeepsOnePanel | src/lib/stores/sidebarStore.ts:24-89 | No single call shows a second panel. |
| SidebarStore.RunKeepsOnePanel | src/lib/stores/sidebarStore.ts:24-89 | No sequence of calls shows two panels at once. |
| MetadataPopupStore.Open | src/lib/stores/metadataPopupStore.ts:20-22 | Opens with exactly the given URL and title, whatever came before. |
| MetadataPopupStore.Close | src/lib/stores/metadataPopupStore.ts:23-25 | Closed, with URL and title empty. |
| MetadataPopupStore.CloseForgets | src/lib/stores/metadataPopupStore.ts:9-25 | Closing is idempotent and restores the initial state; opening ignores the previous state. |
| MetadataPopupStore.RunKeepsClosedIsEmpty | src/lib/stores/metadataPopupStore.ts:9-25 | A closed popup never remembers a document, and the state after any calls depends only on the last call. |
| PrintStore.LandscapeIsPortraitTurned | src/lib/stores/printStore.ts:34-39 | Each landscape preset is its portrait preset with the sides swapped. |
| PrintStore.SetLayout | src/lib/stores/printStore.ts:104-114 | `custom` keeps the page size; a preset brings its own. Nothing else changes. |
| PrintStore.SetPageSize | src/lib/stores/printStore.ts:119-128 | Each side is clamped to [50, 1000] mm and the layout becomes `custom`. |
| PrintStore.SetScale | src/lib/stores/printStore.ts:133-139 | The scale is clamped to [100, 100000] and equals the input when the input is in range. |
| PrintStore.SetOutputFormat | src/lib/stores/printStore.ts:144-149 | Only the output format changes. |
| PrintStore.StopPolling | src/lib/stores/printStore.ts:70-75 | Clears the remembered timer, if any, and forgets it. Other timers keep running. |
| PrintStore.Close | src/lib/stores/printStore.ts:90-99 | Closed and idle, with no job and no error. Settings are kept and the remembered timer is stopped. |
| PrintStore.Reset | src/lib/stores/printStore.ts:265-274 | All defaults are restored and the remembered timer is stopped. |
| PrintStore.DefaultSettingsValid | src/lib/stores/printStore.ts:42-47 | The defaults are within the clamping ranges and use the A4 portrait size. |
| PrintStore.BuildRequest | src/lib/stores/printStore.ts:172-183 | The request carries the settings, bbox, layers and opacities. The MIME type is `application/pdf` or `image/png` according to the format. Draw features are sent iff non-empty. |
| PrintStore.JobId | src/lib/stores/printStore.ts:196 | The job id contains no `/`, and a URL without `/` is its own id. |
| PrintStore.JobIdOfStatusUrl | src/lib/stores/printStore.ts:196 | The id read from `/export/map/{ref}/status` is `ref` when `ref` has no `/`. |
| PrintStore.SubmitFailed | src/lib/stores/printStore.ts:186-188 | A failed submit shows `Print request failed: <status>`, or the thrown message, or `Unbekannter Fehler`. |
| PrintStore.SubmitAcceptedAsWritten | src/lib/stores/printStore.ts:192-205 | As written: the job is stored and a new timer is remembered, with earlier timers left running. |
| PrintStore.SubmitAccepted | src/lib/stores/printStore.ts:192-205 | Corrected: as above, but the previous timer is stopped first. |
| PrintStore.Tick | src/lib/stores/printStore.ts:205-251 | A stopped timer does nothing. A tick without a job stops polling. The 120th attempt times out. Otherwise the status response decides between ready, failed and still processing. |
| PrintStore.RunKeepsSettingsValid | src/lib/stores/printStore.ts:104-149 | Settings stay within their clamping ranges under any sequence of calls and ticks. |
| PrintStore.RunKeepsTimersTracked | src/lib/stores/printStore.ts:70-251 | With the corrected submit, every running timer is the remembered one and is below the attempt limit. |
| PrintStore.CorrectedCloseStopsEverything | src/lib/stores/printStore.ts:90-99 | With the corrected submit, `close` and `reset` leave no timer running after any history. |
| PrintStore.AsWrittenLeaksTimer | src/lib/stores/printStore.ts:205 | As written, two accepted submits followed by `close` leave the first timer running and unreachable. |
| PrintStore.AsWrittenStaleTimerFailsReadyJob | src/lib/stores/printStore.ts:205-245 | As written, the leaked timer later turns a finished job into a timeout failure. |
| PrintStore.PresetSize | src/lib/stores/printStore.ts:34-39 | Every preset page size lies within the clamping range. |
| PrintStore.Open | src/lib/stores/printStore.ts:83-85 | Sets `isOpen` and nothing else. |
| PrintStore.Mimetype | src/lib/stores/printStore.ts:177 | `application/pdf` exactly for PDF and `image/png` exactly for PNG. |
| PrintStore.BeginSubmit | src/lib/stores/printStore.ts:164 | Status `preparing` with the error cleared, and nothing else. |
| PrintStore.SubmitErrorMessage | src/lib/stores/printStore.ts:186-188 | The HTTP message carries the status. A thrown error gives its message, or `Unbekannter Fehler` without one. |
| PrintStore.NewJob | src/lib/stores/printStore.ts:192-200 | The job's id is read from its status URL, and both URLs are kept. |
| PrintStore.ApplyKeepsSettingsValid | src/lib/stores/printStore.ts:104-149 | No single call or tick moves a setting out of its range. |
| PrintStore.AsWrittenDoubleSubmit | src/lib/stores/printStore.ts:205 | As written, two accepted submits leave two timers running, and only the second is remembered. |
| PrintStore.AsWrittenFinishClearsOtherTimer | src/lib/stores/printStore.ts:227-233 | As written, the first timer's finished poll clears the second timer and keeps running itself. |
| DrawStore.Merge | src/lib/stores/drawStore.ts:430 | Object spread: keys of both; the patch wins where both have a key. |
| DrawStore.HexChannelsOfHexColor | src/lib/stores/drawStore.ts:159-164 | On `#RRGGBB` each channel is the value of its two hex digits, in [0, 255]. |
| DrawStore.HexChannelsRoundTrip | src/lib/stores/drawStore.ts:159-164 | Reading back the channels of a written colour gives them back. |
| DrawStore.HexToRgba | src/lib/stores/drawStore.ts:159-164 | On a `#RRGGBB` colour the result is `rgba(r, g, b, opacity)` with the parsed channels. |
| DrawStore.FontStringWords | src/lib/stores/drawStore.ts:123-127 | The font splits into `bold` if bold, `italic` if italic, `<size>px`, `sans-serif`, in that order. |
| DrawStore.AssignFeatureId | src/lib/stores/drawStore.ts:190-194 | Pre-increments the counter and names the feature `draw_<counter>`. |
| DrawStore.FreshIdNotIssued | src/lib/stores/drawStore.ts:190-194 | The id handed out was never handed out before. |
| DrawStore.Destroy | src/lib/stores/drawStore.ts:297-326 | Restores the initial state, keeping only the id counter. |
| DrawStore.SetTool | src/lib/stores/drawStore.ts:328-336 | Sets the tool and clears selection, popup and anchor. The current style, feature count and features are kept. |
| DrawStore.NewFeatureStyle | src/lib/stores/drawStore.ts:357-362 | The text tool forces `isTextFeature` and replaces an empty text by `Text`. Other tools copy the current style. |
| DrawStore.DrawEnd | src/lib/stores/drawStore.ts:353-384 | Only a drawing tool on an initialised layer adds a feature, with a fresh id and the new style. Its popup then opens on that feature. |
| DrawStore.ModifySelect | src/lib/stores/drawStore.ts:395-405 | Only in modify mode: the selected feature, given an id if it has none, becomes the selection. |
| DrawStore.Click | src/lib/stores/drawStore.ts:229-273 | Ignored while drawing, modifying or suppressed. Otherwise a hit selects and opens the popup, and a miss deselects. |
| DrawStore.ApplyStyleToSelected | src/lib/stores/drawStore.ts:422-439 | Without a resolvable selection nothing changes. Otherwise the feature's style and the current style change only on the keys given. |
| DrawStore.DeleteSelected | src/lib/stores/drawStore.ts:457-473 | Removes exactly the selected feature, keeping the others in order, and clears selection and popup. |
| DrawStore.CloseStylePopup | src/lib/stores/drawStore.ts:475-485 | Clears selection, popup and anchor only. |
| DrawStore.ClearAll | src/lib/stores/drawStore.ts:502-514 | Removes every feature, zeroes the count and clears the selection. |
| DrawStore.ToggleLayerVisibility | src/lib/stores/drawStore.ts:516-521 | Flips the draw layer's visibility. |
| DrawStore.SetLayerVisible | src/lib/stores/drawStore.ts:523-527 | Sets the draw layer's visibility. |
| DrawStore.ExportProps | src/lib/stores/drawStore.ts:539-545 | Every style key `k` becomes `drawStyle_k` with its exported value, and nothing else is written. |
| DrawStore.StylePatch | src/lib/stores/drawStore.ts:567-580 | Reads back exactly the `drawStyle_` properties, prefix removed. |
| DrawStore.ImportedStyleAsWritten | src/lib/stores/drawStore.ts:567-586 | As written: a style exists iff some `drawStyle_` property exists. Every string starting with `[` is JSON-parsed. |
| DrawStore.ImportedStyle | src/lib/stores/drawStore.ts:567-586 | Corrected: as above, but only `strokeDash` is re-parsed. |
| DrawStore.ImportExportRoundTrip | src/lib/stores/drawStore.ts:539-586 | Importing an exported style gives the default style overridden by that style. It gives the style itself when the style sets every key. |
| DrawStore.TextLabelReadAsArray | src/lib/stores/drawStore.ts:576-577 | As written, the exported label text `[]` comes back as an empty array. |
| DrawStore.ImportAsWrittenBreaksTextLabel | src/lib/stores/drawStore.ts:576-577 | As written, importing an exported text style whose label is `[]` does not give that style back. |
| DrawStore.ImportGeoJson | src/lib/stores/drawStore.ts:557-592 | Import appends the features, numbered on from the counter, and never decreases the counter. The `corrected` flag picks the style reader: false reads as the code is written, true uses the corrected reader. The store's `Apply` and `Run` carry the same flag. |
| DrawStore.AddImportedAppends | src/lib/stores/drawStore.ts:557-592 | Without a layer nothing happens. Otherwise the old features stay in front and each imported feature gets a fresh id and its merged style. |
| DrawStore.RunKeepsIdsUnique | src/lib/stores/drawStore.ts:190-592 | No sequence of draw-store calls, with either import reader, gives two features the same id. The counter never decreases. |
| DrawStore.RunKeepsPopupConsistent | src/lib/stores/drawStore.ts:229-485 | An open popup always belongs to a selected feature. |
| DrawStore.ReachableStatesConsistent | src/lib/stores/drawStore.ts:84-92 | Every state reachable from the initial one has unique ids and a consistent popup. |
| DrawStore.Initialize | src/lib/stores/drawStore.ts:278-295 | Creates an empty, visible draw layer and keeps the rest of the state. |
| DrawStore.Slice | src/lib/stores/drawStore.ts:160-162 | `String.slice` within bounds is the subsequence, and past the end it is empty. |
| DrawStore.HexPairParses | src/lib/stores/drawStore.ts:160-162 | Each channel slice of a `#RRGGBB` colour parses in radix 16 to a value in [0, 255]. |
| DrawStore.IdOfInjective | src/lib/stores/drawStore.ts:190-194 | Different counter values give different feature ids. |
| DrawStore.MergeCovering | src/lib/stores/drawStore.ts:586 | A patch that sets every key replaces the base style. |
| DrawStore.ImportedFeatures | src/lib/stores/drawStore.ts:557-592 | Imported feature i gets id `draw_<counter+i+1>`, its read style and its geometry. |
| DrawStore.AddImported | src/lib/stores/drawStore.ts:557-592 | Importing never decreases the id counter. |
| DrawStore.ImportKeepsIdsUnique | src/lib/stores/drawStore.ts:557-592 | Importing keeps feature ids distinct. |
| DrawStore.DrawEndKeepsIdsUnique | src/lib/stores/drawStore.ts:353-384 | Finishing a drawing keeps feature ids distinct. |
| DrawStore.DeleteKeepsIdsUnique | src/lib/stores/drawStore.ts:457-473 | Deleting keeps feature ids distinct. |
| DrawStore.ClickKeepsIdsUnique | src/lib/stores/drawStore.ts:229-273 | A click keeps feature ids distinct. |
| DrawStore.ApplyKeepsPopupConsistent | src/lib/stores/drawStore.ts:229-485 | No single call opens the popup without a selected feature. |
| ConfigMerge.MergeDictLookup | backend/munimap/layers.py:34-42 | The keys are the union. On a dict/dict collision the two are merged recursively; otherwise the target's value wins, and base-only keys keep their values. |
| ConfigMerge.MergeDictKeys | backend/munimap/layers.py:34-42 | The base's keys come first, then the target's new keys, in target order. |
| ConfigMerge.MergeDictValid | backend/munimap/layers.py:34-42 | Merging into a dict with distinct keys keeps them distinct. |
| ConfigMerge.DeepMergeIsMergeDict | backend/munimap/app.py:41-49 | `deep_merge(base, override)` is `merge_dict(override, base)`, so every fact about the latter applies: the override wins and dicts merge recursively. |
| ConfigMerge.ApplyBaseWithoutBase | backend/munimap/layers.py:246-258 | A configuration without `base` comes back unchanged. |
| ConfigMerge.ApplyBaseDropsBase | backend/munimap/layers.py:244-258 | Every resolved configuration is a dict without `base`. |
| ConfigMerge.ApplyBaseFound | backend/munimap/layers.py:247-257 | An unknown base name raises the configuration error. A found base is merged under the configuration, minus its `base` key. |
| ConfigMerge.ApplyBaseResolvesLastNamed | backend/munimap/layers.py:251-257 | With named configurations, the base used is the last configuration with that name, itself resolved. |
| ConfigMerge.SelfBaseNeverResolves | backend/munimap/layers.py:251-253 | A configuration naming itself as base never resolves: it runs into the recursion limit. |
| ConfigMerge.ApplyBase | backend/munimap/layers.py:244-258 | A resolved dict is a dict. |
| ConfigMerge.NameMatches | backend/munimap/layers.py:252 | On a dict with a name, the test is equality of that name. |
| ConfigMerge.ResolvedNoBase | backend/munimap/layers.py:244-258 | A resolved layer configuration has no `base` key. |
| AnolLayers.WmsLayersValue | backend/munimap/layers.py:64-67 | `LAYERS` is the comma join of `source.layers` when it is non-empty, else the layer name. |
| AnolLayers.BackgroundUnsupported | backend/munimap/layers.py:76-78 | Any type but WMTS, WMS and tiled WMS raises the unsupported-layer error carrying that type. |
| AnolLayers.BackgroundShape | backend/munimap/layers.py:45-102 | A converted background has a supported type, is flagged as a background, keeps name, title and type, and wraps its source in `olLayer`. |
| AnolLayers.WmsBackgroundParams | backend/munimap/layers.py:62-75 | A WMS background asks for its `LAYERS` value in the configured projection. |
| AnolLayers.TransparentParam | backend/munimap/layers.py:135-136 | A configured `transparent` is set as the source's `TRANSPARENT` parameter. |
| AnolLayers.OverlayUnsupported | backend/munimap/layers.py:159-161 | Only the seven known overlay types convert; every other type raises the unsupported-layer error. |
| AnolLayers.OverlayShape | backend/munimap/layers.py:105-200 | An overlay keeps name and title, and its `olLayer` is invisible. It is clustered iff it is a vector type. PostGIS becomes `dynamic_geojson` with `createIndex` defaulting to true. |
| AnolLayers.WithStyleShape | backend/munimap/layers.py:186-190 | Only `style` and `externalGraphicPrefix` change. A truthy style is attached, with its graphic prefix moved onto the layer. |
| AnolLayers.ConvertAllSpec | backend/munimap/layers.py:210-238 | The loop fails with the first error that is not an unsupported type. Otherwise it returns exactly the successful conversions, in order, with skipped items gone and their siblings kept. |
| AnolLayers.CreateAnolLayersShape | backend/munimap/layers.py:203-241 | The backgrounds are the convertible ones, in order, each flagged. Every configured group yields one overlay group, in order, even when none of its layers converted. |
| AnolLayers.AnolGroupShape | backend/munimap/layers.py:217-239 | A group's overlays are its convertible layers, in order. |
| AnolLayers.GroupRecordSetting | backend/munimap/layers.py:218-232 | Each group setting is the group's own value, or its default. |
| AnolLayers.ResolveLayersSpec | backend/munimap/layers.py:321-325 | A group's layers are the layers of its known names, in listed order; unknown names are skipped. |
| AnolLayers.BuildGroupsNonEmpty | backend/munimap/layers.py:326-329 | Every group that is kept lists at least one layer. |
| AnolLayers.BuildGroupOfNames | backend/munimap/layers.py:316-329 | A group is kept iff some listed name is known, with exactly the known layers. |
| AnolLayers.AnolBackgroundLayer | backend/munimap/layers.py:45-102 | A converted background is a dict. |
| AnolLayers.AnolOverlayLayer | backend/munimap/layers.py:105-200 | A converted overlay is a dict. |
| AnolLayers.ConvertedAll | backend/munimap/layers.py:210-238 | When every item converts, the result is every conversion in order. |
| AnolLayers.ConvertedFrom | backend/munimap/layers.py:210-238 | Every result came from a successful conversion. |
| AnolLayers.GroupSettings | backend/munimap/layers.py:218-232 | Each setting is the group's own value, else the default, over exactly the defaulted keys. |
| AnolLayers.ConvertGroups | backend/munimap/layers.py:217-239 | One converted group per configured group, in order. |
| AnolLayers.GroupRecordFixed | backend/munimap/layers.py:218-232 | A group record sets its name, its title and its converted layers. |
| AnolLayers.KnownNames | backend/munimap/layers.py:321-325 | Only listed names that the layer table knows are kept. |
| AnolLayers.WmsLayersWithoutSource | backend/munimap/layers.py:64-67 | Without a `source`, `LAYERS` is the layer's name. |
| AnolLayers.WmsSourceParams | backend/munimap/layers.py:119-122 | A WMS source carries the layers and the projection as parameters. |
| AnolLayers.OlLayerShape | backend/munimap/layers.py:163-166 | An overlay's `olLayer` is invisible, wraps its source and carries the configured opacity. |
| AppLayersDef.IsActive | backend/munimap/app_layers_def.py:7-19 | A non-empty explicit list decides alone. Otherwise the result is (active and not excluded) or (inactive and included). |
| AppLayersDef.SourceUrlPrecedence | backend/munimap/app_layers_def.py:42-49 | A hash gives `/proxy/wms/<hash>/service`, else `url`, else `source.url`. |
| AppLayersDef.PrepareBackgroundUrl | backend/munimap/app_layers_def.py:41-49 | A prepared background's source URL is the one its configuration selects, when there is one. |
| AppLayersDef.BackgroundLayersVisible | backend/munimap/app_layers_def.py:52-53 | Every background sent is visible iff it is the default background. |
| AppLayersDef.BackgroundLayersOrder | backend/munimap/app_layers_def.py:58-65 | Without explicits the loop order is kept. With them, the output follows the explicit order, each listed name at most once when listed once. |
| AppLayersDef.ExplicitOrderSpec | backend/munimap/app_layers_def.py:58-65 | For each explicit name that some layer carries, the first such layer, in explicit order. |
| AppLayersDef.ExplicitDuplicateRepeats | backend/munimap/app_layers_def.py:58-65 | A name listed twice repeats its layer. |
| AppLayersDef.PrepareGroupLayerShape | backend/munimap/app_layers_def.py:80-98 | A layer sent passed the rules. It is visible iff listed in the default overlays, and `searchConfig` defaults to an empty list. |
| AppLayersDef.GroupLayerStaticRoute | backend/munimap/app_layers_def.py:101-105 | A `static_geojson` layer loads `/static_geojson/<file>`, and no `file` key is left in its source. |
| AppLayersDef.GroupLayersVisible | backend/munimap/app_layers_def.py:89 | Every group layer sent is visible iff its name is in the default overlays. |
| AppLayersDef.EmptyGroupOmitted | backend/munimap/app_layers_def.py:122-123 | A group without layers is left out. |
| AppLayersDef.OverlaysSpec | backend/munimap/app_layers_def.py:121-150 | Every group sent has layers, and `singleSelectGroup` is membership in the app's single-select list. |
| AppLayersDef.OverlaysOrder | backend/munimap/app_layers_def.py:153-160 | Overlay groups follow the explicit order, as backgrounds do. |
| AppLayersDef.PrepareLayersDef | backend/munimap/app_layers_def.py:165-170 | Succeeds iff both halves do, with exactly the keys `backgroundLayer` and `overlays`. |
| AppLayersDef.SetInLookup | backend/munimap/app_layers_def.py:42-49 | Setting a nested key changes only the dicts along its path. |
| AppLayersDef.FirstWithNameSpec | backend/munimap/app_layers_def.py:60-64 | Finds a layer iff one has the name, and a found layer has it. |
| AppLayersDef.PresentNoDuplicates | backend/munimap/app_layers_def.py:58-65 | Distinct explicit names give distinct output names. |
| AppLayersDef.OrderedSpec | backend/munimap/app_layers_def.py:58-65 | Without explicits the order is kept. With explicits the output names are the listed names that exist, in list order, and nothing is invented. |
| AppLayersDef.PrepareBackgroundShape | backend/munimap/app_layers_def.py:32-55 | A sent background passed the rules, keeps its name, and is visible iff it is the default background. |
| AppLayersDef.StaticGeoJsonShape | backend/munimap/app_layers_def.py:101-105 | Only `static_geojson` layers change, and only their `olLayer`: `file` becomes a URL. |
| AppLayersDef.WithUrlOther | backend/munimap/app_layers_def.py:92-98 | Setting the source URL touches only `olLayer`. |
| AppLayersDef.WithUrlKeepsFile | backend/munimap/app_layers_def.py:92-98 | Setting the source URL keeps the layer type and the source's `file`. |
| AppLayersDef.GroupEntryLookup | backend/munimap/app_layers_def.py:138-150 | A group entry carries its name, its layers and its single-select flag. |
| AppLayersDef.PrepareOverlayGroupShape | backend/munimap/app_layers_def.py:121-150 | A sent group keeps its name, has layers, and is single-select iff listed as such. |
| CatalogNames.ParseNamesJoin | backend/munimap/app.py:214-216 | Comma-joined stripped non-empty names parse back as the same list. |
| CatalogNames.NonBlankFrom | backend/munimap/app.py:214 | Every parsed name is the stripped form of a piece. |
| CatalogNames.ParseNames | backend/munimap/app.py:210-216 | An empty parameter gives no names. Every name is non-empty and has no comma. |
| CatalogNames.AskedMembers | backend/munimap/app.py:222-233 | A summary is reported iff some entry with an asked name has it. |
| CatalogNames.CatalogNamesSpec | backend/munimap/app.py:207-235 | With no names the answer is two empty lists. Otherwise the matched groups come in overlay order and the matched layers in group and layer order, each as name and title. |
| CatalogNames.NonBlankKeeps | backend/munimap/app.py:214 | Stripped non-empty names pass the filter unchanged. |
| CatalogNames.MatchAllSpec | backend/munimap/app.py:222-226 | The group scan keeps exactly the groups with an asked name. |
| CatalogNames.ResolveSpec | backend/munimap/app.py:222-233 | The scan gives the asked groups and their asked layers. |
| Export.DashToStyle | backend/munimap/export.py:34-39 | A falsy value gives `solid`, and every result is `solid` or a style of the table. |
| Export.DashToStyleSpec | backend/munimap/export.py:24-39 | A truthy value whose text, spaces removed, is a key of the table gives that key's style. Any other truthy value gives `solid`. |
| Export.DashStrStyle | backend/munimap/export.py:24-39 | The same for dash values sent as strings, for every key of the table. |
| Export.DashIntList | backend/munimap/export.py:34-39 | A non-empty integer list is looked up by its compact text `[a,b,…]`. |
| Export.DashMapEntries | backend/munimap/export.py:24-31 | The table's keys are distinct, so each key maps to its own style. |
| Export.GeomType | backend/munimap/export.py:81-91 | The type at `geometry.type` (default empty), with `Multi` collapsed. A feature that is not a dict raises. |
| Export.BaseGeomType | backend/munimap/export.py:85-91 | Either the type itself, or the type with a `Multi` prefix removed. |
| Export.GeomTypeCollapse | backend/munimap/export.py:85-90 | The three `Multi*` types collapse to their base types, and the base types stay. |
| Export.BaseGeomTypeIdempotent | backend/munimap/export.py:81-91 | Collapsing twice changes nothing more. |
| Export.MapfishStyle | backend/munimap/export.py:42-78 | Styling succeeds iff the properties are a dict. |
| Export.MapfishStyleShape | backend/munimap/export.py:42-78 | `strokeLinecap` is always `round`. A text point has a label, `pointRadius` 0 and no stroke or fill keys. Otherwise the dash style is looked up, fill keys appear iff Point or Polygon, and `pointRadius` iff Point. |
| Export.StyleFeature | backend/munimap/export.py:102-108 | Feature i is styled from its properties and geometry and tagged with style id `str(i)`. |
| Export.TaggedKeeps | backend/munimap/export.py:108 | Tagging sets `properties.mapfishStyleId` and changes nothing else. |
| Export.DrawLayerSpec | backend/munimap/export.py:94-114 | The layer is `geojson`. Its styles carry version `1` and style property `mapfishStyleId`, and define style `str(i)` for every feature i. |
| Export.DrawLayerTagged | backend/munimap/export.py:102-108 | Feature i of the layer carries style id `str(i)` and keeps its other keys. |
| Export.DrawLayerFeatures | backend/munimap/export.py:94-114 | The layer's collection keeps every feature and every other key of the input. |
| Export.DrawLayerErrors | backend/munimap/export.py:94-114 | A collection that is not a dict, non-iterable or non-list features, and a feature that cannot be styled all raise. |
| Export.StyleLookup | backend/munimap/export.py:97-106 | Style ids are all digits, so they never clash with the fixed keys. |
| Export.WmsLayerShape | backend/munimap/export.py:143-155 | A print layer is a WMS layer with its base URL, its `LAYERS` split at commas, PNG images and transparency. It has an opacity iff its name is in `opacities`. |
| Export.WithOpacity | backend/munimap/export.py:153-155 | A listed opacity is set as a float, and nothing else changes. |
| Export.LayerListJoin | backend/munimap/export.py:146 | Splitting a comma-joined `LAYERS` parameter gives the names back. |
| Export.BaseUrl | backend/munimap/export.py:139-140 | Without a URL hash, the source's URL is used. With one, the hash map is consulted. |
| Export.SpecLayerForSkips | backend/munimap/export.py:129-157 | A missing or falsy definition is skipped. Otherwise a print layer is made iff the source type is `TiledWMS` and a base URL is found. |
| Export.SpecLayerForShape | backend/munimap/export.py:134-157 | A print layer is built from the source's `LAYERS`, the base URL and the requested opacity. |
| Export.SpecLayers | backend/munimap/export.py:128-157 | The loop succeeds iff every requested name can be handled. |
| Export.SpecLayersConcat | backend/munimap/export.py:128-157 | Print layers follow the order of the requested names. |
| Export.SpecLayersOne | backend/munimap/export.py:129-157 | Each requested name yields at most one print layer. |
| Export.DrawLayers | backend/munimap/export.py:160-163 | The draw layer is added iff `drawFeatures` is truthy and has truthy features. |
| Export.Center | backend/munimap/export.py:174-177 | The center is the midpoint of corners 0/2 and 1/3. A bbox with fewer than four entries raises an index error. |
| Export.Midpoint | backend/munimap/export.py:175-176 | Defined iff both values are numbers; twice the result is their sum. |
| Export.BuildSpecLayers | backend/munimap/export.py:119-179 | The map layers are the print layers in request order, with the draw layer last. The center is the bbox midpoint. |
| Export.BuildSpecSettings | backend/munimap/export.py:119-186 | Layout `A4 portrait`, the requested format, title `Kartenausdruck`, `EPSG:<srs>`, dpi 150, rotation 0 and the requested scale. |
| Export.BuildSpecDefaults | backend/munimap/export.py:119-178 | Without them, format is `pdf`, projection `EPSG:25832` and scale 2500. |
| Export.BuildSpecErrors | backend/munimap/export.py:117-188 | A request that is not a dict, or has no bbox, raises. |
| Export.StyleId | backend/munimap/export.py:108 | A style id is a non-empty string of digits. |
| Export.SpecLayerFor | backend/munimap/export.py:129-157 | A falsy definition gives no layer. A truthy one gives the tiled-WMS layer for it. |
| Export.BuildMapfishSpec | backend/munimap/export.py:117-188 | A spec exists only when the names, print layers, draw layers and center can all be computed. |
| Export.BuildSpecIsFrame | backend/munimap/export.py:166-186 | A built spec is the fixed frame around its map attributes. |
| Export.CenterMidpoint | backend/munimap/export.py:174-177 | For a numeric bbox the center is the midpoint of its corners. |
| Export.TextStyleShape | backend/munimap/export.py:46-62 | A text style has round caps, the label, `pointRadius` 0, and no stroke or fill keys. |
| Export.StrokeFillShape | backend/munimap/export.py:64-78 | A shape style has round caps and the looked-up dash style. It has fill keys iff Point or Polygon, and `pointRadius` iff Point. |
| Export.PyFloat | backend/munimap/export.py:155 | `float()` keeps integers and floats and fails exactly on values Python cannot convert. |
| Export.LayerList | backend/munimap/export.py:146 | One JSON string per comma field of `LAYERS`, in order. |
| Export.OpacityItem | backend/munimap/export.py:153-155 | `opacities[name]` on a dict and a string name, and an error otherwise. |
| Export.WmsEntriesHead | backend/munimap/export.py:143-151 | A WMS print layer names its type, its base URL and its layer list. |
| Export.WmsEntriesFormat | backend/munimap/export.py:147 | A WMS print layer asks for PNG images. |
| Export.WmsEntriesParams | backend/munimap/export.py:148-150 | A WMS print layer asks for transparency. |
| Export.WmsEntriesNoOpacity | backend/munimap/export.py:143-151 | A WMS print layer has no opacity before the opacity step. |

## Left out

- OpenLayers internals are abstract values: sources, tile grids, interactions, map overlays, pointer handlers, GeoJSON reading and writing, and `feature.clone`. A render handle is a record carrying visibility, opacity and the WMS request parameters.
- WMTS `createResolutions` and the projection registry's contents are not modelled. Projections and their extents are a parameter map.
- The Svelte `writable`/`derived`/`subscribe` plumbing is not modelled, nor the `update(s => ({...s}))` calls that only re-trigger subscribers.
- Network and I/O: `fetch` results are parameters. This covers the catalog requests, the print submission and the print status polls. Flask routes, the WMS proxy, `requests` calls, YAML loading, `os.listdir` and `load_app_config` are left out.
- `load_layers_config` is modelled only for its group-building part. Its `base` resolution loop is modelled one configuration at a time, by `ConfigMerge.ApplyBase`. The sha224 URL hashing and the `Layer`/`Source` wrappers are left out.
- searchStore, mapStore, configStore, StaticGeoJSON.ts, index.ts, constants.ts and vite.config.ts are not part of this model. They hold no state logic beyond OpenLayers or network calls.
- Factory.CreateLayer: construction exceptions are not modelled because no constructor of these classes throws. The only throw, in WMTS `createOlLayer`, appears as the `Err` of `Layers.AccessHandle`.
- Groups.VisibleLayers: states membership and count, not the order `filter` keeps. The order is visible in `FilterVisible`'s definition.
- AnolLayers.WithStyleShape: treats `style.pop('externalGraphicPrefix')` (layers.py:189) as pure. In the source the pop mutates the shared configuration object. A layer listed in two groups, or twice in one group, gets `externalGraphicPrefix` only on its first conversion. If its style held only the prefix, the second record has no `style` at all, because the emptied dict is falsy. The model gives every occurrence the prefix.
- PrintStore.Tick: each timer tick is one atomic step, with the status fetch's outcome as a parameter. The asynchronous `setInterval` callbacks of printStore.ts:205-245 could interleave between their `await` points. That is not modelled.
- Export.DashToStyle: Python floats are `JFloat` values holding a `real`, and `str()` of a float is an abstract `FloatText` parameter. NaN, infinities and float `repr` are not modelled. The same holds for the `PyStr` used by `AppLayersDef.SourceUrlPrecedence` on a hash and for `Export.PyFloat`'s `parseFloat`.
- AppLayersDef.IsActive: Python `==` and `in` compare across numeric types (`1 == 1.0 == True`). The model uses structural equality of JSON values instead. The same holds for `AppLayersDef.FirstWithNameSpec`, the `status == 'active'` test and the name comparisons of `CatalogNames` and `ConfigMerge.NameMatches`.
- UrlParams.ApplyUrlLayerState: `reorderGroups` and `getGroupByLayerName` are called but not defined in layerStore.ts. They are uninterpreted function parameters.
- CatalogStore.CompleteToggle: `addGroup` and `removeGroup` are likewise not defined in layerStore.ts. The model returns the requested change as a `CatalogEffect` value instead of applying it.
- ConfigMerge.ApplyBase: Python's recursion limit is a fuel parameter. Running out of fuel gives the `RecursionLimit` error, which is what a cyclic `base` chain produces.
- `log.warning` and `log.error` calls are dropped; they have no effect on the returned values.
- JsNumber.ParseInt: only radix 10 and 16 are modelled; radix 16 accepts the `0x`/`0X` prefix, as JavaScript does. Results are unbounded integers, so the loss of precision beyond 2^53 is not modelled.
- JsNumber.Clamp: JavaScript numbers are modelled as exact reals. NaN is not modelled, and neither is IEEE rounding. In the client `Math.max(lo, Math.min(hi, NaN))` is NaN, so for a NaN input the promised bounds [lo, hi] do not hold. The same applies to every member built on the clamp: Layers.SetOpacity, LayerStore.SetLayerOpacity, PrintStore.SetPageSize, PrintStore.SetScale, PrintStore.ApplyKeepsSettingsValid and PrintStore.RunKeepsSettingsValid.
- Layers.SetOpacity: the [0, 1] bound holds for every number except NaN. NaN is stored and forwarded to the handle unchanged (Layer.ts:89). The URL decoder never passes NaN, because it replaces a NaN percentage by 100 (urlParams.ts:9).
- PrintStore.SetPageSize: a NaN side, such as one from an emptied number field, is stored as NaN (printStore.ts:121-122). The model promises the [50, 1000] range for every input.
- PrintStore.SetScale: a NaN scale is stored as NaN (printStore.ts:134). The model promises the [100, 100000] range for every input.
- PrintStore.ApplyKeepsSettingsValid: one step keeps the settings in range only for non-NaN inputs in the client. The model's numbers have no NaN.
- PrintStore.RunKeepsSettingsValid: likewise, a single NaN page size or scale takes the client's settings out of range for the rest of the session.
- LayerStore.RunKeepsInv: across operation sequences, this lemma promises at most one visible background. Exactly one is proved by LayerStore.RunKeepsOneBackgroundShown, and only when no overlay layer carries `isBackground`. An overlay configured with `isBackground: true` keeps the flag: types.ts:125 allows it and factory.ts:57-63 does not clear it. Activating such an overlay by name hides every background and shows the overlay (layerStore.ts:86-92). A store that is reset or has no backgrounds shows none.
- DrawStore.HexToRgba: the opacity is passed as the text JavaScript would print for it. Number formatting is not modelled.
- PrintStore.BuildRequest: the bbox, the layer list and the serialised draw features are passed in. They come from the map view and OpenLayers' GeoJSON writer.

## Findings

| source | as written | input that shows it | evidently intended | confidence | as-written member | corrected member |
|---|---|---|---|---|---|---|
| src/lib/stores/printStore.ts:205 | `submitPrint` assigns a new `setInterval` to `pollInterval` without calling `stopPolling()` (70-75) first. | Two accepted submits, then `close()`: the first timer keeps running and can no longer be cleared. Its later polls clear the second timer, and after 120 attempts it marks a finished job as timed out. | Stop any running poll before starting a new one, so at most one timer runs and `close`/`reset` stop everything. | not executed | PrintStore.SubmitAcceptedAsWritten (with PrintStore.AsWrittenLeaksTimer, PrintStore.AsWrittenFinishClearsOtherTimer, PrintStore.AsWrittenStaleTimerFailsReadyJob) | PrintStore.SubmitAccepted (with PrintStore.RunKeepsTimersTracked, PrintStore.CorrectedCloseStopsEverything) |
| src/lib/stores/drawStore.ts:576-577 | `importGeoJSON` JSON-parses every string property that starts with `[`. | A text feature whose label is `[]`: it is exported as the string `[]` and imported back as an empty array. | Re-parse only the properties that were exported as JSON arrays (`strokeDash`), so export then import restores the style. | not executed | DrawStore.ImportedStyleAsWritten (with DrawStore.TextLabelReadAsArray, DrawStore.ImportAsWrittenBreaksTextLabel) | DrawStore.ImportedStyle (with DrawStore.ImportExportRoundTrip) |
