/** The catalog panel: the group catalog loaded from the backend, which of its
    groups are on the map, and adding/removing a group by toggling its item.

    The HTTP responses are inputs here. Adding and removing groups are layer
    store operations the client calls but does not define, so a toggle reports
    the change it asks for (`CatalogEffect`) instead of performing it. */
module CatalogStore {
  import opened Util
  import opened LayerTypes
  import Groups
  import Factory
  import LayerStore

  datatype CatalogItem = CatalogItem(name: string, title: string, abstractText: string, metadataUrl: string)

  /** A catalog entry as the backend sends it; the text fields may be missing. */
  datatype RawItem = RawItem(name: string, title: string, abstractText: Option<string>, metadataUrl: Option<string>)

  datatype CatalogState = CatalogState(
    items: seq<CatalogItem>,
    isLoading: bool,
    error: Option<string>,
    isOpen: bool,
    configId: string,
    toggling: set<string>)

  const Initial := CatalogState([], false, None, false, "default", {})

  // -------------------------------------------------------------------------
  // Loading

  /** `abstract || ''` (`abstract` is a Dafny keyword, hence `abstractText`) and `metadataUrl || ''`. */
  function Normalize(raw: RawItem): (item: CatalogItem)
    ensures item.name == raw.name && item.title == raw.title
    ensures item.abstractText == (if raw.abstractText.Some? then raw.abstractText.value else "")
    ensures item.metadataUrl == (if raw.metadataUrl.Some? then raw.metadataUrl.value else "")
  {
    CatalogItem(raw.name, raw.title, raw.abstractText.GetOr(""), raw.metadataUrl.GetOr(""))
  }

  /** The start of `loadCatalog(configId)`. */
  function StartLoad(s: CatalogState, configId: string): (r: CatalogState)
    ensures r.isLoading && r.error.None? && r.configId == configId
    ensures r == s.(isLoading := true, error := None, configId := configId)
  {
    s.(isLoading := true, error := None, configId := configId)
  }

  /** What the catalog request produced: a response (status, and the
      `groups` list of its body if any), or a failure with its message. */
  datatype CatalogFetch =
    | CatalogResponse(ok: bool, status: nat, groups: Option<seq<RawItem>>)
    | CatalogRejected(message: Option<string>)

  /** The end of `loadCatalog`: items replaced on success, error text otherwise. */
  function FinishLoad(s: CatalogState, fetched: CatalogFetch): (r: CatalogState)
    ensures !r.isLoading
    ensures fetched.CatalogResponse? && fetched.ok ==>
      && r.error.None?
      && |r.items| == (if fetched.groups.Some? then |fetched.groups.value| else 0)
      && forall i | 0 <= i < |r.items| :: r.items[i] == Normalize(fetched.groups.value[i])
    ensures fetched.CatalogResponse? && !fetched.ok ==>
      r.items == s.items && r.error == Some("Failed to load catalog: " + NatToString(fetched.status))
    ensures fetched.CatalogRejected? ==>
      r.items == s.items && r.error == Some(fetched.message.GetOr("Failed to load catalog"))
    ensures r.isOpen == s.isOpen && r.configId == s.configId && r.toggling == s.toggling
  {
    match fetched
    case CatalogResponse(ok, status, groups) =>
      if ok then
        var raw := groups.GetOr([]);
        s.(items := seq(|raw|, i requires 0 <= i < |raw| => Normalize(raw[i])), isLoading := false, error := None)
      else
        s.(isLoading := false, error := Some("Failed to load catalog: " + NatToString(status)))
    case CatalogRejected(message) =>
      s.(isLoading := false, error := Some(message.GetOr("Failed to load catalog")))
  }

  // -------------------------------------------------------------------------
  // Items marked active

  datatype ActiveItem = ActiveItem(item: CatalogItem, active: bool)

  /** `catalogItems`: every item, in order, flagged active when an overlay group
      of the same name is on the map. */
  function CatalogItems(s: CatalogState, overlays: seq<Groups.Group>): (r: seq<ActiveItem>)
    ensures |r| == |s.items|
    ensures forall i | 0 <= i < |r| :: r[i].item == s.items[i]
    ensures forall i | 0 <= i < |r| ::
      r[i].active <==> exists g | 0 <= g < |overlays| :: overlays[g].name == s.items[i].name
  {
    var activeNames := set g | 0 <= g < |overlays| :: overlays[g].name;
    seq(|s.items|, i requires 0 <= i < |s.items| => ActiveItem(s.items[i], s.items[i].name in activeNames))
  }

  // -------------------------------------------------------------------------
  // Toggling an item

  /** The layer store change a toggle asks for. */
  datatype CatalogEffect = NoEffect | RemoveGroup(name: string) | AddGroup(group: Groups.Group)

  /** What the group request produced: a response (status, and the `group`
      of its body if any), or a failure with its message. */
  datatype GroupFetch =
    | GroupResponse(ok: bool, status: nat, group: Option<GroupConfig>)
    | GroupRejected(message: Option<string>)

  /** The guard at the start of `toggleItem`: a name already being toggled is
      refused; otherwise it is marked as in progress. */
  function BeginToggle(s: CatalogState, name: string): (r: (CatalogState, bool))
    ensures r.1 <==> name !in s.toggling
    ensures r.1 ==> r.0 == s.(toggling := s.toggling + {name})
    ensures !r.1 ==> r.0 == s
  {
    if name in s.toggling then (s, false) else (s.(toggling := s.toggling + {name}), true)
  }

  /** The body of `toggleItem` once the guard passed, including its `finally`:
      a group on the map is removed; otherwise its definition is fetched and
      the group built from it is added; failures set the error text. */
  function CompleteToggle(s: CatalogState, name: string, onMap: bool, fetched: GroupFetch): (r: (CatalogState, CatalogEffect))
    ensures r.0.toggling == s.toggling - {name}
    ensures r.0.items == s.items && r.0.isOpen == s.isOpen && r.0.configId == s.configId
    ensures r.0.isLoading == s.isLoading
    ensures onMap ==> r.1 == RemoveGroup(name) && r.0.error == s.error
    ensures !onMap ==> !r.1.RemoveGroup?
    ensures r.1.AddGroup? <==>
      !onMap && fetched.GroupResponse? && fetched.ok && fetched.group.Some?
    ensures r.1.AddGroup? ==> r.1.group == Factory.CreateGroup(fetched.group.value) && r.0.error == s.error
    ensures !onMap && fetched.GroupResponse? && !fetched.ok ==>
      r.0.error == Some("Failed to load group: " + NatToString(fetched.status))
    ensures !onMap && fetched.GroupResponse? && fetched.ok && fetched.group.None? ==>
      r.0.error == Some("Group definition not found")
    ensures !onMap && fetched.GroupRejected? ==> r.0.error == Some(fetched.message.GetOr("Failed to add group"))
  {
    var released := s.(toggling := s.toggling - {name});
    if onMap then (released, RemoveGroup(name))
    else
      match fetched
      case GroupResponse(ok, status, group) =>
        if !ok then (released.(error := Some("Failed to load group: " + NatToString(status))), NoEffect)
        else if group.None? then (released.(error := Some("Group definition not found")), NoEffect)
        else (released, AddGroup(Factory.CreateGroup(group.value)))
      case GroupRejected(message) =>
        (released.(error := Some(message.GetOr("Failed to add group"))), NoEffect)
  }

  /** `toggleItem(name)` run to completion without interleaving; whether the
      group is on the map is `getGroupByName` on the layer store. */
  function ToggleItem(s: CatalogState, store: LayerStore.Store, name: string, fetched: GroupFetch): (r: (CatalogState, CatalogEffect))
    ensures name in s.toggling ==> r == (s, NoEffect)
    ensures name !in s.toggling ==> r.0.toggling == s.toggling
    ensures name !in s.toggling && LayerStore.GetGroupByName(store, name).Some? ==> r.1 == RemoveGroup(name)
  {
    var (s1, proceed) := BeginToggle(s, name);
    if !proceed then (s, NoEffect)
    else CompleteToggle(s1, name, LayerStore.GetGroupByName(store, name).Some?, fetched)
  }

  /** Two toggles of the same item that overlap: the second one, started while
      the first is in progress, does nothing; once the first completes the name
      is free again. */
  lemma OverlappingToggles(s: CatalogState, name: string, onMap: bool, fetched: GroupFetch, onMap2: bool, fetched2: GroupFetch)
    requires name !in s.toggling
    ensures var (s1, first) := BeginToggle(s, name);
      var (s2, second) := BeginToggle(s1, name);
      var (s3, _) := CompleteToggle(s2, name, onMap, fetched);
      first && !second && s2 == s1 && s3.toggling == s.toggling
      && BeginToggle(s3, name).1
  {
  }

  // -------------------------------------------------------------------------
  // The panel

  function Toggle(s: CatalogState): (r: CatalogState)
    ensures r.isOpen != s.isOpen && r == s.(isOpen := r.isOpen)
  {
    s.(isOpen := !s.isOpen)
  }

  function Close(s: CatalogState): (r: CatalogState)
    ensures !r.isOpen && r == s.(isOpen := false)
  {
    s.(isOpen := false)
  }
}
