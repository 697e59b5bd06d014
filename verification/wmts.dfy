/** The WMTS layer variant: a REST tile template URL, matrix identifiers "0".."n-1",
    and the configuration defaults applied when the handle is created. */
module Wmts {
  import opened Util
  import opened LayerTypes
  import JsNumber

  const DefaultProjection := "EPSG:25832"
  const DefaultLevels: nat := 22
  const DefaultTileSize := 256

  const TemplateSuffix := "/{TileMatrixSet}/{TileMatrix}/{TileCol}/{TileRow}."

  /** The field after the first `/` of `format`, up to the next `/` or the end. */
  predicate FieldAfterFirstSlash(format: string, ext: string) {
    exists k | 0 <= k < |format| ::
      && format[k] == '/' && '/' !in format[..k]
      && StartsWith(format[k + 1..], ext) && '/' !in ext
      && (k + 1 + |ext| == |format| || format[k + 1 + |ext|] == '/')
  }

  /** The file extension: the second `/`-separated field of the format, `png`
      when the format has no `/`. */
  function Extension(format: string): (ext: string)
    ensures '/' !in format ==> ext == "png"
    ensures '/' in format ==> FieldAfterFirstSlash(format, ext)
  {
    var parts := Split(format, '/');
    if |parts| >= 2 then
      FirstFieldAfterSlash(format);
      parts[1]
    else "png"
  }

  lemma FirstFieldAfterSlash(format: string)
    requires |Split(format, '/')| >= 2
    ensures '/' in format
    ensures FieldAfterFirstSlash(format, Split(format, '/')[1])
  {
    var k := FindChar(format, '/').value;
    var rest := format[k + 1..];
    var ext := Split(format, '/')[1];
    assert ext == Split(rest, '/')[0];
    match FindChar(rest, '/')
    case None =>
      assert ext == rest;
      assert StartsWith(rest, rest);
      assert k + 1 + |ext| == |format|;
    case Some(j) =>
      assert ext == rest[..j];
      assert format[k + 1 + j] == rest[j];
  }

  /** For a MIME type `type/subtype` the extension is the subtype. */
  lemma ExtensionOfMimeType(mediaType: string, subtype: string)
    requires '/' !in mediaType && '/' !in subtype
    ensures Extension(mediaType + "/" + subtype) == subtype
  {
    SplitJoin([mediaType, subtype], '/');
    assert Join([mediaType, subtype], "/") == mediaType + "/" + subtype;
  }

  /** `buildUrl`: base URL, layer, the REST template and the extension. */
  function BuildUrl(source: SourceConfig, name: string): (url: string)
    ensures StartsWith(url, source.url.GetOr("") + source.layer.GetOr(name) + TemplateSuffix)
    ensures EndsWith(url, Extension(source.format.GetOr("image/png")))
    ensures |url| == |source.url.GetOr("") + source.layer.GetOr(name) + TemplateSuffix| +
      |Extension(source.format.GetOr("image/png"))|
  {
    var prefix := source.url.GetOr("") + source.layer.GetOr(name) + TemplateSuffix;
    var ext := Extension(source.format.GetOr("image/png"));
    assert (prefix + ext)[..|prefix|] == prefix;
    assert (prefix + ext)[|prefix + ext| - |ext|..] == ext;
    prefix + ext
  }

  /** `createMatrixIds`: one identifier per zoom level, the level's decimal numeral. */
  function MatrixIds(levels: nat): (ids: seq<string>)
    ensures |ids| == levels
    ensures forall i | 0 <= i < levels :: ids[i] == NatToString(i)
  {
    if levels == 0 then [] else MatrixIds(levels - 1) + [NatToString(levels - 1)]
  }

  /** Matrix identifiers are pairwise distinct and parse back to their level. */
  lemma MatrixIdsIdentifyLevels(levels: nat)
    ensures forall i | 0 <= i < levels :: JsNumber.ParseInt(MatrixIds(levels)[i], 10) == Some(i)
    ensures forall i, j | 0 <= i < levels && 0 <= j < levels && i != j :: MatrixIds(levels)[i] != MatrixIds(levels)[j]
  {
    var ids := MatrixIds(levels);
    forall i | 0 <= i < levels ensures JsNumber.ParseInt(ids[i], 10) == Some(i) {
      JsNumber.ParseIntNatToString(i);
    }
    forall i, j | 0 <= i < levels && 0 <= j < levels && i != j ensures ids[i] != ids[j] {
      NatToStringInjective(i, j);
    }
  }

  /** `tileSize ?? [256, 256]`, taking the first element of an array; an empty
      array yields no value. */
  function TileSizeValue(source: SourceConfig): (r: Option<int>)
    ensures source.tileSize.None? ==> r == Some(DefaultTileSize)
    ensures source.tileSize.Some? && source.tileSize.value.TileSizeNumber? ==> r == Some(source.tileSize.value.n)
    ensures source.tileSize.Some? && source.tileSize.value.TileSizeArray? ==>
      (r.Some? <==> |source.tileSize.value.items| > 0)
  {
    match source.tileSize
    case None => Some(DefaultTileSize)
    case Some(TileSizeNumber(n)) => Some(n)
    case Some(TileSizeArray(items)) => if |items| > 0 then Some(items[0]) else None
  }

  /** `createOlLayer`: fails when the projection is not registered, or when
      neither the source nor the projection supplies an extent. */
  function CreateHandle(source: SourceConfig, name: string, visible: bool, opacity: real,
                        registry: ProjectionRegistry): (r: Result<Handle, HandleError>)
    ensures source.projection.GetOr(DefaultProjection) !in registry <==>
      r == Err(ProjectionNotFound(source.projection.GetOr(DefaultProjection)))
    ensures r == Err(NoExtent(name)) <==>
      source.projection.GetOr(DefaultProjection) in registry
      && source.extent.None? && registry[source.projection.GetOr(DefaultProjection)].None?
    ensures r.Ok? ==>
      var code := source.projection.GetOr(DefaultProjection);
      && r.value.visible == visible && r.value.opacity == opacity
      && r.value.source.WmtsSource?
      && r.value.source.request.layer == source.layer.GetOr(name)
      && r.value.source.request.matrixSet == source.matrixSet.GetOr(code)
      && r.value.source.request.format == source.format.GetOr("image/png")
      && r.value.source.request.projection == code
      && |r.value.source.request.matrixIds| == source.levels.GetOr(DefaultLevels)
      && r.value.source.request.requestEncoding == "REST"
      && r.value.source.request.style == "default"
  {
    var code := source.projection.GetOr(DefaultProjection);
    if code !in registry then Err(ProjectionNotFound(code))
    else if source.extent.None? && registry[code].None? then Err(NoExtent(name))
    else
      var request := WmtsRequest(
        BuildUrl(source, name), source.layer.GetOr(name), source.matrixSet.GetOr(code),
        source.format.GetOr("image/png"), code, MatrixIds(source.levels.GetOr(DefaultLevels)),
        TileSizeValue(source), "REST", "default");
      Ok(Handle(visible, opacity, WmtsSource(request)))
  }
}
