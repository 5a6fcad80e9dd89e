/**
 * The utilities at the end of index.js: the two configuration merges used by
 * the `url` helper, and the "already safe" string wrapper every helper returns.
 */
module SitemapUtils {
  import opened JsValues

  /** A string marked as already escaped, so that the template engine does not
      escape it again. Concatenating one with a string uses `ToString`. */
  datatype SafeString = SafeString(str: string) {
    function ToString(): string {
      str
    }
  }

  /** The keys a merge copies from a source: the fields of a record, nothing
      from any other value. */
  function AsFields(v: JsValue): map<string, JsValue> {
    if v.Obj? then v.fields else map[]
  }

  function Get(m: map<string, JsValue>, k: string): Option<JsValue> {
    if k in m then Some(m[k]) else None
  }

  /** `assign({}, a, b)`: a fresh record with the fields of `a`, overridden by
      those of `b`. */
  function Assign(a: JsValue, b: JsValue): JsValue {
    Obj(map[] + AsFields(a) + AsFields(b))
  }

  /** Precedence reference: the value of key `k` in the last (most specific)
      of `layers` that defines it. */
  function MostSpecific(layers: seq<JsValue>, k: string): Option<JsValue>
    decreases |layers|
  {
    if layers == [] then None
    else if k in AsFields(layers[|layers| - 1]) then Some(AsFields(layers[|layers| - 1])[k])
    else MostSpecific(layers[..|layers| - 1], k)
  }

  /** The configuration layers of one `url` call, least specific first:
      the root data, its `sitemap` settings, the item's data, and the item's
      own `sitemap` settings. */
  function DataLayers(item: JsValue, options: JsValue): seq<JsValue> {
    [ GetPath(options, ["data", "root"]), GetPath(options, ["data", "root", "sitemap"]),
      Field(item, "data"), GetPath(item, ["data", "sitemap"]) ]
  }

  /** `globalData(options)`: the root data overridden by `root.sitemap`. */
  function GlobalData(options: JsValue): (r: JsValue)
    ensures r.Obj?
    ensures forall k ::
      Get(r.fields, k) == MostSpecific([GetPath(options, ["data", "root"]), GetPath(options, ["data", "root", "sitemap"])], k)
  {
    var sitemap := GetPath(options, ["data", "root", "sitemap"]);
    var data := GetPath(options, ["data", "root"]);
    AssignIsMostSpecific(data, sitemap);
    Assign(data, sitemap)
  }

  /** `itemData(item)`: the item's data overridden by its `sitemap` settings;
      reading `item.data` throws when the item itself is missing. */
  function ItemData(item: JsValue): (r: Result<JsValue>)
    ensures r.Err? <==> IsNullish(item)
    ensures r.Err? ==> r.error == NullishAccess("data")
    ensures r.Ok? ==> r.value.Obj? && forall k ::
      Get(r.value.fields, k) == MostSpecific([Field(item, "data"), GetPath(item, ["data", "sitemap"])], k)
  {
    var sitemap := GetPath(item, ["data", "sitemap"]);
    var data :- Prop(item, "data");
    AssignIsMostSpecific(data, sitemap);
    Ok(Assign(data, sitemap))
  }

  /** `assign({}, globalData(options), itemData(item))`, the data every field
      helper sees inside `url`: item settings beat global settings, and a
      `sitemap` block beats the record it sits in. */
  function MergedData(item: JsValue, options: JsValue): (r: Result<JsValue>)
    ensures r.Err? <==> IsNullish(item)
    ensures r.Err? ==> r.error == NullishAccess("data")
    ensures r.Ok? ==> r.value.Obj? && forall k :: Get(r.value.fields, k) == MostSpecific(DataLayers(item, options), k)
  {
    var itemData :- ItemData(item);
    MergedIsMostSpecific(item, options);
    Ok(Assign(GlobalData(options), itemData))
  }

  /** Two layers: the later one wins where it defines the key. */
  lemma {:induction false} MostSpecificPair(a: JsValue, b: JsValue, k: string)
    ensures MostSpecific([a, b], k) ==
      if k in AsFields(b) then Some(AsFields(b)[k]) else if k in AsFields(a) then Some(AsFields(a)[k]) else None
  {
    assert [a, b][..1] == [a];
    assert [a][..0] == [];
    assert MostSpecific([a], k) == if k in AsFields(a) then Some(AsFields(a)[k]) else MostSpecific([], k);
  }

  /** Four layers: the last two are consulted first, then the first two. */
  lemma {:induction false} MostSpecificFour(layers: seq<JsValue>, k: string)
    requires |layers| == 4
    ensures MostSpecific(layers, k) ==
      match MostSpecific(layers[2..], k)
      case Some(v) => Some(v)
      case None => MostSpecific(layers[..2], k)
  {
    assert layers[..3][..2] == layers[..2];
    assert layers[2..] == [layers[2], layers[3]];
    MostSpecificPair(layers[2], layers[3], k);
  }

  lemma AssignIsMostSpecific(a: JsValue, b: JsValue)
    ensures forall k :: Get(Assign(a, b).fields, k) == MostSpecific([a, b], k)
  {
    forall k ensures Get(Assign(a, b).fields, k) == MostSpecific([a, b], k) {
      MostSpecificPair(a, b, k);
    }
  }

  lemma MergedIsMostSpecific(item: JsValue, options: JsValue)
    requires !IsNullish(item)
    ensures forall k :: Get(Assign(GlobalData(options), ItemData(item).value).fields, k)
                      == MostSpecific(DataLayers(item, options), k)
  {
    var layers := DataLayers(item, options);
    assert layers[..2] == [layers[0], layers[1]];
    assert layers[2..] == [layers[2], layers[3]];
    forall k ensures Get(Assign(GlobalData(options), ItemData(item).value).fields, k) == MostSpecific(layers, k) {
      MostSpecificFour(layers, k);
    }
  }
}
