/**
 * The sitemap helpers of index.js: `tag`, `urlset`, `loc`, `lastmod`,
 * `changefreq`, `priority`, `url` and `filterItems`. Each takes the values the
 * template engine passes and either throws (an `Err`) or returns one safe
 * string.
 */
module SitemapHelpers {
  import opened JsValues
  import opened Host
  import opened SitemapUtils
  import opened UrlLayout

  const NameNotString := "expected name to be a string"
  const UrlsetNotArray := "expected sitemap.urlset to be an array"
  const UrlNotString := "expected url to be a string"
  const RelativeNotString := "expected item.relative to be a string"
  const DefaultChangefreq := "weekly"
  const DefaultPriority := "0.5"

  // ---------------------------------------------------------------- tag

  /** The `(name, options)` call shape: the second argument is the engine's
      options record, recognised by its `hash`. */
  predicate IsHashOptions(context: JsValue) {
    IsObject(context) && Truthy(Field(context, "hash"))
  }

  /** `tag(name, context, options)`: an element named `name` with the
      attributes in `options.hash`, wrapping `context` when it is a string. */
  function Tag(h: Host, name: JsValue, context: JsValue, options: JsValue): (r: Result<SafeString>)
    ensures !name.Str? ==> r == Err(TypeError(NameNotString))
    ensures name.Str? && IsHashOptions(context) ==>
      r == Ok(SafeString(h.toHtml(name, Field(context, "hash"), Str(""))))
    ensures name.Str? && !IsHashOptions(context) && IsNullish(options) ==>
      r == Err(NullishAccess("hash"))
    ensures name.Str? && context.Str? && !IsNullish(options) ==>
      r == Ok(SafeString(h.toHtml(name, Field(options, "hash"), context)))
    ensures name.Str? && !context.Str? && !IsHashOptions(context) && !IsNullish(options) ==>
      r == Ok(SafeString(h.toHtml(name, Field(options, "hash"), Str(""))))
  {
    if !name.Str? then Err(TypeError(NameNotString))
    else
      var text := "";
      var (options, context) :=
        if IsObject(context) && Truthy(Field(context, "hash")) then (context, Null) else (options, context);
      var text := if context.Str? then context.s else text;
      var hash :- Prop(options, "hash");
      Ok(SafeString(h.toHtml(name, hash, Str(text))))
  }

  // ------------------------------------------------------------- urlset

  /** The places `urlset` looks for the list, in the order it tries them. */
  function UrlsetProbes(options: JsValue): seq<JsValue> {
    [ GetPath(options, ["data", "root", "items"]),
      GetPath(options, ["data", "root", "sitemap", "items"]),
      GetPath(options, ["data", "root", "sitemap", "urlset"]) ]
  }

  /** `urlset(items, options)`: an array argument is returned as it is;
      otherwise the first truthy probe is taken, and it must be an array. */
  function Urlset(items: JsValue, options: JsValue): (r: Result<JsValue>)
    ensures items.Arr? ==> r == Ok(items)
    ensures !items.Arr? ==>
      var chosen := Coalesce(UrlsetProbes(options));
      r == if chosen.Arr? then Ok(chosen) else Err(TypeError(UrlsetNotArray))
    ensures r.Ok? ==> r.value.Arr?
  {
    if items.Arr? then Ok(items)
    else
      var probes := UrlsetProbes(options);
      var items := Or(Or(probes[0], probes[1]), probes[2]);
      OrChain3(probes[0], probes[1], probes[2]);
      assert probes == [probes[0], probes[1], probes[2]];
      if !items.Arr? then Err(TypeError(UrlsetNotArray)) else Ok(items)
  }

  /** The first truthy probe decides, and the later ones are never consulted:
      a truthy non-array found early is an error even when a later probe
      holds an array. */
  lemma UrlsetFirstTruthyProbeDecides(items: JsValue, options: JsValue, i: nat)
    requires !items.Arr? && i < 3
    requires Truthy(UrlsetProbes(options)[i])
    requires forall j :: 0 <= j < i ==> !Truthy(UrlsetProbes(options)[j])
    ensures var p := UrlsetProbes(options)[i];
      Urlset(items, options) == if p.Arr? then Ok(p) else Err(TypeError(UrlsetNotArray))
  {
    var probes := UrlsetProbes(options);
    assert Truthy(Coalesce(probes));
    var k :| 0 <= k < |probes| && Coalesce(probes) == probes[k] && forall j :: 0 <= j < k ==> !Truthy(probes[j]);
    assert Truthy(probes[k]);
  }

  /** `urlset` fails exactly when it is not given an array and no probe up to
      and including the first truthy one yields an array. */
  lemma UrlsetFailsIff(items: JsValue, options: JsValue)
    ensures Urlset(items, options).Err? <==>
      !items.Arr? && forall i :: 0 <= i < 3 && UrlsetProbes(options)[i].Arr? ==>
        exists j :: 0 <= j < i && Truthy(UrlsetProbes(options)[j])
  {
    var probes := UrlsetProbes(options);
    if !items.Arr? {
      var chosen := Coalesce(probes);
      if Truthy(chosen) {
        var k :| 0 <= k < |probes| && chosen == probes[k] && forall j :: 0 <= j < k ==> !Truthy(probes[j]);
        if chosen.Arr? {
          assert !exists j :: 0 <= j < k && Truthy(probes[j]);
        } else {
          forall i | 0 <= i < 3 && probes[i].Arr?
            ensures exists j :: 0 <= j < i && Truthy(probes[j])
          {
            assert i != k && Truthy(probes[i]);
            assert i > k;
          }
        }
      } else {
        assert forall i :: 0 <= i < 3 ==> !Truthy(probes[i]);
      }
    }
  }

  // ---------------------------------------------------------------- loc

  /** `item.data.dest`, read without throwing. */
  function ItemDest(item: JsValue): JsValue {
    Field(Field(item, "data"), "dest")
  }

  /** Both output roots are set, so the relative path is rebased. */
  predicate DestsSet(item: JsValue, data: JsValue) {
    Truthy(ItemDest(item)) && Truthy(Field(data, "dest"))
  }

  /** What `loc` demands of its arguments. */
  predicate LocAccepts(item: JsValue, data: JsValue) {
    && !IsNullish(data) && Field(data, "url").Str?
    && !IsNullish(item) && Field(item, "relative").Str?
    && !IsNullish(Field(item, "data"))
    && (DestsSet(item, data) ==> Field(data, "dest").Str? && ItemDest(item).Str?)
  }

  /** `path.join(path.relative(from, to), rel)`; Node rejects a non-string
      `from` or `to`. */
  function Rebase(h: Host, from: JsValue, to: JsValue, rel: string): Result<string> {
    if !from.Str? then Err(InvalidArgType("from"))
    else if !to.Str? then Err(InvalidArgType("to"))
    else Ok(h.join(h.relative(from.s, to.s), rel))
  }

  /** `loc(item, data)`: `<loc>` holding `data.url` resolved against the
      item's path, rebased from `data.dest` to `item.data.dest` when both are
      set. */
  function Loc(h: Host, item: JsValue, data: JsValue): (r: Result<SafeString>)
    ensures r.Ok? <==> LocAccepts(item, data)
    ensures IsNullish(data) ==> r == Err(NullishAccess("url"))
    ensures !IsNullish(data) && !Field(data, "url").Str? ==> r == Err(TypeError(UrlNotString))
    ensures !IsNullish(data) && Field(data, "url").Str? && IsNullish(item) ==>
      r == Err(NullishAccess("relative"))
    ensures !IsNullish(data) && Field(data, "url").Str? && !IsNullish(item) && !Field(item, "relative").Str? ==>
      r == Err(TypeError(RelativeNotString))
    ensures (&& !IsNullish(data) && Field(data, "url").Str? && !IsNullish(item) && Field(item, "relative").Str?
             && IsNullish(Field(item, "data"))) ==> r == Err(NullishAccess("dest"))
    ensures r.Ok? && !DestsSet(item, data) ==>
      r.value.str == Element(h, "loc", Str(h.resolve(Field(data, "url").s, Field(item, "relative").s)))
    ensures r.Ok? && DestsSet(item, data) ==>
      var rebased := h.join(h.relative(Field(data, "dest").s, ItemDest(item).s), Field(item, "relative").s);
      r.value.str == Element(h, "loc", Str(h.resolve(Field(data, "url").s, rebased)))
  {
    var url :- Prop(data, "url");
    if !url.Str? then Err(TypeError(UrlNotString))
    else
      var relative :- Prop(item, "relative");
      if !relative.Str? then Err(TypeError(RelativeNotString))
      else
        var itemData := Field(item, "data"); // `item` is known to be present here
        var itemDest :- Prop(itemData, "dest");
        var rel :- if Truthy(itemDest) && Truthy(Field(data, "dest"))
          then Rebase(h, Field(data, "dest"), itemDest, relative.s)
          else Ok(relative.s);
        Ok(SafeString(Element(h, "loc", Str(h.resolve(url.s, rel)))))
  }

  // ------------------------------------------------------------ lastmod

  /** `item.stat && item.stat.mtime` for an item that is not missing. */
  function StatMtime(item: JsValue): JsValue {
    var stat := Field(item, "stat");
    if Truthy(stat) then Field(stat, "mtime") else stat
  }

  /** `lastmod(item, data)`: `<lastmod>` holding the first available of
      `data.lastModified`, `data.lastmod`, the item's modification time and
      the current time `now`, as a date. */
  function Lastmod(h: Host, now: int, item: JsValue, data: JsValue): (r: Result<SafeString>)
    ensures r.Err? <==>
      IsNullish(data) || (!Truthy(Field(data, "lastModified")) && !Truthy(Field(data, "lastmod")) && IsNullish(item))
    ensures IsNullish(data) ==> r == Err(NullishAccess("lastModified"))
    ensures r.Err? && !IsNullish(data) ==> r == Err(NullishAccess("stat"))
    ensures r.Ok? ==>
      var date := Coalesce([Field(data, "lastModified"), Field(data, "lastmod"), StatMtime(item), Date(now)]);
      r.value.str == Element(h, "lastmod", Str(h.formatDate(date)))
  {
    var lastModified :- Prop(data, "lastModified");
    var date :-
      if Truthy(lastModified) then Ok(lastModified)
      else
        (var lastmod := Field(data, "lastmod"); // `data` is known to be present here
         if Truthy(lastmod) then Ok(lastmod)
         else
           (var stat :- Prop(item, "stat");
            if Truthy(stat) then Prop(stat, "mtime") else Ok(stat)));
    var res := h.formatDate(Or(date, Date(now)));
    LastmodChain(Field(data, "lastModified"), Field(data, "lastmod"), StatMtime(item), Date(now));
    Ok(SafeString(Element(h, "lastmod", Str(res))))
  }

  lemma LastmodChain(a: JsValue, b: JsValue, c: JsValue, d: JsValue)
    ensures Or(Or(a, Or(b, c)), d) == Coalesce([a, b, c, d])
  {
    assert [a, b, c, d][1..] == [b, c, d];
    assert [b, c, d][1..] == [c, d];
    assert [c, d][1..] == [d];
    assert Coalesce([c, d]) == Or(c, d);
    assert Coalesce([b, c, d]) == Or(b, Or(c, d));
    assert Coalesce([a, b, c, d]) == Or(a, Or(b, Or(c, d)));
  }

  // ----------------------------------------------- changefreq, priority

  /** `changefreq(item, data)`: `<changefreq>` holding `data.changefreq`,
      or "weekly" when that is unset, empty, zero or false. */
  function Changefreq(h: Host, item: JsValue, data: JsValue): (r: Result<SafeString>)
    ensures r.Err? <==> IsNullish(data)
    ensures r.Err? ==> r.error == NullishAccess("changefreq")
    ensures r.Ok? && Truthy(Field(data, "changefreq")) ==>
      r.value.str == Element(h, "changefreq", Field(data, "changefreq"))
    ensures r.Ok? && !Truthy(Field(data, "changefreq")) ==>
      r.value.str == Element(h, "changefreq", Str("weekly"))
  {
    var changefreq :- Prop(data, "changefreq");
    Ok(SafeString(Element(h, "changefreq", Or(changefreq, Str(DefaultChangefreq)))))
  }

  /** `priority(item, data)`: `<priority>` holding `data.priority`, or "0.5"
      when that is unset, empty, zero or false. */
  function Priority(h: Host, item: JsValue, data: JsValue): (r: Result<SafeString>)
    ensures r.Err? <==> IsNullish(data)
    ensures r.Err? ==> r.error == NullishAccess("priority")
    ensures r.Ok? && Truthy(Field(data, "priority")) ==>
      r.value.str == Element(h, "priority", Field(data, "priority"))
    ensures r.Ok? && !Truthy(Field(data, "priority")) ==>
      r.value.str == Element(h, "priority", Str("0.5"))
  {
    var priority :- Prop(data, "priority");
    Ok(SafeString(Element(h, "priority", Or(priority, Str(DefaultPriority)))))
  }

  /** Neither default helper looks at the item. */
  lemma DefaultsIgnoreItem(h: Host, item1: JsValue, item2: JsValue, data: JsValue)
    ensures Changefreq(h, item1, data) == Changefreq(h, item2, data)
    ensures Priority(h, item1, data) == Priority(h, item2, data)
  {
  }

  // ---------------------------------------------------------------- url

  /** `url(item, options)`: the `<url>` element for one item, built from the
      merged data with `loc`, `lastmod`, `changefreq` and `priority` in that
      order. */
  function Url(h: Host, now: int, item: JsValue, options: JsValue): (r: Result<SafeString>)
    ensures IsNullish(item) ==> r == Err(NullishAccess("data"))
    ensures !IsNullish(item) ==>
      var data := MergedData(item, options).value;
      && (r.Ok? <==> LocAccepts(item, data))
      && (r.Err? ==> r == Err(Loc(h, item, data).error))
      && (r.Ok? ==>
            var children := [ Loc(h, item, data).value.str, Lastmod(h, now, item, data).value.str,
                              Changefreq(h, item, data).value.str, Priority(h, item, data).value.str ];
            r.value.str == Element(h, "url", Str(UrlText(children))))
  {
    var data :- MergedData(item, options);
    var loc :- Loc(h, item, data);
    // `data` is a record and `item` is present, so these three cannot throw
    var lastmod := Lastmod(h, now, item, data).value;
    var changefreq := Changefreq(h, item, data).value;
    var priority := Priority(h, item, data).value;
    var text := "\n";
    var text := text + "    " + loc.ToString() + "\n";
    var text := text + "    " + lastmod.ToString() + "\n";
    var text := text + "    " + changefreq.ToString() + "\n";
    var text := text + "    " + priority.ToString() + "\n";
    var text := text + "  ";
    UrlTextOfFour(loc.str, lastmod.str, changefreq.str, priority.str);
    Ok(SafeString(Element(h, "url", Str(text))))
  }

  // -------------------------------------------------------- filterItems

  /** The test `filterItems` applies to one item: keep it unless its stem is
      "sitemap" or its `data.sitemap` is exactly `false`. */
  function KeepItem(item: JsValue): (r: Result<bool>)
    ensures r.Err? <==> IsNullish(item) || (Field(item, "stem") != Str("sitemap") && IsNullish(Field(item, "data")))
    ensures r.Err? ==> r.error == if IsNullish(item) then NullishAccess("stem") else NullishAccess("sitemap")
    ensures r == Ok(true) <==>
      && !IsNullish(item) && Field(item, "stem") != Str("sitemap")
      && !IsNullish(Field(item, "data")) && Field(Field(item, "data"), "sitemap") != Bool(false)
  {
    var stem :- Prop(item, "stem");
    if stem == Str("sitemap") then Ok(false)
    else
      var data := Field(item, "data"); // `item` is known to be present here
      var sitemap :- Prop(data, "sitemap");
      Ok(sitemap != Bool(false))
  }

  /** `Array.prototype.filter` with `KeepItem`: the test runs on the items in
      order, and the first one that throws aborts the whole call. */
  function FilterSeq(items: seq<JsValue>): (r: Result<seq<JsValue>>)
    ensures r.Ok? <==> forall i :: 0 <= i < |items| ==> KeepItem(items[i]).Ok?
    ensures r.Ok? ==> forall x :: x in r.value ==> x in items && KeepItem(x) == Ok(true)
    decreases |items|
  {
    if items == [] then Ok([])
    else
      var keep :- KeepItem(items[0]);
      var rest :- FilterSeq(items[1..]);
      assert forall i :: 1 <= i < |items| ==> items[i] == items[1..][i - 1];
      Ok(if keep then [items[0]] + rest else rest)
  }

  /** `sub` is `s` with some elements left out, in their original order. */
  predicate IsSubsequence(sub: seq<JsValue>, s: seq<JsValue>)
    decreases |s|
  {
    if sub == [] then true
    else if s == [] then false
    else (sub[0] == s[0] && IsSubsequence(sub[1..], s[1..])) || IsSubsequence(sub, s[1..])
  }

  lemma {:induction false} FilterIsSubsequence(items: seq<JsValue>)
    requires FilterSeq(items).Ok?
    ensures IsSubsequence(FilterSeq(items).value, items)
    decreases |items|
  {
    if items != [] {
      FilterIsSubsequence(items[1..]);
      var r := FilterSeq(items).value;
      var rest := FilterSeq(items[1..]).value;
      if KeepItem(items[0]) == Ok(true) {
        assert r == [items[0]] + rest;
        assert r[1..] == rest;
      } else {
        assert r == rest;
      }
    }
  }

  /** An item that passes the test is kept as often as it occurs, and an
      item that does not pass is not kept at all. */
  lemma {:induction false} FilterCount(items: seq<JsValue>, x: JsValue)
    requires FilterSeq(items).Ok?
    ensures multiset(FilterSeq(items).value)[x] == if KeepItem(x) == Ok(true) then multiset(items)[x] else 0
    decreases |items|
  {
    if items != [] {
      FilterCount(items[1..], x);
      assert items == [items[0]] + items[1..];
      var rest := FilterSeq(items[1..]).value;
      if KeepItem(items[0]) == Ok(true) {
        assert FilterSeq(items).value == [items[0]] + rest;
      } else {
        assert FilterSeq(items).value == rest;
      }
    }
  }

  lemma FilterKeepsExactly(items: seq<JsValue>)
    requires FilterSeq(items).Ok?
    ensures forall x ::
      multiset(FilterSeq(items).value)[x] == if KeepItem(x) == Ok(true) then multiset(items)[x] else 0
  {
    forall x ensures multiset(FilterSeq(items).value)[x] == if KeepItem(x) == Ok(true) then multiset(items)[x] else 0 {
      FilterCount(items, x);
    }
  }

  /** When the filter throws, it throws the error of the first item whose
      test throws. */
  lemma {:induction false} FilterFirstError(items: seq<JsValue>)
    requires FilterSeq(items).Err?
    ensures exists j ::
      && 0 <= j < |items| && KeepItem(items[j]).Err?
      && FilterSeq(items).error == KeepItem(items[j]).error
      && forall i :: 0 <= i < j ==> KeepItem(items[i]).Ok?
    decreases |items|
  {
    if KeepItem(items[0]).Err? {
      assert 0 < |items| && KeepItem(items[0]).Err? && FilterSeq(items).error == KeepItem(items[0]).error;
    } else {
      FilterFirstError(items[1..]);
      var j :| 0 <= j < |items[1..]| && KeepItem(items[1..][j]).Err?
        && FilterSeq(items[1..]).error == KeepItem(items[1..][j]).error
        && forall i :: 0 <= i < j ==> KeepItem(items[1..][i]).Ok?;
      assert items[1..][j] == items[j + 1];
      assert forall i :: 0 <= i < j + 1 ==> KeepItem(items[i]).Ok? by {
        forall i | 0 <= i < j + 1 ensures KeepItem(items[i]).Ok? {
          if i > 0 { assert items[i] == items[1..][i - 1]; }
        }
      }
    }
  }

  /** `filterItems(items)`: the items that pass `KeepItem`, in their
      original order; the input is a value and is left as it was. A missing
      list or one without a `filter` method throws. */
  function FilterItems(items: JsValue): (r: Result<JsValue>)
    ensures IsNullish(items) ==> r == Err(NullishAccess("filter"))
    ensures !IsNullish(items) && !items.Arr? ==> r == Err(NotAFunction("filter"))
    ensures items.Arr? ==> (r.Ok? <==> forall i :: 0 <= i < |items.elems| ==> KeepItem(items.elems[i]).Ok?)
    ensures r.Ok? ==> items.Arr? && r.value.Arr? && IsSubsequence(r.value.elems, items.elems)
    ensures r.Ok? ==> forall x ::
      multiset(r.value.elems)[x] == if KeepItem(x) == Ok(true) then multiset(items.elems)[x] else 0
  {
    if IsNullish(items) then Err(NullishAccess("filter"))
    else if !items.Arr? then Err(NotAFunction("filter"))
    else
      var kept :- FilterSeq(items.elems);
      FilterIsSubsequence(items.elems);
      FilterKeepsExactly(items.elems);
      Ok(Arr(kept))
  }
}
