/**
 * Worked cases after the repository's tests: a site configured with a base
 * URL (and sometimes a change frequency and a priority), its pages, and the
 * lists a sitemap is built from.
 */
module SitemapExamples {
  import opened JsValues
  import opened Host
  import opened SitemapUtils
  import opened UrlLayout
  import opened SitemapHelpers

  /** Render options whose root data carries the site's `sitemap` settings,
      as `app.data('sitemap', settings)` leaves them. */
  function SiteOptions(settings: map<string, JsValue>): JsValue {
    Obj(map["data" := Obj(map["root" := Obj(map["sitemap" := Obj(settings)])])])
  }

  /** A page `<stem>.html` with its own data and its file's modification time. */
  function Page(stem: string, data: map<string, JsValue>, mtime: int): JsValue {
    Obj(map["stem" := Str(stem), "relative" := Str(stem + ".html"), "data" := Obj(data),
            "stat" := Obj(map["mtime" := Date(mtime)])])
  }

  /** Settings that give all three values. */
  function FullSettings(url: string, changefreq: string, priority: string): map<string, JsValue> {
    map["url" := Str(url), "changefreq" := Str(changefreq), "priority" := Str(priority)]
  }

  /** What `url` sees for a page without data of its own: the site's
      settings, and the settings record itself under `sitemap`. */
  lemma PlainPageSees(stem: string, mtime: int, settings: map<string, JsValue>, k: string)
    ensures MergedData(Page(stem, map[], mtime), SiteOptions(settings)).Ok?
    ensures Field(MergedData(Page(stem, map[], mtime), SiteOptions(settings)).value, k) ==
      if k in settings then settings[k] else if k == "sitemap" then Obj(settings) else Undefined
  {
    var item := Page(stem, map[], mtime);
    var options := SiteOptions(settings);
    var layers := DataLayers(item, options);
    assert layers[0] == Obj(map["sitemap" := Obj(settings)]) by {
      assert ["data", "root"][1..] == ["root"] && ["root"][1..] == [];
    }
    assert layers[1] == Obj(settings) by {
      assert ["data", "root", "sitemap"][1..] == ["root", "sitemap"];
      assert ["root", "sitemap"][1..] == ["sitemap"] && ["sitemap"][1..] == [];
    }
    assert layers[2] == Obj(map[]);
    assert layers[3] == Undefined by {
      assert ["data", "sitemap"][1..] == ["sitemap"] && ["sitemap"][1..] == [];
    }
    MostSpecificFour(layers, k);
    assert layers[2..] == [layers[2], layers[3]] && layers[..2] == [layers[0], layers[1]];
    MostSpecificPair(layers[2], layers[3], k);
    MostSpecificPair(layers[0], layers[1], k);
  }

  /** The location of a plain page: the site URL resolved against the
      page's path, as no `dest` is set. */
  lemma PlainPageLoc(h: Host, stem: string, mtime: int, data: JsValue, url: string)
    requires data.Obj? && Field(data, "url") == Str(url) && Field(data, "dest") == Undefined
    ensures LocAccepts(Page(stem, map[], mtime), data)
    ensures Loc(h, Page(stem, map[], mtime), data).value.str == Element(h, "loc", Str(h.resolve(url, stem + ".html")))
  {
    var item := Page(stem, map[], mtime);
    assert Field(item, "relative") == Str(stem + ".html");
    assert Field(item, "data") == Obj(map[]);
  }

  /** The last-modified date of a plain page is its file's mtime when the
      settings name no date. */
  lemma PlainPageLastmod(h: Host, now: int, stem: string, mtime: int, data: JsValue)
    requires data.Obj? && Field(data, "lastModified") == Undefined && Field(data, "lastmod") == Undefined
    ensures Lastmod(h, now, Page(stem, map[], mtime), data) ==
      Ok(SafeString(Element(h, "lastmod", Str(h.formatDate(Date(mtime))))))
  {
    var item := Page(stem, map[], mtime);
    var dates := [Field(data, "lastModified"), Field(data, "lastmod"), StatMtime(item), Date(now)];
    assert StatMtime(item) == Date(mtime);
    assert Coalesce(dates) == Date(mtime) by {
      assert Truthy(dates[2]) && !Truthy(dates[0]) && !Truthy(dates[1]);
    }
  }

  /** The `<url>` element of a plain page whose merged settings give a base
      URL and neither a `dest` nor a date. */
  lemma UrlOfPlainPage(h: Host, now: int, stem: string, mtime: int, options: JsValue, url: string)
    requires
      var data := MergedData(Page(stem, map[], mtime), options).value;
      && Field(data, "url") == Str(url) && Field(data, "dest") == Undefined
      && Field(data, "lastModified") == Undefined && Field(data, "lastmod") == Undefined
    ensures
      var data := MergedData(Page(stem, map[], mtime), options).value;
      var children := [ Element(h, "loc", Str(h.resolve(url, stem + ".html"))),
                        Element(h, "lastmod", Str(h.formatDate(Date(mtime)))),
                        Element(h, "changefreq", Or(Field(data, "changefreq"), Str("weekly"))),
                        Element(h, "priority", Or(Field(data, "priority"), Str("0.5"))) ];
      Url(h, now, Page(stem, map[], mtime), options) == Ok(SafeString(Element(h, "url", Str(UrlText(children)))))
  {
    var item := Page(stem, map[], mtime);
    var data := MergedData(item, options).value;
    PlainPageLoc(h, stem, mtime, data, url);
    PlainPageLastmod(h, now, stem, mtime, data);
  }

  /** A page of a site that configures a base URL, a change frequency and a
      priority renders with those values and its file's modification date. */
  lemma UrlForConfiguredSite(h: Host, now: int, stem: string, mtime: int, url: string, changefreq: string, priority: string)
    requires changefreq != "" && priority != ""
    ensures
      var children := [ Element(h, "loc", Str(h.resolve(url, stem + ".html"))),
                        Element(h, "lastmod", Str(h.formatDate(Date(mtime)))),
                        Element(h, "changefreq", Str(changefreq)),
                        Element(h, "priority", Str(priority)) ];
      Url(h, now, Page(stem, map[], mtime), SiteOptions(FullSettings(url, changefreq, priority)))
        == Ok(SafeString(Element(h, "url", Str(UrlText(children)))))
  {
    var settings := FullSettings(url, changefreq, priority);
    PlainPageSees(stem, mtime, settings, "url");
    PlainPageSees(stem, mtime, settings, "dest");
    PlainPageSees(stem, mtime, settings, "lastModified");
    PlainPageSees(stem, mtime, settings, "lastmod");
    PlainPageSees(stem, mtime, settings, "changefreq");
    PlainPageSees(stem, mtime, settings, "priority");
    UrlOfPlainPage(h, now, stem, mtime, SiteOptions(settings), url);
  }

  /** A page of a site that configures only a base URL gets the default
      change frequency "weekly" and the default priority "0.5". */
  lemma UrlForBareSite(h: Host, now: int, stem: string, mtime: int, url: string)
    ensures
      var children := [ Element(h, "loc", Str(h.resolve(url, stem + ".html"))),
                        Element(h, "lastmod", Str(h.formatDate(Date(mtime)))),
                        Element(h, "changefreq", Str("weekly")),
                        Element(h, "priority", Str("0.5")) ];
      Url(h, now, Page(stem, map[], mtime), SiteOptions(map["url" := Str(url)]))
        == Ok(SafeString(Element(h, "url", Str(UrlText(children)))))
  {
    var settings := map["url" := Str(url)];
    PlainPageSees(stem, mtime, settings, "url");
    PlainPageSees(stem, mtime, settings, "dest");
    PlainPageSees(stem, mtime, settings, "lastModified");
    PlainPageSees(stem, mtime, settings, "lastmod");
    PlainPageSees(stem, mtime, settings, "changefreq");
    PlainPageSees(stem, mtime, settings, "priority");
    UrlOfPlainPage(h, now, stem, mtime, SiteOptions(settings), url);
  }

  /** A page's own `sitemap` block beats the site's change frequency. */
  lemma ChangefreqItemOverride(h: Host, stem: string, site: map<string, JsValue>, own: string)
    requires own != ""
    ensures
      var page := Page(stem, map["sitemap" := Obj(map["changefreq" := Str(own)])], 0);
      var data := MergedData(page, SiteOptions(site)).value;
      Changefreq(h, page, data) == Ok(SafeString(Element(h, "changefreq", Str(own))))
  {
    var page := Page(stem, map["sitemap" := Obj(map["changefreq" := Str(own)])], 0);
    var layers := DataLayers(page, SiteOptions(site));
    assert layers[3] == Obj(map["changefreq" := Str(own)]) by {
      assert ["data", "sitemap"][1..] == ["sitemap"] && ["sitemap"][1..] == [];
    }
    MostSpecificFour(layers, "changefreq");
    assert layers[2..] == [layers[2], layers[3]];
    MostSpecificPair(layers[2], layers[3], "changefreq");
  }

  /** A list stored at `sitemap.items` is what `urlset` returns, and a
      context without any list is an error. */
  lemma UrlsetFromSitemapItems(pages: seq<JsValue>, hash: JsValue)
    requires !hash.Arr?
    ensures Urlset(hash, SiteOptions(map["items" := Arr(pages)])) == Ok(Arr(pages))
    ensures Urlset(hash, SiteOptions(map[])) == Err(TypeError(UrlsetNotArray))
  {
    var probes := UrlsetProbes(SiteOptions(map["items" := Arr(pages)]));
    assert !Truthy(probes[0]) && Truthy(probes[1]);
    UrlsetFirstTruthyProbeDecides(hash, SiteOptions(map["items" := Arr(pages)]), 1);
  }

  lemma KeepPlainPage(stem: string, mtime: int)
    requires stem != "sitemap"
    ensures KeepItem(Page(stem, map[], mtime)) == Ok(true)
  {
    assert Field(Page(stem, map[], mtime), "stem") == Str(stem);
  }

  /** The sitemap page itself and a page that opts out are dropped; the other
      pages keep their order. */
  lemma FilterDropsSitemapAndOptOut(first: string, draft: string, last: string, m1: int, m2: int)
    requires first != "sitemap" && draft != "sitemap" && last != "sitemap"
    ensures
      var pages := [ Page(first, map[], m1), Page("sitemap", map[], 0),
                     Page(draft, map["sitemap" := Bool(false)], 0), Page(last, map[], m2) ];
      FilterItems(Arr(pages)) == Ok(Arr([pages[0], pages[3]]))
  {
    var p0, p1 := Page(first, map[], m1), Page("sitemap", map[], 0);
    var p2, p3 := Page(draft, map["sitemap" := Bool(false)], 0), Page(last, map[], m2);
    KeepPlainPage(first, m1);
    KeepPlainPage(last, m2);
    assert KeepItem(p1) == Ok(false) by {
      assert Field(p1, "stem") == Str("sitemap");
    }
    assert KeepItem(p2) == Ok(false) by {
      assert Field(p2, "stem") == Str(draft);
      assert Field(Field(p2, "data"), "sitemap") == Bool(false);
    }
    assert [p3][1..] == [];
    assert FilterSeq([p3]) == Ok([p3] + []);
    assert [p3] + [] == [p3];
    assert [p2, p3][1..] == [p3];
    assert FilterSeq([p2, p3]) == Ok([p3]);
    assert [p1, p2, p3][1..] == [p2, p3];
    assert FilterSeq([p1, p2, p3]) == Ok([p3]);
    assert [p0, p1, p2, p3][1..] == [p1, p2, p3];
    assert FilterSeq([p0, p1, p2, p3]) == Ok([p0] + [p3]);
    assert [p0] + [p3] == [p0, p3];
  }
}
