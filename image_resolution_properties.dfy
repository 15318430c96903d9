/**
 * Properties of the image resolution model: the policy gate, the cache, the
 * fallback to the broken image, the SVG reference scan, and the fuel bound.
 */
module ImageResolutionProperties {
  import opened Common
  import opened PhpStrings
  import opened ImageResolution

  // ---------------------------------------------------------------- the policy gate

  /** A rule list passes exactly when every rule passes, keeping the last message; otherwise the first failing rule decides. */
  lemma {:induction false} RunRulesVerdict(rules: seq<Rule>, fullUrl: string, message: Option<string>)
    ensures (forall i :: 0 <= i < |rules| ==> rules[i](fullUrl).passed) ==>
      RunRules(rules, fullUrl, message) == Ok(if rules == [] then message else rules[|rules| - 1](fullUrl).message)
    ensures forall i :: 0 <= i < |rules| && !rules[i](fullUrl).passed && (forall j :: 0 <= j < i ==> rules[j](fullUrl).passed) ==>
      RunRules(rules, fullUrl, message) == Err(RuleFailed(rules[i](fullUrl).message))
    decreases |rules|
  {
    if rules != [] {
      var tail := rules[1..];
      RunRulesVerdict(tail, fullUrl, rules[0](fullUrl).message);
      forall i | 0 < i < |rules|
        ensures rules[i] == tail[i - 1]
      {
      }
    }
  }

  /** The gate lets a URL through exactly when it is a data: URI, or its protocol is allowed and every rule passes. */
  lemma GatePasses(options: Options, fullUrl: string, protocol: string)
    ensures Gate(options, fullUrl, protocol).Ok? <==>
      StartsWith(protocol, "data:") ||
      (protocol in options.allowedProtocols &&
       forall i :: 0 <= i < |options.allowedProtocols[protocol]| ==> options.allowedProtocols[protocol][i](fullUrl).passed)
  {
    if !StartsWith(protocol, "data:") && protocol in options.allowedProtocols {
      var rules := options.allowedProtocols[protocol];
      RunRulesVerdict(rules, fullUrl, None);
      if exists i :: 0 <= i < |rules| && !rules[i](fullUrl).passed {
        var k := FirstFailing(rules, fullUrl);
        assert RunRules(rules, fullUrl, None) == Err(RuleFailed(rules[k](fullUrl).message));
      }
    }
  }

  /** The index of the first failing rule. */
  lemma FirstFailing(rules: seq<Rule>, fullUrl: string) returns (k: nat)
    requires exists i :: 0 <= i < |rules| && !rules[i](fullUrl).passed
    ensures k < |rules| && !rules[k](fullUrl).passed
    ensures forall j :: 0 <= j < k ==> rules[j](fullUrl).passed
  {
    var i :| 0 <= i < |rules| && !rules[i](fullUrl).passed;
    k := 0;
    while rules[k](fullUrl).passed
      invariant k <= i
      invariant forall j :: 0 <= j < k ==> rules[j](fullUrl).passed
      decreases i - k
    {
      k := k + 1;
    }
  }

  // ---------------------------------------------------------------- failures

  /** The broken image and the configured error message, as the catch block returns them. */
  function BrokenResult(env: Env): Resolved {
    Resolved(env.brokenImage, env.host.imageSize(env.brokenImage).kind, env.errorMessage)
  }

  /** A URL that cannot be built yields the broken image, cached under the empty key, with no file operation. */
  lemma UnparsableUrlFallsBack(env: Env, fuel: nat, url: string, protocol: string, host: string, basePath: string, w: World)
    requires env.host.buildUrl(protocol, host, basePath, url).None?
    ensures Resolve(env, fuel, url, protocol, host, basePath, w) == (Done(BrokenResult(env)), World(w.cache["" := env.brokenImage], w.log))
  {
  }

  /** A URL the policy refuses is never fetched: the broken image is cached for it and no file operation happens. */
  lemma DeniedUrlNotFetched(env: Env, fuel: nat, url: string, protocol: string, host: string, basePath: string, w: World, fullUrl: string)
    requires env.host.buildUrl(protocol, host, basePath, url) == Some(fullUrl)
    requires Gate(env.options, fullUrl, Lower(env.host.explodeUrl(fullUrl).protocol)).Err?
    ensures Resolve(env, fuel, url, protocol, host, basePath, w) == (Done(BrokenResult(env)), World(w.cache[fullUrl := env.brokenImage], w.log))
  {
  }

  /** A missing remote image: the temporary file made for it is removed again and the broken image is cached. */
  lemma MissingImageRemovesTempfile(env: Env, fuel: nat, url: string, protocol: string, host: string, basePath: string, w: World,
                                    fullUrl: string, tmp: string)
    requires env.host.buildUrl(protocol, host, basePath, url) == Some(fullUrl)
    requires var proto := Lower(env.host.explodeUrl(fullUrl).protocol);
      proto != "file://" && !StartsWith(proto, "data:") && Gate(env.options, fullUrl, proto).Ok?
    requires fullUrl !in w.cache
    requires env.host.tempnam(env.options.tempDir, |w.log|) == Some(tmp) && !EmptyString(tmp)
    requires env.host.getFileContent(fullUrl).None?
    ensures Resolve(env, fuel, url, protocol, host, basePath, w) ==
      (Done(BrokenResult(env)), World(w.cache[fullUrl := env.brokenImage], w.log + [TempCreated(tmp), Downloaded(fullUrl), Removed(tmp)]))
  {
    assert w.log + [TempCreated(tmp)] + [Downloaded(fullUrl)] + [Removed(tmp)] == w.log + [TempCreated(tmp), Downloaded(fullUrl), Removed(tmp)];
  }

  // ---------------------------------------------------------------- successes and the cache

  /** What a successful resolution guarantees about the image it returns. */
  lemma SuccessMeetsChecks(env: Env, fuel: nat, url: string, protocol: string, host: string, basePath: string, w: World)
    requires Try(env, fuel, url, protocol, host, basePath, w).0.Succeeded?
    ensures var r := Try(env, fuel, url, protocol, host, basePath, w).0.resolved;
      var size := env.host.imageSize(r.path);
      && env.host.buildUrl(protocol, host, basePath, url).Some?
      && Gate(env.options, env.host.buildUrl(protocol, host, basePath, url).value,
              Lower(env.host.explodeUrl(env.host.buildUrl(protocol, host, basePath, url).value).protocol)) == Ok(r.message)
      && env.host.isReadable(r.path) && env.host.fileSize(r.path) > 0
      && size.width != 0 && size.height != 0
      && r.kind.Some? && r.kind.value in KnownTypes && size.kind == r.kind
  {
  }

  /** A local file:// image is used in place whatever the cache holds, and nothing is fetched or cached. */
  lemma FileUrlUsedInPlace(env: Env, fuel: nat, url: string, protocol: string, host: string, basePath: string, w: World,
                           fullUrl: string, message: Option<string>, kind: string)
    requires env.host.buildUrl(protocol, host, basePath, url) == Some(fullUrl)
    requires Lower(env.host.explodeUrl(fullUrl).protocol) == "file://"
    requires Gate(env.options, fullUrl, "file://") == Ok(message)
    requires Inspect(env.host, fullUrl) == Ok(kind) && kind != "svg"
    ensures Resolve(env, fuel, url, protocol, host, basePath, w) == (Done(Resolved(fullUrl, Some(kind), message)), w)
  {
  }

  /** A cached URL is served from its cached copy, with no file operation and the cache unchanged. */
  lemma CachedCopyReused(env: Env, fuel: nat, url: string, protocol: string, host: string, basePath: string, w: World,
                         fullUrl: string, message: Option<string>, kind: string)
    requires env.host.buildUrl(protocol, host, basePath, url) == Some(fullUrl)
    requires var proto := Lower(env.host.explodeUrl(fullUrl).protocol);
      proto != "file://" && Gate(env.options, fullUrl, proto) == Ok(message)
    requires fullUrl in w.cache
    requires Inspect(env.host, w.cache[fullUrl]) == Ok(kind) && kind != "svg"
    ensures Resolve(env, fuel, url, protocol, host, basePath, w) == (Done(Resolved(w.cache[fullUrl], Some(kind), message)), w)
  {
  }

  /** A first fetch writes the image to a new temporary file and caches it; a data: URI is decoded, not downloaded. */
  lemma FreshFetchCached(env: Env, fuel: nat, url: string, protocol: string, host: string, basePath: string, w: World,
                         fullUrl: string, message: Option<string>, tmp: string, bytes: string, kind: string)
    requires env.host.buildUrl(protocol, host, basePath, url) == Some(fullUrl)
    requires var proto := Lower(env.host.explodeUrl(fullUrl).protocol);
      proto != "file://" && Gate(env.options, fullUrl, proto) == Ok(message) &&
      (if StartsWith(proto, "data:") then env.host.parseDataUri(url) else env.host.getFileContent(fullUrl)) == Some(bytes)
    requires fullUrl !in w.cache
    requires env.host.tempnam(env.options.tempDir, |w.log|) == Some(tmp) && env.host.writeFile(tmp, bytes)
    requires Inspect(env.host, tmp) == Ok(kind) && kind != "svg"
    ensures var download := if StartsWith(Lower(env.host.explodeUrl(fullUrl).protocol), "data:") then [] else [Downloaded(fullUrl)];
      Resolve(env, fuel, url, protocol, host, basePath, w) ==
      (Done(Resolved(tmp, Some(kind), message)), World(w.cache[fullUrl := tmp], w.log + [TempCreated(tmp)] + download + [Written(tmp)]))
  {
  }

  /** Outside file://, every copy made or reused is the one the cache holds afterwards, and a cache hit changes nothing. */
  lemma MaterializeCaches(env: Env, url: string, fullUrl: string, protocol: string, isDataUri: bool, w: World)
    ensures var (f, w1) := Materialize(env, url, fullUrl, protocol, isDataUri, w);
      && (f.Fetched? && protocol != "file://" ==> fullUrl in w1.cache && w1.cache[fullUrl] == f.path)
      && (protocol == "file://" || fullUrl in w.cache ==> w1 == w)
      && (w1.cache == w.cache || w1.cache == w.cache[fullUrl := f.path])
      && w.log <= w1.log
      && (isDataUri ==> Downloaded(fullUrl) !in w1.log[|w.log|..])
  {
  }

  /** A non-SVG image resolved once is served again unchanged, from the state the first resolution left. */
  lemma RepeatServedFromCache(env: Env, fuel: nat, fuel2: nat, url: string, protocol: string, host: string, basePath: string, w: World)
    requires Try(env, fuel, url, protocol, host, basePath, w).0.Succeeded?
    requires Try(env, fuel, url, protocol, host, basePath, w).0.resolved.kind != Some("svg")
    ensures var (a, w1) := Try(env, fuel, url, protocol, host, basePath, w);
      Resolve(env, fuel2, url, protocol, host, basePath, w1) == (Done(a.resolved), w1)
  {
    var fullUrl := env.host.buildUrl(protocol, host, basePath, url).value;
    var proto := Lower(env.host.explodeUrl(fullUrl).protocol);
    var isDataUri := StartsWith(proto, "data:");
    NonSvgSuccess(env, fuel, url, protocol, host, basePath, w);
    var (f, w1) := Materialize(env, url, fullUrl, proto, isDataUri, w);
    MaterializeCaches(env, url, fullUrl, proto, isDataUri, w);
    MaterializeCaches(env, url, fullUrl, proto, isDataUri, w1);
  }

  /** A non-SVG success returns the local copy and leaves the state the fetch left. */
  lemma NonSvgSuccess(env: Env, fuel: nat, url: string, protocol: string, host: string, basePath: string, w: World)
    requires Try(env, fuel, url, protocol, host, basePath, w).0.Succeeded?
    requires Try(env, fuel, url, protocol, host, basePath, w).0.resolved.kind != Some("svg")
    ensures var fullUrl := env.host.buildUrl(protocol, host, basePath, url).value;
      var proto := Lower(env.host.explodeUrl(fullUrl).protocol);
      var (f, w1) := Materialize(env, url, fullUrl, proto, StartsWith(proto, "data:"), w);
      var (a, w2) := Try(env, fuel, url, protocol, host, basePath, w);
      && Gate(env.options, fullUrl, proto) == Ok(a.resolved.message)
      && f.Fetched? && a.resolved.path == f.path && w2 == w1
      && a.resolved.kind.Some? && Inspect(env.host, f.path) == Ok(a.resolved.kind.value)
  {
  }

  /** Once a URL has failed past the gate, it is not fetched again: its cache entry is the broken image. */
  lemma FailureCachedAsBroken(env: Env, fuel: nat, url: string, protocol: string, host: string, basePath: string, w: World, fullUrl: string)
    requires env.host.buildUrl(protocol, host, basePath, url) == Some(fullUrl)
    requires Try(env, fuel, url, protocol, host, basePath, w).0.Threw?
    ensures var w1 := Resolve(env, fuel, url, protocol, host, basePath, w).1;
      var proto := Lower(env.host.explodeUrl(fullUrl).protocol);
      Materialize(env, url, fullUrl, proto, StartsWith(proto, "data:"), w1) ==
        (Fetched(if proto == "file://" then fullUrl else env.brokenImage, None), w1)
  {
    ThrewWithFullUrl(env, fuel, url, protocol, host, basePath, w, fullUrl);
    var (a, w0) := Try(env, fuel, url, protocol, host, basePath, w);
    assert Resolve(env, fuel, url, protocol, host, basePath, w) == (Done(Fallback(env, a.fullUrl, a.tempfile, w0).0), Fallback(env, a.fullUrl, a.tempfile, w0).1);
  }

  /** Once the URL is built, the try block reports every exception together with the full URL. */
  lemma ThrewWithFullUrl(env: Env, fuel: nat, url: string, protocol: string, host: string, basePath: string, w: World, fullUrl: string)
    requires env.host.buildUrl(protocol, host, basePath, url) == Some(fullUrl)
    requires Try(env, fuel, url, protocol, host, basePath, w).0.Threw?
    ensures Try(env, fuel, url, protocol, host, basePath, w).0.fullUrl == Some(fullUrl)
  {
  }

  /**
   * Resolving a URL again after it failed past the gate serves the cached
   * broken image with the gate's message, not the error message.
   */
  lemma RepeatAfterFailure(env: Env, fuel: nat, fuel2: nat, url: string, protocol: string, host: string, basePath: string, w: World,
                           fullUrl: string, message: Option<string>, kind: string)
    requires env.host.buildUrl(protocol, host, basePath, url) == Some(fullUrl)
    requires var proto := Lower(env.host.explodeUrl(fullUrl).protocol);
      proto != "file://" && Gate(env.options, fullUrl, proto) == Ok(message)
    requires Try(env, fuel, url, protocol, host, basePath, w).0.Threw?
    requires Inspect(env.host, env.brokenImage) == Ok(kind) && kind != "svg"
    ensures var w1 := Resolve(env, fuel, url, protocol, host, basePath, w).1;
      Resolve(env, fuel2, url, protocol, host, basePath, w1) == (Done(Resolved(env.brokenImage, Some(kind), message)), w1)
  {
    FailureCachedAsBroken(env, fuel, url, protocol, host, basePath, w, fullUrl);
  }

  // ---------------------------------------------------------------- SVG references

  /** The attribute lookup gives the value of the last attribute whose lower-cased name is the key, and None when there is none. */
  lemma {:induction false} AttributeValueIsLast(attributes: seq<(string, string)>, key: string)
    ensures AttributeValue(attributes, key).None? <==> forall i :: 0 <= i < |attributes| ==> Lower(attributes[i].0) != key
    ensures AttributeValue(attributes, key).Some? ==>
      exists i :: (0 <= i < |attributes| &&
        Lower(attributes[i].0) == key && attributes[i].1 == AttributeValue(attributes, key).value &&
        forall j :: i < j < |attributes| ==> Lower(attributes[j].0) != key)
    decreases |attributes|
  {
    if attributes != [] {
      var n := |attributes| - 1;
      var init := attributes[..n];
      AttributeValueIsLast(init, key);
      assert forall i :: 0 <= i < n ==> attributes[i] == init[i];
      if Lower(attributes[n].0) != key && AttributeValue(init, key).Some? {
        var i :| 0 <= i < n && Lower(init[i].0) == key && init[i].1 == AttributeValue(init, key).value &&
          forall j :: i < j < n ==> Lower(init[j].0) != key;
        assert forall j :: i < j < |attributes| ==> Lower(attributes[j].0) != key;
      }
    }
  }

  /** An <image> element (in any case) carries exactly its xlink:href and then its href; other elements carry none. */
  lemma ImageReferencesOrder(e: StartElement)
    ensures Lower(e.name) == "image" ==> (
      && |ImageReferences(e)| == 2
      && (AttributeValue(e.attributes, "xlink:href").Some? ==> ImageReferences(e)[0] == AttributeValue(e.attributes, "xlink:href").value)
      && (AttributeValue(e.attributes, "href").Some? ==> ImageReferences(e)[1] == AttributeValue(e.attributes, "href").value)
      && (AttributeValue(e.attributes, "xlink:href").None? ==> EmptyString(ImageReferences(e)[0]))
      && (AttributeValue(e.attributes, "href").None? ==> EmptyString(ImageReferences(e)[1])))
    ensures Lower(e.name) != "image" ==> ImageReferences(e) == []
  {
  }

  /**
   * Scanning the start elements in two parts is scanning them whole: the split
   * does not change which element throws first.
   */
  lemma {:induction false} ScanAppend(env: Env, fuel: nat, parsed: ParsedUrl, fullUrl: string, a: seq<StartElement>, b: seq<StartElement>, w: World)
    ensures Scan(env, fuel, parsed, fullUrl, a + b, w) ==
      var (s, w1) := Scan(env, fuel, parsed, fullUrl, a, w);
      if s.Scanned? then Scan(env, fuel, parsed, fullUrl, b, w1) else (s, w1)
    decreases |a|
  {
    if a == [] {
      assert a + b == b;
    } else {
      assert (a + b)[0] == a[0] && (a + b)[1..] == a[1..] + b;
      var (s, w1) := VisitUrls(env, fuel, parsed, fullUrl, ImageReferences(a[0]), w);
      if s.Scanned? {
        ScanAppend(env, fuel, parsed, fullUrl, a[1..], b, w1);
      }
    }
  }

  /** A reference back to the document itself is rejected, however much nesting is left. */
  lemma SelfReferenceRejected(env: Env, fuel: nat, parsed: ParsedUrl, fullUrl: string, u: string, rest: seq<string>, w: World)
    requires !EmptyString(u) && env.host.buildUrl(parsed.protocol, parsed.host, parsed.path, u) == Some(fullUrl)
    ensures VisitUrls(env, fuel, parsed, fullUrl, [u] + rest, w) == (Rejected(SelfReference), w)
  {
    assert ([u] + rest)[0] == u;
  }

  /** An SVG reference the policy refuses rejects the document, when an error message is configured. */
  lemma DeniedReferenceRejected(env: Env, fuel: nat, parsed: ParsedUrl, fullUrl: string, u: string, rest: seq<string>, w: World, inner: string)
    requires fuel > 0 && !EmptyString(u)
    requires env.host.buildUrl(parsed.protocol, parsed.host, parsed.path, u) == Some(inner) && inner != fullUrl
    requires Gate(env.options, inner, Lower(env.host.explodeUrl(inner).protocol)).Err?
    requires !EmptyValue(env.errorMessage)
    ensures VisitUrls(env, fuel, parsed, fullUrl, [u] + rest, w) ==
      (Rejected(RestrictedResource(env.errorMessage)), World(w.cache[inner := env.brokenImage], w.log))
  {
    assert ([u] + rest)[0] == u;
    DeniedUrlNotFetched(env, fuel - 1, u, parsed.protocol, parsed.host, parsed.path, w, inner);
  }

  // ---------------------------------------------------------------- the fuel bound

  /** More nesting fuel never changes a resolution that did not run out of it. */
  lemma {:induction false} ResolveFuel(env: Env, fuel: nat, url: string, protocol: string, host: string, basePath: string, w: World)
    requires Resolve(env, fuel, url, protocol, host, basePath, w).0.Done?
    ensures Resolve(env, fuel + 1, url, protocol, host, basePath, w) == Resolve(env, fuel, url, protocol, host, basePath, w)
    decreases fuel, 3, 0
  {
    TryFuel(env, fuel, url, protocol, host, basePath, w);
  }

  lemma {:induction false} TryFuel(env: Env, fuel: nat, url: string, protocol: string, host: string, basePath: string, w: World)
    requires !Try(env, fuel, url, protocol, host, basePath, w).0.OutOfFuel?
    ensures Try(env, fuel + 1, url, protocol, host, basePath, w) == Try(env, fuel, url, protocol, host, basePath, w)
    decreases fuel, 2, 0
  {
    match env.host.buildUrl(protocol, host, basePath, url)
    case None =>
    case Some(fullUrl) =>
      var parsed := env.host.explodeUrl(fullUrl);
      var proto := Lower(parsed.protocol);
      var isDataUri := StartsWith(proto, "data:");
      if Gate(env.options, fullUrl, proto).Ok? {
        var (fetch, w1) := Materialize(env, url, fullUrl, proto, isDataUri, w);
        if fetch.Fetched? && Inspect(env.host, fetch.path) == Ok("svg") {
          ScanFuel(env, fuel, parsed, fullUrl, env.host.svgStartElements(fetch.path), w1);
        }
      }
  }

  lemma {:induction false} ScanFuel(env: Env, fuel: nat, parsed: ParsedUrl, fullUrl: string, elements: seq<StartElement>, w: World)
    requires !Scan(env, fuel, parsed, fullUrl, elements, w).0.ScanOutOfFuel?
    ensures Scan(env, fuel + 1, parsed, fullUrl, elements, w) == Scan(env, fuel, parsed, fullUrl, elements, w)
    decreases fuel, 1, |elements|
  {
    if elements != [] {
      var (s, w1) := VisitUrls(env, fuel, parsed, fullUrl, ImageReferences(elements[0]), w);
      VisitUrlsFuel(env, fuel, parsed, fullUrl, ImageReferences(elements[0]), w);
      if s.Scanned? {
        ScanFuel(env, fuel, parsed, fullUrl, elements[1..], w1);
      }
    }
  }

  lemma {:induction false} VisitUrlsFuel(env: Env, fuel: nat, parsed: ParsedUrl, fullUrl: string, urls: seq<string>, w: World)
    requires !VisitUrls(env, fuel, parsed, fullUrl, urls, w).0.ScanOutOfFuel?
    ensures VisitUrls(env, fuel + 1, parsed, fullUrl, urls, w) == VisitUrls(env, fuel, parsed, fullUrl, urls, w)
    decreases fuel, 0, |urls|
  {
    if urls == [] {
    } else if EmptyString(urls[0]) {
      VisitUrlsFuel(env, fuel, parsed, fullUrl, urls[1..], w);
    } else if env.host.buildUrl(parsed.protocol, parsed.host, parsed.path, urls[0]) != Some(fullUrl) && fuel > 0 {
      var (o, w1) := Resolve(env, fuel - 1, urls[0], parsed.protocol, parsed.host, parsed.path, w);
      if o.Done? {
        ResolveFuel(env, fuel - 1, urls[0], parsed.protocol, parsed.host, parsed.path, w);
        if EmptyValue(o.resolved.message) {
          VisitUrlsFuel(env, fuel, parsed, fullUrl, urls[1..], w1);
        }
      }
    }
  }

  /** A resolution that completes with some fuel completes the same way with any larger fuel. */
  lemma {:induction false} ResolveFuelMonotone(env: Env, fuel: nat, more: nat, url: string, protocol: string, host: string, basePath: string, w: World)
    requires Resolve(env, fuel, url, protocol, host, basePath, w).0.Done?
    ensures Resolve(env, fuel + more, url, protocol, host, basePath, w) == Resolve(env, fuel, url, protocol, host, basePath, w)
  {
    var f := (n: nat) => Resolve(env, n, url, protocol, host, basePath, w);
    forall n: nat | f(n).0.Done?
      ensures f(n + 1) == f(n)
    {
      ResolveFuel(env, n, url, protocol, host, basePath, w);
    }
    StableFrom(f, fuel, more);
  }

  /** A budgeted computation that is stable from one budget to the next, once done, stays put. */
  lemma {:induction false} StableFrom(f: nat -> (Outcome, World), fuel: nat, more: nat)
    requires f(fuel).0.Done?
    requires forall n: nat :: f(n).0.Done? ==> f(n + 1) == f(n)
    ensures f(fuel + more) == f(fuel)
    decreases more
  {
    if more > 0 {
      StableFrom(f, fuel, more - 1);
      assert f(fuel + more - 1).0.Done?;
    }
  }
}
