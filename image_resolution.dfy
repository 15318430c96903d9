/**
 * Image URL resolution (resolve_url in dompdf/dompdf.php): the protocol policy
 * gate, the local-copy cache, the image type check, the scan of an SVG image
 * for <image> references and the fallback to the broken image.
 *
 * URL building, fetching, file access, size sniffing and XML parsing are the
 * oracles of a Host. The static cache and the file operations the routine
 * performs are a World; the routine is specified on values (Resolve, Try,
 * Scan, VisitUrls) and implemented by the methods of ImageCache.
 */
module ImageResolution {
  import opened Common
  import opened PhpStrings

  // ---------------------------------------------------------------- data model

  /** The parts Helpers::explode_url yields that the routine reads. */
  datatype ParsedUrl = ParsedUrl(protocol: string, host: string, path: string)

  /** What an allow-list rule returns: [$result, $message]. */
  datatype RuleVerdict = RuleVerdict(passed: bool, message: Option<string>)

  type Rule = string -> RuleVerdict

  /** The options the routine reads: the allowed protocols with their rules, and the temporary directory. */
  datatype Options = Options(allowedProtocols: map<string, seq<Rule>>, tempDir: string)

  /** [$width, $height, $type] as dompdf_getimagesize returns them; a missing width or height is 0. */
  datatype ImageSize = ImageSize(width: int, height: int, kind: Option<string>)

  /** A start-element event of the XML parser: the element name and its attributes in document order. */
  datatype StartElement = StartElement(name: string, attributes: seq<(string, string)>)

  /**
   * The helpers and file operations the routine calls, as functions. `tempnam`
   * also receives the number of file operations done so far, so that successive
   * calls can yield different names.
   */
  datatype Host = Host(
    buildUrl: (string, string, string, string) -> Option<string>,
    explodeUrl: string -> ParsedUrl,
    tempnam: (string, nat) -> Option<string>,
    parseDataUri: string -> Option<string>,
    getFileContent: string -> Option<string>,
    writeFile: (string, string) -> bool,
    isReadable: string -> bool,
    fileSize: string -> nat,
    imageSize: string -> ImageSize,
    svgStartElements: string -> seq<StartElement>)

  /** Everything the routine reads besides its arguments: options, helpers, $broken_image and $error_message. */
  datatype Env = Env(options: Options, host: Host, brokenImage: string, errorMessage: Option<string>)

  /** The ImageExceptions the routine throws. */
  datatype Failure =
    | UnparsableUrl
    | ProtocolNotSupported
    | RuleFailed(message: Option<string>)
    | TempFileUnavailable
    | DataUriUnparsable
    | ImageNotFound
    | NotReadableOrEmpty
    | TypeUnknown
    | SelfReference
    | RestrictedResource(message: Option<string>)

  /** The file and network operations with a lasting effect, in the order they happen. */
  datatype IoEvent = TempCreated(path: string) | Downloaded(url: string) | Written(path: string) | Removed(path: string)

  /** The static cache (full URL to local path) and the operations done so far. */
  datatype World = World(cache: map<string, string>, log: seq<IoEvent>)

  /** [$resolved_url, $type, $message]. */
  datatype Resolved = Resolved(path: string, kind: Option<string>, message: Option<string>)

  /** The result of a resolution, or Exhausted when SVG references nest deeper than the fuel allows. */
  datatype Outcome = Done(resolved: Resolved) | Exhausted

  /** The local copy of the image, or the failure, with the temporary file made on the way. */
  datatype Fetch = Fetched(path: string, tempfile: Option<string>) | FetchFailed(failure: Failure, tempfile: Option<string>)

  /** How the try block ends. */
  datatype Attempt =
    | Succeeded(resolved: Resolved)
    | Threw(failure: Failure, fullUrl: Option<string>, tempfile: Option<string>)
    | OutOfFuel

  /** How the scan of an SVG image (or of one element's references) ends. */
  datatype ScanResult = Scanned | Rejected(failure: Failure) | ScanOutOfFuel

  /** The image types accepted. */
  const KnownTypes: set<string> := {"gif", "png", "jpeg", "bmp", "svg", "webp"}

  // ---------------------------------------------------------------- policy gate

  /** The rules in order: the first that fails decides; otherwise the last rule's message is kept. */
  function RunRules(rules: seq<Rule>, fullUrl: string, message: Option<string>): (r: Result<Option<string>, Failure>)
    ensures r.Err? ==> r.error.RuleFailed?
    ensures r.Ok? ==> r.value == if rules == [] then message else rules[|rules| - 1](fullUrl).message
  {
    if rules == [] then Ok(message)
    else
      var v := rules[0](fullUrl);
      if !v.passed then Err(RuleFailed(v.message)) else RunRules(rules[1..], fullUrl, v.message)
  }

  /** A data: URI needs no permission; any other protocol must be allowed and pass all its rules. */
  function Gate(options: Options, fullUrl: string, protocol: string): (r: Result<Option<string>, Failure>)
    ensures r.Ok? && !StartsWith(protocol, "data:") ==> protocol in options.allowedProtocols
    ensures r.Err? ==> r.error == ProtocolNotSupported || r.error.RuleFailed?
  {
    if StartsWith(protocol, "data:") then Ok(None)
    else if protocol !in options.allowedProtocols then Err(ProtocolNotSupported)
    else RunRules(options.allowedProtocols[protocol], fullUrl, None)
  }

  // ---------------------------------------------------------------- the local copy

  /**
   * file:// URLs are used in place, cached URLs give their cached copy, and
   * anything else is fetched (or decoded from the data: URI) into a new
   * temporary file that is then cached.
   */
  function Materialize(env: Env, url: string, fullUrl: string, protocol: string, isDataUri: bool, w: World): (r: (Fetch, World))
    ensures w.log <= r.1.log && w.cache.Keys <= r.1.cache.Keys
    ensures r.0.Fetched? && protocol != "file://" ==> fullUrl in r.1.cache && r.1.cache[fullUrl] == r.0.path
  {
    if protocol == "file://" then (Fetched(fullUrl, None), w)
    else if fullUrl in w.cache then (Fetched(w.cache[fullUrl], None), w)
    else
      match env.host.tempnam(env.options.tempDir, |w.log|)
      case None => (FetchFailed(TempFileUnavailable, None), w)
      case Some(tmp) =>
        var image := if isDataUri then env.host.parseDataUri(url) else env.host.getFileContent(fullUrl);
        var log := w.log + [TempCreated(tmp)] + (if isDataUri then [] else [Downloaded(fullUrl)]);
        match image
        case None => (FetchFailed(if isDataUri then DataUriUnparsable else ImageNotFound, Some(tmp)), w.(log := log))
        case Some(bytes) =>
          if !env.host.writeFile(tmp, bytes) then (FetchFailed(TempFileUnavailable, Some(tmp)), w.(log := log))
          else (Fetched(tmp, Some(tmp)), World(w.cache[fullUrl := tmp], log + [Written(tmp)]))
  }

  /** The local file must be readable and non-empty, and sniff as a known type with a non-zero size. */
  function Inspect(host: Host, path: string): (r: Result<string, Failure>)
    ensures r.Ok? ==> host.isReadable(path) && host.fileSize(path) > 0 && r.value in KnownTypes
  {
    if !host.isReadable(path) || host.fileSize(path) == 0 then Err(NotReadableOrEmpty)
    else
      var size := host.imageSize(path);
      if size.width != 0 && size.height != 0 && size.kind.Some? && size.kind.value in KnownTypes
      then Ok(size.kind.value)
      else Err(TypeUnknown)
  }

  // ---------------------------------------------------------------- SVG references

  /** The value of the last attribute whose lower-cased name is `key` (array_change_key_case keeps the later one). */
  function AttributeValue(attributes: seq<(string, string)>, key: string): Option<string> {
    if attributes == [] then None
    else
      var last := attributes[|attributes| - 1];
      if Lower(last.0) == key then Some(last.1) else AttributeValue(attributes[..|attributes| - 1], key)
  }

  function ValueOr(v: Option<string>, d: string): string {
    if v.Some? then v.value else d
  }

  /** The references an element carries: for <image>, its xlink:href and then its href ("" when absent). */
  function ImageReferences(e: StartElement): seq<string> {
    if Lower(e.name) == "image" then
      [ValueOr(AttributeValue(e.attributes, "xlink:href"), ""), ValueOr(AttributeValue(e.attributes, "href"), "")]
    else []
  }

  // ---------------------------------------------------------------- the routine

  /** The catch block: remove the temporary file, use the broken image and cache it under the full URL. */
  function Fallback(env: Env, fullUrl: Option<string>, tempfile: Option<string>, w: World): (r: (Resolved, World))
    ensures r.0.path == env.brokenImage && r.0.message == env.errorMessage
    ensures w.log <= r.1.log && |r.1.log| <= |w.log| + 1
    ensures var key := if fullUrl.Some? then fullUrl.value else ""; r.1.cache == w.cache[key := env.brokenImage]
  {
    var log := if tempfile.Some? && !EmptyString(tempfile.value) then w.log + [Removed(tempfile.value)] else w.log;
    var key := if fullUrl.Some? then fullUrl.value else "";
    (Resolved(env.brokenImage, env.host.imageSize(env.brokenImage).kind, env.errorMessage),
     World(w.cache[key := env.brokenImage], log))
  }

  /** resolve_url($url, $protocol, $host, $base_path, $options), with SVG nesting bounded by `fuel`. */
  function Resolve(env: Env, fuel: nat, url: string, protocol: string, host: string, basePath: string, w: World): (r: (Outcome, World))
    ensures w.log <= r.1.log && w.cache.Keys <= r.1.cache.Keys
    decreases fuel, 3, 0
  {
    var (a, w1) := Try(env, fuel, url, protocol, host, basePath, w);
    match a
    case Succeeded(r) => (Done(r), w1)
    case Threw(_, fullUrl, tempfile) =>
      var (r, w2) := Fallback(env, fullUrl, tempfile, w1);
      (Done(r), w2)
    case OutOfFuel => (Exhausted, w1)
  }

  /** The try block. */
  function Try(env: Env, fuel: nat, url: string, protocol: string, host: string, basePath: string, w: World): (r: (Attempt, World))
    ensures w.log <= r.1.log && w.cache.Keys <= r.1.cache.Keys
    decreases fuel, 2, 0
  {
    match env.host.buildUrl(protocol, host, basePath, url)
    case None => (Threw(UnparsableUrl, None, None), w)
    case Some(fullUrl) =>
      var parsed := env.host.explodeUrl(fullUrl);
      var proto := Lower(parsed.protocol);
      var isDataUri := StartsWith(proto, "data:");
      match Gate(env.options, fullUrl, proto)
      case Err(f) => (Threw(f, Some(fullUrl), None), w)
      case Ok(message) =>
        var (fetch, w1) := Materialize(env, url, fullUrl, proto, isDataUri, w);
        match fetch
        case FetchFailed(f, tmp) => (Threw(f, Some(fullUrl), tmp), w1)
        case Fetched(path, tmp) =>
          match Inspect(env.host, path)
          case Err(f) => (Threw(f, Some(fullUrl), tmp), w1)
          case Ok(kind) =>
            if kind != "svg" then (Succeeded(Resolved(path, Some(kind), message)), w1)
            else
              var (scan, w2) := Scan(env, fuel, parsed, fullUrl, env.host.svgStartElements(path), w1);
              match scan
              case Scanned => (Succeeded(Resolved(path, Some(kind), message)), w2)
              case Rejected(f) => (Threw(f, Some(fullUrl), tmp), w2)
              case ScanOutOfFuel => (OutOfFuel, w2)
  }

  /** The element handler over the document's start elements, stopping at the first exception. */
  function Scan(env: Env, fuel: nat, parsed: ParsedUrl, fullUrl: string, elements: seq<StartElement>, w: World): (r: (ScanResult, World))
    ensures w.log <= r.1.log && w.cache.Keys <= r.1.cache.Keys
    decreases fuel, 1, |elements|
  {
    if elements == [] then (Scanned, w)
    else
      var (s, w1) := VisitUrls(env, fuel, parsed, fullUrl, ImageReferences(elements[0]), w);
      if s.Scanned? then Scan(env, fuel, parsed, fullUrl, elements[1..], w1) else (s, w1)
  }

  /** The references of one element: each non-empty one must not be the document itself and must resolve without a message. */
  function VisitUrls(env: Env, fuel: nat, parsed: ParsedUrl, fullUrl: string, urls: seq<string>, w: World): (r: (ScanResult, World))
    ensures w.log <= r.1.log && w.cache.Keys <= r.1.cache.Keys
    decreases fuel, 0, |urls|
  {
    if urls == [] then (Scanned, w)
    else if EmptyString(urls[0]) then VisitUrls(env, fuel, parsed, fullUrl, urls[1..], w)
    else if env.host.buildUrl(parsed.protocol, parsed.host, parsed.path, urls[0]) == Some(fullUrl) then (Rejected(SelfReference), w)
    else if fuel == 0 then (ScanOutOfFuel, w)
    else
      var (o, w1) := Resolve(env, fuel - 1, urls[0], parsed.protocol, parsed.host, parsed.path, w);
      match o
      case Exhausted => (ScanOutOfFuel, w1)
      case Done(r) =>
        if !EmptyValue(r.message) then (Rejected(RestrictedResource(r.message)), w1)
        else VisitUrls(env, fuel, parsed, fullUrl, urls[1..], w1)
  }

  // ---------------------------------------------------------------- the imperative routine

  /** The allow-list check, rule by rule. */
  method CheckPolicy(options: Options, fullUrl: string, protocol: string) returns (r: Result<Option<string>, Failure>)
    ensures r == Gate(options, fullUrl, protocol)
  {
    if StartsWith(protocol, "data:") {
      return Ok(None);
    }
    if protocol !in options.allowedProtocols {
      return Err(ProtocolNotSupported);
    }
    var rules := options.allowedProtocols[protocol];
    var message: Option<string> := None;
    for i := 0 to |rules|
      invariant RunRules(rules, fullUrl, None) == RunRules(rules[i..], fullUrl, message)
    {
      assert rules[i..][1..] == rules[i + 1..];
      var v := rules[i](fullUrl);
      if !v.passed {
        return Err(RuleFailed(v.message));
      }
      message := v.message;
    }
    return Ok(message);
  }

  /** The static image cache of the renderer, with the file operations done so far. */
  class ImageCache {
    var cache: map<string, string>
    var log: seq<IoEvent>

    function State(): World
      reads this
    {
      World(cache, log)
    }

    constructor()
      ensures State() == World(map[], [])
    {
      cache := map[];
      log := [];
    }

    /** resolve_url: the try block, then the catch block when it threw. */
    method ResolveUrl(env: Env, fuel: nat, url: string, protocol: string, host: string, basePath: string) returns (o: Outcome)
      modifies this
      decreases fuel, 3
      ensures (o, State()) == Resolve(env, fuel, url, protocol, host, basePath, old(State()))
    {
      var a := TryResolve(env, fuel, url, protocol, host, basePath);
      match a
      case Succeeded(r) =>
        o := Done(r);
      case OutOfFuel =>
        o := Exhausted;
      case Threw(_, fullUrl, tempfile) =>
        if tempfile.Some? && !EmptyString(tempfile.value) {
          log := log + [Removed(tempfile.value)];
        }
        var key := if fullUrl.Some? then fullUrl.value else "";
        cache := cache[key := env.brokenImage];
        o := Done(Resolved(env.brokenImage, env.host.imageSize(env.brokenImage).kind, env.errorMessage));
    }

    method TryResolve(env: Env, fuel: nat, url: string, protocol: string, host: string, basePath: string) returns (a: Attempt)
      modifies this
      decreases fuel, 2
      ensures (a, State()) == Try(env, fuel, url, protocol, host, basePath, old(State()))
    {
      var built := env.host.buildUrl(protocol, host, basePath, url);
      if built.None? {
        return Threw(UnparsableUrl, None, None);
      }
      var fullUrl := built.value;
      var parsed := env.host.explodeUrl(fullUrl);
      var proto := Lower(parsed.protocol);
      var isDataUri := StartsWith(proto, "data:");
      var gate := CheckPolicy(env.options, fullUrl, proto);
      if gate.Err? {
        return Threw(gate.error, Some(fullUrl), None);
      }
      var fetch := FetchToLocal(env, url, fullUrl, proto, isDataUri);
      if fetch.FetchFailed? {
        return Threw(fetch.failure, Some(fullUrl), fetch.tempfile);
      }
      var inspected := Inspect(env.host, fetch.path);
      if inspected.Err? {
        return Threw(inspected.error, Some(fullUrl), fetch.tempfile);
      }
      var kind := inspected.value;
      if kind == "svg" {
        var scan := ScanSvg(env, fuel, parsed, fullUrl, env.host.svgStartElements(fetch.path));
        match scan
        case Rejected(f) =>
          return Threw(f, Some(fullUrl), fetch.tempfile);
        case ScanOutOfFuel =>
          return OutOfFuel;
        case Scanned =>
      }
      return Succeeded(Resolved(fetch.path, Some(kind), gate.value));
    }

    /** The local copy: the file itself, the cached copy, or a new temporary file. */
    method FetchToLocal(env: Env, url: string, fullUrl: string, protocol: string, isDataUri: bool) returns (f: Fetch)
      modifies this
      ensures (f, State()) == Materialize(env, url, fullUrl, protocol, isDataUri, old(State()))
    {
      if protocol == "file://" {
        return Fetched(fullUrl, None);
      }
      if fullUrl in cache {
        return Fetched(cache[fullUrl], None);
      }
      var made := env.host.tempnam(env.options.tempDir, |log|);
      if made.None? {
        return FetchFailed(TempFileUnavailable, None);
      }
      var tmp := made.value;
      log := log + [TempCreated(tmp)];
      var image: Option<string>;
      if isDataUri {
        image := env.host.parseDataUri(url);
        assert log == old(log) + [TempCreated(tmp)] + [];
      } else {
        image := env.host.getFileContent(fullUrl);
        log := log + [Downloaded(fullUrl)];
      }
      if image.None? {
        return FetchFailed(if isDataUri then DataUriUnparsable else ImageNotFound, Some(tmp));
      }
      if !env.host.writeFile(tmp, image.value) {
        return FetchFailed(TempFileUnavailable, Some(tmp));
      }
      log := log + [Written(tmp)];
      cache := cache[fullUrl := tmp];
      return Fetched(tmp, Some(tmp));
    }

    /** The XML parser feeding each start element to the handler, until the handler throws. */
    method ScanSvg(env: Env, fuel: nat, parsed: ParsedUrl, fullUrl: string, elements: seq<StartElement>) returns (s: ScanResult)
      modifies this
      decreases fuel, 1
      ensures (s, State()) == Scan(env, fuel, parsed, fullUrl, elements, old(State()))
    {
      for i := 0 to |elements|
        invariant Scan(env, fuel, parsed, fullUrl, elements, old(State())) == Scan(env, fuel, parsed, fullUrl, elements[i..], State())
      {
        assert elements[i..][0] == elements[i] && elements[i..][1..] == elements[i + 1..];
        var v := HandleStartElement(env, fuel, parsed, fullUrl, ImageReferences(elements[i]));
        if !v.Scanned? {
          return v;
        }
      }
      return Scanned;
    }

    /** The element handler: the references of one element, in order. */
    method HandleStartElement(env: Env, fuel: nat, parsed: ParsedUrl, fullUrl: string, urls: seq<string>) returns (s: ScanResult)
      modifies this
      decreases fuel, 0
      ensures (s, State()) == VisitUrls(env, fuel, parsed, fullUrl, urls, old(State()))
    {
      for i := 0 to |urls|
        invariant VisitUrls(env, fuel, parsed, fullUrl, urls, old(State())) == VisitUrls(env, fuel, parsed, fullUrl, urls[i..], State())
      {
        var u := urls[i];
        assert urls[i..][0] == u && urls[i..][1..] == urls[i + 1..];
        if !EmptyString(u) {
          if env.host.buildUrl(parsed.protocol, parsed.host, parsed.path, u) == Some(fullUrl) {
            return Rejected(SelfReference);
          }
          if fuel == 0 {
            return ScanOutOfFuel;
          }
          var o := ResolveUrl(env, fuel - 1, u, parsed.protocol, parsed.host, parsed.path);
          if o.Exhausted? {
            return ScanOutOfFuel;
          }
          if !EmptyValue(o.resolved.message) {
            return Rejected(RestrictedResource(o.resolved.message));
          }
        }
      }
      return Scanned;
    }
  }
}
