/**
 * The asset resolver of public/scene.js: a logical image name is turned into an
 * ordered, duplicate-free list of candidate locations built from a fixed list of
 * base paths, and the candidates are tried one at a time until one loads.
 *
 * Whether a location loads is an oracle `loads` supplied by the caller.
 */
module AssetResolver {
  import opened Wrappers

  type Url = string

  /** The base paths of line 6, with IMAGE_PATH_PREFIX ("/images") expanded. */
  const CandidatePaths: seq<string> := ["/images", "/src/images", "/images", "/"]

  // ---------------------------------------------------------------------------
  // String helpers (the JavaScript string operations used by resolveUrl)
  // ---------------------------------------------------------------------------

  predicate EndsWith(s: string, suffix: string) {
    |suffix| <= |s| && s[|s| - |suffix|..] == suffix
  }

  /** `p.endsWith('/') ? p.slice(0, -1) : p` */
  function DropTrailingSlash(p: string): (q: string)
    ensures |q| <= |p| && q == p[..|q|]
    ensures q == p <==> !EndsWith(p, "/")
    ensures EndsWith(p, "/") ==> |q| == |p| - 1
  {
    if |p| > 0 && p[|p| - 1] == '/' then p[..|p| - 1] else p
  }

  /** `p.replace(/^\//, '')` */
  function DropLeadingSlash(p: string): (q: string)
    ensures |q| <= |p| && q == p[|p| - |q|..]
    ensures q == p <==> !(|p| > 0 && p[0] == '/')
    ensures |p| > 0 && p[0] == '/' ==> |q| == |p| - 1
  {
    if |p| > 0 && p[0] == '/' then p[1..] else p
  }

  /** The two candidates one base path contributes (lines 10-14). */
  function PathCandidates(p: string, name: string): (pair: seq<Url>)
    ensures |pair| == 2
    ensures EndsWith(pair[0], name) && EndsWith(pair[1], name)
  {
    if p == "" then ["/" + name, name]
    else [DropTrailingSlash(p) + "/" + name, DropTrailingSlash(DropLeadingSlash(p)) + "/" + name]
  }

  /** The list `urls` holds after the loop of lines 9-15 has visited every path. */
  function RawCandidates(paths: seq<string>, name: string): (raw: seq<Url>)
    ensures |raw| == 2 * |paths|
    ensures forall k :: 0 <= k < |raw| ==> EndsWith(raw[k], name)
  {
    if paths == [] then []
    else RawCandidates(paths[..|paths| - 1], name) + PathCandidates(paths[|paths| - 1], name)
  }

  // ---------------------------------------------------------------------------
  // `urls.filter((v, i, a) => a.indexOf(v) === i)` (line 16)
  // ---------------------------------------------------------------------------

  /** `a.indexOf(v)` for a value that occurs in `a`. */
  function FirstIndex<T(==,!new)>(a: seq<T>, v: T): (k: nat)
    requires v in a
    ensures k < |a| && a[k] == v && v !in a[..k]
  {
    if a[0] == v then 0 else 1 + FirstIndex(a[1..], v)
  }

  predicate Distinct<T(==,!new)>(s: seq<T>) {
    forall i, j :: 0 <= i < j < |s| ==> s[i] != s[j]
  }

  /** The filter applied to the first `n` positions of `a`: position `i` is kept exactly when `a.indexOf(a[i]) == i`. */
  function FilterFirst<T(==,!new)>(a: seq<T>, n: nat): seq<T>
    requires n <= |a|
  {
    if n == 0 then []
    else if FirstIndex(a, a[n - 1]) == n - 1 then FilterFirst(a, n - 1) + [a[n - 1]]
    else FilterFirst(a, n - 1)
  }

  /**
   * The filtered prefix has no duplicates, holds every value of `a[..n]`, and
   * lists values in the order of their first occurrence in `a`.
   */
  lemma {:induction false} FilterFirstProperties<T(!new)>(a: seq<T>, n: nat)
    requires n <= |a|
    ensures var r := FilterFirst(a, n);
      && |r| <= n
      && (forall v :: v in r <==> v in a[..n])
      && (forall i :: 0 <= i < |r| ==> r[i] in a)
      && Distinct(r)
      && (forall i, j :: 0 <= i < j < |r| ==> FirstIndex(a, r[i]) < FirstIndex(a, r[j]))
      && (forall i :: 0 <= i < |r| ==> FirstIndex(a, r[i]) < n)
  {
    if n > 0 {
      FilterFirstProperties(a, n - 1);
      var v := a[n - 1];
      assert a[..n] == a[..n - 1] + [v];
      if FirstIndex(a, v) == n - 1 {
        assert v !in a[..n - 1];
      } else {
        assert v in a[..n - 1] by {
          var k := FirstIndex(a, v);
          assert a[..n - 1][k] == v;
        }
      }
    }
  }

  /** The de-duplicated list of line 16. */
  function Dedup<T(==,!new)>(a: seq<T>): (r: seq<T>)
    ensures |r| <= |a|
    ensures forall v :: v in r <==> v in a
    ensures forall i :: 0 <= i < |r| ==> r[i] in a
    ensures Distinct(r)
    ensures forall i, j :: 0 <= i < j < |r| ==> FirstIndex(a, r[i]) < FirstIndex(a, r[j])
  {
    assert a[..|a|] == a;
    FilterFirstProperties(a, |a|);
    FilterFirst(a, |a|)
  }

  /**
   * What `resolveUrl(name)` returns for a list of base paths: every raw
   * candidate, each once, in first-occurrence order, each ending with `name`.
   */
  function Candidates(paths: seq<string>, name: string): (urls: seq<Url>)
    ensures |urls| <= 2 * |paths|
    ensures Distinct(urls)
    ensures forall u :: u in urls <==> u in RawCandidates(paths, name)
    ensures forall k :: 0 <= k < |urls| ==> EndsWith(urls[k], name)
    ensures forall i, j :: 0 <= i < j < |urls| ==>
              FirstIndex(RawCandidates(paths, name), urls[i]) < FirstIndex(RawCandidates(paths, name), urls[j])
    ensures paths != [] ==> urls != []
  {
    var raw := RawCandidates(paths, name);
    var urls := Dedup(raw);
    assert forall k :: 0 <= k < |urls| ==> EndsWith(urls[k], name) by {
      forall k | 0 <= k < |urls| ensures EndsWith(urls[k], name) {
        assert urls[k] in raw;
      }
    }
    assert paths != [] ==> raw[0] in urls;
    urls
  }

  /** resolveUrl (lines 7-17) over an arbitrary list of base paths. */
  method ResolveUrlFrom(paths: seq<string>, name: string) returns (urls: seq<Url>)
    ensures urls == Candidates(paths, name)
  {
    var raw: seq<Url> := [];
    var i := 0;
    while i < |paths|
      invariant 0 <= i <= |paths|
      invariant raw == RawCandidates(paths[..i], name)
    {
      var p := paths[i];
      raw := PushPath(raw, p, name);
      assert paths[..i + 1][..i] == paths[..i];
      i := i + 1;
    }
    assert paths[..i] == paths;
    urls := Dedup(raw);
  }

  /** The body of the loop of lines 9-15: push the two candidates of base path `p`. */
  method PushPath(raw: seq<Url>, p: string, name: string) returns (raw': seq<Url>)
    ensures raw' == raw + PathCandidates(p, name)
  {
    raw' := raw;
    if p == "" {
      raw' := raw' + ["/" + name];
      raw' := raw' + [name];
    } else {
      raw' := raw' + [DropTrailingSlash(p) + "/" + name];
      raw' := raw' + [DropTrailingSlash(DropLeadingSlash(p)) + "/" + name];
    }
  }

  /** No base path of line 6 is empty, so the `!p` branch of line 10 is dead. */
  lemma CandidatePathsNonEmpty()
    ensures forall k :: 0 <= k < |CandidatePaths| ==> CandidatePaths[k] != ""
  {
  }

  /** The raw list for the base paths of line 6: the third path repeats the first, the fourth yields "/" + name twice. */
  lemma ConcreteRawCandidates(name: string)
    ensures RawCandidates(CandidatePaths, name)
            == ["/images/" + name, "images/" + name, "/src/images/" + name, "src/images/" + name,
                "/images/" + name, "images/" + name, "/" + name, "/" + name]
  {
    var a, b, c, d, e := "/images/" + name, "images/" + name, "/src/images/" + name, "src/images/" + name, "/" + name;
    assert DropLeadingSlash("/images") == "images";
    assert DropTrailingSlash("images") == "images";
    assert DropLeadingSlash("/src/images") == "src/images";
    assert DropTrailingSlash("src/images") == "src/images";
    assert DropTrailingSlash("/") == "";
    assert DropTrailingSlash(DropLeadingSlash("/")) == "";
    assert "/images" + "/" == "/images/" && "images" + "/" == "images/";
    assert "/src/images" + "/" == "/src/images/" && "src/images" + "/" == "src/images/";
    assert "" + "/" == "/";
    assert DropTrailingSlash("/images") == "/images";
    assert DropTrailingSlash("/src/images") == "/src/images";
    assert PathCandidates("/images", name) == [a, b];
    assert PathCandidates("/src/images", name) == [c, d];
    assert PathCandidates("/", name) == [e, e];
    assert CandidatePaths[..3][..2][..1] == ["/images"];
    assert CandidatePaths[..3][..2] == ["/images", "/src/images"];
    assert CandidatePaths[..3] == ["/images", "/src/images", "/images"];
    assert RawCandidates(["/images"], name) == [a, b];
    assert RawCandidates(["/images", "/src/images"], name) == [a, b, c, d];
    assert RawCandidates(["/images", "/src/images", "/images"], name) == [a, b, c, d, a, b];
  }

  /** The first occurrences in the shape of the raw list for line 6. */
  lemma ShapeFirstIndices<T(!new)>(a: T, b: T, c: T, d: T, e: T)
    requires a != b && a != c && a != d && a != e && b != c && b != d && b != e && c != d && c != e && d != e
    ensures var raw := [a, b, c, d, a, b, e, e];
      FirstIndex(raw, a) == 0 && FirstIndex(raw, b) == 1 && FirstIndex(raw, c) == 2 &&
      FirstIndex(raw, d) == 3 && FirstIndex(raw, e) == 6
  {
    var raw := [a, b, c, d, a, b, e, e];
    var k := FirstIndex(raw, e);
    assert raw[..7][6] == e;
  }

  /** The filter of line 16 on the shape of that raw list keeps the first five distinct values. */
  lemma DedupShape<T(!new)>(a: T, b: T, c: T, d: T, e: T)
    requires a != b && a != c && a != d && a != e && b != c && b != d && b != e && c != d && c != e && d != e
    ensures Dedup([a, b, c, d, a, b, e, e]) == [a, b, c, d, e]
  {
    var raw := [a, b, c, d, a, b, e, e];
    ShapeFirstIndices(a, b, c, d, e);
    assert FilterFirst(raw, 1) == [a];
    assert FilterFirst(raw, 2) == [a, b];
    assert FilterFirst(raw, 3) == [a, b, c];
    assert FilterFirst(raw, 4) == [a, b, c, d];
    assert FilterFirst(raw, 5) == [a, b, c, d];
    assert FilterFirst(raw, 6) == [a, b, c, d];
    assert FilterFirst(raw, 7) == [a, b, c, d, e];
    assert raw[..|raw|] == raw;
  }

  /** The five locations resolveUrl lists for `name` with the base paths of line 6. */
  function ImageCandidates(name: string): (urls: seq<Url>)
    ensures |urls| == 5 && Distinct(urls)
    ensures forall k :: 0 <= k < |urls| ==> EndsWith(urls[k], name)
  {
    var urls := ["/images/" + name, "images/" + name, "/src/images/" + name, "src/images/" + name, "/" + name];
    assert |urls[0]| == 8 + |name| && |urls[1]| == 7 + |name| && |urls[2]| == 12 + |name|;
    assert |urls[3]| == 11 + |name| && |urls[4]| == 1 + |name|;
    urls
  }

  /** The candidates for the base paths of line 6, for any name. */
  lemma ConcreteCandidates(name: string)
    ensures Candidates(CandidatePaths, name) == ImageCandidates(name)
  {
    var a, b, c, d, e := "/images/" + name, "images/" + name, "/src/images/" + name, "src/images/" + name, "/" + name;
    ConcreteRawCandidates(name);
    // The five candidates have pairwise different lengths, so they are distinct.
    assert |a| == 8 + |name| && |b| == 7 + |name| && |c| == 12 + |name| && |d| == 11 + |name| && |e| == 1 + |name|;
    DedupShape(a, b, c, d, e);
  }

  /** resolveUrl (lines 7-17) with the base paths of line 6. */
  method ResolveUrl(name: string) returns (urls: seq<Url>)
    ensures urls == Candidates(CandidatePaths, name)
    ensures urls == ImageCandidates(name)
  {
    urls := ResolveUrlFrom(CandidatePaths, name);
    ConcreteCandidates(name);
  }

  // ---------------------------------------------------------------------------
  // preloadImages / tryNext (lines 19-33)
  // ---------------------------------------------------------------------------

  /** The outcome of preloading one name: `{name, url}` with `url` null on failure. */
  datatype Preloaded = Preloaded(name: string, url: Option<Url>)

  /** The position at which tryNext stops: the first candidate that loads, or |urls|. */
  function FirstLoading(urls: seq<Url>, loads: Url -> bool): (k: nat)
    ensures k <= |urls|
    ensures forall j :: 0 <= j < k ==> !loads(urls[j])
    ensures k < |urls| ==> loads(urls[k])
  {
    if urls == [] then 0
    else if loads(urls[0]) then 0
    else 1 + FirstLoading(urls[1..], loads)
  }

  /** The url tryNext reports: the first candidate that loads, or null. */
  function LoadedUrl(urls: seq<Url>, loads: Url -> bool): (r: Option<Url>)
    ensures r.None? <==> forall j :: 0 <= j < |urls| ==> !loads(urls[j])
    ensures r.Some? ==> r.value in urls && loads(r.value)
    ensures r.Some? ==> FirstLoading(urls, loads) < |urls| && r.value == urls[FirstLoading(urls, loads)]
  {
    var k := FirstLoading(urls, loads);
    if k < |urls| then Some(urls[k]) else None
  }

  /**
   * The candidates tryNext assigns to `img.src`, in order: every candidate up to
   * and including the first that loads.
   */
  function Attempts(urls: seq<Url>, loads: Url -> bool): (tried: seq<Url>)
    ensures tried <= urls
    ensures LoadedUrl(urls, loads).None? ==> tried == urls
    ensures LoadedUrl(urls, loads).Some? ==> tried != [] && tried[|tried| - 1] == LoadedUrl(urls, loads).value
  {
    var k := FirstLoading(urls, loads);
    if k < |urls| then urls[..k + 1] else urls
  }

  /**
   * tryNext (lines 23-29): try the candidates one after another, advancing the
   * counter `i` on every load error, until one loads or none are left. `tried`
   * lists the locations assigned to `img.src`, in order.
   */
  method TryNext(urls: seq<Url>, loads: Url -> bool) returns (url: Option<Url>, tried: seq<Url>)
    ensures url == LoadedUrl(urls, loads)
    ensures tried == Attempts(urls, loads)
  {
    tried := [];
    var i := 0;
    while true
      invariant 0 <= i <= |urls|
      invariant tried == urls[..i]
      invariant forall j :: 0 <= j < i ==> !loads(urls[j])
      decreases |urls| - i
    {
      if i >= |urls| {
        url := None;
        FirstLoadingIs(urls, loads, i);
        assert urls[..i] == urls;
        return;
      }
      tried := tried + [urls[i]];
      if loads(urls[i]) {
        url := Some(urls[i]);
        FirstLoadingIs(urls, loads, i);
        assert urls[..i + 1] == urls[..i] + [urls[i]];
        return;
      }
      assert urls[..i + 1] == urls[..i] + [urls[i]];
      i := i + 1;
    }
  }

  /** The url preloadImages reports for `name` with the base paths of line 6. */
  function ResolvedUrl(name: string, loads: Url -> bool): (r: Option<Url>)
    ensures r.None? <==> forall k :: 0 <= k < 5 ==> !loads(ImageCandidates(name)[k])
    ensures r.Some? ==> r.value in ImageCandidates(name) && loads(r.value) && EndsWith(r.value, name)
  {
    LoadedUrl(ImageCandidates(name), loads)
  }

  /** One promise of preloadImages (lines 20-31): resolve the candidates of `name`, then tryNext. */
  method PreloadOne(name: string, loads: Url -> bool) returns (result: Preloaded, tried: seq<Url>)
    ensures result.name == name
    ensures result.url == ResolvedUrl(name, loads)
    ensures tried == Attempts(ImageCandidates(name), loads)
  {
    var urls := ResolveUrl(name);
    var url;
    url, tried := TryNext(urls, loads);
    result := Preloaded(name, url);
  }

  /** FirstLoading is the unique position before which nothing loads and at which something does. */
  lemma {:induction false} FirstLoadingIs(urls: seq<Url>, loads: Url -> bool, k: nat)
    requires k <= |urls|
    requires forall j :: 0 <= j < k ==> !loads(urls[j])
    requires k < |urls| ==> loads(urls[k])
    ensures FirstLoading(urls, loads) == k
  {
  }

  /**
   * preloadImages (lines 19-33): one result per name, in the order of `names`,
   * each the first loading candidate of that name or null.
   */
  method PreloadImages(names: seq<string>, loads: Url -> bool) returns (results: seq<Preloaded>)
    ensures |results| == |names|
    ensures forall k :: 0 <= k < |names| ==> results[k].name == names[k]
    ensures forall k :: 0 <= k < |names| ==> results[k].url == ResolvedUrl(names[k], loads)
  {
    results := [];
    var k := 0;
    while k < |names|
      invariant 0 <= k <= |names|
      invariant |results| == k
      invariant forall j :: 0 <= j < k ==> results[j].name == names[j]
      invariant forall j :: 0 <= j < k ==> results[j].url == ResolvedUrl(names[j], loads)
    {
      var one, _ := PreloadOne(names[k], loads);
      results := results + [one];
      k := k + 1;
    }
  }

  /** Every candidate tried is tried once: the attempts never repeat a location. */
  lemma AttemptsDistinct(paths: seq<string>, name: string, loads: Url -> bool)
    ensures Distinct(Attempts(Candidates(paths, name), loads))
  {
    var urls := Candidates(paths, name);
    var tried := Attempts(urls, loads);
    assert forall i :: 0 <= i < |tried| ==> tried[i] == urls[i];
  }

  /** A name with no loading candidate is reported null only after every candidate was tried. */
  lemma NotFoundAfterAllTried(name: string, loads: Url -> bool)
    requires forall u :: u in Candidates(CandidatePaths, name) ==> !loads(u)
    ensures LoadedUrl(Candidates(CandidatePaths, name), loads) == None
    ensures Attempts(Candidates(CandidatePaths, name), loads) == Candidates(CandidatePaths, name)
  {
  }
}
