/**
 * The two private helpers of `AxiosHooksMock`: `detectUrlAndMethod`, which
 * turns a request descriptor into a URL and a method, and
 * `buildCompositeKey`, which turns that pair into the registry's key.
 */
module Request {
  import opened Wrappers
  import opened Strings
  import QueryString

  /**
   * An axios request config (its `method` field is called `verb` here, `method`
   * being a Dafny keyword). Only `url`, `baseURL`, `method` and `params`
   * are ever read; every other field (`data`, `headers`, a lower-case
   * `baseUrl`, ...) is kept in `otherFields` and plays no part.
   */
  datatype Config = Config(
    url: Option<string>,
    baseURL: Option<string>,
    verb: Option<string>,
    params: Option<QueryString.Params>,
    otherFields: map<string, string>)

  /** What `useAxios` and the registration methods accept: a URL string or a config. */
  datatype Descriptor = Bare(s: string) | Structured(config: Config)

  datatype UrlAndMethod = UrlAndMethod(url: string, verb: string)

  /** The TypeError thrown by `config.url.startsWith` when a config has no `url`. */
  datatype Error = UrlMissing

  /** The absolute-URL test: a literal prefix "http", not a scheme parse. */
  predicate IsAbsolute(url: string) {
    StartsWith(url, "http")
  }

  /** `config.baseURL ?? ''`, applied only to a URL that is not absolute. */
  function BasePrefix(url: string, baseURL: Option<string>): string {
    if IsAbsolute(url) then ""
    else match baseURL
      case None => ""
      case Some(b) => b
  }

  /** `'?' + stringify(params)` when `params` is truthy (any object, even an empty one), else empty. */
  function QuerySuffix(escape: string -> string, params: Option<QueryString.Params>): string {
    match params
    case None => ""
    case Some(p) => "?" + QueryString.Stringify(escape, p)
  }

  /** `config.verb ?? 'GET'` */
  function MethodOrGet(verb: Option<string>): string {
    match verb
    case None => "GET"
    case Some(m) => m
  }

  function DetectUrlAndMethod(escape: string -> string, config: Descriptor): (r: Result<UrlAndMethod, Error>)
    // A bare string is the URL itself, requested with GET.
    ensures config.Bare? ==> r == Success(UrlAndMethod(config.s, "GET"))
    // A config fails exactly when it has no url.
    ensures config.Structured? ==> (r.Failure? <==> config.config.url.None?)
    // The method is the config's own, GET when absent; it is never upper-cased here.
    ensures config.Structured? && r.Success? ==>
      r.value.verb == (if config.config.verb.Some? then config.config.verb.value else "GET")
    // An absolute url, or a config without baseURL, keeps the url as it is, followed by the query.
    ensures config.Structured? && r.Success? ==>
      var c := config.config;
      (IsAbsolute(c.url.value) || c.baseURL.None?) ==> r.value.url == c.url.value + QuerySuffix(escape, c.params)
    // A relative url is prefixed with baseURL.
    ensures config.Structured? && r.Success? ==>
      var c := config.config;
      (!IsAbsolute(c.url.value) && c.baseURL.Some?) ==>
        r.value.url == c.baseURL.value + c.url.value + QuerySuffix(escape, c.params)
  {
    match config
    case Bare(s) => Success(UrlAndMethod(s, "GET"))
    case Structured(c) =>
      match c.url
      case None => Failure(UrlMissing)
      case Some(url) =>
        var queryParamsString := QuerySuffix(escape, c.params);
        Success(UrlAndMethod(BasePrefix(url, c.baseURL) + url + queryParamsString, MethodOrGet(c.verb)))
  }

  /** `${method.toUpperCase()}|${url}` */
  function BuildCompositeKey(url: string, verb: string): (k: string)
    ensures |k| == |verb| + 1 + |url|
    ensures k[..|verb|] == Upper(verb) && k[|verb|] == '|' && k[|verb| + 1..] == url
  {
    Upper(verb) + "|" + url
  }

  /** The key under which a descriptor is stored and looked up (index.ts:78-79 and 149-150). */
  function CompositeKeyOf(escape: string -> string, config: Descriptor): Result<string, Error> {
    match DetectUrlAndMethod(escape, config)
    case Failure(e) => Failure(e)
    case Success(UrlAndMethod(url, verb)) => Success(BuildCompositeKey(url, verb))
  }

  /** Methods differing only in letter case give the same key. */
  lemma CompositeKeyIgnoresCase(url: string, m1: string, m2: string)
    requires Upper(m1) == Upper(m2)
    ensures BuildCompositeKey(url, m1) == BuildCompositeKey(url, m2)
  {
  }

  /** An already upper-cased method gives the same key as the method itself. */
  lemma CompositeKeyOfUpper(url: string, verb: string)
    ensures BuildCompositeKey(url, Upper(verb)) == BuildCompositeKey(url, verb)
  {
    UpperIdempotent(verb);
  }

  /**
   * For methods without '|' (every axios `Method` literal), two keys are
   * equal exactly when the upper-cased methods and the URLs are.
   */
  lemma CompositeKeyInjective(u1: string, m1: string, u2: string, m2: string)
    requires '|' !in m1 && '|' !in m2
    ensures BuildCompositeKey(u1, m1) == BuildCompositeKey(u2, m2) <==> (Upper(m1) == Upper(m2) && u1 == u2)
  {
    if BuildCompositeKey(u1, m1) == BuildCompositeKey(u2, m2) {
      UpperKeepsNonLetter(m1, '|');
      UpperKeepsNonLetter(m2, '|');
      assert BuildCompositeKey(u1, m1) == Upper(m1) + ("|" + u1);
      assert BuildCompositeKey(u2, m2) == Upper(m2) + ("|" + u2);
      SplitAtSeparator('|', Upper(m1), "|" + u1, Upper(m2), "|" + u2);
      CancelPrefix("|", u1, u2);
    }
  }

  /** The separator is not escaped: a method containing '|' can collide with a different URL. */
  lemma CompositeKeySeparatorCollision()
    ensures BuildCompositeKey("b", "GET|A") == BuildCompositeKey("A|b", "GET")
    ensures "b" != "A|b"
  {
    UpperOfUpperCase("GET|A");
    UpperOfUpperCase("GET");
    assert "GET|A" + "|" + "b" == "GET" + "|" + "A|b";
  }

  /** A bare string resolves to itself with GET (index.ts:51-53). */
  lemma BareIsGet(escape: string -> string, s: string)
    ensures CompositeKeyOf(escape, Bare(s)) == Success("GET|" + s)
  {
    UpperOfUpperCase("GET");
    assert "GET" + "|" + s == "GET|" + s;
  }

  /**
   * `get(u)` and `useAxios(u)` meet `{url: u, verb: m}` for any spelling
   * of GET, whatever baseURL says when `u` is absolute, and whatever other
   * fields (such as `data`) the config carries.
   */
  lemma BareMatchesGetConfig(escape: string -> string, u: string, c: Config)
    requires c.url == Some(u) && c.params.None?
    requires c.verb.None? || Upper(c.verb.value) == "GET"
    requires IsAbsolute(u) || c.baseURL.None?
    ensures CompositeKeyOf(escape, Structured(c)) == CompositeKeyOf(escape, Bare(u))
  {
    UpperOfUpperCase("GET");
    CompositeKeyIgnoresCase(u, MethodOrGet(c.verb), "GET");
    assert QuerySuffix(escape, c.params) == "" && BasePrefix(u, c.baseURL) == "";
    assert BasePrefix(u, c.baseURL) + u + QuerySuffix(escape, c.params) == u;
    assert DetectUrlAndMethod(escape, Structured(c)) == Success(UrlAndMethod(u, MethodOrGet(c.verb)));
  }

  /** Only url, baseURL, method and params decide the result. */
  lemma OnlyFourFieldsMatter(escape: string -> string, c1: Config, c2: Config)
    requires c1.url == c2.url && c1.baseURL == c2.baseURL && c1.verb == c2.verb && c1.params == c2.params
    ensures DetectUrlAndMethod(escape, Structured(c1)) == DetectUrlAndMethod(escape, Structured(c2))
  {
  }

  /** An absolute url makes baseURL irrelevant. */
  lemma AbsoluteIgnoresBase(escape: string -> string, c: Config, base: Option<string>)
    requires c.url.Some? && IsAbsolute(c.url.value)
    ensures DetectUrlAndMethod(escape, Structured(c.(baseURL := base))) == DetectUrlAndMethod(escape, Structured(c))
  {
  }

  /** A present but empty params object still appends '?' (a truthiness test, index.ts:54). */
  lemma EmptyParamsAppendQuestionMark(escape: string -> string, c: Config)
    requires c.url.Some? && c.params.None?
    ensures DetectUrlAndMethod(escape, Structured(c.(params := Some([])))).value.url
         == DetectUrlAndMethod(escape, Structured(c)).value.url + "?"
    ensures CompositeKeyOf(escape, Structured(c.(params := Some([]))))
         != CompositeKeyOf(escape, Structured(c))
  {
  }

  /**
   * Under the escaping assumption, configs differing only in their params
   * get different keys.
   */
  lemma ParamsDistinguishKeys(escape: string -> string, c: Config, p1: QueryString.Params, p2: QueryString.Params)
    requires QueryString.SafeEscape(escape)
    requires c.url.Some? && p1 != p2
    ensures CompositeKeyOf(escape, Structured(c.(params := Some(p1))))
         != CompositeKeyOf(escape, Structured(c.(params := Some(p2))))
  {
    var url, verb := c.url.value, MethodOrGet(c.verb);
    var head := BasePrefix(url, c.baseURL) + url + "?";
    var s1, s2 := QueryString.Stringify(escape, p1), QueryString.Stringify(escape, p2);
    assert DetectUrlAndMethod(escape, Structured(c.(params := Some(p1)))) == Success(UrlAndMethod(head + s1, verb)) by {
      assert BasePrefix(url, c.baseURL) + url + ("?" + s1) == head + s1;
    }
    assert DetectUrlAndMethod(escape, Structured(c.(params := Some(p2)))) == Success(UrlAndMethod(head + s2, verb)) by {
      assert BasePrefix(url, c.baseURL) + url + ("?" + s2) == head + s2;
    }
    var prefix := Upper(verb) + "|" + head;
    assert BuildCompositeKey(head + s1, verb) == prefix + s1;
    assert BuildCompositeKey(head + s2, verb) == prefix + s2;
    if prefix + s1 == prefix + s2 {
      CancelPrefix(prefix, s1, s2);
      QueryString.StringifyInjective(escape, p1, p2);
    }
  }
}
