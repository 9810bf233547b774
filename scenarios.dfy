/**
 * The library's own usage scenarios, run through the model: the
 * convenience methods on one absolute URL, the three query-parameter
 * routes registered through the constructor, and a mock that sees entries
 * added after `implement()` was called.
 */
module Scenarios {
  import opened Wrappers
  import opened Strings
  import opened Request
  import QueryString
  import opened Registry

  /** Percent-encoding as it acts on the plain alphanumeric names and values below: it changes nothing. */
  function Plain(s: string): string {
    s
  }

  /** A config `{ url, method }` carrying one more field (`data: 'test'`) that plays no part. */
  function RouteConfig(url: string, verb: string): Descriptor {
    Structured(Config(Some(url), None, Some(verb), None, map["data" := "test"]))
  }

  /** `{ baseUrl: 'https://api.com/api', url: '/123', params: { param: value } }`; `baseUrl` is not `baseURL`. */
  function QueryRoute(value: string): Descriptor {
    Structured(Config(Some("/123"), None, None, Some([("param", value)]), map["baseUrl" := "https://api.com/api"]))
  }

  lemma RouteConfigKey(url: string, verb: string)
    requires verb in {"GET", "POST", "PUT", "PATCH", "DELETE", "HEAD"}
    ensures CompositeKeyOf(Plain, RouteConfig(url, verb)) == Success(verb + "|" + url)
  {
    UpperOfUpperCase(verb);
    assert BasePrefix(url, None) + url + QuerySuffix(Plain, None) == url;
    assert DetectUrlAndMethod(Plain, RouteConfig(url, verb)) == Success(UrlAndMethod(url, verb));
  }

  /** A method name followed by the separator is the key prefix the convenience methods spell out. */
  lemma KeySpelling(url: string)
    ensures "GET" + "|" + url == "GET|" + url && "POST" + "|" + url == "POST|" + url
    ensures "PUT" + "|" + url == "PUT|" + url && "PATCH" + "|" + url == "PATCH|" + url
    ensures "DELETE" + "|" + url == "DELETE|" + url && "HEAD" + "|" + url == "HEAD|" + url
  {
  }

  /** The keys of the six methods on one URL are pairwise distinct. */
  lemma VerbKeysDistinct(url: string)
    ensures "GET|" + url !in {"POST|" + url, "PUT|" + url, "PATCH|" + url, "DELETE|" + url, "HEAD|" + url}
    ensures "POST|" + url !in {"PUT|" + url, "PATCH|" + url, "DELETE|" + url, "HEAD|" + url}
    ensures "PUT|" + url !in {"PATCH|" + url, "DELETE|" + url, "HEAD|" + url}
    ensures "PATCH|" + url !in {"DELETE|" + url, "HEAD|" + url}
    ensures "DELETE|" + url != "HEAD|" + url
  {
    assert ("GET|" + url)[0] == 'G' && ("DELETE|" + url)[0] == 'D' && ("HEAD|" + url)[0] == 'H';
    assert ("POST|" + url)[0] == 'P' && ("PUT|" + url)[0] == 'P' && ("PATCH|" + url)[0] == 'P';
    assert ("POST|" + url)[1] == 'O' && ("PUT|" + url)[1] == 'U' && ("PATCH|" + url)[1] == 'A';
  }

  /**
   * The query routes ignore the lower-case `baseUrl`: their keys are
   * "GET|/123?param=" followed by the value.
   */
  lemma QueryRouteKey(value: string)
    ensures CompositeKeyOf(Plain, QueryRoute(value)) == Success("GET|/123?param=" + value)
  {
    UpperOfUpperCase("GET");
    assert QueryString.Stringify(Plain, [("param", value)]) == "param=" + value;
    assert !IsAbsolute("/123") by { assert "/123"[0] != 'h'; }
    var url := BasePrefix("/123", None) + "/123" + QuerySuffix(Plain, Some([("param", value)]));
    assert url == "/123?param=" + value;
    assert DetectUrlAndMethod(Plain, QueryRoute(value)) == Success(UrlAndMethod(url, "GET"));
    assert "GET" + "|" + url == "GET|/123?param=" + value;
  }

  /** The registry after one registration per convenience method on `url`. */
  function VerbsMap(url: string): map<string, string> {
    map["GET|" + url := "dataGet"]["POST|" + url := "dataPost"]
      ["PUT|" + url := "dataPut"]["PATCH|" + url := "dataPatch"]["DELETE|" + url := "dataDelete"]
  }

  /** Each verb's key finds its own entry in that registry; HEAD's finds none. */
  lemma VerbsMapLookups(url: string)
    ensures VerbsMap(url).Keys == {"GET|" + url, "POST|" + url, "PUT|" + url, "PATCH|" + url, "DELETE|" + url}
    ensures VerbsMap(url)["GET|" + url] == "dataGet" && VerbsMap(url)["POST|" + url] == "dataPost"
    ensures VerbsMap(url)["PUT|" + url] == "dataPut" && VerbsMap(url)["PATCH|" + url] == "dataPatch"
    ensures VerbsMap(url)["DELETE|" + url] == "dataDelete"
    ensures "HEAD|" + url !in VerbsMap(url)
  {
    VerbKeysDistinct(url);
  }

  /** `new AxiosHooksMock().get(url, …).post(url, …).put(url, …).patch(url, …).delete(url, …).implement()` */
  method ChainedVerbs(url: string) returns (useAxios: MockImplementation<string>)
    ensures fresh(useAxios.mock) && useAxios.mock.escape == Plain
    ensures useAxios.mock.implementations == VerbsMap(url)
  {
    var mock := new AxiosHooksMock<string>(Plain, None);
    var chain := mock.Get(url, "dataGet");
    chain := chain.Post(url, "dataPost");
    chain := chain.Put(url, "dataPut");
    chain := chain.Patch(url, "dataPatch");
    chain := chain.Delete(url, "dataDelete");
    useAxios := chain.Implement();
  }

  /**
   * Five registrations on one URL through the chained convenience methods:
   * each method's config finds its own implementation, the bare URL finds
   * the GET one, and a HEAD request finds nothing.
   */
  method ConvenienceMethods(url: string) returns (get: Option<string>, bare: Option<string>, post: Option<string>,
                                                  put: Option<string>, patch: Option<string>, delete: Option<string>,
                                                  head: Option<string>)
    ensures get == bare == Some("dataGet")
    ensures post == Some("dataPost") && put == Some("dataPut")
    ensures patch == Some("dataPatch") && delete == Some("dataDelete")
    ensures head == None
  {
    var useAxios := ChainedVerbs(url);
    VerbsMapLookups(url);
    KeySpelling(url);

    RouteConfigKey(url, "GET");
    RouteConfigKey(url, "POST");
    RouteConfigKey(url, "PUT");
    RouteConfigKey(url, "PATCH");
    RouteConfigKey(url, "DELETE");
    RouteConfigKey(url, "HEAD");
    BareIsGet(Plain, url);

    var r := useAxios.Call(RouteConfig(url, "GET"));
    get := r.value;
    r := useAxios.Call(Bare(url));
    bare := r.value;
    r := useAxios.Call(RouteConfig(url, "POST"));
    post := r.value;
    r := useAxios.Call(RouteConfig(url, "PUT"));
    put := r.value;
    r := useAxios.Call(RouteConfig(url, "PATCH"));
    patch := r.value;
    r := useAxios.Call(RouteConfig(url, "DELETE"));
    delete := r.value;
    r := useAxios.Call(RouteConfig(url, "HEAD"));
    head := r.value;
  }

  /**
   * Three items registered through the constructor, sharing a URL and
   * differing only in the value of one query parameter, each find their own
   * implementation.
   */
  method QueryParamRoutes() returns (one: Option<string>, two: Option<string>, three: Option<string>)
    ensures one == Some("dataOne") && two == Some("dataTwo") && three == Some("dataThree")
  {
    var items := [MockItem(QueryRoute("one"), "dataOne"), MockItem(QueryRoute("two"), "dataTwo"),
                  MockItem(QueryRoute("three"), "dataThree")];
    QueryRouteKey("one");
    QueryRouteKey("two");
    QueryRouteKey("three");
    var keys := ["GET|/123?param=" + "one", "GET|/123?param=" + "two", "GET|/123?param=" + "three"];
    assert ItemKey(Plain, items[0]) == Success(keys[0]);
    assert ItemKey(Plain, items[1]) == Success(keys[1]);
    assert ItemKey(Plain, items[2]) == Success(keys[2]);
    assert keys[0] != keys[1] && keys[0] != keys[2] && keys[1] != keys[2] by {
      assert keys[0][15] == 'o' && keys[1][15] == 't' && keys[2][15] == 't';
      assert keys[1][16] == 'w' && keys[2][16] == 'h';
    }
    var mock := new AxiosHooksMock<string>(Plain, Some(items));
    RegisterAllLastItemWins(Plain, map[], items, 0, keys[0]);
    RegisterAllLastItemWins(Plain, map[], items, 1, keys[1]);
    RegisterAllLastItemWins(Plain, map[], items, 2, keys[2]);
    var useAxios := mock.Implement();
    var r := useAxios.Call(QueryRoute("one"));
    one := r.value;
    r := useAxios.Call(QueryRoute("two"));
    two := r.value;
    r := useAxios.Call(QueryRoute("three"));
    three := r.value;
  }

  /**
   * The function `implement()` returns reads the registry when it is
   * called: an entry added afterwards is found, and before that the same
   * request gets `undefined`.
   */
  method LiveView(url: string) returns (before: Option<string>, after: Option<string>)
    ensures before == None && after == Some("late")
  {
    var mock := new AxiosHooksMock<string>(Plain, None);
    var useAxios := mock.Implement();
    BareIsGet(Plain, url);
    var r := useAxios.Call(Bare(url));
    before := r.value;
    var _ := mock.Get(url, "late");
    r := useAxios.Call(Bare(url));
    after := r.value;
  }

  /** A config without `url` makes the call throw (a TypeError on `config.url.startsWith`). */
  method MissingUrl() returns (r: Result<Option<string>, Error>)
    ensures r == Failure(UrlMissing)
  {
    var mock := new AxiosHooksMock<string>(Plain, None);
    var useAxios := mock.Implement();
    r := useAxios.Call(Structured(Config(None, Some("https://api.com"), None, None, map[])));
  }
}
