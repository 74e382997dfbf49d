/** The GitHub client: repository-address parsing, the requests the plugin sends
    to the GitHub REST API, and the rule that decides whether a response is a
    success. The HTTP transport itself is outside the model. */
module Sdk {
  import opened Js

  const BaseHost := "https://github.com/"
  const BaseApiHost := "https://api.github.com/repos/"
  const UsersApiHost := "https://api.github.com/users/"

  // ---------------------------------------------------------------------------
  // Repository addresses
  // ---------------------------------------------------------------------------

  /** Number of occurrences of `c` in `s`. */
  function CountChar(s: string, c: char): nat
  {
    multiset(s)[c]
  }

  /** What follows the GitHub host in a repository address. */
  function Remainder(url: string): string
    requires StartsWith(url, BaseHost)
  {
    url[|BaseHost|..]
  }

  /** `getRepoName`: the `owner/repo` part of a GitHub web address, cut before
      the second `/` after the host, or `''` when the address is not on GitHub. */
  function GetRepoName(url: string): (r: string)
    ensures !StartsWith(url, BaseHost) ==> r == ""
    ensures StartsWith(url, BaseHost) ==> r <= Remainder(url)
  {
    if !StartsWith(url, BaseHost) then ""
    else
      var rest := url[|BaseHost|..];
      var second := IndexOf(rest, '/', IndexOf(rest, '/', 0) + 1);
      if second == -1 then rest else rest[..second]
  }

  /** Reference definition of the repository name inside `rest`: the longest
      prefix of `rest` holding at most one `/`. Either it is all of `rest`, or
      it holds exactly one `/` and the next character is the second one. */
  ghost predicate IsRepoPart(rest: string, r: string) {
    && r <= rest
    && CountChar(r, '/') <= 1
    && (r == rest || (|r| < |rest| && rest[|r|] == '/' && CountChar(r, '/') == 1))
  }

  /** A slice holding `c` at exactly one position counts it once. */
  lemma CountAroundOne(s: string, c: char, lo: nat, k: nat, hi: nat)
    requires lo <= k < hi <= |s|
    requires s[k] == c
    requires forall j :: lo <= j < hi && j != k ==> s[j] != c
    ensures CountChar(s[lo..hi], c) == 1
  {
    assert s[lo..hi] == s[lo..k] + [c] + s[k + 1..hi];
  }

  /** A string that starts with `c` counts it at least once. */
  lemma CountHead(t: string, c: char)
    requires |t| > 0 && t[0] == c
    ensures CountChar(t, c) >= 1
  {
    assert t == [c] + t[1..];
  }

  /** The parser meets the reference definition. */
  lemma GetRepoNameIsRepoPart(url: string)
    requires StartsWith(url, BaseHost)
    ensures IsRepoPart(Remainder(url), GetRepoName(url))
  {
    var rest := Remainder(url);
    var first := IndexOf(rest, '/', 0);
    var second := IndexOf(rest, '/', first + 1);
    var r := GetRepoName(url);
    if first == -1 {
      assert r == rest;
      assert CountChar(rest, '/') == 0;
    } else if second == -1 {
      assert r == rest;
      CountAroundOne(rest, '/', 0, first, |rest|);
      assert rest[0..|rest|] == rest;
    } else {
      assert r == rest[..second];
      CountAroundOne(rest, '/', 0, first, second);
      assert rest[0..second] == r;
    }
  }

  /** The reference definition names exactly one string. */
  lemma RepoPartUnique(rest: string, r1: string, r2: string)
    requires IsRepoPart(rest, r1) && IsRepoPart(rest, r2)
    ensures r1 == r2
  {
    if |r1| < |r2| {
      RepoPartExtended(rest, r1, r2);
      assert false;
    } else if |r2| < |r1| {
      RepoPartExtended(rest, r2, r1);
      assert false;
    } else {
      assert r1 == rest[..|r1|] == r2;
    }
  }

  /** Any prefix of `rest` longer than a repository part holds two `/`. */
  lemma RepoPartExtended(rest: string, short: string, long: string)
    requires IsRepoPart(rest, short) && long <= rest
    requires |short| < |long|
    ensures CountChar(long, '/') >= 2
  {
    assert long[..|short|] == short;
    var tail := long[|short|..];
    assert long == short + tail;
    CountHead(tail, '/');
  }

  /** With two or more `/` after the host, the name is what precedes the
      second one: it holds one `/` and is followed by a `/`. */
  lemma GetRepoNameCutsAtSecondSlash(url: string)
    requires StartsWith(url, BaseHost)
    requires CountChar(Remainder(url), '/') >= 2
    ensures CountChar(GetRepoName(url), '/') == 1
    ensures GetRepoName(url) + "/" <= Remainder(url)
  {
    GetRepoNameIsRepoPart(url);
    var rest, r := Remainder(url), GetRepoName(url);
    if r == rest {
      assert false;
    }
    assert (r + "/") == rest[..|r| + 1];
  }

  /** With fewer than two `/` after the host, the name is the whole remainder. */
  lemma GetRepoNameWholeRemainder(url: string)
    requires StartsWith(url, BaseHost)
    requires CountChar(Remainder(url), '/') < 2
    ensures GetRepoName(url) == Remainder(url)
  {
    GetRepoNameIsRepoPart(url);
    var rest, r := Remainder(url), GetRepoName(url);
    if r != rest {
      RepoPartExtended(rest, r, rest);
      assert false;
    }
  }

  /** A name holds at most one `/`, and parsing the address rebuilt from a
      name gives the name back. */
  lemma GetRepoNameIdempotent(url: string)
    ensures CountChar(GetRepoName(url), '/') <= 1
    ensures GetRepoName(BaseHost + GetRepoName(url)) == GetRepoName(url)
  {
    var r := GetRepoName(url);
    if StartsWith(url, BaseHost) {
      GetRepoNameIsRepoPart(url);
    }
    var again := BaseHost + r;
    assert again[..|BaseHost|] == BaseHost;
    assert Remainder(again) == r;
    GetRepoNameWholeRemainder(again);
  }

  /** An address on another host is rejected. */
  lemma GetRepoNameOtherHost()
    ensures GetRepoName("https://gitlab.com/foo/bar") == ""
  {
    var url := "https://gitlab.com/foo/bar";
    assert url[11] != BaseHost[11];
    assert !StartsWith(url, BaseHost);
  }

  /** Anything after `owner/repo` is dropped: for instance
      `https://github.com/RocketChat/Rocket.Chat/extra/path` names
      `RocketChat/Rocket.Chat`. */
  lemma GetRepoNameOwnerRepo(owner: string, repo: string, extra: string)
    requires CountChar(owner, '/') == 0 && CountChar(repo, '/') == 0
    ensures GetRepoName(BaseHost + owner + "/" + repo + "/" + extra) == owner + "/" + repo
  {
    var url := BaseHost + owner + "/" + repo + "/" + extra;
    var name := owner + "/" + repo;
    assert url == BaseHost + (name + "/" + extra);
    assert url[..|BaseHost|] == BaseHost;
    var rest := Remainder(url);
    assert rest == name + "/" + extra;
    GetRepoNameIsRepoPart(url);
    assert IsRepoPart(rest, name) by {
      assert rest[..|name|] == name;
      assert rest[|name|] == '/';
    }
    RepoPartUnique(rest, name, GetRepoName(url));
  }

  /** A bare owner is kept, and the bare host gives the empty name. */
  lemma GetRepoNameShortAddresses()
    ensures GetRepoName("https://github.com/foo") == "foo"
    ensures GetRepoName("https://github.com/") == ""
  {
    var url := "https://github.com/foo";
    assert url == BaseHost + "foo";
    assert StartsWith(url, BaseHost);
    assert Remainder(url) == "foo";
    assert CountChar("foo", '/') == 0;
    GetRepoNameWholeRemainder(url);
    var bare := "https://github.com/";
    assert bare == BaseHost;
    assert StartsWith(bare, BaseHost);
    assert Remainder(bare) == "";
    GetRepoNameWholeRemainder(bare);
  }

  // ---------------------------------------------------------------------------
  // Responses
  // ---------------------------------------------------------------------------

  function DigitChar(d: nat): char
    requires d < 10
  {
    "0123456789"[d]
  }

  /** `n.toString()` for a non-negative integer. */
  function DecimalString(n: nat): (s: string)
    ensures |s| >= 1
  {
    if n < 10 then [DigitChar(n)] else DecimalString(n / 10) + [DigitChar(n % 10)]
  }

  function Pow10(k: nat): (p: nat)
    ensures p >= 1
  {
    if k == 0 then 1 else 10 * Pow10(k - 1)
  }

  /** The success test of `post` and `get`: the decimal status code starts with `2`. */
  predicate IsSuccessStatus(code: nat) {
    DecimalString(code)[0] == '2'
  }

  /** For a code with `k + 1` digits, success means its leading digit is 2. */
  lemma {:induction false} SuccessIffLeadingTwo(code: nat, k: nat)
    requires Pow10(k) <= code < 10 * Pow10(k)
    ensures IsSuccessStatus(code) <==> 2 * Pow10(k) <= code < 3 * Pow10(k)
  {
    if k == 0 {
      assert code < 10;
      assert DecimalString(code) == [DigitChar(code)];
    } else {
      var p := Pow10(k - 1);
      assert Pow10(k) == 10 * p;
      assert code >= 10;
      assert DecimalString(code)[0] == DecimalString(code / 10)[0];
      assert p <= code / 10 < 10 * p;
      SuccessIffLeadingTwo(code / 10, k - 1);
      assert 2 * p <= code / 10 <==> 20 * p <= code;
      assert code / 10 < 3 * p <==> code < 30 * p;
    }
  }

  /** For three-digit HTTP status codes the test is exactly "2xx". */
  lemma HttpSuccessIsTwoHundreds(code: nat)
    requires 100 <= code <= 999
    ensures IsSuccessStatus(code) <==> 200 <= code <= 299
  {
    assert Pow10(2) == 100 by {
      assert Pow10(1) == 10;
    }
    SuccessIffLeadingTwo(code, 2);
  }

  datatype HttpResponse = HttpResponse(statusCode: nat, content: string)

  /** What `post` and `get` do with a response: a non-success response is
      thrown as it is; otherwise the text handed to `JSON.parse` is the
      content, or `'{}'` when the content is empty. */
  datatype Reply = Parsed(json: string) | Thrown(response: HttpResponse)

  function CheckResponse(r: HttpResponse): (out: Reply)
    ensures out.Parsed? <==> IsSuccessStatus(r.statusCode)
    ensures out.Thrown? ==> out.response == r
    ensures out.Parsed? ==> out.json != "" && (r.content != "" ==> out.json == r.content)
    ensures out.Parsed? && r.content == "" ==> out.json == "{}"
  {
    if !IsSuccessStatus(r.statusCode) then Thrown(r)
    else Parsed(if r.content == "" then "{}" else r.content)
  }

  // ---------------------------------------------------------------------------
  // Requests
  // ---------------------------------------------------------------------------

  datatype Method = GET | POST

  datatype Header = Header(name: string, value: string)

  /** The body of a webhook registration. */
  datatype HookBody = HookBody(active: bool, events: seq<string>, configUrl: string, contentType: string)

  datatype HttpRequest = HttpRequest(verb: Method, url: string, headers: seq<Header>, body: Option<HookBody>)

  /** Headers of every POST: a bearer credential, JSON content, and the user agent. */
  function PostHeaders(token: string): seq<Header> {
    [ Header("Authorization", "Bearer " + token),
      Header("Content-Type", "application/json"),
      Header("User-Agent", "Rocket.Chat-Apps-Engine") ]
  }

  /** `createWebhook`: register a push hook on `repoName` that delivers JSON to `webhookUrl`. */
  function CreateWebhook(repoName: string, webhookUrl: string, token: string): (req: HttpRequest)
    ensures req.verb == POST
    ensures req.body == Some(HookBody(true, ["push"], webhookUrl, "json"))
    ensures Header("Authorization", "Bearer " + token) in req.headers
  {
    HttpRequest(POST, BaseApiHost + repoName + "/hooks", PostHeaders(token), Some(HookBody(true, ["push"], webhookUrl, "json")))
  }

  /** The repository a hook-registration address points at, if it is one. */
  function HookTarget(url: string): Option<string> {
    if |url| >= |BaseApiHost| + |"/hooks"| && StartsWith(url, BaseApiHost) && url[|url| - |"/hooks"|..] == "/hooks"
    then Some(url[|BaseApiHost|..|url| - |"/hooks"|])
    else None
  }

  /** The registration goes to the hooks collection of exactly the named repository. */
  lemma CreateWebhookTargetsRepo(repoName: string, webhookUrl: string, token: string)
    ensures HookTarget(CreateWebhook(repoName, webhookUrl, token).url) == Some(repoName)
  {
    var url := CreateWebhook(repoName, webhookUrl, token).url;
    assert url == BaseApiHost + repoName + "/hooks";
    assert url[..|BaseApiHost|] == BaseApiHost;
    assert url[|url| - |"/hooks"|..] == "/hooks";
    assert url[|BaseApiHost|..|url| - |"/hooks"|] == repoName;
  }

  /** `getRepos`: list a user's repositories. Only the name reaches the address;
      a page argument given by the caller is ignored. An absent name is
      interpolated as `undefined`. */
  function GetRepos(username: Option<string>): (req: HttpRequest)
    ensures req.verb == GET && req.body.None?
    ensures StartsWith(req.url, UsersApiHost)
  {
    HttpRequest(GET, UsersApiHost + Render(username) + "/repos", [Header("Accept", "application/json")], None)
  }

  /** The user whose repositories a listing address asks for, if it is one. */
  function ReposTarget(url: string): Option<string> {
    if |url| >= |UsersApiHost| + |"/repos"| && StartsWith(url, UsersApiHost) && url[|url| - |"/repos"|..] == "/repos"
    then Some(url[|UsersApiHost|..|url| - |"/repos"|])
    else None
  }

  /** The listing goes to the repositories collection of exactly the named
      user, `undefined` when no name was given; so different names make
      different requests. */
  lemma GetReposTargetsUser(username: Option<string>)
    ensures ReposTarget(GetRepos(username).url) == Some(Render(username))
  {
    var url := GetRepos(username).url;
    assert url == UsersApiHost + Render(username) + "/repos";
    assert url[..|UsersApiHost|] == UsersApiHost;
    assert url[|url| - |"/repos"|..] == "/repos";
    assert url[|UsersApiHost|..|url| - |"/repos"|] == Render(username);
  }

  /** What a failed call throws: the response itself when its status is not a
      success, or some other error the environment reports. */
  datatype ApiError = Rejected(response: HttpResponse) | Failed(reason: string)

  /** A call the plugin makes to GitHub. `FetchIssue` and `CreateIssue` are
      invoked on the client but are not defined by it; they are recorded as
      calls whose outcome the environment decides. */
  datatype ApiCall =
    | Http(request: HttpRequest)
    | FetchIssue(token: string, owner: Option<string>, repo: Option<string>, issueNo: Option<string>, page: string)
    | CreateIssue(token: string, issueOwner: string, issueRepo: string, title: string, description: string)
}
