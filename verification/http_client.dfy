/** The upstream passthrough client (HttpClientServiceImpl): validates an
    outbound call, rewrites its URL onto the configured redirect base, sends
    it for its verb and, unless asked for a single attempt, retries a 404
    against the local mock server. The HTTP transport is an oracle. */
module HttpClient {
  import opened Common

  /** HttpClientResponseDTO. */
  datatype ClientResponse = ClientResponse(
    status: int,
    contentType: Option<string>,
    headers: map<string, string>,
    body: string)

  /** `new HttpClientResponseDTO(404)`. */
  function NotFound(): ClientResponse
  {
    ClientResponse(404, None, map[], "")
  }

  /** The checked exceptions `handleCall` turns into a 404. */
  datatype TransportError = IOError | MockServerError

  /** One request as it leaves for the network. */
  datatype Outbound = Outbound(
    httpMethod: Method,
    url: string,
    headers: map<string, string>,
    body: Option<string>)

  /** HttpClientCallDTO. `handleCall` rewrites its URL in place. */
  class CallDescriptor {
    var url: Option<string>
    var httpMethod: Option<Method>
    var headers: Option<map<string, string>>
    var body: Option<string>

    constructor (url: Option<string>, httpMethod: Option<Method>,
                 headers: Option<map<string, string>>, body: Option<string>)
      ensures this.url == url && this.httpMethod == httpMethod
      ensures this.headers == headers && this.body == body
    {
      this.url := url;
      this.httpMethod := httpMethod;
      this.headers := headers;
      this.body := body;
    }
  }

  /** The network as seen from this client: a fixed answer per request, and
      the log of every request actually sent. */
  class Upstream {
    const answer: Outbound -> Result<ClientResponse, TransportError>
    var sent: seq<Outbound>

    constructor (answer: Outbound -> Result<ClientResponse, TransportError>)
      ensures this.answer == answer && sent == []
    {
      this.answer := answer;
      sent := [];
    }

    /** executeRequest: send one request and read the reply. */
    method Execute(request: Outbound) returns (r: Result<ClientResponse, TransportError>)
      modifies this`sent
      ensures sent == old(sent) + [request]
      ensures r == answer(request)
    {
      sent := sent + [request];
      r := answer(request);
    }
  }

  /** validateRequest: None when the call may proceed, else the message of
      the ValidationException. The URL is checked before the method. */
  function ValidateRequest(url: Option<string>, httpMethod: Option<Method>): (error: Option<string>)
    ensures error.None? <==> !IsBlank(url) && httpMethod.Some?
    ensures IsBlank(url) ==> error == Some("url is required")
  {
    if IsBlank(url) then Some("url is required")
    else if httpMethod.None? then Some("method is required")
    else None
  }

  /** applyRequestHeaders: the headers put on the outbound request. */
  function RequestHeaders(headers: Option<map<string, string>>): (applied: map<string, string>)
    ensures headers.None? ==> applied == map[]
    ensures headers.Some? ==> applied == headers.value
  {
    if headers.None? then map[] else headers.value
  }

  /** GET and DELETE go out without a body; POST, PUT and PATCH carry the
      descriptor's body. */
  function RequestBody(m: Method, body: Option<string>): (sent: Option<string>)
    ensures m == GET || m == DELETE ==> sent.None?
    ensures m == POST || m == PUT || m == PATCH ==> sent == body
  {
    if m == GET || m == DELETE then None else body
  }

  function OutboundFor(m: Method, url: string, headers: Option<map<string, string>>,
                       body: Option<string>): Outbound
  {
    Outbound(m, url, RequestHeaders(headers), RequestBody(m, body))
  }

  // ---------------------------------------------------------------------
  // The URL rewrite: the redirect base and the path, joined, with every
  // match of the regex (?<!(http:|https:))//{2,} replaced by one '/'
  // ---------------------------------------------------------------------

  /** The number of consecutive '/' starting at position i. */
  function SlashRun(s: string, i: nat): (n: nat)
    requires i <= |s|
    ensures i + n <= |s|
    ensures forall k :: i <= k < i + n ==> s[k] == '/'
    ensures i + n == |s| || s[i + n] != '/'
    decreases |s| - i
  {
    if i < |s| && s[i] == '/' then 1 + SlashRun(s, i + 1) else 0
  }

  /** The input before position i ends in "http:". */
  predicate HttpEndsAt(s: string, i: nat)
    requires i <= |s|
  {
    5 <= i && s[i - 5] == 'h' && s[i - 4] == 't' && s[i - 3] == 't' && s[i - 2] == 'p' && s[i - 1] == ':'
  }

  /** The input before position i ends in "https:". */
  predicate HttpsEndsAt(s: string, i: nat)
    requires i <= |s|
  {
    6 <= i && s[i - 6] == 'h' && s[i - 5] == 't' && s[i - 4] == 't' && s[i - 3] == 'p' && s[i - 2] == 's'
    && s[i - 1] == ':'
  }

  /** The negative lookbehind `(?<!(http:|https:))`: the input before
      position i ends in "http:" or "https:". */
  predicate AfterScheme(s: string, i: nat)
    requires i <= |s|
  {
    HttpEndsAt(s, i) || HttpsEndsAt(s, i)
  }

  /** The regex scan from position i: a match needs a '/' followed by at
      least two more (three in all) and no scheme right before it; it takes
      the whole run of slashes and becomes a single '/'. Where no match
      starts, one character is copied and the scan moves on. The lookbehind
      reads the input, never the replaced text. */
  function CollapseFrom(s: string, i: nat): (r: string)
    requires i <= |s|
    ensures |r| <= |s| - i
    decreases |s| - i
  {
    if i == |s| then ""
    else
      var n := SlashRun(s, i);
      if n >= 3 && !AfterScheme(s, i) then "/" + CollapseFrom(s, i + n)
      else [s[i]] + CollapseFrom(s, i + 1)
  }

  function CollapseSlashes(s: string): string
  {
    CollapseFrom(s, 0)
  }

  /** The URL the first attempt goes to. */
  function TargetUrl(redirectUrl: string, url: string): string
  {
    CollapseSlashes(redirectUrl + url)
  }

  /** The URL of the local retry: the path as the caller gave it, on the
      port the mock server listens on. */
  function LocalUrl(port: int, url: string): string
  {
    "http://localhost:" + IntToString(port) + url
  }

  /** s with every '/' removed. */
  function WithoutSlashes(s: string): string
  {
    if s == [] then []
    else (if s[0] == '/' then [] else [s[0]]) + WithoutSlashes(s[1..])
  }

  lemma {:induction false} WithoutSlashesAppend(a: string, b: string)
    ensures WithoutSlashes(a + b) == WithoutSlashes(a) + WithoutSlashes(b)
  {
    if a != [] {
      assert (a + b)[1..] == a[1..] + b;
      WithoutSlashesAppend(a[1..], b);
    } else {
      assert a + b == b;
    }
  }

  /** Skipping a run of slashes loses no other character. */
  lemma {:induction false} WithoutSlashesSkipsRun(s: string, i: nat, n: nat)
    requires i + n <= |s|
    requires forall k :: i <= k < i + n ==> s[k] == '/'
    ensures WithoutSlashes(s[i..]) == WithoutSlashes(s[i + n..])
    decreases n
  {
    if n > 0 {
      assert s[i..] == [s[i]] + s[i + 1..];
      WithoutSlashesAppend([s[i]], s[i + 1..]);
      WithoutSlashesSkipsRun(s, i + 1, n - 1);
    }
  }

  /** One step of the scan where a match starts: the run became one '/'. */
  lemma KeepsAcrossMatch(s: string, i: nat, n: nat)
    requires i < |s| && n == SlashRun(s, i) && n >= 3 && !AfterScheme(s, i)
    requires WithoutSlashes(CollapseFrom(s, i + n)) == WithoutSlashes(s[i + n..])
    ensures WithoutSlashes(CollapseFrom(s, i)) == WithoutSlashes(s[i..])
  {
    WithoutSlashesAppend("/", CollapseFrom(s, i + n));
    WithoutSlashesSkipsRun(s, i, n);
  }

  /** One step of the scan where no match starts: one character copied. */
  lemma KeepsAcrossCopy(s: string, i: nat)
    requires i < |s| && !(SlashRun(s, i) >= 3 && !AfterScheme(s, i))
    requires WithoutSlashes(CollapseFrom(s, i + 1)) == WithoutSlashes(s[i + 1..])
    ensures WithoutSlashes(CollapseFrom(s, i)) == WithoutSlashes(s[i..])
  {
    WithoutSlashesAppend([s[i]], CollapseFrom(s, i + 1));
    assert s[i..] == [s[i]] + s[i + 1..];
    WithoutSlashesAppend([s[i]], s[i + 1..]);
  }

  /** The rewrite only ever drops slashes: every other character of the URL
      survives, in order. */
  lemma {:induction false} CollapseKeepsOtherCharacters(s: string, i: nat)
    requires i <= |s|
    ensures WithoutSlashes(CollapseFrom(s, i)) == WithoutSlashes(s[i..])
    decreases |s| - i
  {
    if i < |s| {
      var n := SlashRun(s, i);
      if n >= 3 && !AfterScheme(s, i) {
        CollapseKeepsOtherCharacters(s, i + n);
        KeepsAcrossMatch(s, i, n);
      } else {
        CollapseKeepsOtherCharacters(s, i + 1);
        KeepsAcrossCopy(s, i);
      }
    }
  }

  /** The scan at a position where no match starts copies one character. */
  lemma CopyStep(s: string, i: nat)
    requires i < |s| && SlashRun(s, i) < 3
    ensures CollapseFrom(s, i) == [s[i]] + CollapseFrom(s, i + 1)
  {
  }

  /** The scan at a position where a match starts emits one '/' and skips
      the run. */
  lemma MatchStep(s: string, i: nat)
    requires i < |s| && SlashRun(s, i) >= 3 && !AfterScheme(s, i)
    ensures CollapseFrom(s, i) == "/" + CollapseFrom(s, i + SlashRun(s, i))
  {
  }

  predicate TripleSlashAt(s: string, k: nat)
  {
    k + 3 <= |s| && s[k] == '/' && s[k + 1] == '/' && s[k + 2] == '/'
  }

  /** Where three slashes do not start, no match starts either. */
  lemma ShortRun(s: string, i: nat)
    requires i <= |s| && !TripleSlashAt(s, i)
    ensures SlashRun(s, i) < 3
  {
    if i < |s| && s[i] == '/' && i + 1 < |s| && s[i + 1] == '/' {
      assert i + 2 == |s| || s[i + 2] != '/';
      assert SlashRun(s, i + 2) == 0;
    }
  }

  /** Where no three slashes start, the scan copies the input unchanged. */
  lemma {:induction false} CollapseCopies(s: string, i: nat, j: nat)
    requires i <= j <= |s|
    requires forall k :: i <= k < j ==> !TripleSlashAt(s, k)
    ensures CollapseFrom(s, i) == s[i..j] + CollapseFrom(s, j)
    decreases j - i
  {
    if i < j {
      ShortRun(s, i);
      CopyStep(s, i);
      CollapseCopies(s, i + 1, j);
      AppendAssoc([s[i]], s[i + 1..j], CollapseFrom(s, j));
      assert [s[i]] + s[i + 1..j] == s[i..j];
    }
  }


  /** Without three slashes in a row nothing matches, so a URL whose only
      doubled separators are runs of exactly two is left untouched. */
  lemma CollapseWithoutTripleSlash(s: string)
    requires forall k :: 0 <= k < |s| ==> !TripleSlashAt(s, k)
    ensures CollapseSlashes(s) == s
  {
    CollapseCopies(s, 0, |s|);
  }

  /** SlashRun counts exactly the run of slashes that starts at i. */
  lemma {:induction false} SlashRunExact(s: string, i: nat, n: nat)
    requires i + n <= |s|
    requires forall k :: i <= k < i + n ==> s[k] == '/'
    requires i + n == |s| || s[i + n] != '/'
    ensures SlashRun(s, i) == n
    decreases n
  {
    if n > 0 {
      SlashRunExact(s, i + 1, n - 1);
    }
  }

  /** Wherever the scan reaches a maximal run of three or more slashes
      that does not follow "http:" or "https:", the run becomes one slash. */
  lemma CollapseRunToOne(s: string, prefix: string, run: string, rest: string)
    requires s == prefix + run + rest
    requires |run| >= 3 && forall k :: 0 <= k < |run| ==> run[k] == '/'
    requires !AfterScheme(prefix, |prefix|)
    requires rest == [] || rest[0] != '/'
    ensures CollapseFrom(s, |prefix|) == "/" + CollapseFrom(s, |prefix| + |run|)
  {
    var i, n := |prefix|, |run|;
    RunInContext(s, prefix, run, rest);
    SlashRunExact(s, i, n);
    MatchStep(s, i);
  }

  /** Where the run sits inside s: all slashes, not followed by one, and
      after the same characters as in the prefix. */
  lemma RunInContext(s: string, prefix: string, run: string, rest: string)
    requires s == prefix + run + rest
    requires forall k :: 0 <= k < |run| ==> run[k] == '/'
    requires !AfterScheme(prefix, |prefix|)
    requires rest == [] || rest[0] != '/'
    ensures !AfterScheme(s, |prefix|)
    ensures forall k :: |prefix| <= k < |prefix| + |run| ==> s[k] == '/'
    ensures |prefix| + |run| == |s| || s[|prefix| + |run|] != '/'
  {
    var i, n := |prefix|, |run|;
    forall k | 0 <= k < i
      ensures s[k] == prefix[k]
    {
    }
    forall k | i <= k < i + n
      ensures s[k] == '/'
    {
      assert s[k] == run[k - i];
    }
    if rest != [] {
      assert s[i + n] == rest[0];
    }
  }


  /** The conditions on a host name under which "http://" + host ends
      before any match can start. */
  predicate PlainHost(host: string)
  {
    |host| > 0 && host[|host| - 1] != ':' && forall k :: 0 <= k < |host| ==> host[k] != '/'
  }

  lemma NoMatchInBase(host: string, rest: string)
    requires PlainHost(host) && (rest == [] || rest[0] == '/')
    ensures var s := "http://" + host + rest;
            forall k :: 0 <= k < 7 + |host| ==> !TripleSlashAt(s, k)
  {
    var s := "http://" + host + rest;
    forall k | 0 <= k < 7 + |host|
      ensures !TripleSlashAt(s, k)
    {
      if k < 5 {
        assert s[k] == "http:"[k];
      } else if k < 7 {
        assert s[7] == host[0];
      } else {
        assert s[k] == host[k - 7];
      }
    }
  }

  lemma BaseIsNoScheme(host: string)
    requires PlainHost(host)
    ensures !AfterScheme("http://" + host, 7 + |host|)
  {
    var base := "http://" + host;
    assert base[|base| - 1] == host[|host| - 1];
  }


  lemma NoMatchInPath(prefix: string, path: string)
    requires forall k :: 0 <= k < |path| ==> !TripleSlashAt(path, k)
    ensures var s := prefix + path;
            forall k :: |prefix| <= k < |s| ==> !TripleSlashAt(s, k)
  {
    var s := prefix + path;
    forall k | |prefix| <= k < |s|
      ensures !TripleSlashAt(s, k)
    {
      assert !TripleSlashAt(path, k - |prefix|);
      if k + 3 <= |s| {
        assert s[k] == path[k - |prefix|] && s[k + 1] == path[k - |prefix| + 1] && s[k + 2] == path[k - |prefix| + 2];
      }
    }
  }

  /** A run of exactly three slashes, between a part where nothing matches
      and a path without three slashes in a row, becomes one slash and
      nothing else changes. */
  lemma {:induction false} CollapseSingleRun(s: string, base: string, path: string)
    requires s == base + "///" + path
    requires forall k :: 0 <= k < |base| ==> !TripleSlashAt(s, k)
    requires !AfterScheme(base, |base|)
    requires path == [] || path[0] != '/'
    requires forall k :: |base| + 3 <= k < |s| ==> !TripleSlashAt(s, k)
    ensures CollapseSlashes(s) == base + "/" + path
  {
    var i := |base|;
    assert s[..i] == base;
    assert s[i + 3..] == path;
    CopiedPrefix(s, i);
    CollapseRunToOne(s, base, "///", path);
    CopiedSuffix(s, i + 3);
    Reassemble(CollapseFrom(s, 0), CollapseFrom(s, i), CollapseFrom(s, i + 3), [], base, path);
  }

  /** A prefix without three slashes in a row comes out of the scan as it
      went in. */
  lemma CopiedPrefix(s: string, i: nat)
    requires i <= |s| && forall k :: 0 <= k < i ==> !TripleSlashAt(s, k)
    ensures CollapseSlashes(s) == s[..i] + CollapseFrom(s, i)
  {
    CollapseCopies(s, 0, i);
    assert s[0..i] == s[..i];
  }

  /** So does a suffix. */
  lemma CopiedSuffix(s: string, i: nat)
    requires i <= |s| && forall k :: i <= k < |s| ==> !TripleSlashAt(s, k)
    ensures CollapseFrom(s, i) == s[i..]
  {
    CollapseCopies(s, i, |s|);
    assert s[i..|s|] == s[i..];
    assert CollapseFrom(s, |s|) == [];
    assert s[i..] + [] == s[i..];
  }

  /** The pieces of a scan over base, one collapsed run and path, put back
      together. */
  lemma Reassemble(whole: string, fromRun: string, afterRun: string, atEnd: string, base: string, path: string)
    requires whole == base + fromRun && fromRun == "/" + afterRun && afterRun == path + atEnd && atEnd == []
    ensures whole == base + "/" + path
  {
    assert path + [] == path;
    AppendAssoc(base, "/", path);
  }



  /** The separator of an "http://" redirect base is never collapsed, while
      a run of three slashes that starts the request path becomes one. */
  lemma SchemeSeparatorSurvives(host: string, path: string)
    requires PlainHost(host)
    requires path == [] || path[0] != '/'
    requires forall k :: 0 <= k < |path| ==> !TripleSlashAt(path, k)
    ensures TargetUrl("http://" + host, "///" + path) == "http://" + host + "/" + path
  {
    var base := "http://" + host;
    var s := base + "///" + path;
    assert base + ("///" + path) == s;
    NoMatchInBase(host, "///" + path);
    BaseIsNoScheme(host);
    NoMatchInPath(base + "///", path);
    CollapseSingleRun(s, base, path);
  }

  // ---------------------------------------------------------------------
  // The rewrite, run by run
  // ---------------------------------------------------------------------

  /** What a maximal run of n slashes becomes. Away from a scheme, a run of
      three or more becomes one slash and a shorter run stays. Right after
      "http:" or "https:" the lookbehind only blocks a match at the run's
      first slash; the regex then matches from the second one on, so a run
      of four or more becomes "//" and a shorter run stays. */
  function RunImage(n: nat, afterScheme: bool): (r: string)
    ensures forall k :: 0 <= k < |r| ==> r[k] == '/'
    ensures n > 0 ==> 0 < |r| <= n
  {
    if !afterScheme && n >= 3 then "/"
    else if afterScheme && n >= 4 then "//"
    else seq(n, k => '/')
  }

  /** A run is left exactly as it is when it is shorter than three, or
      three long right after a scheme; every other run is shortened. */
  lemma RunKeptIffShort(n: nat, afterScheme: bool)
    ensures RunImage(n, afterScheme) == seq(n, k => '/') <==> n < 3 || (afterScheme && n == 3)
    ensures !(n < 3 || (afterScheme && n == 3)) ==> |RunImage(n, afterScheme)| < n
  {
    if !(n < 3 || (afterScheme && n == 3)) {
      assert |RunImage(n, afterScheme)| < n == |seq(n, k => '/')|;
    }
  }

  /** The rewrite described run by run: every character other than '/' is
      kept, and every maximal run of slashes is replaced by its image. */
  function RunByRun(s: string, i: nat): string
    requires i <= |s|
    decreases |s| - i
  {
    if i == |s| then ""
    else if s[i] != '/' then [s[i]] + RunByRun(s, i + 1)
    else
      var n := SlashRun(s, i);
      RunImage(n, AfterScheme(s, i)) + RunByRun(s, i + n)
  }

  /** A run the scan does not match at its first slash: that slash is
      copied and the rest of the run lies away from any scheme. */
  lemma RunImageStep(n: nat, afterScheme: bool)
    requires n >= 2 && (n < 3 || afterScheme)
    ensures RunImage(n, afterScheme) == "/" + RunImage(n - 1, false)
  {
    if n < 4 {
      var r := RunImage(n - 1, false);
      assert |r| == n - 1 && forall k :: 0 <= k < n - 1 ==> r[k] == '/';
      assert ("/" + r) == seq(n, k => '/');
    }
  }

  /** RunByRun at a character other than '/'. */
  lemma RunByRunKeeps(s: string, i: nat)
    requires i < |s| && s[i] != '/'
    ensures RunByRun(s, i) == [s[i]] + RunByRun(s, i + 1)
  {
  }

  /** RunByRun at a slash: the image of the run, then the rest. */
  lemma RunByRunAtRun(s: string, i: nat)
    requires i < |s| && s[i] == '/'
    ensures RunByRun(s, i) == RunImage(SlashRun(s, i), AfterScheme(s, i)) + RunByRun(s, i + SlashRun(s, i))
  {
  }

  /** The scan at a position where no match starts copies one character,
      whether the run there is short or blocked by the lookbehind. */
  lemma BlockedStep(s: string, i: nat)
    requires i < |s| && !(SlashRun(s, i) >= 3 && !AfterScheme(s, i))
    ensures CollapseFrom(s, i) == [s[i]] + CollapseFrom(s, i + 1)
  {
  }

  /** One slash into a run, the rest of the run lies away from any scheme. */
  lemma RestOfRun(s: string, i: nat)
    requires i < |s| && s[i] == '/' && SlashRun(s, i) >= 2
    ensures RunByRun(s, i + 1) == RunImage(SlashRun(s, i) - 1, false) + RunByRun(s, i + SlashRun(s, i))
  {
    assert SlashRun(s, i + 1) == SlashRun(s, i) - 1;
    assert !AfterScheme(s, i + 1);
    RunByRunAtRun(s, i + 1);
  }

  /** A run whose first slash the scan copies comes out as its image. */
  lemma BlockedRun(s: string, i: nat)
    requires i < |s| && s[i] == '/' && !(SlashRun(s, i) >= 3 && !AfterScheme(s, i))
    requires CollapseFrom(s, i + 1) == RunByRun(s, i + 1)
    ensures CollapseFrom(s, i) == RunByRun(s, i)
  {
    var n, a := SlashRun(s, i), AfterScheme(s, i);
    BlockedStep(s, i);
    RunByRunAtRun(s, i);
    assert [s[i]] == "/";
    if n >= 2 {
      BlockedLongRun(s, i);
    } else {
      BlockedLoneSlash(s, i);
    }
  }

  /** A run of two, or of three or more after a scheme: the first slash is
      copied and the rest of the run is away from any scheme. */
  lemma BlockedLongRun(s: string, i: nat)
    requires i < |s| && s[i] == '/' && SlashRun(s, i) >= 2
    requires !(SlashRun(s, i) >= 3 && !AfterScheme(s, i))
    requires CollapseFrom(s, i) == "/" + CollapseFrom(s, i + 1)
    requires CollapseFrom(s, i + 1) == RunByRun(s, i + 1)
    requires RunByRun(s, i) == RunImage(SlashRun(s, i), AfterScheme(s, i)) + RunByRun(s, i + SlashRun(s, i))
    ensures CollapseFrom(s, i) == RunByRun(s, i)
  {
    var n, a := SlashRun(s, i), AfterScheme(s, i);
    RestOfRun(s, i);
    RunImageStep(n, a);
    JoinSlash(CollapseFrom(s, i), CollapseFrom(s, i + 1), RunByRun(s, i),
              RunImage(n, a), RunImage(n - 1, false), RunByRun(s, i + n));
  }

  /** A single slash: copied by the scan, kept by its image. */
  lemma BlockedLoneSlash(s: string, i: nat)
    requires i < |s| && s[i] == '/' && SlashRun(s, i) < 2
    requires CollapseFrom(s, i) == "/" + CollapseFrom(s, i + 1)
    requires CollapseFrom(s, i + 1) == RunByRun(s, i + 1)
    requires RunByRun(s, i) == RunImage(SlashRun(s, i), AfterScheme(s, i)) + RunByRun(s, i + SlashRun(s, i))
    ensures CollapseFrom(s, i) == RunByRun(s, i)
  {
    assert SlashRun(s, i) == 1;
    LoneSlash(AfterScheme(s, i));
  }

  /** A lone slash is never touched. */
  lemma LoneSlash(afterScheme: bool)
    ensures RunImage(1, afterScheme) == "/"
  {
    var r := RunImage(1, afterScheme);
    assert |r| == 1 && r[0] == '/';
  }

  /** The sequence algebra of BlockedRun: a copied slash in front of the
      image of the rest of the run is the image of the whole run. */
  lemma JoinSlash(scan: string, scanRest: string, runs: string, image: string, restImage: string, tail: string)
    requires scan == "/" + scanRest && scanRest == restImage + tail
    requires runs == image + tail && image == "/" + restImage
    ensures scan == runs
  {
    AppendAssoc("/", restImage, tail);
  }

  /** The scan and the run-by-run description agree on every input, from
      every position: the rewrite collapses each maximal run on its own. */
  lemma {:induction false} CollapseIsRunByRun(s: string, i: nat)
    requires i <= |s|
    ensures CollapseFrom(s, i) == RunByRun(s, i)
    decreases |s| - i
  {
    if i < |s| {
      if s[i] != '/' {
        CollapseIsRunByRun(s, i + 1);
        KeptCharacter(s, i);
      } else if SlashRun(s, i) >= 3 && !AfterScheme(s, i) {
        CollapseIsRunByRun(s, i + SlashRun(s, i));
        MatchedRun(s, i);
      } else {
        CollapseIsRunByRun(s, i + 1);
        BlockedRun(s, i);
      }
    }
  }

  /** A character other than '/' comes out of both as it is. */
  lemma KeptCharacter(s: string, i: nat)
    requires i < |s| && s[i] != '/'
    requires CollapseFrom(s, i + 1) == RunByRun(s, i + 1)
    ensures CollapseFrom(s, i) == RunByRun(s, i)
  {
    CopyStep(s, i);
    RunByRunKeeps(s, i);
  }

  /** A run the regex matches becomes one slash in both. */
  lemma MatchedRun(s: string, i: nat)
    requires i < |s| && s[i] == '/' && SlashRun(s, i) >= 3 && !AfterScheme(s, i)
    requires CollapseFrom(s, i + SlashRun(s, i)) == RunByRun(s, i + SlashRun(s, i))
    ensures CollapseFrom(s, i) == RunByRun(s, i)
  {
    MatchStep(s, i);
    RunByRunAtRun(s, i);
  }

  /** Over-long runs at two places each become one slash, and the scheme
      separator stays. */
  lemma TwoRunsCollapse()
    ensures CollapseSlashes("http://h///a///b") == "http://h/a/b"
  {
    var s := "http://h///a///b";
    TwoRunsTail(s);
    TwoRunsHost(s);
    TwoRunsScheme(s);
    CollapseIsRunByRun(s, 0);
  }

  lemma TwoRunsTail(s: string)
    requires s == "http://h///a///b"
    ensures RunByRun(s, 8) == "/a/b"
  {
    assert RunByRun(s, 15) == "b";
    SlashRunExact(s, 12, 3);
    assert !AfterScheme(s, 12) && RunImage(3, false) == "/";
    assert RunByRun(s, 12) == "/b";
    assert RunByRun(s, 11) == "a/b";
    SlashRunExact(s, 8, 3);
    assert !AfterScheme(s, 8);
  }

  lemma TwoRunsHost(s: string)
    requires s == "http://h///a///b" && RunByRun(s, 8) == "/a/b"
    ensures RunByRun(s, 5) == "//h/a/b"
  {
    SlashRunExact(s, 5, 2);
    assert RunByRun(s, 7) == "h/a/b";
  }

  lemma TwoRunsScheme(s: string)
    requires s == "http://h///a///b" && RunByRun(s, 5) == "//h/a/b"
    ensures RunByRun(s, 0) == "http://h/a/b"
  {
    RunByRunCopies(s, 0, 5);
    assert s[0..5] == "http:";
  }

  /** A stretch without '/' comes out of the run-by-run description as it
      went in. */
  lemma {:induction false} RunByRunCopies(s: string, i: nat, j: nat)
    requires i <= j <= |s|
    requires forall k :: i <= k < j ==> s[k] != '/'
    ensures RunByRun(s, i) == s[i..j] + RunByRun(s, j)
    decreases j - i
  {
    if i < j {
      RunByRunKeeps(s, i);
      RunByRunCopies(s, i + 1, j);
      AppendAssoc([s[i]], s[i + 1..j], RunByRun(s, j));
      assert [s[i]] + s[i + 1..j] == s[i..j];
    }
  }

  // ---------------------------------------------------------------------
  // handleCall
  // ---------------------------------------------------------------------

  /** What one `handleCall` does: the requests it sends, its result (a
      response, or the message of a ValidationException thrown to the
      caller), and the URL left in the descriptor. */
  datatype CallRun = CallRun(
    calls: seq<Outbound>,
    result: Result<ClientResponse, string>,
    finalUrl: Option<string>)

  /** A reply, or the 404 a transport failure is turned into. */
  function OrNotFound(r: Result<ClientResponse, TransportError>): ClientResponse
  {
    if r.Ok? then r.value else NotFound()
  }

  /** handleCall(dto, justRedirect), given the descriptor's fields, the
      server state snapshot (None when reading it raised
      MockServerException), the configured redirect base and the network. */
  function HandleCallSpec(url: Option<string>, httpMethod: Option<Method>,
                          headers: Option<map<string, string>>, body: Option<string>,
                          justRedirect: bool, state: Option<ServerState>, redirectUrl: string,
                          answer: Outbound -> Result<ClientResponse, TransportError>): CallRun
  {
    var invalid := ValidateRequest(url, httpMethod);
    if invalid.Some? then CallRun([], Err(invalid.value), url)
    else if state.None? || !state.value.running then CallRun([], Ok(NotFound()), url)
    else
      var target := TargetUrl(redirectUrl, url.value);
      var m := httpMethod.value;
      if !m.Routable() then CallRun([], Err("Invalid / Unsupported method: " + m.Name()), Some(target))
      else
        var first := OutboundFor(m, target, headers, body);
        var reply := answer(first);
        if reply.Err? || justRedirect || reply.value.status != 404 then
          CallRun([first], Ok(OrNotFound(reply)), Some(target))
        else
          var local := LocalUrl(state.value.port, url.value);
          var second := OutboundFor(m, local, headers, body);
          CallRun([first, second], Ok(OrNotFound(answer(second))), Some(local))
  }

  /** handleCall(dto, justRedirect). */
  method HandleCall(dto: CallDescriptor, justRedirect: bool, state: Option<ServerState>,
                    redirectUrl: string, upstream: Upstream)
    returns (r: Result<ClientResponse, string>)
    modifies dto`url, upstream`sent
    ensures var run := HandleCallSpec(old(dto.url), dto.httpMethod, dto.headers, dto.body,
                                      justRedirect, state, redirectUrl, upstream.answer);
            r == run.result && dto.url == run.finalUrl
            && upstream.sent == old(upstream.sent) + run.calls
  {
    var invalid := ValidateRequest(dto.url, dto.httpMethod);
    if invalid.Some? {
      return Err(invalid.value);
    }
    if state.None? || !state.value.running {
      return Ok(NotFound());
    }
    var url := dto.url.value;
    dto.url := Some(TargetUrl(redirectUrl, url));
    var m := dto.httpMethod.value;
    if !m.Routable() {
      return Err("Invalid / Unsupported method: " + m.Name());
    }
    var reply := upstream.Execute(OutboundFor(m, dto.url.value, dto.headers, dto.body));
    if reply.Err? {
      return Ok(NotFound());
    }
    var response := reply.value;
    if !justRedirect && response.status == 404 {
      dto.url := Some(LocalUrl(state.value.port, url));
      var retry := upstream.Execute(OutboundFor(m, dto.url.value, dto.headers, dto.body));
      response := OrNotFound(retry);
    }
    return Ok(response);
  }

  /** handleCall(dto): the same call with the local retry enabled. */
  method HandleCallWithFallback(dto: CallDescriptor, state: Option<ServerState>,
                                redirectUrl: string, upstream: Upstream)
    returns (r: Result<ClientResponse, string>)
    modifies dto`url, upstream`sent
    ensures var run := HandleCallSpec(old(dto.url), dto.httpMethod, dto.headers, dto.body,
                                      false, state, redirectUrl, upstream.answer);
            r == run.result && dto.url == run.finalUrl
            && upstream.sent == old(upstream.sent) + run.calls
  {
    r := HandleCall(dto, false, state, redirectUrl, upstream);
  }

  // ---------------------------------------------------------------------
  // What handleCall promises
  // ---------------------------------------------------------------------

  /** An invalid descriptor is refused before anything else happens. */
  lemma InvalidCallIsRefused(url: Option<string>, httpMethod: Option<Method>,
                             headers: Option<map<string, string>>, body: Option<string>,
                             justRedirect: bool, state: Option<ServerState>, redirectUrl: string,
                             answer: Outbound -> Result<ClientResponse, TransportError>)
    requires IsBlank(url) || httpMethod.None?
    ensures var run := HandleCallSpec(url, httpMethod, headers, body, justRedirect, state, redirectUrl, answer);
            run.calls == [] && run.finalUrl == url
            && run.result == Err(if IsBlank(url) then "url is required" else "method is required")
  {
  }

  /** With the mock server down the answer is 404: nothing is sent and the
      descriptor keeps its URL. */
  lemma StoppedServerAnswersNotFound(url: Option<string>, httpMethod: Option<Method>,
                                     headers: Option<map<string, string>>, body: Option<string>,
                                     justRedirect: bool, state: Option<ServerState>, redirectUrl: string,
                                     answer: Outbound -> Result<ClientResponse, TransportError>)
    requires ValidateRequest(url, httpMethod).None?
    requires state.None? || !state.value.running
    ensures var run := HandleCallSpec(url, httpMethod, headers, body, justRedirect, state, redirectUrl, answer);
            run.calls == [] && run.result == Ok(NotFound()) && run.finalUrl == url
  {
  }

  /** An unsupported verb raises ValidationException after the URL was
      rewritten, and nothing is sent. */
  lemma UnsupportedMethodIsRefused(url: Option<string>, m: Method,
                                   headers: Option<map<string, string>>, body: Option<string>,
                                   justRedirect: bool, state: ServerState, redirectUrl: string,
                                   answer: Outbound -> Result<ClientResponse, TransportError>)
    requires !IsBlank(url) && state.running && !m.Routable()
    ensures var run := HandleCallSpec(url, Some(m), headers, body, justRedirect, Some(state), redirectUrl, answer);
            run.calls == [] && run.result == Err("Invalid / Unsupported method: " + m.Name())
            && run.finalUrl == Some(TargetUrl(redirectUrl, url.value))
  {
  }

  /** In single-attempt mode exactly one request goes out, to the rewritten
      URL, and its reply comes back as it is, a 404 included; a transport
      failure reads as 404. */
  lemma SingleAttemptSendsOnce(url: Option<string>, m: Method,
                               headers: Option<map<string, string>>, body: Option<string>,
                               state: ServerState, redirectUrl: string,
                               answer: Outbound -> Result<ClientResponse, TransportError>)
    requires !IsBlank(url) && state.running && m.Routable()
    ensures var run := HandleCallSpec(url, Some(m), headers, body, true, Some(state), redirectUrl, answer);
            var first := Outbound(m, TargetUrl(redirectUrl, url.value), RequestHeaders(headers), RequestBody(m, body));
            run.calls == [first]
            && run.result == Ok(if answer(first).Ok? then answer(first).value else NotFound())
  {
  }

  /** With the retry enabled, a 404 from the redirect target is followed by
      one more request, for the same verb, headers and body, to the caller's
      own path on the local server, and the second reply is the answer. */
  lemma NotFoundIsRetriedLocally(url: Option<string>, m: Method,
                                 headers: Option<map<string, string>>, body: Option<string>,
                                 state: ServerState, redirectUrl: string,
                                 answer: Outbound -> Result<ClientResponse, TransportError>)
    requires !IsBlank(url) && state.running && m.Routable()
    requires var first := OutboundFor(m, TargetUrl(redirectUrl, url.value), headers, body);
             answer(first).Ok? && answer(first).value.status == 404
    ensures var run := HandleCallSpec(url, Some(m), headers, body, false, Some(state), redirectUrl, answer);
            var local := "http://localhost:" + IntToString(state.port) + url.value;
            var second := Outbound(m, local, RequestHeaders(headers), RequestBody(m, body));
            |run.calls| == 2 && run.calls[1] == second && run.finalUrl == Some(local)
            && run.result == Ok(if answer(second).Ok? then answer(second).value else NotFound())
  {
  }

  /** Any other first reply is final: no retry. */
  lemma FoundIsNotRetried(url: Option<string>, m: Method,
                          headers: Option<map<string, string>>, body: Option<string>,
                          justRedirect: bool, state: ServerState, redirectUrl: string,
                          answer: Outbound -> Result<ClientResponse, TransportError>)
    requires !IsBlank(url) && state.running && m.Routable()
    requires var first := OutboundFor(m, TargetUrl(redirectUrl, url.value), headers, body);
             answer(first).Ok? && answer(first).value.status != 404
    ensures var run := HandleCallSpec(url, Some(m), headers, body, justRedirect, Some(state), redirectUrl, answer);
            var first := OutboundFor(m, TargetUrl(redirectUrl, url.value), headers, body);
            run.calls == [first] && run.result == Ok(answer(first).value)
  {
  }

  /** An IOException on the first request goes straight to the catch: the
      answer is 404, with no retry, whether or not the retry is enabled.
      A failing retry reads as 404 as well (NotFoundIsRetriedLocally). */
  lemma TransportFailureIsNotFound(url: Option<string>, m: Method,
                                   headers: Option<map<string, string>>, body: Option<string>,
                                   justRedirect: bool, state: ServerState, redirectUrl: string,
                                   answer: Outbound -> Result<ClientResponse, TransportError>)
    requires !IsBlank(url) && state.running && m.Routable()
    requires answer(OutboundFor(m, TargetUrl(redirectUrl, url.value), headers, body)).Err?
    ensures var run := HandleCallSpec(url, Some(m), headers, body, justRedirect, Some(state), redirectUrl, answer);
            var first := OutboundFor(m, TargetUrl(redirectUrl, url.value), headers, body);
            run.calls == [first] && run.result == Ok(NotFound())
            && run.finalUrl == Some(TargetUrl(redirectUrl, url.value))
  {
  }

  /** At most two requests are ever sent, and two only when retrying. */
  lemma AtMostOneRetry(url: Option<string>, httpMethod: Option<Method>,
                       headers: Option<map<string, string>>, body: Option<string>,
                       justRedirect: bool, state: Option<ServerState>, redirectUrl: string,
                       answer: Outbound -> Result<ClientResponse, TransportError>)
    ensures var run := HandleCallSpec(url, httpMethod, headers, body, justRedirect, state, redirectUrl, answer);
            |run.calls| <= 2 && (justRedirect ==> |run.calls| <= 1)
  {
  }
}
