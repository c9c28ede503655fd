/** Shared-secret gating of the relay's POST routes. */
module Auth {
  import opened Wrappers
  import opened Http

  const Unauthorized := "Unauthorized"
  const MissingApiKeyEnv := "Missing env: API_KEY"

  /** A truthy string: present and non-empty. */
  predicate Present(o: Option<string>)
  {
    o.Some? && o.value != ""
  }

  function Lookup(m: map<string, string>, name: string): Option<string>
  {
    if name in m then Some(m[name]) else None
  }

  /** `a || b || ...` over optional strings: the first truthy candidate, `None` if there is none. */
  function FirstPresent(candidates: seq<Option<string>>): (r: Option<string>)
    ensures r.None? <==> forall i :: 0 <= i < |candidates| ==> !Present(candidates[i])
    ensures r.Some? ==> exists i :: 0 <= i < |candidates| && candidates[i] == r
                                 && Present(candidates[i])
                                 && forall j :: 0 <= j < i ==> !Present(candidates[j])
  {
    if |candidates| == 0 then None
    else if Present(candidates[0]) then candidates[0]
    else
      var r := FirstPresent(candidates[1..]);
      assert forall i :: 1 <= i < |candidates| ==> candidates[i] == candidates[1..][i - 1];
      r
  }

  /** Where the API key may come from, in priority order. */
  function KeySources(req: Request): seq<Option<string>>
  {
    [ Lookup(req.headers, "x-api-key"),
      Lookup(req.headers, "api_key"),
      Lookup(req.headers, "key"),
      Lookup(req.query, "api_key"),
      Lookup(req.query, "key") ]
  }

  /** `getApiKey`: the first truthy value among the `x-api-key`, `api_key` and
      `key` headers and the `api_key` and `key` query parameters. */
  function GetApiKey(req: Request): (r: Option<string>)
    ensures r.Some? ==> r.value != "" && r.value in KeyValues(req)
    ensures r.None? <==> forall i :: 0 <= i < |KeySources(req)| ==> !Present(KeySources(req)[i])
  {
    FirstPresent(KeySources(req))
  }

  /** The values supplied by any of the five key sources. */
  function KeyValues(req: Request): set<string>
  {
    set i | 0 <= i < |KeySources(req)| && KeySources(req)[i].Some? :: KeySources(req)[i].value
  }

  /** The priority order of the key sources, source by source. */
  lemma GetApiKeyPriority(req: Request)
    ensures Present(Lookup(req.headers, "x-api-key")) ==> GetApiKey(req) == Lookup(req.headers, "x-api-key")
    ensures !Present(Lookup(req.headers, "x-api-key")) && Present(Lookup(req.headers, "api_key"))
            ==> GetApiKey(req) == Lookup(req.headers, "api_key")
    ensures !Present(Lookup(req.headers, "x-api-key")) && !Present(Lookup(req.headers, "api_key"))
            && Present(Lookup(req.headers, "key"))
            ==> GetApiKey(req) == Lookup(req.headers, "key")
    ensures !Present(Lookup(req.headers, "x-api-key")) && !Present(Lookup(req.headers, "api_key"))
            && !Present(Lookup(req.headers, "key")) && Present(Lookup(req.query, "api_key"))
            ==> GetApiKey(req) == Lookup(req.query, "api_key")
    ensures !Present(Lookup(req.headers, "x-api-key")) && !Present(Lookup(req.headers, "api_key"))
            && !Present(Lookup(req.headers, "key")) && !Present(Lookup(req.query, "api_key"))
            ==> GetApiKey(req) == (if Present(Lookup(req.query, "key")) then Lookup(req.query, "key") else None)
  {
    var s := KeySources(req);
    if Present(s[0]) {
      FirstPresentAt(s, 0);
    } else if Present(s[1]) {
      FirstPresentAt(s, 1);
    } else if Present(s[2]) {
      FirstPresentAt(s, 2);
    } else if Present(s[3]) {
      FirstPresentAt(s, 3);
    } else if Present(s[4]) {
      FirstPresentAt(s, 4);
    }
  }

  /** The auth prologue of every POST route. `apiKeyEnv` is the configured
      `API_KEY` environment value, `""` when unset. `None` means the request
      may proceed; otherwise the reply to send. */
  function Gate(req: Request, apiKeyEnv: string): (r: Option<Response>)
    ensures r.None? <==> apiKeyEnv != "" && GetApiKey(req) == Some(apiKeyEnv)
    ensures apiKeyEnv == "" ==> r == Some(Response(500, Failed(MissingApiKeyEnv)))
    ensures apiKeyEnv != "" && GetApiKey(req) != Some(apiKeyEnv) ==> r == Some(Response(401, Failed(Unauthorized)))
  {
    var key := GetApiKey(req);
    if apiKeyEnv == "" then Some(Response(500, Failed(MissingApiKeyEnv)))
    else if key.None? || key.value != apiKeyEnv then Some(Response(401, Failed(Unauthorized)))
    else None
  }

  /** The gate never looks at the body: two requests with the same headers and query are gated alike. */
  lemma GateIgnoresBody(req: Request, other: Request, apiKeyEnv: string)
    requires req.headers == other.headers && req.query == other.query
    ensures Gate(req, apiKeyEnv) == Gate(other, apiKeyEnv)
  {
  }

  /** Only the exact configured key passes: any present key that differs from it is refused. */
  lemma GateExactMatch(req: Request, apiKeyEnv: string)
    requires apiKeyEnv != ""
    ensures Gate(req, apiKeyEnv).None? <==>
      exists i :: (0 <= i < |KeySources(req)| && KeySources(req)[i] == Some(apiKeyEnv)
                   && forall j :: 0 <= j < i ==> !Present(KeySources(req)[j]))
  {
  }

  /** A truthy candidate preceded only by falsy ones is the one chosen. */
  lemma FirstPresentAt(candidates: seq<Option<string>>, i: nat)
    requires i < |candidates| && Present(candidates[i])
    requires forall j :: 0 <= j < i ==> !Present(candidates[j])
    ensures FirstPresent(candidates) == candidates[i]
  {
  }
}
