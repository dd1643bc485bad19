/**
 The outbound request built for a forwarded call (index.js:78, 87-93): the
 upstream URL, the `api-key` derived from the `authorization` header, and the
 request headers.
 */
module Outbound {
  import opened Wrappers
  import opened Strings
  import opened Config
  import opened Headers

  /** The fixed parts of the upstream URL template (index.js:78). */
  const DeploymentsBase: string := "https://" + ResourceName + ".openai.azure.com/openai/deployments/"
  const VersionQuery: string := "?api-version=" + ApiVersion

  /** The upstream URL template (index.js:78). */
  function UpstreamUrl(deployName: string, path: string): (url: string)
    ensures StartsWith(url, DeploymentsBase)
    ensures |url| == |DeploymentsBase| + |deployName| + 1 + |path| + |VersionQuery|
  {
    DeploymentsBase + deployName + "/" + path + VersionQuery
  }

  /** `authKey.replace("Bearer ", "")`: the first occurrence of "Bearer " is removed, wherever it is. */
  function ApiKey(authorization: string): (key: string)
    ensures |key| == if IndexOf(authorization, "Bearer ").Some? then |authorization| - 7 else |authorization|
    ensures IndexOf(authorization, "Bearer ").None? ==> key == authorization
  {
    ReplaceFirst(authorization, "Bearer ", "")
  }

  /** The outbound request headers (index.js:89-92). */
  function ForwardHeaders(apiKey: string): (h: seq<Header>)
    ensures Get(h, "api-key") == Some(apiKey) && Get(h, "Content-Type") == Some("application/json")
    ensures Names(h) == ["Content-Type", "api-key"]
  {
    [("Content-Type", "application/json"), ("api-key", apiKey)]
  }

  /** The host name of the configured resource, written out. */
  lemma ResourceHostLiteral()
    ensures "https://" + ResourceName + ".openai.azure.com" == "https://japan-east-01.openai.azure.com"
  {
    assert "https://" + ResourceName == "https://japan-east-01";
  }

  lemma AppendAssociative(x: string, y: string, z: string)
    ensures x + (y + z) == (x + y) + z
  {
  }

  lemma RootedPathLiteral()
    ensures "https://japan-east-01.openai.azure.com" + "/openai/deployments/"
         == "https://japan-east-01.openai.azure.com/openai/deployments/"
  {
  }

  lemma HostSuffixLiteral()
    ensures ".openai.azure.com/openai/deployments/" == ".openai.azure.com" + "/openai/deployments/"
  {
  }

  /** The base of the upstream URL, written out. */
  lemma DeploymentsBaseLiteral()
    ensures DeploymentsBase == "https://japan-east-01.openai.azure.com/openai/deployments/"
  {
    HostSuffixLiteral();
    AppendAssociative("https://" + ResourceName, ".openai.azure.com", "/openai/deployments/");
    ResourceHostLiteral();
    RootedPathLiteral();
  }

  /** The start of every URL of the configured deployment, written out. */
  lemma ConfiguredDeploymentLiteral()
    ensures DeploymentsBase + "jet-001" + "/"
         == "https://japan-east-01.openai.azure.com/openai/deployments/jet-001/"
  {
    DeploymentsBaseLiteral();
    assert "https://japan-east-01.openai.azure.com/openai/deployments/" + "jet-001"
        == "https://japan-east-01.openai.azure.com/openai/deployments/jet-001";
  }

  lemma VersionQueryLiteral()
    ensures VersionQuery == "?api-version=2023-05-15"
  {
  }

  lemma ChatPathLiteral()
    ensures "https://japan-east-01.openai.azure.com/openai/deployments/jet-001/" + "chat/completions"
         == "https://japan-east-01.openai.azure.com/openai/deployments/jet-001/chat/completions"
  {
  }

  lemma ChatQueryLiteral()
    ensures "https://japan-east-01.openai.azure.com/openai/deployments/jet-001/chat/completions" + "?api-version=2023-05-15"
         == "https://japan-east-01.openai.azure.com/openai/deployments/jet-001/chat/completions?api-version=2023-05-15"
  {
  }

  /** The chat completions URL of the configured deployment, written out. */
  lemma ChatUpstreamUrl()
    ensures UpstreamUrl("jet-001", "chat/completions") ==
            "https://japan-east-01.openai.azure.com/openai/deployments/jet-001/chat/completions?api-version=2023-05-15"
  {
    ConfiguredDeploymentLiteral();
    VersionQueryLiteral();
    ChatPathLiteral();
    ChatQueryLiteral();
  }

  lemma CompletionsPathLiteral()
    ensures "https://japan-east-01.openai.azure.com/openai/deployments/jet-001/" + "completions"
         == "https://japan-east-01.openai.azure.com/openai/deployments/jet-001/completions"
  {
  }

  lemma CompletionsQueryLiteral()
    ensures "https://japan-east-01.openai.azure.com/openai/deployments/jet-001/completions" + "?api-version=2023-05-15"
         == "https://japan-east-01.openai.azure.com/openai/deployments/jet-001/completions?api-version=2023-05-15"
  {
  }

  /** The completions URL of the configured deployment, written out. */
  lemma CompletionsUpstreamUrl()
    ensures UpstreamUrl("jet-001", "completions") ==
            "https://japan-east-01.openai.azure.com/openai/deployments/jet-001/completions?api-version=2023-05-15"
  {
    ConfiguredDeploymentLiteral();
    VersionQueryLiteral();
    CompletionsPathLiteral();
    CompletionsQueryLiteral();
  }

  /**
   Any upstream URL can be taken apart again: the fixed base, the deployment
   name, a slash, the path token, and the version query.
   */
  lemma UpstreamUrlParts(deployName: string, path: string)
    ensures var u, n := UpstreamUrl(deployName, path), |DeploymentsBase|;
            |u| == n + |deployName| + 1 + |path| + |VersionQuery| &&
            u[..n] == DeploymentsBase &&
            u[n..n + |deployName|] == deployName &&
            u[n + |deployName|] == '/' &&
            u[n + |deployName| + 1..n + |deployName| + 1 + |path|] == path &&
            u[|u| - |VersionQuery|..] == VersionQuery
  {
  }

  /** Two upstream URLs are equal only for the same deployment and the same path token. */
  lemma UpstreamUrlInjective(d1: string, p1: string, d2: string, p2: string)
    requires UpstreamUrl(d1, p1) == UpstreamUrl(d2, p2)
    requires |d1| == |d2| || p1 == p2
    ensures d1 == d2 && p1 == p2
  {
    UpstreamUrlParts(d1, p1);
    UpstreamUrlParts(d2, p2);
  }

  /** A "Bearer " prefix is removed, leaving the key itself. */
  lemma ApiKeyOfBearer(key: string)
    ensures ApiKey("Bearer " + key) == key
  {
  }

  /** A header without "Bearer " anywhere is passed on unchanged. */
  lemma ApiKeyWithoutBearer(key: string)
    requires forall j :: 0 <= j <= |key| ==> !OccursAt(key, "Bearer ", j)
    ensures ApiKey(key) == key
  {
  }

  /** Only the first occurrence goes: a doubled prefix leaves one copy. */
  lemma ApiKeyRepeatedBearer()
    ensures ApiKey("Bearer Bearer x") == "Bearer x"
  {
    ApiKeyOfBearer("Bearer x");
    assert "Bearer " + "Bearer x" == "Bearer Bearer x";
  }

  /** The occurrence need not be at the front. */
  lemma ApiKeyInnerBearer()
    ensures ApiKey("sk-Bearer x") == "sk-x"
  {
    ReplaceFirstAfter("sk-", "Bearer ", "x", "");
    assert "sk-" + "Bearer " + "x" == "sk-Bearer x";
  }

}
