/**
 * The deployment helper of src/utils/vercelDeployment.ts without its
 * network calls: the project-name sanitiser, the token guard, the request
 * `deployToVercel` sends, and the way both entry points turn the API's
 * reply into a result or an error. The reply is a parameter: what the
 * HTTP call returned, already decoded.
 */
module VercelDeployment {
  import opened Wrappers
  import opened Text
  import opened Seqs

  // ---------------------------------------------------------------------
  // The project-name sanitiser.

  /** The characters `[a-z0-9-]` a deployment name may hold. */
  predicate NameChar(c: char)
  {
    IsLower(c) || IsDigit(c) || c == '-'
  }

  /** No dash is followed by another dash. */
  predicate NoDoubleDash(s: string)
  {
    forall i :: 0 <= i < |s| - 1 ==> !(s[i] == '-' && s[i + 1] == '-')
  }

  /** Only the characters a deployment name may hold. */
  predicate AllNameChars(s: string)
  {
    forall i :: 0 <= i < |s| ==> NameChar(s[i])
  }

  /** `.replace(/[^a-z0-9-]/g, '-')` */
  function ReplaceInvalid(s: string): (r: string)
    ensures |r| == |s|
    ensures AllNameChars(r)
    ensures forall i :: 0 <= i < |s| ==> (NameChar(s[i]) ==> r[i] == s[i])
    ensures forall i :: 0 <= i < |s| ==> (!NameChar(s[i]) ==> r[i] == '-')
  {
    if s == [] then [] else [if NameChar(s[0]) then s[0] else '-'] + ReplaceInvalid(s[1..])
  }

  /**
   * `.replace(/-+/g, '-')`: each run of dashes becomes a single dash.
   * `afterDash` says that the text already produced ends with a dash, so a
   * dash at the head of `s` continues that run. Collapsing only deletes
   * dashes, leaves no dash next to another and none at the head when the
   * text before ended with one; it keeps the characters a name may hold.
   * Exactly the dashes that continue a run are deleted.
   */
  function CollapseDashes(s: string, afterDash: bool): (r: string)
    ensures IsSubsequence(r, s)
    ensures |r| == |s| - RepeatedDashes(s, afterDash)
    ensures NonDashes(r) == NonDashes(s)
    ensures NoDoubleDash(r)
    ensures afterDash && |r| > 0 ==> r[0] != '-'
    ensures AllNameChars(s) ==> AllNameChars(r)
  {
    if s == [] then []
    else if s[0] == '-' && afterDash then
      var rest := CollapseDashes(s[1..], true);
      assert s == [s[0]] + s[1..];
      SubsequenceCons(rest, s[1..], s[0]);
      rest
    else
      var rest := CollapseDashes(s[1..], s[0] == '-');
      assert ([s[0]] + rest)[1..] == rest;
      [s[0]] + rest
  }

  /** The dashes of `s` that follow a dash; the first one follows a dash when `afterDash` says so. */
  function RepeatedDashes(s: string, afterDash: bool): nat
  {
    if s == [] then 0
    else (if s[0] == '-' && afterDash then 1 else 0) + RepeatedDashes(s[1..], s[0] == '-')
  }

  /** The non-dash characters of `s`, in order. */
  function NonDashes(s: string): string
  {
    if s == [] then [] else (if s[0] != '-' then [s[0]] else []) + NonDashes(s[1..])
  }

  /** A text with no double dash whose head continues no run is left as it is. */
  lemma {:induction false} CollapseKeeps(s: string, afterDash: bool)
    requires NoDoubleDash(s)
    requires afterDash && |s| > 0 ==> s[0] != '-'
    ensures CollapseDashes(s, afterDash) == s
  {
    if s != [] {
      CollapseKeeps(s[1..], s[0] == '-');
    }
  }

  /**
   * The `^-` half of `.replace(/^-|-$/g, '')`: a suffix of the input that is
   * one shorter exactly when the input starts with a dash; without a double
   * dash, no dash is left in front.
   */
  function DropLeadingDash(s: string): (r: string)
    ensures |s| - 1 <= |r| <= |s| && r == s[|s| - |r|..]
    ensures |r| < |s| <==> |s| > 0 && s[0] == '-'
    ensures NoDoubleDash(s) ==> NoDoubleDash(r) && (|r| > 0 ==> r[0] != '-')
  {
    if |s| > 0 && s[0] == '-' then s[1..] else s
  }

  /**
   * The `-$` half of `.replace(/^-|-$/g, '')`: a prefix of the input that is
   * one shorter exactly when the input ends with a dash; without a double
   * dash, no dash is left at the end.
   */
  function DropTrailingDash(s: string): (r: string)
    ensures |s| - 1 <= |r| <= |s| && r == s[..|r|]
    ensures |r| < |s| <==> |s| > 0 && s[|s| - 1] == '-'
    ensures NoDoubleDash(s) ==> NoDoubleDash(r) && (|r| > 0 ==> r[|r| - 1] != '-')
  {
    if |s| > 0 && s[|s| - 1] == '-' then s[..|s| - 1] else s
  }

  /**
   * `.replace(/^-|-$/g, '')`: one leading dash and one trailing dash are
   * removed, where there are any, and nothing else; when the input has no
   * double dash, neither end of the result is a dash.
   */
  function StripDashes(s: string): (r: string)
    ensures var lo := if |s| > 0 && s[0] == '-' then 1 else 0;
      var hi := if |s| > lo && s[|s| - 1] == '-' then 1 else 0;
      r == s[lo..|s| - hi]
    ensures NoDoubleDash(s) ==> NoDoubleDash(r) && (|r| > 0 ==> r[0] != '-' && r[|r| - 1] != '-')
  {
    DropTrailingDash(DropLeadingDash(s))
  }

  /** What holds of every character and every pair of neighbours holds of a prefix. */
  lemma PrefixKeeps(s: string, n: nat)
    requires AllNameChars(s) && NoDoubleDash(s) && (|s| > 0 ==> s[0] != '-')
    ensures var p := Take(s, n);
      AllNameChars(p) && NoDoubleDash(p) && (|p| > 0 ==> p[0] != '-')
  {
  }

  /** The longest name a deployment may have. */
  const MaxNameLength: nat := 63

  /**
   * The sanitised project name: lower case, invalid characters to dashes,
   * runs collapsed, ends stripped, cut to 63. It has at most 63 characters,
   * all of them `a`-`z`, `0`-`9` or `-`, never two dashes in a row and no
   * dash at the start.
   */
  function SanitizeProjectName(projectName: string): (r: string)
    ensures |r| <= MaxNameLength
    ensures AllNameChars(r)
    ensures NoDoubleDash(r)
    ensures |r| > 0 ==> r[0] != '-'
  {
    var t := StripDashes(CollapseDashes(ReplaceInvalid(Lower(projectName)), false));
    PrefixKeeps(t, MaxNameLength);
    Take(t, MaxNameLength)
  }

  /** A name that is already clean: short enough, valid characters, no double dash, no dash at either end. */
  predicate CleanName(s: string)
  {
    |s| <= MaxNameLength && AllNameChars(s) && NoDoubleDash(s)
    && (|s| > 0 ==> s[0] != '-' && s[|s| - 1] != '-')
  }

  /** Lower-casing, replacing and collapsing leave a name with valid characters and no double dash alone. */
  lemma ValidNamePasses(s: string)
    requires AllNameChars(s) && NoDoubleDash(s)
    ensures CollapseDashes(ReplaceInvalid(Lower(s)), false) == s
  {
    LowerSpec(s);
    assert Lower(s) == s;
    assert ReplaceInvalid(s) == s;
    CollapseKeeps(s, false);
  }

  /** A clean name comes through the sanitiser unchanged. */
  lemma SanitizeClean(s: string)
    requires CleanName(s)
    ensures SanitizeProjectName(s) == s
  {
    ValidNamePasses(s);
    assert StripDashes(s) == s;
  }

  /**
   * The cut to 63 characters can leave a dash at the end: 62 letters, a
   * dash and one more letter give the 62 letters and the dash.
   */
  lemma SanitizeMayEndWithDash(letters: string)
    requires |letters| == MaxNameLength - 1
    requires forall i :: 0 <= i < |letters| ==> IsLower(letters[i])
    ensures SanitizeProjectName(letters + "-x") == letters + "-"
  {
    var s := letters + "-x";
    assert forall i :: 0 <= i < |letters| ==> s[i] == letters[i];
    assert AllNameChars(s) && NoDoubleDash(s);
    ValidNamePasses(s);
    assert DropLeadingDash(s) == s;
    assert DropTrailingDash(s) == s;
  }

  /**
   * So sanitising a sanitised name can change it again: the 62 letters and
   * the dash sanitise to the letters alone.
   */
  lemma SanitizeAgainDropsDash(letters: string)
    requires |letters| == MaxNameLength - 1
    requires forall i :: 0 <= i < |letters| ==> IsLower(letters[i])
    ensures SanitizeProjectName(letters + "-") == letters
  {
    var u := letters + "-";
    assert forall i :: 0 <= i < |letters| ==> u[i] == letters[i];
    assert AllNameChars(u) && NoDoubleDash(u);
    ValidNamePasses(u);
    assert DropLeadingDash(u) == u;
    assert DropTrailingDash(u) == letters;
  }

  // ---------------------------------------------------------------------
  // The deployment request and the replies.

  const TokenRequired: string :=
    "Vercel token is required. Please set VITE_VERCEL_TOKEN in your environment variables."
  const InvalidResponse: string := "Invalid response from Vercel API - missing URL or deployment ID"
  const DeploymentsEndpoint: string := "https://api.vercel.com/v13/deployments"

  /** `vercel.json` as `JSON.stringify(…, null, 2)` writes it: static build of `index.html`, every route to it. */
  const VercelConfig: string :=
    "{\n"
    + "  \"version\": 2,\n"
    + "  \"builds\": [\n"
    + "    {\n"
    + "      \"src\": \"index.html\",\n"
    + "      \"use\": \"@vercel/static\"\n"
    + "    }\n"
    + "  ],\n"
    + "  \"routes\": [\n"
    + "    {\n"
    + "      \"src\": \"/(.*)\",\n"
    + "      \"dest\": \"/index.html\"\n"
    + "    }\n"
    + "  ]\n"
    + "}"

  /** `VercelFile` */
  datatype VercelFile = VercelFile(file: string, data: string)

  /** What `deployToVercel` posts: its endpoint, the bearer token, and the body's name, files and target. */
  datatype DeployRequest = DeployRequest(
    endpoint: string,
    authorization: string,
    name: string,
    files: seq<VercelFile>,
    target: string)

  /**
   * The request `deployToVercel` builds, or the error it raises before any
   * request when the token is empty.
   */
  function BuildDeployRequest(htmlContent: string, projectName: string, vercelToken: string): (r: Result<DeployRequest>)
    ensures vercelToken == "" <==> r == Err(TokenRequired)
    ensures r.Ok? ==>
      && r.value.endpoint == DeploymentsEndpoint
      && r.value.target == "production"
      && r.value.authorization == "Bearer " + vercelToken
      && r.value.name == SanitizeProjectName(projectName)
      && |r.value.files| == 2
      && r.value.files[0] == VercelFile("index.html", htmlContent)
      && r.value.files[1] == VercelFile("vercel.json", VercelConfig)
  {
    if vercelToken == "" then Err(TokenRequired)
    else
      Ok(DeployRequest(
        DeploymentsEndpoint,
        "Bearer " + vercelToken,
        SanitizeProjectName(projectName),
        [VercelFile("index.html", htmlContent), VercelFile("vercel.json", VercelConfig)],
        "production"))
  }

  /**
   * The reply to the deployment request: a failure with its status line and
   * the `error.message` of its body ("" when the body is not JSON or has
   * none), or the decoded body's `url`, `id` and `readyState` ("" when a
   * field is missing).
   */
  datatype DeployReply =
    | DeployFailed(status: nat, statusText: string, errorMessage: string)
    | DeployAccepted(url: string, id: string, readyState: string)

  /** `VercelDeploymentResponse` as `deployToVercel` returns it. */
  datatype Deployment = Deployment(url: string, deploymentId: string, status: string)

  /** The decimal digits of `n`, as a template literal prints a number. */
  function DecimalString(n: nat): (r: string)
    ensures |r| >= 1 && forall i :: 0 <= i < |r| ==> IsDigit(r[i])
    decreases n
  {
    if n < 10 then [('0' as int + n) as char]
    else DecimalString(n / 10) + [('0' as int + n % 10) as char]
  }

  /** The number a string of decimal digits denotes. */
  function DecimalValue(s: string): nat
    requires forall i :: 0 <= i < |s| ==> IsDigit(s[i])
  {
    if s == [] then 0
    else 10 * DecimalValue(s[..|s| - 1]) + DigitValue(s[|s| - 1])
  }

  function DigitValue(c: char): nat
    requires IsDigit(c)
  {
    c as int - '0' as int
  }

  /** The printed status reads back as the status. */
  lemma {:induction false} DecimalRoundTrip(n: nat)
    ensures DecimalValue(DecimalString(n)) == n
    decreases n
  {
    if n >= 10 {
      DecimalRoundTrip(n / 10);
      var s := DecimalString(n);
      assert s[..|s| - 1] == DecimalString(n / 10);
    }
  }

  /** The error `deployToVercel` raises for a refused request. */
  function DeployFailure(status: nat, statusText: string, errorMessage: string): string
  {
    "Deployment failed: " + DecimalString(status) + " " + statusText
    + (if errorMessage != "" then ". " + errorMessage else "")
  }

  /**
   * `deployToVercel`, given the reply its request received: no token is an
   * error before any request; a refused request reports its status; a
   * reply without URL or id is an error; otherwise the URL gains its
   * scheme and the status defaults to `BUILDING`.
   */
  function DeployToVercel(htmlContent: string, projectName: string, vercelToken: string, reply: DeployReply)
    : (r: Result<Deployment>)
    ensures vercelToken == "" ==> r == Err(TokenRequired)
    ensures vercelToken != "" && reply.DeployFailed? ==>
      r == Err(DeployFailure(reply.status, reply.statusText, reply.errorMessage))
    ensures vercelToken != "" && reply.DeployAccepted? && (reply.url == "" || reply.id == "") ==>
      r == Err(InvalidResponse)
    ensures r.Ok? <==> vercelToken != "" && reply.DeployAccepted? && reply.url != "" && reply.id != ""
    ensures r.Ok? ==>
      && r.value.url == "https://" + reply.url
      && r.value.deploymentId == reply.id
      && r.value.status == (if reply.readyState != "" then reply.readyState else "BUILDING")
  {
    match BuildDeployRequest(htmlContent, projectName, vercelToken)
    case Err(e) => Err(e)
    case Ok(_) =>
      match reply
      case DeployFailed(status, statusText, errorMessage) =>
        Err(DeployFailure(status, statusText, errorMessage))
      case DeployAccepted(url, id, readyState) =>
        if url == "" || id == "" then Err(InvalidResponse)
        else Ok(Deployment("https://" + url, id, if readyState != "" then readyState else "BUILDING"))
  }

  /**
   * A refused deployment's error starts with its status code, in decimal,
   * and its status text; the API's message follows after a full stop when
   * there is one, and nothing follows otherwise.
   */
  lemma DeployFailureReportsStatus(status: nat, statusText: string, errorMessage: string)
    ensures var m := DeployFailure(status, statusText, errorMessage);
      var head := "Deployment failed: " + DecimalString(status) + " " + statusText;
      StartsWith(m, head)
      && (errorMessage == "" ==> m == head)
      && (errorMessage != "" ==> EndsWith(m, ". " + errorMessage) && |m| == |head| + 2 + |errorMessage|)
      && DecimalValue(DecimalString(status)) == status
  {
    var head := "Deployment failed: " + DecimalString(status) + " " + statusText;
    assert head[..|head|] == head;
    StartsWithin(head, if errorMessage != "" then ". " + errorMessage else "", head);
    if errorMessage != "" {
      EndsWithin(head, ". " + errorMessage, ". " + errorMessage);
    }
    DecimalRoundTrip(status);
  }

  /** The reply to a status query: a failure with its status line, or the decoded `readyState` and `url`. */
  datatype StatusReply =
    | StatusFailed(status: nat, statusText: string)
    | StatusBody(readyState: string, url: string)

  /** What `checkDeploymentStatus` returns. */
  datatype DeploymentStatus = DeploymentStatus(status: string, url: Option<string>)

  /** The GET request `checkDeploymentStatus` sends: the deployment's URL and the bearer header. */
  datatype StatusRequest = StatusRequest(endpoint: string, authorization: string)

  /**
   * The status query for a deployment. Unlike `deployToVercel`, it does not
   * check the token first: an empty one is sent as `Bearer `.
   */
  function BuildStatusRequest(deploymentId: string, vercelToken: string): (r: StatusRequest)
    ensures StartsWith(r.endpoint, DeploymentsEndpoint + "/") && EndsWith(r.endpoint, deploymentId)
    ensures |r.endpoint| == |DeploymentsEndpoint| + 1 + |deploymentId|
    ensures r.authorization == "Bearer " + vercelToken
  {
    var lead := DeploymentsEndpoint + "/";
    StartsWithin(lead, deploymentId, lead);
    EndsWithin(lead, deploymentId, deploymentId);
    StatusRequest(lead + deploymentId, "Bearer " + vercelToken)
  }

  /**
   * `checkDeploymentStatus`, given the reply: a refused query reports its
   * status; otherwise the status defaults to `UNKNOWN` and a URL is
   * present, with its scheme, only when the reply has one.
   */
  function CheckDeploymentStatus(reply: StatusReply)
    : (r: Result<DeploymentStatus>)
    ensures reply.StatusFailed? ==> r == Err("Failed to check deployment status: "
      + DecimalString(reply.status) + " " + reply.statusText)
    ensures r.Ok? <==> reply.StatusBody?
    ensures r.Ok? ==>
      && r.value.status == (if reply.readyState != "" then reply.readyState else "UNKNOWN")
      && (r.value.url.Some? <==> reply.url != "")
      && (r.value.url.Some? ==> r.value.url.value == "https://" + reply.url)
  {
    match reply
    case StatusFailed(status, statusText) =>
      Err("Failed to check deployment status: " + DecimalString(status) + " " + statusText)
    case StatusBody(readyState, url) =>
      Ok(DeploymentStatus(
        if readyState != "" then readyState else "UNKNOWN",
        if url != "" then Some("https://" + url) else None))
  }
}
