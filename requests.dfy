/** The requests the repository layer hands to the transport: resource paths
    for reads, and route templates with parameter records for writes. Every
    path is built from a repository's full name ("owner/name"). */
module Requests {
  import opened Js
  import opened Text
  import opened Records

  /** One '/'-separated piece of a route template: fixed text, or a
      `:name` placeholder that the transport fills from the parameter record. */
  datatype Piece = Fixed(text: string) | Placeholder(name: string)

  /** A route template such as "PATCH /repos/:repo/labels/:name". */
  datatype Route = Route(verb: string, pieces: seq<Piece>)

  /** A read, `octokit.get(path, params)`, or a templated call,
      `octokit.request("VERB /route/:placeholder", params)`. A read made
      without a parameter record carries the empty record. */
  datatype Request =
    | Get(path: string, params: map<string, Value>)
    | Call(route: Route, params: map<string, Value>)

  /** The parameter record of a cached read: `{ttl}` when the TTL is truthy,
      `{}` otherwise (undefined, null, 0, "" and false all leave it out). */
  function TtlParams(ttl: Value): (p: map<string, Value>)
    ensures "ttl" in p <==> Truthy(ttl)
    ensures p.Keys <= {"ttl"}
    ensures "ttl" in p ==> p["ttl"] == ttl
  {
    if Truthy(ttl) then map["ttl" := ttl] else map[]
  }

  // Resource paths

  function RepoPath(fullName: string): string { "/v3/repos/" + fullName }
  function TeamsPath(fullName: string): string { "/v3/repos/" + fullName + "/teams" }
  function HooksPath(fullName: string): string { "/v3/repos/" + fullName + "/hooks" }
  function LabelsPath(fullName: string): string { "/v3/repos/" + fullName + "/labels" }
  function W3cPath(fullName: string): string { "/extra/repos/" + fullName + "/w3c.json" }
  function IssuesPath(fullName: string): string { "/repos/" + fullName + "/issues?state=all" }

  /** The text a template literal produces for an optional string. */
  function Interpolated(o: Option<string>): string {
    match o
    case None => "undefined"
    case Some(s) => s
  }

  /** `Issue.getComments`: the comments of an issue, addressed by the
      issue's own `full_name` and number. */
  function CommentsPath(issue: Issue): string {
    "/v3/repos/" + Interpolated(issue.fullName) + "/issues/" + Decimal(issue.number) + "/comments"
  }

  // Reads

  function RepoRequest(fullName: string): Request { Get(RepoPath(fullName), map[]) }
  function W3cRequest(fullName: string): Request { Get(W3cPath(fullName), map[]) }
  function TeamsRequest(fullName: string): Request { Get(TeamsPath(fullName), map[]) }
  function HooksRequest(fullName: string): Request { Get(HooksPath(fullName), map[]) }
  function IssuesRequest(fullName: string, ttl: Value): Request { Get(IssuesPath(fullName), TtlParams(ttl)) }
  function LabelsRequest(fullName: string, ttl: Value): Request { Get(LabelsPath(fullName), TtlParams(ttl)) }
  function CommentsRequest(issue: Issue): Request { Get(CommentsPath(issue), map[]) }

  // Templated calls

  function CreateIssueRequest(fullName: string, title: Value, body: Value, labels: Value): Request {
    Call(Route("POST", [Fixed("repos"), Placeholder("repo"), Fixed("issues")]),
         map["repo" := Str(fullName), "title" := title, "body" := body, "labels" := labels])
  }

  /** The record `setLabel` and `updateLabel` send. */
  function LabelParams(fullName: string, lbl: Label): map<string, Value> {
    map["repo" := Str(fullName), "name" := Str(lbl.name),
        "color" := lbl.color, "description" := lbl.description]
  }

  function SetLabelRequest(fullName: string, lbl: Label): Request {
    Call(Route("POST", [Fixed("repos"), Placeholder("repo"), Fixed("labels")]), LabelParams(fullName, lbl))
  }

  function UpdateLabelRequest(fullName: string, lbl: Label): Request {
    Call(Route("PATCH", [Fixed("repos"), Placeholder("repo"), Fixed("labels"), Placeholder("name")]),
         LabelParams(fullName, lbl))
  }

  /** The old name addresses the label; the new one travels as `new_name`. */
  function RenameLabelRequest(fullName: string, rename: LabelRename): Request {
    Call(Route("PATCH", [Fixed("repos"), Placeholder("repo"), Fixed("labels"), Placeholder("oldname")]),
         map["repo" := Str(fullName), "oldname" := rename.oldname, "new_name" := rename.name,
             "color" := rename.color, "description" := rename.description])
  }

  /** Unlike the other issue calls this one addresses the repository by its
      two split parts; `name` is undefined when the full name has no '/'. */
  function SetIssueLabelRequest(owner: string, name: Option<string>, issue: Issue, labels: Value): Request {
    Call(Route("POST", [Fixed("repos"), Placeholder("owner"), Placeholder("name"), Fixed("issues"),
                      Placeholder("issue_number"), Fixed("labels")]),
         map["owner" := Str(owner), "name" := OptionalStr(name),
             "issue_number" := Num(issue.number), "labels" := labels])
  }

  function SetIssueAssigneeRequest(fullName: string, issue: Issue, assignees: Value): Request {
    Call(Route("POST", [Fixed("repos"), Placeholder("repo"), Fixed("issues"), Placeholder("issue_number"),
                      Fixed("assignees")]),
         map["repo" := Str(fullName), "issue_number" := Num(issue.number), "assignees" := assignees])
  }

  function RemoveIssueLabelRequest(fullName: string, issue: Issue, lbl: Label): Request {
    Call(Route("DELETE", [Fixed("repos"), Placeholder("repo"), Fixed("issues"), Placeholder("issue_number"),
                        Fixed("labels"), Placeholder("name")]),
         map["repo" := Str(fullName), "issue_number" := Num(issue.number), "name" := Str(lbl.name)])
  }

  function RateLimitRequest(): Request { Call(Route("GET", [Fixed("rate_limit")]), map[]) }

  /** The grant of "pull" to the fixed administrative team; the route is
      interpolated, not templated. */
  function HRTeamRequest(owner: string, fullName: string): Request {
    Call(Route("PUT", [Fixed("orgs"), Fixed(owner), Fixed("teams"), Fixed("horizontal-admin"),
                     Fixed("repos"), Fixed(fullName)]),
         map["permission" := Str("pull")])
  }

  // Properties of the requests

  /** Every placeholder of the route is named in the parameter record, so
      the transport can fill in each one. */
  predicate Supplied(route: Route, params: map<string, Value>) {
    forall i :: 0 <= i < |route.pieces| && route.pieces[i].Placeholder? ==> route.pieces[i].name in params
  }

  lemma LabelCallsSupplied(fullName: string, lbl: Label, rename: LabelRename)
    ensures var r := SetLabelRequest(fullName, lbl); Supplied(r.route, r.params)
    ensures var r := UpdateLabelRequest(fullName, lbl); Supplied(r.route, r.params)
    ensures var r := RenameLabelRequest(fullName, rename); Supplied(r.route, r.params)
  {
  }

  lemma IssueCallsSupplied(fullName: string, owner: string, name: Option<string>, issue: Issue, lbl: Label,
                           title: Value, body: Value, labels: Value, assignees: Value)
    ensures var r := CreateIssueRequest(fullName, title, body, labels); Supplied(r.route, r.params)
    ensures var r := SetIssueLabelRequest(owner, name, issue, labels); Supplied(r.route, r.params)
    ensures var r := SetIssueAssigneeRequest(fullName, issue, assignees); Supplied(r.route, r.params)
    ensures var r := RemoveIssueLabelRequest(fullName, issue, lbl); Supplied(r.route, r.params)
  {
  }

  lemma {:induction false} StripFrame(p: string, a: string, b: string, s: string)
    requires p + a + s == p + b + s
    ensures a == b
  {
    var x := p + a + s;
    assert |a| == |b|;
    assert a == x[|p|..|p| + |a|];
  }

  /** The cached listings of two different repositories never share a path,
      so the transport's cache never answers one with the other's entry. */
  lemma {:induction false} ListingPathsIdentifyRepository(a: string, b: string, ttlA: Value, ttlB: Value)
    ensures IssuesRequest(a, ttlA).path == IssuesRequest(b, ttlB).path ==> a == b
    ensures LabelsRequest(a, ttlA).path == LabelsRequest(b, ttlB).path ==> a == b
  {
    if IssuesPath(a) == IssuesPath(b) {
      StripFrame("/repos/", a, b, "/issues?state=all");
    }
    if LabelsPath(a) == LabelsPath(b) {
      StripFrame("/v3/repos/", a, b, "/labels");
    }
  }

  /** In `x + "/" + d` with a separator-free `d`, the '/' after `x` is the last one. */
  lemma LastSlash(x: string, d: string)
    requires '/' !in d
    ensures (x + "/" + d)[|x|] == '/'
    ensures forall k :: |x| < k < |x| + 1 + |d| ==> (x + "/" + d)[k] != '/'
  {
    var s := x + "/" + d;
    forall k | |x| < k < |x| + 1 + |d| ensures s[k] != '/' {
      assert s[k] == d[k - |x| - 1];
    }
  }

  /** In `x + "/" + d` with a separator-free `d`, `d` is the last piece. */
  lemma {:induction false} LastPiece(x: string, d: string, y: string, e: string)
    requires x + "/" + d == y + "/" + e
    requires '/' !in d && '/' !in e
    ensures x == y && d == e
  {
    var s := x + "/" + d;
    LastSlash(x, d);
    LastSlash(y, e);
    assert |x| == |y|;
    assert x == s[..|x|];
    assert d == s[|x| + 1..];
  }

  /** Two issues share a comments path exactly when they carry the same
      `full_name` text and the same number. */
  lemma {:induction false} CommentsPathIdentifiesIssue(i: Issue, j: Issue)
    ensures CommentsPath(i) == CommentsPath(j) <==>
      Interpolated(i.fullName) == Interpolated(j.fullName) && i.number == j.number
  {
    var di, dj := Decimal(i.number), Decimal(j.number);
    var fi, fj := Interpolated(i.fullName), Interpolated(j.fullName);
    assert CommentsPath(i) == "/v3/repos/" + ((fi + "/issues") + "/" + di) + "/comments";
    assert CommentsPath(j) == "/v3/repos/" + ((fj + "/issues") + "/" + dj) + "/comments";
    if CommentsPath(i) == CommentsPath(j) {
      StripFrame("/v3/repos/", (fi + "/issues") + "/" + di, (fj + "/issues") + "/" + dj, "/comments");
      assert forall k :: 0 <= k < |di| ==> di[k] != '/';
      assert forall k :: 0 <= k < |dj| ==> dj[k] != '/';
      LastPiece(fi + "/issues", di, fj + "/issues", dj);
      assert fi + "/issues" == fj + "/issues";
      assert fi == (fi + "/issues")[..|fi|];
      DecimalInjective(i.number, j.number);
    }
  }
}
