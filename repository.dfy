/** The repository object and its neighbours: identity from the full name,
    reads through the transport, the instance label cache, and the write
    calls; also `Issue.getComments`, `GitHub.ratelimit` and `setHRTeam`.

    The transport is a `Transport` object that records every request it is
    handed, in order; what it answers is given by a `server` function passed
    to each call. That function stands for the remote service together with
    the transport's own TTL cache at the moment of the call, so two calls may
    be passed different ones. Every call is synchronous. */
module Repositories {
  import opened Js
  import opened Text
  import opened Records
  import opened Requests
  import opened Selection
  import opened W3c

  class Transport {
    /** Every request handed to the transport, oldest first. */
    var sent: seq<Request>

    constructor ()
      ensures sent == []
    {
      sent := [];
    }

    /** Hands one request to the transport and returns its answer. */
    method Send<T>(request: Request, server: Request -> Outcome<T>) returns (r: Outcome<T>)
      modifies this
      ensures sent == old(sent) + [request]
      ensures r == server(request)
    {
      sent := sent + [request];
      r := server(request);
    }
  }

  // Identity

  /** `name.split('/')[0]`: the text before the first '/', or the whole name
      when it has none. */
  function Owner(fullName: string): (owner: string)
    ensures '/' !in owner
    ensures owner <= fullName
    ensures |owner| < |fullName| ==> fullName[|owner|] == '/'
  {
    JoinSplit(fullName, '/');
    JoinStartsWithFirst(Split(fullName, '/'), '/');
    Split(fullName, '/')[0]
  }

  /** `name.split('/')[1]`: the text between the first and the second '/'
      (or the end); `undefined` when the name has no '/'. */
  function RepoName(fullName: string): (name: Option<string>)
    ensures name.None? <==> '/' !in fullName
    ensures name.Some? ==> '/' !in name.value && Owner(fullName) + "/" + name.value <= fullName
    ensures name.Some? ==> var end := |Owner(fullName)| + 1 + |name.value|;
      end < |fullName| ==> fullName[end] == '/'
  {
    var parts := Split(fullName, '/');
    SinglePieceIffNoSeparator(fullName, '/');
    if |parts| > 1 then
      JoinSplit(fullName, '/');
      JoinStartsWithFirst(parts, '/');
      JoinStartsWithFirst(parts[1..], '/');
      Some(parts[1])
    else
      None
  }

  /** A name of the form "owner/name" gives back exactly its two parts. */
  lemma {:induction false} IdentityOfOwnerSlashName(owner: string, name: string)
    requires '/' !in owner && '/' !in name
    ensures Owner(owner + "/" + name) == owner
    ensures RepoName(owner + "/" + name) == Some(name)
  {
    SplitJoin([owner, name], '/');
    assert Join([owner, name], '/') == owner + "/" + name;
  }

  /** With more than one '/', the repository name is the second piece only,
      not the rest of the full name. */
  lemma {:induction false} NameIsSecondPieceOnly(owner: string, name: string, rest: string)
    requires '/' !in owner && '/' !in name
    ensures Owner(owner + "/" + name + "/" + rest) == owner
    ensures RepoName(owner + "/" + name + "/" + rest) == Some(name)
  {
    var s := owner + "/" + name + "/" + rest;
    SplitAfterPiece(name, '/', rest);
    assert s == owner + "/" + (name + "/" + rest);
    SplitAfterPiece(owner, '/', name + "/" + rest);
  }

  // The label cache

  /** What one `getLabels(ttl)` call does, given the cache before it: the
      answer, the cache after it and the requests it sends. */
  datatype LabelsStep = LabelsStep(result: Outcome<seq<Label>>, cache: Option<Outcome<seq<Label>>>,
                                   sent: seq<Request>)

  /** `getLabels`: with no TTL argument and a filled cache the cached outcome
      comes back and nothing is sent; any other call (a TTL of 0 or null
      included) sends one labels read, with `{ttl}` only for a truthy TTL,
      and overwrites the cache with its outcome, even a failed one. */
  function LookupLabels(fullName: string, cache: Option<Outcome<seq<Label>>>, ttl: Value,
                        server: Request -> Outcome<seq<Label>>): (step: LabelsStep)
    ensures step.cache == Some(step.result)
    ensures step.sent == [] <==> ttl.Undefined? && cache.Some?
    ensures step.sent == [] ==> step.result == cache.value
    ensures step.sent != [] ==> step.sent == [LabelsRequest(fullName, ttl)] && step.result == server(LabelsRequest(fullName, ttl))
  {
    if ttl.Undefined? && cache.Some? then LabelsStep(cache.value, cache, [])
    else
      var r := server(LabelsRequest(fullName, ttl));
      LabelsStep(r, Some(r), [LabelsRequest(fullName, ttl)])
  }

  /** Once any `getLabels` call has run, a following `getLabels()` sends
      nothing and returns what the first returned, whatever the server would
      now answer: a failure is served from the cache as well. */
  lemma CachedAfterAnyLookup(fullName: string, cache: Option<Outcome<seq<Label>>>, ttl: Value,
                             first: Request -> Outcome<seq<Label>>, later: Request -> Outcome<seq<Label>>)
    ensures var one := LookupLabels(fullName, cache, ttl, first);
      var two := LookupLabels(fullName, one.cache, Undefined, later);
      two.sent == [] && two.result == one.result && two.cache == one.cache
  {
  }

  /** A TTL argument, even a falsy one, always reaches the transport, and its
      answer replaces whatever the cache held. */
  lemma TtlArgumentAlwaysFetches(fullName: string, cache: Option<Outcome<seq<Label>>>, ttl: Value,
                                 server: Request -> Outcome<seq<Label>>)
    requires !ttl.Undefined?
    ensures var step := LookupLabels(fullName, cache, ttl, server);
      step.sent == [Get(LabelsPath(fullName), TtlParams(ttl))] &&
      step.cache == Some(server(Get(LabelsPath(fullName), TtlParams(ttl))))
  {
  }

  /** A repository: its identity, set once by the constructor, and the label
      cache (`_labels`), the only state its methods change. */
  class Repository {
    const fullName: string
    const owner: string
    const name: Option<string>
    /** Stored by the constructor; no operation reads it. */
    const ttl: Value
    const transport: Transport
    var labelCache: Option<Outcome<seq<Label>>>

    constructor (fullName: string, ttl: Value, transport: Transport)
      ensures this.fullName == fullName && this.ttl == ttl && this.transport == transport
      ensures owner == Owner(fullName) && name == RepoName(fullName)
      ensures labelCache.None?
    {
      this.fullName := fullName;
      var parts := Split(fullName, '/');
      this.owner := parts[0];
      this.name := if |parts| > 1 then Some(parts[1]) else None;
      this.ttl := ttl;
      this.transport := transport;
      this.labelCache := None;
    }

    // Reads

    /** `w3c`: the w3c.json document, normalised. */
    method W3c(server: Request -> Outcome<Value>) returns (r: Outcome<Value>)
      modifies transport
      ensures transport.sent == old(transport.sent) + [W3cRequest(fullName)]
      ensures server(W3cRequest(fullName)).Ok? ==> r == NormaliseW3c(server(W3cRequest(fullName)).value)
      ensures server(W3cRequest(fullName)).Rejected? ==> r == server(W3cRequest(fullName))
    {
      var data := transport.Send(W3cRequest(fullName), server);
      if data.Rejected? {
        return data;
      }
      r := NormaliseW3c(data.value);
    }

    /** `config`: the w3c document is fetched only after the repository
      resource arrived, and no failure escapes. */
    method Config(server: Request -> Outcome<Value>) returns (r: Value)
      modifies transport
      ensures transport.sent == old(transport.sent) + [RepoRequest(fullName)] +
        (if server(RepoRequest(fullName)).Ok? then [W3cRequest(fullName)] else [])
      ensures r == ConfigOf(server(RepoRequest(fullName)), server(W3cRequest(fullName)))
    {
      var core := transport.Send(RepoRequest(fullName), server);
      if core.Rejected? {
        return Undefined;
      }
      var doc := W3c(server);
      if doc.Rejected? {
        return Undefined;
      }
      var merged := SetProperty(core.value, "w3c", doc.value);
      r := if merged.Ok? then merged.value else Undefined;
    }

    method Teams(server: Request -> Outcome<Value>) returns (r: Outcome<Value>)
      modifies transport
      ensures transport.sent == old(transport.sent) + [TeamsRequest(fullName)]
      ensures r == server(TeamsRequest(fullName))
    {
      r := transport.Send(TeamsRequest(fullName), server);
    }

    method Hooks(server: Request -> Outcome<Value>) returns (r: Outcome<Value>)
      modifies transport
      ensures transport.sent == old(transport.sent) + [HooksRequest(fullName)]
      ensures r == server(HooksRequest(fullName))
    {
      r := transport.Send(HooksRequest(fullName), server);
    }

    // Issues

    /** `getIssues(ttl)`: the whole listing, open and closed. */
    method GetIssues(ttl: Value, server: Request -> Outcome<seq<Issue>>) returns (r: Outcome<seq<Issue>>)
      modifies transport
      ensures transport.sent == old(transport.sent) + [IssuesRequest(fullName, ttl)]
      ensures r == server(IssuesRequest(fullName, ttl))
    {
      r := transport.Send(IssuesRequest(fullName, ttl), server);
    }

    method GetOpenIssues(ttl: Value, server: Request -> Outcome<seq<Issue>>) returns (r: Outcome<seq<Issue>>)
      modifies transport
      ensures transport.sent == old(transport.sent) + [IssuesRequest(fullName, ttl)]
      ensures var all := server(IssuesRequest(fullName, ttl));
        (all.Ok? ==> r == Ok(WithState(all.value, "open"))) && (all.Rejected? ==> r == all)
    {
      r := GetIssues(ttl, server);
      if r.Ok? {
        r := Ok(WithState(r.value, "open"));
      }
    }

    method GetClosedIssues(ttl: Value, server: Request -> Outcome<seq<Issue>>) returns (r: Outcome<seq<Issue>>)
      modifies transport
      ensures transport.sent == old(transport.sent) + [IssuesRequest(fullName, ttl)]
      ensures var all := server(IssuesRequest(fullName, ttl));
        (all.Ok? ==> r == Ok(WithState(all.value, "closed"))) && (all.Rejected? ==> r == all)
    {
      r := GetIssues(ttl, server);
      if r.Ok? {
        r := Ok(WithState(r.value, "closed"));
      }
    }

    /** `getIssue(number)` always reads the listing without a TTL. */
    method GetIssue(number: int, server: Request -> Outcome<seq<Issue>>) returns (r: Outcome<Option<Issue>>)
      modifies transport
      ensures transport.sent == old(transport.sent) + [Get(IssuesPath(fullName), map[])]
      ensures var all := server(IssuesRequest(fullName, Undefined));
        (all.Ok? ==> r == Ok(IssueNumbered(all.value, number))) && (all.Rejected? ==> r == Rejected(all.reason))
    {
      var all := GetIssues(Undefined, server);
      if all.Rejected? {
        return Rejected(all.reason);
      }
      r := Ok(IssueNumbered(all.value, number));
    }

    /** `getAwaitingDirector`, with the configured marker as a parameter: it
      reads the open issues with a TTL of 1. */
    method GetAwaitingDirector(marker: string, server: Request -> Outcome<seq<Issue>>) returns (r: Outcome<seq<Issue>>)
      modifies transport
      ensures transport.sent == old(transport.sent) + [Get(IssuesPath(fullName), map["ttl" := Num(1)])]
      ensures var all := server(IssuesRequest(fullName, Num(1)));
        (all.Ok? ==> r == Ok(AwaitingDirector(all.value, marker))) && (all.Rejected? ==> r == all)
    {
      var open := GetOpenIssues(Num(1), server);
      if open.Rejected? {
        return open;
      }
      r := Ok(Filter(open.value, (i: Issue) => MentionFold(false, i.labels, marker)));
    }

    method CreateIssue(title: Value, body: Value, labels: Value, server: Request -> Outcome<Value>) returns (r: Outcome<Value>)
      modifies transport
      ensures transport.sent == old(transport.sent) + [CreateIssueRequest(fullName, title, body, labels)]
      ensures r == server(CreateIssueRequest(fullName, title, body, labels))
      ensures labelCache == old(labelCache)
    {
      r := transport.Send(CreateIssueRequest(fullName, title, body, labels), server);
    }

    // Labels

    method GetLabels(ttl: Value, server: Request -> Outcome<seq<Label>>) returns (r: Outcome<seq<Label>>)
      modifies this`labelCache, transport
      ensures var step := LookupLabels(fullName, old(labelCache), ttl, server);
        r == step.result && labelCache == step.cache && transport.sent == old(transport.sent) + step.sent
    {
      if ttl.Undefined? && labelCache.Some? {
        return labelCache.value;
      }
      r := transport.Send(LabelsRequest(fullName, ttl), server);
      labelCache := Some(r);
    }

    /** `getLabel`: the labels named like the argument, looked up through the
      cache exactly as `getLabels()` does. */
    method GetLabel(lbl: Label, server: Request -> Outcome<seq<Label>>) returns (r: Outcome<seq<Label>>)
      modifies this`labelCache, transport
      ensures var step := LookupLabels(fullName, old(labelCache), Undefined, server);
        labelCache == step.cache && transport.sent == old(transport.sent) + step.sent &&
        (step.result.Ok? ==> r == Ok(LabelsNamed(step.result.value, lbl.name))) &&
        (step.result.Rejected? ==> r == step.result)
    {
      r := GetLabels(Undefined, server);
      if r.Ok? {
        r := Ok(LabelsNamed(r.value, lbl.name));
      }
    }

    method SetLabel(lbl: Label, server: Request -> Outcome<Value>) returns (r: Outcome<Value>)
      modifies transport
      ensures transport.sent == old(transport.sent) + [SetLabelRequest(fullName, lbl)]
      ensures r == server(SetLabelRequest(fullName, lbl))
      ensures labelCache == old(labelCache)
    {
      r := transport.Send(SetLabelRequest(fullName, lbl), server);
    }

    method UpdateLabel(lbl: Label, server: Request -> Outcome<Value>) returns (r: Outcome<Value>)
      modifies transport
      ensures transport.sent == old(transport.sent) + [UpdateLabelRequest(fullName, lbl)]
      ensures r == server(UpdateLabelRequest(fullName, lbl))
      ensures labelCache == old(labelCache)
    {
      r := transport.Send(UpdateLabelRequest(fullName, lbl), server);
    }

    method RenameLabel(rename: LabelRename, server: Request -> Outcome<Value>) returns (r: Outcome<Value>)
      modifies transport
      ensures transport.sent == old(transport.sent) + [RenameLabelRequest(fullName, rename)]
      ensures r == server(RenameLabelRequest(fullName, rename))
      ensures labelCache == old(labelCache)
    {
      r := transport.Send(RenameLabelRequest(fullName, rename), server);
    }

    method SetIssueLabel(issue: Issue, labels: Value, server: Request -> Outcome<Value>) returns (r: Outcome<Value>)
      modifies transport
      ensures transport.sent == old(transport.sent) + [SetIssueLabelRequest(owner, name, issue, labels)]
      ensures r == server(SetIssueLabelRequest(owner, name, issue, labels))
      ensures labelCache == old(labelCache)
    {
      r := transport.Send(SetIssueLabelRequest(owner, name, issue, labels), server);
    }

    method SetIssueAssignee(issue: Issue, assignees: Value, server: Request -> Outcome<Value>) returns (r: Outcome<Value>)
      modifies transport
      ensures transport.sent == old(transport.sent) + [SetIssueAssigneeRequest(fullName, issue, assignees)]
      ensures r == server(SetIssueAssigneeRequest(fullName, issue, assignees))
      ensures labelCache == old(labelCache)
    {
      r := transport.Send(SetIssueAssigneeRequest(fullName, issue, assignees), server);
    }

    method RemoveIssueLabel(issue: Issue, lbl: Label, server: Request -> Outcome<Value>) returns (r: Outcome<Value>)
      modifies transport
      ensures transport.sent == old(transport.sent) + [RemoveIssueLabelRequest(fullName, issue, lbl)]
      ensures r == server(RemoveIssueLabelRequest(fullName, issue, lbl))
      ensures labelCache == old(labelCache)
    {
      r := transport.Send(RemoveIssueLabelRequest(fullName, issue, lbl), server);
    }
  }

  /** `Issue.getComments`. */
  method GetComments(issue: Issue, transport: Transport, server: Request -> Outcome<Value>) returns (r: Outcome<Value>)
    modifies transport
    ensures transport.sent == old(transport.sent) + [CommentsRequest(issue)]
    ensures r == server(CommentsRequest(issue))
  {
    r := transport.Send(CommentsRequest(issue), server);
  }

  /** `GitHub.ratelimit`: the `data` field of the answer. */
  method RateLimit(transport: Transport, server: Request -> Outcome<Value>) returns (r: Outcome<Value>)
    modifies transport
    ensures transport.sent == old(transport.sent) + [RateLimitRequest()]
    ensures server(RateLimitRequest()).Ok? ==> r == Property(server(RateLimitRequest()).value, "data")
    ensures server(RateLimitRequest()).Rejected? ==> r == server(RateLimitRequest())
  {
    var response := transport.Send(RateLimitRequest(), server);
    if response.Rejected? {
      return response;
    }
    r := Property(response.value, "data");
  }

  /** `setHRTeam(repo)`. */
  method SetHRTeam(repo: Repository, transport: Transport, server: Request -> Outcome<Value>) returns (r: Outcome<Value>)
    modifies transport
    ensures transport.sent == old(transport.sent) + [HRTeamRequest(repo.owner, repo.fullName)]
    ensures r == server(HRTeamRequest(repo.owner, repo.fullName))
  {
    r := transport.Send(HRTeamRequest(repo.owner, repo.fullName), server);
  }
}
