# transition-issues-bot: the GitHub domain layer in Dafny

This project models `lib/github.js` of transition-issues-bot. That file is the domain layer
the bot uses to talk to GitHub. A `Repository` is identified by its full name
("owner/name"). Through a caching transport it reads:

- the repository resource and its `w3c.json` document, and the two merged as `config`;
- teams and hooks;
- the issue listing, with its open, closed, by-number and "awaiting director" selections;
- the label listing, kept in a per-instance cache `_labels`.

It also sends label and issue mutations. `Issue.getComments`, `GitHub.ratelimit` and
`setHRTeam` complete the file.

The transport is an oracle. Each operation takes a `server` function from request to
outcome. That function stands for the remote service together with the transport's own TTL
cache at the time of the call. A `Transport` object records every request handed to it, in
order, so each method states exactly which requests it sends. A failed promise is an
`Outcome` of `Rejected`. The reason is either a transport failure or a `TypeError` raised by
the code itself.

Modules:

- `Js`: JavaScript values, truthiness, property reads, outcomes.
- `Text`: `split`/join, `includes`, decimal rendering of numbers.
- `Records`: the issue and label records.
- `Requests`: request paths, route templates, parameter records.
- `Selection`: `filter` and the issue and label selections.
- `W3c`: `group` normalisation and the `config` merge.
- `Repositories`: the `Transport` log, the `Repository` class with its label cache, and the
  three free-standing operations.

## Model

| member | source | states |
|---|---|---|
| Repositories.Owner | lib/github.js:24-25 | `owner` is a prefix of the full name that contains no '/' and is followed by '/' or by the end of the name |
| Repositories.RepoName | lib/github.js:24-26 | `name` is undefined exactly when the full name has no '/'; otherwise it is the '/'-free text after `owner + "/"`, ending at the next '/' or at the end |
| Repositories.IdentityOfOwnerSlashName | lib/github.js:22-28 | for '/'-free `o` and `n`, the name "o/n" gives back `owner == o` and `name == n` |
| Repositories.NameIsSecondPieceOnly | lib/github.js:24-26 | a full name with a second '/' yields only the second piece as `name`, not the rest of the name |
| Repositories.Repository.constructor | lib/github.js:22-28 | stores the full name and `ttl`, derives `owner` and `name` by splitting on '/', and starts with an empty label cache |
| Text.JoinSplit | lib/github.js:24 | joining the pieces of `split(sep)` with `sep` gives back the original string |
| Text.SplitJoin | lib/github.js:24 | splitting a join of separator-free pieces gives back the pieces |
| Text.SinglePieceIffNoSeparator | lib/github.js:24-26 | `split` yields a single piece exactly when the separator does not occur, which is when `parts[1]` is undefined |
| W3c.NormaliseW3c | lib/github.js:31-37 | rejects with a TypeError exactly on an undefined or null document; keeps every key and every field but `group`; wraps a truthy non-array `group` as `[group]` and leaves any other `group` as it is |
| W3c.NormalisedGroupIsArray | lib/github.js:33-35 | after normalisation a truthy `group` is always an array |
| W3c.NormaliseIdempotent | lib/github.js:31-37 | normalising a normalised document changes nothing |
| Repositories.Repository.W3c | lib/github.js:31-37 | sends one read of `/extra/repos/{full_name}/w3c.json`; passes a rejection through and otherwise returns the normalised document |
| W3c.ConfigOf | lib/github.js:40-48 | `undefined` exactly when a fetch, the normalisation or the `w3c` assignment fails; otherwise the repository object with every field kept and `w3c` set to the normalised document, or an array resource unchanged |
| Repositories.Repository.Config | lib/github.js:40-48 | sends the repository read, and the w3c read only after the first succeeds; returns `ConfigOf` of the two answers |
| Repositories.Repository.Teams | lib/github.js:50-52 | sends one read of `/v3/repos/{full_name}/teams` and returns its answer |
| Repositories.Repository.Hooks | lib/github.js:54-56 | sends one read of `/v3/repos/{full_name}/hooks` and returns its answer |
| Requests.TtlParams | lib/github.js:59-60 | the record holds `ttl` exactly when the TTL is truthy, holds it unchanged, and holds nothing else |
| Requests.ListingPathsIdentifyRepository | lib/github.js:58-102 | two repositories share an issues or a labels path only when they have the same full name |
| Repositories.Repository.GetIssues | lib/github.js:58-63 | sends exactly one read of the issue listing with `{ttl}` only for a truthy TTL, and returns its answer |
| Selection.WithStateSpec | lib/github.js:65-71 | the selection by state is an in-order subsequence of the listing that holds exactly the issues in that state, each as often as the listing has it |
| Selection.OpenClosedDisjoint | lib/github.js:65-71 | no issue is both open and closed; an issue in any other state is in neither; together they are no longer than the listing |
| Repositories.Repository.GetOpenIssues | lib/github.js:65-67 | one listing read with the caller's TTL; the open selection of the answer, or its rejection |
| Repositories.Repository.GetClosedIssues | lib/github.js:69-71 | one listing read with the caller's TTL; the closed selection of the answer, or its rejection |
| Selection.IssueNumberedSpec | lib/github.js:73-75 | none exactly when no issue has the number; otherwise the issue at the first index with that number |
| Repositories.Repository.GetIssue | lib/github.js:73-75 | reads the listing with no TTL record whatever the instance `ttl` is; returns the first issue with the number, or none |
| Text.IncludesIffOccurs | lib/github.js:79 | `includes(m)` holds exactly when `m` occurs at some index of the string |
| Selection.MentionFoldIsAny | lib/github.js:79 | the `reduce` with `\|\|` from `acc` holds exactly when `acc` holds or some label name includes the marker |
| Selection.MentionFoldIsSubstring | lib/github.js:79 | starting from `false`, the fold holds exactly when the marker occurs as a substring of some label name |
| Selection.AwaitingDirectorMembers | lib/github.js:77-81 | an issue is selected exactly when it is in the listing, is open and has a label whose name contains the marker |
| Selection.AwaitingDirectorOrder | lib/github.js:77-81 | the selection keeps the listing's order and each selected issue's multiplicity |
| Repositories.Repository.GetAwaitingDirector | lib/github.js:77-81 | reads the listing with the fixed TTL 1 and returns its awaiting-director selection, or the rejection |
| Repositories.Repository.CreateIssue | lib/github.js:85-92 | sends one `POST /repos/:repo/issues` with `repo`, `title`, `body` and `labels`; leaves the label cache as it was |
| Requests.IssueCallsSupplied | lib/github.js:85-164 | every placeholder of the create, set-label, assign and remove-label routes is named in the record sent with it |
| Repositories.LookupLabels | lib/github.js:97-102 | no request exactly when there is no TTL argument and the cache is set, and then the cached outcome comes back; otherwise exactly one labels read, whose answer is returned; the cache afterwards always holds the returned outcome |
| Repositories.CachedAfterAnyLookup | lib/github.js:97-102 | once any call has filled the cache, `getLabels()` sends nothing and returns the same outcome, a failure included |
| Repositories.TtlArgumentAlwaysFetches | lib/github.js:97-102 | a TTL argument, even a falsy one, always sends a labels read and overwrites the cache with its answer |
| Repositories.Repository.GetLabels | lib/github.js:97-102 | the result, the new cache and the requests sent are those of `LookupLabels` on the old cache |
| Selection.LabelsNamedSpec | lib/github.js:104-106 | the lookup returns, in order and with duplicates, exactly the labels with that name; it is empty when there is none |
| Repositories.Repository.GetLabel | lib/github.js:104-106 | goes through the label cache as `getLabels()` does and returns the labels with the argument's name, or the rejection |
| Requests.LabelCallsSupplied | lib/github.js:110-136 | every placeholder of the set, update and rename routes is named in the record sent with it |
| Repositories.Repository.SetLabel | lib/github.js:110-117 | sends one `POST /repos/:repo/labels` with the label's name, and its colour and description as they are (possibly `undefined` or `null`); the label cache is unchanged |
| Repositories.Repository.UpdateLabel | lib/github.js:119-126 | sends one `PATCH /repos/:repo/labels/:name` with the same record; the label cache is unchanged |
| Repositories.Repository.RenameLabel | lib/github.js:128-136 | sends one `PATCH /repos/:repo/labels/:oldname` with the old name and the new one as `new_name`; the label cache is unchanged |
| Repositories.Repository.SetIssueLabel | lib/github.js:141-148 | sends one `POST /repos/:owner/:name/issues/:issue_number/labels` addressed by `owner` and `name` (undefined when the full name has no '/'); the label cache is unchanged |
| Repositories.Repository.SetIssueAssignee | lib/github.js:150-156 | sends one `POST /repos/:repo/issues/:issue_number/assignees`; the label cache is unchanged |
| Repositories.Repository.RemoveIssueLabel | lib/github.js:158-164 | sends one `DELETE /repos/:repo/issues/:issue_number/labels/:name`; the label cache is unchanged |
| Text.DecimalRoundTrip | lib/github.js:16 | the decimal rendering of an issue number reads back as the same number |
| Requests.CommentsPathIdentifiesIssue | lib/github.js:15-17 | two issues share a comments path exactly when their interpolated `full_name` texts and their numbers are equal |
| Repositories.GetComments | lib/github.js:15-17 | sends one read of `/v3/repos/{full_name}/issues/{number}/comments` and returns its answer |
| Repositories.RateLimit | lib/github.js:171-173 | sends one `GET /rate_limit` and returns the answer's `data` field: undefined when it is absent, a TypeError on a null answer, the rejection on failure |
| Repositories.SetHRTeam | lib/github.js:178-182 | sends one `PUT` to `orgs/{owner}/teams/horizontal-admin/repos/{full_name}` with `permission: "pull"` |

## Left out

- The transport itself, with its TTL cache, HTTP, authentication and pagination. It is the
  `server` parameter of each call. Every call is synchronous, so `async` scheduling and the
  races between concurrent calls are not modelled.
- The configuration loading behind the director marker. The marker is the `marker` parameter
  of `GetAwaitingDirector`.
- In-place mutation and aliasing. `w3c` writes `group` into the object the transport hands
  out, and `config` writes `w3c` into the repository object. The model computes new values,
  so it does not capture that a later read of the same cached object already shows those
  writes. `NormaliseIdempotent` shows that this aliasing changes nothing for `group`.
- The `Issue` constructor's `Object.assign`. An issue is a typed record with the fields the
  layer reads. Malformed listings are not modelled:
  - A missing `state` drops the entry from the open, closed and awaiting-director
    selections, because `issue.state === ...` is false (lib/github.js:66, 70). A missing
    `number` drops it from `getIssue` only (lib/github.js:74). Neither throws.
  - An open entry without a `labels` array throws a `TypeError` in `getAwaitingDirector`
    (lib/github.js:79). So does a label without a `name` that is reached before any label of
    its issue has matched, since `||` skips the rest once one has. Closed entries are never
    inspected there.
  - A listing that is not an array throws at `.filter` (lib/github.js:66, 70, 74).
- `Records.Label`: the `name` of a label argument is a string. A caller's object without a
  `name`, which `setLabel`, `updateLabel`, `getLabel` and `removeIssueLabel` would forward
  or compare as `undefined`, is not modelled. Colour and description are JavaScript values
  and are forwarded as they are.
- The class `GitHub` has no state. `ratelimit` is the free-standing `RateLimit`.
- Numbers are integers. Floating point, `NaN` and number-to-string rendering of
  non-integers are not modelled, and an issue number is a `nat`.
- Named properties on arrays. Assigning `w3c` onto an array resource succeeds in the code,
  and `W3c.SetProperty` returns the array unchanged.
- `Repositories.Repository.constructor`: the instance `ttl` is stored but, as in the code, no
  operation reads it.
- Server-side effects of the mutations, such as the labels or issues they change. The model
  records which request was sent. Nothing is known about what later reads return, so it
  shows only that the instance label cache is left as it was. Whether the transport's own
  cache is invalidated is part of `server` and is not modelled.
- `Repositories.Repository.RenameLabel`: the label argument is a `LabelRename` record carrying
  `oldname` beside the new fields.

## Notes on the code

- `w3c` wraps only a truthy non-array `group` (lib/github.js:33). A falsy `group` such as
  `""`, `0` or `null` stays as it is.
- The instance `ttl` is stored by the constructor (lib/github.js:27) and never read. So
  `getIssues()` with no argument sends no TTL (lib/github.js:58-62).
