/** The selections the repository makes on a fetched listing: open and closed
    issues, the issue with a given number, the issues awaiting the director,
    and the labels with a given name. Each is `Array.prototype.filter` with a
    predicate, so the module first states what `filter` promises. */
module Selection {
  import opened Js
  import opened Text
  import opened Records

  /** `s.filter(keep)`: the elements that pass, in their original order. */
  function Filter<T>(s: seq<T>, keep: T -> bool): (r: seq<T>)
    ensures |r| <= |s|
    ensures forall i :: 0 <= i < |r| ==> r[i] in s && keep(r[i])
    ensures forall i :: 0 <= i < |s| && keep(s[i]) ==> s[i] in r
  {
    if s == [] then [] else (if keep(s[0]) then [s[0]] else []) + Filter(s[1..], keep)
  }

  /** `t` is `s` with some elements deleted, the rest kept in order. */
  ghost predicate IsSubsequence<T>(t: seq<T>, s: seq<T>)
    decreases |s|
  {
    if t == [] then true
    else if s == [] then false
    else (t[0] == s[0] && IsSubsequence(t[1..], s[1..])) || IsSubsequence(t, s[1..])
  }

  lemma {:induction false} FilterIsSubsequence<T>(s: seq<T>, keep: T -> bool)
    ensures IsSubsequence(Filter(s, keep), s)
  {
    if s != [] {
      FilterIsSubsequence(s[1..], keep);
      var rest := Filter(s[1..], keep);
      if keep(s[0]) {
        assert Filter(s, keep) == [s[0]] + rest;
        assert ([s[0]] + rest)[1..] == rest;
      } else {
        assert Filter(s, keep) == rest;
      }
    }
  }

  /** `filter` keeps every occurrence of an element that passes and drops
      every occurrence of one that does not. */
  lemma {:induction false} FilterCounts<T>(s: seq<T>, keep: T -> bool, x: T)
    ensures multiset(Filter(s, keep))[x] == if keep(x) then multiset(s)[x] else 0
  {
    if s != [] {
      FilterCounts(s[1..], keep, x);
      assert s == [s[0]] + s[1..];
      assert multiset(s) == multiset([s[0]]) + multiset(s[1..]);
    }
  }

  lemma {:induction false} SubsequenceTransitive<T>(a: seq<T>, b: seq<T>, c: seq<T>)
    requires IsSubsequence(a, b) && IsSubsequence(b, c)
    ensures IsSubsequence(a, c)
    decreases |c|
  {
    if a != [] {
      assert b != [] && c != [];
      if b[0] == c[0] && IsSubsequence(b[1..], c[1..]) {
        if a[0] == b[0] && IsSubsequence(a[1..], b[1..]) {
          SubsequenceTransitive(a[1..], b[1..], c[1..]);
        } else {
          SubsequenceTransitive(a, b[1..], c[1..]);
        }
      } else {
        SubsequenceTransitive(a, b, c[1..]);
      }
    }
  }

  lemma {:induction false} SubsequenceMultiset<T>(t: seq<T>, s: seq<T>)
    requires IsSubsequence(t, s)
    ensures multiset(t) <= multiset(s)
    decreases |s|
  {
    if t != [] {
      assert s == [s[0]] + s[1..];
      if t[0] == s[0] && IsSubsequence(t[1..], s[1..]) {
        SubsequenceMultiset(t[1..], s[1..]);
        assert t == [t[0]] + t[1..];
      } else {
        SubsequenceMultiset(t, s[1..]);
      }
    }
  }

  /** The two facts above pin `filter` down: an order-preserving selection
      from `s` that keeps exactly the passing elements, each as often as `s`
      has it, is `Filter(s, keep)`. */
  lemma {:induction false} FilterUnique<T>(s: seq<T>, keep: T -> bool, t: seq<T>)
    requires IsSubsequence(t, s)
    requires forall x :: multiset(t)[x] == if keep(x) then multiset(s)[x] else 0
    ensures t == Filter(s, keep)
    decreases |s|
  {
    if s == [] {
      assert t == [];
    } else {
      var x := s[0];
      assert s == [x] + s[1..];
      assert multiset(s) == multiset([x]) + multiset(s[1..]);
      if t != [] && t[0] == x && IsSubsequence(t[1..], s[1..]) {
        assert t == [x] + t[1..];
        assert multiset(t) == multiset([x]) + multiset(t[1..]);
        assert keep(x) by {
          assert multiset(t)[x] > 0;
        }
        forall y ensures multiset(t[1..])[y] == if keep(y) then multiset(s[1..])[y] else 0 {
        }
        FilterUnique(s[1..], keep, t[1..]);
      } else {
        assert IsSubsequence(t, s[1..]);
        SubsequenceMultiset(t, s[1..]);
        assert !keep(x);
        forall y ensures multiset(t)[y] == if keep(y) then multiset(s[1..])[y] else 0 {
        }
        FilterUnique(s[1..], keep, t);
      }
    }
  }

  /** The first element that passes `keep` is the first element of `filter`'s
      result; when nothing passes the result is empty. */
  lemma {:induction false} FilterFirst<T>(s: seq<T>, keep: T -> bool)
    ensures Filter(s, keep) == [] <==> forall k :: 0 <= k < |s| ==> !keep(s[k])
    ensures Filter(s, keep) != [] ==> exists k :: 0 <= k < |s| && keep(s[k]) && Filter(s, keep)[0] == s[k]
                                              && forall j :: 0 <= j < k ==> !keep(s[j])
  {
    if s != [] {
      FilterFirst(s[1..], keep);
      if keep(s[0]) {
        assert Filter(s, keep)[0] == s[0];
      } else {
        if Filter(s, keep) != [] {
          var k :| 0 <= k < |s[1..]| && keep(s[1..][k]) && Filter(s[1..], keep)[0] == s[1..][k]
                   && forall j :: 0 <= j < k ==> !keep(s[1..][j]);
          assert keep(s[k + 1]) && Filter(s, keep)[0] == s[k + 1];
          forall j | 0 <= j < k + 1 ensures !keep(s[j]) {
            if j > 0 {
              assert s[j] == s[1..][j - 1];
            }
          }
        }
        forall k | 1 <= k < |s| ensures s[k] == s[1..][k - 1] {
        }
      }
    }
  }

  // Issues

  /** `issues.filter(issue => issue.state === state)`. */
  function WithState(issues: seq<Issue>, state: string): seq<Issue> {
    Filter(issues, (i: Issue) => i.state == state)
  }

  /** `getOpenIssues` and `getClosedIssues` return, in order, exactly the
      fetched issues in that state, each as often as it was fetched. */
  lemma WithStateSpec(issues: seq<Issue>, state: string)
    ensures IsSubsequence(WithState(issues, state), issues)
    ensures forall x :: x in WithState(issues, state) <==> x in issues && x.state == state
    ensures forall x :: multiset(WithState(issues, state))[x] == (if x.state == state then multiset(issues)[x] else 0)
  {
    FilterIsSubsequence(issues, (i: Issue) => i.state == state);
    forall x ensures multiset(WithState(issues, state))[x] ==
      if x.state == state then multiset(issues)[x] else 0 {
      FilterCounts(issues, (i: Issue) => i.state == state, x);
    }
  }

  /** Open and closed are disjoint, and an issue in any other state is in
      neither selection, so together they hold at most the whole listing. */
  lemma OpenClosedDisjoint(issues: seq<Issue>)
    ensures forall x :: !(x in WithState(issues, "open") && x in WithState(issues, "closed"))
    ensures forall x :: x in issues && x.state != "open" && x.state != "closed" ==>
      x !in WithState(issues, "open") && x !in WithState(issues, "closed")
    ensures |WithState(issues, "open")| + |WithState(issues, "closed")| <= |issues|
  {
    WithStateSpec(issues, "open");
    WithStateSpec(issues, "closed");
    var open, closed := WithState(issues, "open"), WithState(issues, "closed");
    forall x ensures multiset(open)[x] + multiset(closed)[x] <= multiset(issues)[x] {
    }
    MultisetSumBound(open, closed, issues);
  }

  lemma MultisetSumBound<T>(a: seq<T>, b: seq<T>, s: seq<T>)
    requires forall x :: multiset(a)[x] + multiset(b)[x] <= multiset(s)[x]
    ensures |a| + |b| <= |s|
  {
    assert multiset(a) + multiset(b) <= multiset(s);
    assert |multiset(a) + multiset(b)| <= |multiset(s)| by {
      MultisetSubsetSize(multiset(a) + multiset(b), multiset(s));
    }
  }

  lemma MultisetSubsetSize<T>(m: multiset<T>, n: multiset<T>)
    requires m <= n
    ensures |m| <= |n|
    decreases |n|
  {
    if m != multiset{} {
      var x :| x in m;
      MultisetSubsetSize(m - multiset{x}, n - multiset{x});
    }
  }

  /** `getIssue(number)`: the first issue with that number, or none. */
  function IssueNumbered(issues: seq<Issue>, number: int): Option<Issue> {
    var matches := Filter(issues, (i: Issue) => i.number == number);
    if matches == [] then None else Some(matches[0])
  }

  lemma IssueNumberedSpec(issues: seq<Issue>, number: int)
    ensures IssueNumbered(issues, number).None? <==>
      forall k :: 0 <= k < |issues| ==> issues[k].number != number
    ensures IssueNumbered(issues, number).Some? ==>
      exists k :: 0 <= k < |issues| && issues[k] == IssueNumbered(issues, number).value
               && issues[k].number == number && forall j :: 0 <= j < k ==> issues[j].number != number
  {
    FilterFirst(issues, (i: Issue) => i.number == number);
  }

  /** `labels.reduce((a, c) => a || c.name.includes(marker), acc)`. */
  function MentionFold(acc: bool, labels: seq<Label>, marker: string): bool
    decreases |labels|
  {
    if labels == [] then acc else MentionFold(acc || Includes(labels[0].name, marker), labels[1..], marker)
  }

  /** The fold with `||` starting from `false` is "some label's name contains
      the marker"; an issue without labels never qualifies. */
  lemma {:induction false} MentionFoldIsAny(acc: bool, labels: seq<Label>, marker: string)
    ensures MentionFold(acc, labels, marker) <==>
      acc || exists k :: 0 <= k < |labels| && Includes(labels[k].name, marker)
    decreases |labels|
  {
    if labels != [] {
      MentionFoldIsAny(acc || Includes(labels[0].name, marker), labels[1..], marker);
      forall k | 1 <= k < |labels| ensures labels[k] == labels[1..][k - 1] {
      }
      if exists k :: 1 <= k < |labels| && Includes(labels[k].name, marker) {
        var k :| 1 <= k < |labels| && Includes(labels[k].name, marker);
        assert Includes(labels[1..][k - 1].name, marker);
      }
    }
  }

  /** `getAwaitingDirector`, given the listing fetched for the open issues:
      the open issues at least one of whose labels mentions the marker. */
  function AwaitingDirector(issues: seq<Issue>, marker: string): seq<Issue> {
    Filter(WithState(issues, "open"), (i: Issue) => MentionFold(false, i.labels, marker))
  }

  /** `MentionFold` from `false` holds exactly when the marker occurs, as a
      substring, in the name of one of the labels. */
  lemma MentionFoldIsSubstring(labels: seq<Label>, marker: string)
    ensures MentionFold(false, labels, marker) <==>
      exists k, p :: 0 <= k < |labels| && OccursAt(labels[k].name, marker, p)
  {
    MentionFoldIsAny(false, labels, marker);
    forall k | 0 <= k < |labels| ensures Includes(labels[k].name, marker) <==> exists p :: OccursAt(labels[k].name, marker, p) {
      IncludesIffOccurs(labels[k].name, marker);
    }
  }

  /** An issue awaits the director exactly when it is open and the marker
      occurs, as a substring, in the name of one of its labels. */
  lemma AwaitingDirectorMembers(issues: seq<Issue>, marker: string, x: Issue)
    ensures x in AwaitingDirector(issues, marker) <==>
      x in issues && x.state == "open" &&
      exists k, p :: 0 <= k < |x.labels| && OccursAt(x.labels[k].name, marker, p)
  {
    WithStateSpec(issues, "open");
    MentionFoldIsSubstring(x.labels, marker);
  }

  /** The result keeps the listing's order and each selected issue as often
      as the listing has it. */
  lemma AwaitingDirectorOrder(issues: seq<Issue>, marker: string)
    ensures IsSubsequence(AwaitingDirector(issues, marker), issues)
    ensures forall x :: multiset(AwaitingDirector(issues, marker))[x] == (if x.state == "open" && MentionFold(false, x.labels, marker) then multiset(issues)[x] else 0)
  {
    var mentions := (i: Issue) => MentionFold(false, i.labels, marker);
    var open := WithState(issues, "open");
    WithStateSpec(issues, "open");
    FilterIsSubsequence(open, mentions);
    SubsequenceTransitive(AwaitingDirector(issues, marker), open, issues);
    forall x ensures multiset(AwaitingDirector(issues, marker))[x] == (if x.state == "open" && MentionFold(false, x.labels, marker) then multiset(issues)[x] else 0) {
      FilterCounts(open, mentions, x);
    }
  }

  // Labels

  /** `getLabel`: `labels.filter(l => l.name === label.name)`. */
  function LabelsNamed(labels: seq<Label>, name: string): seq<Label> {
    Filter(labels, (l: Label) => l.name == name)
  }

  /** The lookup returns, in order and with duplicates, exactly the labels of
      that name; it is empty when no label has it. */
  lemma LabelsNamedSpec(labels: seq<Label>, name: string)
    ensures IsSubsequence(LabelsNamed(labels, name), labels)
    ensures forall l :: l in LabelsNamed(labels, name) <==> l in labels && l.name == name
    ensures forall l :: multiset(LabelsNamed(labels, name))[l] == if l.name == name then multiset(labels)[l] else 0
    ensures LabelsNamed(labels, name) == [] <==> forall k :: 0 <= k < |labels| ==> labels[k].name != name
  {
    FilterIsSubsequence(labels, (l: Label) => l.name == name);
    FilterFirst(labels, (l: Label) => l.name == name);
    forall l ensures multiset(LabelsNamed(labels, name))[l] == if l.name == name then multiset(labels)[l] else 0 {
      FilterCounts(labels, (l: Label) => l.name == name, l);
    }
  }
}
