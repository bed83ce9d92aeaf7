/**
 * Reconciling a work branch with the default branch through a provider whose refs other clients push to at the same
 * time. Every provider request of a call sees the repository as it is at that moment; before each request other
 * clients perform an arbitrary list of actions, so every interleaving is some choice of these lists.
 */
module BranchReconciliation {
  import opened Outcomes
  import opened CommitGraph

  datatype Classification = UpToDate | BehindOnly | AheadOnly | DivergedSameFiles | DivergedNoOverlap

  /** A compare of the default branch with the work branch; the file sets of both directions. */
  datatype Comparison = Comparison(aheadBy: nat, behindBy: nat, branchFiles: set<string>, baseFiles: set<string>)

  function Classify(c: Comparison): Classification {
    if c.aheadBy == 0 && c.behindBy == 0 then UpToDate
    else if c.aheadBy == 0 then BehindOnly
    else if c.behindBy == 0 then AheadOnly
    else if c.branchFiles * c.baseFiles != {} then DivergedSameFiles
    else DivergedNoOverlap
  }

  /** Files changed from the merge base of two commits to the second, as the provider reports them. */
  type Diff = (seq<Commit>, nat, nat) -> set<string>

  /** The forward request is served while the repository is `r`, the backward one while it is `back`. */
  function Compare(r: Repo, back: Repo, diff: Diff): Comparison
    requires ValidRepo(r) && ValidRepo(back)
  {
    Comparison(AheadBy(r.commits, r.base, r.branch), AheadBy(r.commits, r.branch, r.base),
               diff(r.commits, r.base, r.branch), diff(back.commits, back.branch, back.base))
  }

  /** What the classification says about the two heads at the forward request. */
  lemma ClassificationIsAncestry(r: Repo, back: Repo, diff: Diff)
    requires ValidRepo(r) && ValidRepo(back)
    ensures Classify(Compare(r, back, diff)) == UpToDate <==> r.branch == r.base
    ensures Classify(Compare(r, back, diff)) == BehindOnly <==>
            r.branch != r.base && r.branch in Ancestors(r.commits, r.base)
    ensures Classify(Compare(r, back, diff)) == AheadOnly <==>
            r.branch != r.base && r.base in Ancestors(r.commits, r.branch)
    ensures Classify(Compare(r, back, diff)) in {DivergedSameFiles, DivergedNoOverlap} <==>
            r.base !in Ancestors(r.commits, r.branch) && r.branch !in Ancestors(r.commits, r.base)
  {
    NoneAhead(r.commits, r.base, r.branch);
    NoneAhead(r.commits, r.branch, r.base);
    if r.branch in Ancestors(r.commits, r.base) && r.base in Ancestors(r.commits, r.branch) {
      AncestorsAntisymmetric(r.commits, r.base, r.branch);
    }
  }

  /** A divergence touches the same files exactly when some file changed on both sides. */
  lemma OverlapDecides(r: Repo, back: Repo, diff: Diff)
    requires ValidRepo(r) && ValidRepo(back)
    ensures Classify(Compare(r, back, diff)) == DivergedSameFiles <==>
            && r.base !in Ancestors(r.commits, r.branch) && r.branch !in Ancestors(r.commits, r.base)
            && exists f :: f in diff(r.commits, r.base, r.branch) && f in diff(back.commits, back.branch, back.base)
  {
    ClassificationIsAncestry(r, back, diff);
    var c := Compare(r, back, diff);
    if f :| f in c.branchFiles && f in c.baseFiles {
      assert f in c.branchFiles * c.baseFiles;
    }
  }

  // ---------------------------------------------------------------- the resolution commit

  const MAX_RESOLUTION_FILES := 50

  datatype Reason =
    | BranchFilesEmpty | FileScopeExceedsLimit | BaseNotSoleParent | NotAheadOfBase | BehindBase | MissingBranchFiles
    | FilesOutsideBranch

  /** Evidence about a proposed resolution commit against the expected base. */
  datatype Resolution = Resolution(parents: seq<nat>, aheadBy: nat, behindBy: nat, files: set<string>)

  predicate Resolves(x: Resolution, expectedBase: nat, branchFiles: set<string>) {
    && x.parents == [expectedBase]
    && x.aheadBy > 0 && x.behindBy == 0
    && x.files == branchFiles
    && 0 < |branchFiles| <= MAX_RESOLUTION_FILES
  }

  function When(c: bool, reason: Reason): seq<Reason> {
    if c then [reason] else []
  }

  lemma NoneLeft(a: set<string>, b: set<string>)
    ensures a - b == {} <==> a <= b
  {
    if a - b == {} {
      forall f | f in a ensures f in b {
        assert f !in a - b;
      }
    }
  }

  /** Reasons about the size of the change and the place of the commit. */
  method PlaceReasons(x: Resolution, expectedBase: nat, branchFiles: set<string>) returns (reasons: seq<Reason>)
    ensures BranchFilesEmpty in reasons <==> branchFiles == {}
    ensures FileScopeExceedsLimit in reasons <==> |branchFiles| > 50 || |x.files| > 50
    ensures BaseNotSoleParent in reasons <==> x.parents != [expectedBase]
    ensures NotAheadOfBase in reasons <==> x.aheadBy == 0 || x.behindBy > 0
    ensures BehindBase in reasons <==> x.behindBy > 0
    ensures reasons == [] <==>
            && x.parents == [expectedBase] && x.aheadBy > 0 && x.behindBy == 0
            && 0 < |branchFiles| <= 50 && |x.files| <= 50
    ensures MissingBranchFiles !in reasons && FilesOutsideBranch !in reasons
  {
    reasons := When(branchFiles == {}, BranchFilesEmpty);
    reasons := reasons + When(|branchFiles| > MAX_RESOLUTION_FILES || |x.files| > MAX_RESOLUTION_FILES,
                              FileScopeExceedsLimit);
    reasons := reasons + When(|x.parents| != 1 || x.parents[0] != expectedBase, BaseNotSoleParent);
    reasons := reasons + When(!(x.aheadBy > 0 && x.behindBy == 0), NotAheadOfBase);
    reasons := reasons + When(x.behindBy != 0, BehindBase);
  }

  /** The validator collects every reason; it is satisfied exactly by a one-parent commit on the base that changes
      exactly the branch's files. */
  method ValidateMergeResolution(x: Resolution, expectedBase: nat, branchFiles: set<string>)
    returns (reasons: seq<Reason>)
    ensures reasons == [] <==> Resolves(x, expectedBase, branchFiles)
    ensures BranchFilesEmpty in reasons <==> branchFiles == {}
    ensures FileScopeExceedsLimit in reasons <==> |branchFiles| > 50 || |x.files| > 50
    ensures BaseNotSoleParent in reasons <==> x.parents != [expectedBase]
    ensures NotAheadOfBase in reasons <==> x.aheadBy == 0 || x.behindBy > 0
    ensures BehindBase in reasons <==> x.behindBy > 0
    ensures MissingBranchFiles in reasons <==> !(branchFiles <= x.files)
    ensures FilesOutsideBranch in reasons <==> !(x.files <= branchFiles)
  {
    reasons := PlaceReasons(x, expectedBase, branchFiles);
    reasons := reasons + When(branchFiles - x.files != {}, MissingBranchFiles);
    reasons := reasons + When(x.files - branchFiles != {}, FilesOutsideBranch);
    NoneLeft(branchFiles, x.files);
    NoneLeft(x.files, branchFiles);
  }

  function ResolutionOf(r: Repo, commit: nat, expectedBase: nat, diff: Diff): Resolution
    requires ValidRepo(r) && commit < |r.commits| && expectedBase < |r.commits|
  {
    Resolution(r.commits[commit].parents, AheadBy(r.commits, expectedBase, commit),
               AheadBy(r.commits, commit, expectedBase), diff(r.commits, expectedBase, commit))
  }

  /** A commit whose only parent is the base is one ahead of it and never behind. */
  lemma SoleParentIsAhead(r: Repo, commit: nat, expectedBase: nat, diff: Diff)
    requires ValidRepo(r) && commit < |r.commits| && expectedBase < |r.commits|
    requires r.commits[commit].parents == [expectedBase]
    ensures var x := ResolutionOf(r, commit, expectedBase, diff); x.aheadBy == 1 && x.behindBy == 0
  {
    var above, below := Ancestors(r.commits, commit), Ancestors(r.commits, expectedBase);
    assert expectedBase in r.commits[commit].parents;
    assert above == {commit} + below;
    if commit in below {
      AncestorsEarlier(r.commits, expectedBase, commit);
    }
    assert above - below == {commit};
    assert below - above == {};
  }

  // ---------------------------------------------------------------- calls

  datatype Refusal =
    | StaleEvidence | ClassificationBlocked | UpdateRefused | ReadbackFailed | ConfirmationRequired | LeaseRequired
    | NotFound | ResolutionInvalid | MessageInvalid

  /** The repository at the provider, shared with other clients. */
  class Provider {
    var repo: Repo

    ghost predicate Valid()
      reads this
    {
      ValidRepo(repo)
    }

    constructor (r: Repo)
      requires ValidRepo(r)
      ensures Valid() && repo == r
    {
      repo := r;
    }

    /** Other clients act. */
    method Others(actions: seq<Action>)
      requires Valid()
      modifies this
      ensures Valid() && repo == Pushes(old(repo), actions) && Extends(old(repo), repo)
    {
      PushesExtend(repo, actions);
      var i := 0;
      while i < |actions|
        invariant i <= |actions| && Valid()
        invariant Pushes(repo, actions[i..]) == Pushes(old(repo), actions)
      {
        repo := Push(repo, actions[i]);
        i := i + 1;
      }
    }

    /** A non-forced ref update. */
    method UpdateBranch(to: nat) returns (ok: bool)
      requires Valid()
      modifies this
      ensures Valid() && repo == Push(old(repo), MoveBranch(to)) && Extends(old(repo), repo)
      ensures ok <==> Accepted(old(repo), MoveBranch(to))
    {
      ok := Accepted(repo, MoveBranch(to));
      PushExtends(repo, MoveBranch(to));
      repo := Push(repo, MoveBranch(to));
    }

    method CreateCommit(c: Commit) returns (created: Option<nat>)
      requires Valid()
      modifies this
      ensures Valid() && repo == Push(old(repo), Create(c)) && Extends(old(repo), repo)
      ensures created == if Accepted(old(repo), Create(c)) then Some(|old(repo).commits|) else None
    {
      created := if Accepted(repo, Create(c)) then Some(|repo.commits|) else None;
      PushExtends(repo, Create(c));
      repo := Push(repo, Create(c));
    }
  }

  function Gap(others: seq<seq<Action>>, i: nat): seq<Action> {
    if i < |others| then others[i] else []
  }

  ghost predicate Quiet(others: seq<seq<Action>>) {
    forall i :: 0 <= i < |others| ==> others[i] == []
  }

  /** `n` requests served one after the other, others acting before each: the repository each of them sees. */
  method Watch(p: Provider, others: seq<seq<Action>>, from: nat, n: nat) returns (moments: seq<Repo>)
    requires p.Valid()
    modifies p
    ensures p.Valid() && |moments| == n && Extends(old(p.repo), p.repo)
    ensures forall i :: 0 <= i < n ==> Extends(old(p.repo), moments[i]) && Extends(moments[i], p.repo)
    ensures Quiet(others) ==> p.repo == old(p.repo) && forall i :: 0 <= i < n ==> moments[i] == p.repo
  {
    moments := [];
    PushesExtend(p.repo, []);
    for k := 0 to n
      invariant p.Valid() && |moments| == k && Extends(old(p.repo), p.repo)
      invariant forall i :: 0 <= i < k ==> Extends(old(p.repo), moments[i]) && Extends(moments[i], p.repo)
      invariant Quiet(others) ==> p.repo == old(p.repo) && forall i :: 0 <= i < k ==> moments[i] == p.repo
    {
      ghost var before := p.repo;
      p.Others(Gap(others, from + k));
      ExtendsTransitive(old(p.repo), before, p.repo);
      forall i | 0 <= i < k ensures Extends(moments[i], p.repo) {
        ExtendsTransitive(moments[i], before, p.repo);
      }
      PushesExtend(p.repo, []);
      moments := moments + [p.repo];
    }
  }

  /** When each of the four requests for evidence is served; the comparisons are asked for after both refs came back. */
  datatype Order = Order(base: nat, branch: nat, forward: nat, backward: nat)

  predicate ValidOrder(o: Order, n: nat) {
    o.base < o.forward < n && o.branch < o.forward && o.base < o.backward < n && o.branch < o.backward
  }

  /** The evidence a call works from: the two refs and a comparison, each from its own moment. */
  datatype Evidence = Evidence(base: nat, branch: nat, comparison: Comparison)

  function EvidenceAt(moments: seq<Repo>, o: Order, diff: Diff): Evidence
    requires ValidOrder(o, |moments|) && forall i :: 0 <= i < |moments| ==> ValidRepo(moments[i])
  {
    Evidence(moments[o.base].base, moments[o.branch].branch,
             Compare(moments[o.forward], moments[o.backward], diff))
  }

  /** `seen` and `back` are the repository at the two comparison requests. */
  method LoadEvidence(p: Provider, diff: Diff, others: seq<seq<Action>>, from: nat, order: Order)
    returns (e: Evidence, ghost seen: Repo, ghost back: Repo)
    requires p.Valid() && ValidOrder(order, 4)
    modifies p
    ensures p.Valid() && Extends(old(p.repo), p.repo)
    ensures Extends(old(p.repo), seen) && Extends(seen, p.repo) && ValidRepo(back)
    ensures e.comparison == Compare(seen, back, diff)
    ensures e.base < |p.repo.commits| && e.branch < |p.repo.commits|
    ensures Quiet(others) ==> p.repo == old(p.repo) == seen == back
    ensures Quiet(others) ==> e.base == p.repo.base && e.branch == p.repo.branch
  {
    var moments := Watch(p, others, from, 4);
    e := EvidenceAt(moments, order, diff);
    seen, back := moments[order.forward], moments[order.backward];
    assert Extends(moments[order.base], p.repo) && Extends(moments[order.branch], p.repo);
  }

  /** The checks before a fast-forward: fresh heads, and a branch that is behind only. */
  method CheckFastForward(p: Provider, expectedBase: nat, expectedBranch: nat, diff: Diff, others: seq<seq<Action>>,
                          order: Order)
    returns (f: Option<Refusal>)
    requires p.Valid() && ValidOrder(order, 4)
    modifies p
    ensures p.Valid() && Extends(old(p.repo), p.repo)
    ensures f.None? ==> expectedBase < |p.repo.commits|
    ensures Quiet(others) ==> p.repo == old(p.repo)
    ensures Quiet(others) ==>
              f == if p.repo.base != expectedBase || p.repo.branch != expectedBranch then Some(StaleEvidence)
                   else if p.repo.branch == p.repo.base || p.repo.branch !in Ancestors(p.repo.commits, p.repo.base)
                   then Some(ClassificationBlocked)
                   else None
  {
    var before, seen, back := LoadEvidence(p, diff, others, 0, order);
    ClassificationIsAncestry(seen, back, diff);
    if before.base != expectedBase || before.branch != expectedBranch {
      return Some(StaleEvidence);
    }
    if Classify(before.comparison) != BehindOnly {
      return Some(ClassificationBlocked);
    }
    return None;
  }

  /**
   * Fast-forward of the work branch to the default branch. `readback` is the repository at the final comparison.
   * Whatever others do nothing is lost, and success means the heads were equal at readback; undisturbed, the call
   * succeeds exactly on fresh evidence for a branch that is behind only, and leaves it at the default head.
   */
  method FastForwardToBase(p: Provider, expectedBase: nat, expectedBranch: nat, diff: Diff, others: seq<seq<Action>>,
                           firstOrder: Order, lastOrder: Order)
    returns (r: Result<nat, Refusal>, ghost readback: Repo)
    requires p.Valid() && ValidOrder(firstOrder, 4) && ValidOrder(lastOrder, 4)
    modifies p
    ensures p.Valid() && Extends(old(p.repo), p.repo)
    ensures r.Done? ==> Extends(old(p.repo), readback) && Extends(readback, p.repo) &&
                        readback.branch == readback.base &&
                        expectedBase in Ancestors(readback.commits, readback.branch)
    ensures Quiet(others) ==>
              (r.Done? <==> && old(p.repo).base == expectedBase && old(p.repo).branch == expectedBranch
                            && expectedBranch != expectedBase
                            && expectedBranch in Ancestors(old(p.repo).commits, expectedBase))
    ensures r.Done? ==> r.value == expectedBase
    ensures Quiet(others) ==> p.repo == if r.Done? then old(p.repo).(branch := expectedBase) else old(p.repo)
    ensures Quiet(others) && r.Refused? ==>
              if old(p.repo).base != expectedBase || old(p.repo).branch != expectedBranch
              then r.error == StaleEvidence else r.error == ClassificationBlocked
  {
    readback := p.repo;
    var refused := CheckFastForward(p, expectedBase, expectedBranch, diff, others, firstOrder);
    if refused.Some? {
      return Refused(refused.value), readback;
    }
    label Checked:
    p.Others(Gap(others, 4));
    label Updating:
    var ok := p.UpdateBranch(expectedBase);
    ExtendsTransitive(old(p.repo), old@Checked(p.repo), old@Updating(p.repo));
    ExtendsTransitive(old(p.repo), old@Updating(p.repo), p.repo);
    if !ok {
      return Refused(UpdateRefused), readback;
    }
    label Updated:
    var after, last, lastBack := LoadEvidence(p, diff, others, 5, lastOrder);
    ExtendsTransitive(old(p.repo), old@Updated(p.repo), p.repo);
    ExtendsTransitive(old(p.repo), old@Updated(p.repo), last);
    readback := last;
    ClassificationIsAncestry(last, lastBack, diff);
    if Classify(after.comparison) != UpToDate {
      return Refused(ReadbackFailed), readback;
    }
    return Done(expectedBase), readback;
  }

  /** A merge request: the expected heads, the proposed resolution commit, and what the caller has shown. */
  datatype MergeRequest = MergeRequest(
    expectedBase: nat, expectedBranch: nat, resolution: nat, leaseHeld: bool, confirmed: bool, messageLength: nat)

  /** What an undisturbed merge needs. */
  ghost predicate Mergeable(r: Repo, q: MergeRequest, diff: Diff) {
    && ValidRepo(r)
    && q.leaseHeld && q.confirmed && 5 <= q.messageLength <= 5000
    && r.base == q.expectedBase && r.branch == q.expectedBranch
    && r.base !in Ancestors(r.commits, r.branch) && r.branch !in Ancestors(r.commits, r.base)
    && q.resolution < |r.commits|
    && Resolves(ResolutionOf(r, q.resolution, q.expectedBase, diff), q.expectedBase, diff(r.commits, r.base, r.branch))
  }

  /** What each refusal of an undisturbed merge says. */
  ghost predicate Hinders(r: Repo, q: MergeRequest, diff: Diff, x: Refusal)
    requires ValidRepo(r)
  {
    match x
    case LeaseRequired => !q.leaseHeld
    case ConfirmationRequired => !q.confirmed
    case StaleEvidence => r.base != q.expectedBase || r.branch != q.expectedBranch
    case ClassificationBlocked => r.base in Ancestors(r.commits, r.branch) || r.branch in Ancestors(r.commits, r.base)
    case NotFound => q.resolution >= |r.commits|
    case ResolutionInvalid =>
      && q.resolution < |r.commits| && q.expectedBase < |r.commits|
      && !Resolves(ResolutionOf(r, q.resolution, q.expectedBase, diff), q.expectedBase,
                   diff(r.commits, r.base, r.branch))
    case MessageInvalid => q.messageLength < 5 || q.messageLength > 5000
    case _ => false
  }

  /** Fetches the resolution commit and validates it; returns its tree. */
  method FetchResolution(p: Provider, q: MergeRequest, branchFiles: set<string>, diff: Diff, others: seq<seq<Action>>)
    returns (r: Result<nat, Refusal>)
    requires p.Valid() && q.expectedBase < |p.repo.commits|
    modifies p
    ensures p.Valid() && Extends(old(p.repo), p.repo)
    ensures r.Done? ==> && q.resolution < |p.repo.commits| && p.repo.commits[q.resolution].tree == r.value
                        && p.repo.commits[q.resolution].parents == [q.expectedBase]
    ensures Quiet(others) ==> p.repo == old(p.repo)
    ensures Quiet(others) ==>
              (r.Done? <==> && q.resolution < |p.repo.commits|
                            && Resolves(ResolutionOf(p.repo, q.resolution, q.expectedBase, diff), q.expectedBase,
                                        branchFiles))
    ensures Quiet(others) && r.Refused? ==>
              r.error == if q.resolution >= |p.repo.commits| then NotFound else ResolutionInvalid
  {
    p.Others(Gap(others, 4));
    if q.resolution >= |p.repo.commits| {
      return Refused(NotFound);
    }
    var tree := p.repo.commits[q.resolution].tree;
    label Fetched:
    p.Others(Gap(others, 5));
    ExtendsTransitive(old(p.repo), old@Fetched(p.repo), p.repo);
    var evidence := ResolutionOf(p.repo, q.resolution, q.expectedBase, diff);
    var reasons := ValidateMergeResolution(evidence, q.expectedBase, branchFiles);
    if reasons != [] {
      return Refused(ResolutionInvalid);
    }
    return Done(tree);
  }

  /** The checks before anything is written; returns the tree of the resolution commit. */
  method PrepareMerge(p: Provider, q: MergeRequest, diff: Diff, others: seq<seq<Action>>, order: Order)
    returns (r: Result<nat, Refusal>)
    requires p.Valid() && ValidOrder(order, 4)
    modifies p
    ensures p.Valid() && Extends(old(p.repo), p.repo)
    ensures r.Done? ==> && q.expectedBase < |p.repo.commits| && q.expectedBranch < |p.repo.commits|
                        && q.resolution < |p.repo.commits| && p.repo.commits[q.resolution].tree == r.value
                        && p.repo.commits[q.resolution].parents == [q.expectedBase]
    ensures Quiet(others) ==> p.repo == old(p.repo) && (r.Done? <==> Mergeable(old(p.repo), q, diff))
    ensures Quiet(others) && r.Refused? ==> Hinders(old(p.repo), q, diff, r.error)
  {
    PushesExtend(p.repo, []);
    if !q.leaseHeld {
      return Refused(LeaseRequired);
    }
    if !q.confirmed {
      return Refused(ConfirmationRequired);
    }
    var before, seen, back := LoadEvidence(p, diff, others, 0, order);
    ClassificationIsAncestry(seen, back, diff);
    if before.base != q.expectedBase || before.branch != q.expectedBranch {
      return Refused(StaleEvidence);
    }
    var found := Classify(before.comparison);
    if found != DivergedNoOverlap && found != DivergedSameFiles {
      return Refused(ClassificationBlocked);
    }
    label Checked:
    var tree := FetchResolution(p, q, before.comparison.branchFiles, diff, others);
    ExtendsTransitive(old(p.repo), old@Checked(p.repo), p.repo);
    if tree.Refused? {
      return Refused(tree.error);
    }
    if q.messageLength < 5 || q.messageLength > 5000 {
      return Refused(MessageInvalid);
    }
    return tree;
  }

  /** Creates the merge commit and moves the branch to it. */
  method WriteMerge(p: Provider, parents: seq<nat>, tree: nat, others: seq<seq<Action>>)
    returns (r: Result<nat, Refusal>)
    requires p.Valid() && forall c :: c in parents ==> c < |p.repo.commits|
    modifies p
    ensures p.Valid() && Extends(old(p.repo), p.repo)
    ensures r.Done? ==> && r.value < |p.repo.commits| && p.repo.commits[r.value] == Commit(parents, tree)
                        && r.value in Ancestors(p.repo.commits, p.repo.branch)
    ensures Quiet(others) && old(p.repo).branch in parents ==>
              r == Done(|old(p.repo).commits|) &&
              p.repo == Repo(old(p.repo).commits + [Commit(parents, tree)], old(p.repo).base, |old(p.repo).commits|)
  {
    p.Others(Gap(others, 6));
    label Creating:
    var created := p.CreateCommit(Commit(parents, tree));
    ExtendsTransitive(old(p.repo), old@Creating(p.repo), p.repo);
    var merge := created.value;
    label Created:
    p.Others(Gap(others, 7));
    ExtendsTransitive(old(p.repo), old@Created(p.repo), p.repo);
    label Updating:
    ghost var was := p.repo;
    if old(p.repo).branch in parents && Quiet(others) {
      assert was.commits[merge] == Commit(parents, tree);
      assert was.branch in Ancestors(was.commits, was.branch);
      assert was.branch in Ancestors(was.commits, merge);
    }
    var ok := p.UpdateBranch(merge);
    ExtendsTransitive(old(p.repo), old@Updating(p.repo), p.repo);
    if !ok {
      return Refused(UpdateRefused);
    }
    return Done(merge);
  }

  /** When the six requests of the final readback are served: the ref, the commit, and the evidence. */
  datatype ReadbackOrder = ReadbackOrder(ref: nat, commit: nat, evidence: Order)

  predicate ValidReadbackOrder(o: ReadbackOrder) {
    o.ref < 6 && o.commit < 6 && ValidOrder(o.evidence, 6)
  }

  /** The readbacks after the write, served in any order. */
  method ReadBackMerge(p: Provider, merge: nat, expected: Commit, diff: Diff, others: seq<seq<Action>>,
                       order: ReadbackOrder)
    returns (ok: bool, ghost readback: Repo)
    requires p.Valid() && merge < |p.repo.commits| && merge in Ancestors(p.repo.commits, p.repo.branch)
    requires ValidReadbackOrder(order)
    modifies p
    ensures p.Valid() && Extends(old(p.repo), p.repo)
    ensures Extends(old(p.repo), readback) && Extends(readback, p.repo)
    ensures ok ==> && readback.branch != readback.base
                   && readback.base in Ancestors(readback.commits, readback.branch)
                   && merge in Ancestors(readback.commits, readback.branch)
                   && readback.commits[merge] == expected
    ensures Quiet(others) ==> p.repo == old(p.repo) == readback
    ensures Quiet(others) ==>
              (ok <==> && p.repo.branch == merge && p.repo.commits[merge] == expected
                       && p.repo.branch != p.repo.base && p.repo.base in Ancestors(p.repo.commits, p.repo.branch))
  {
    var moments := Watch(p, others, 8, 6);
    assert Extends(old(p.repo), moments[order.commit]);
    var refRead, commitRead := moments[order.ref].branch, moments[order.commit].commits[merge];
    var after := EvidenceAt(moments, order.evidence, diff);
    readback := moments[order.evidence.forward];
    ClassificationIsAncestry(readback, moments[order.evidence.backward], diff);
    NoneAhead(readback.commits, readback.branch, readback.base);
    ok := refRead == merge && commitRead == expected && Classify(after.comparison) == AheadOnly &&
          after.comparison.behindBy == 0;
  }

  /**
   * Merge of the default branch into a diverged work branch, using a resolution commit's tree. Whatever others do
   * nothing is lost, and success means that at readback the branch was ahead of the default branch, not behind it,
   * and contained a merge of exactly the two expected heads with the resolution's tree. Undisturbed, the call succeeds
   * exactly on a mergeable request, and a refused one writes nothing.
   */
  method MergeCommitCreate(p: Provider, q: MergeRequest, diff: Diff, others: seq<seq<Action>>, firstOrder: Order,
                           lastOrder: ReadbackOrder)
    returns (r: Result<nat, Refusal>, ghost readback: Repo)
    requires p.Valid() && ValidOrder(firstOrder, 4) && ValidReadbackOrder(lastOrder)
    modifies p
    ensures p.Valid() && Extends(old(p.repo), p.repo)
    ensures r.Done? ==> && Extends(old(p.repo), readback) && Extends(readback, p.repo)
                        && readback.branch != readback.base
                        && readback.base in Ancestors(readback.commits, readback.branch)
                        && r.value in Ancestors(readback.commits, readback.branch)
                        && r.value < |readback.commits| && q.resolution < |readback.commits|
                        && readback.commits[r.value] ==
                           Commit([q.expectedBranch, q.expectedBase], readback.commits[q.resolution].tree)
    ensures Quiet(others) ==> (r.Done? <==> Mergeable(old(p.repo), q, diff))
    ensures Quiet(others) && !r.Done? ==> p.repo == old(p.repo) && Hinders(old(p.repo), q, diff, r.error)
    ensures Quiet(others) && r.Done? ==>
              && r.value == |old(p.repo).commits| && q.resolution < r.value
              && p.repo == Repo(
                   old(p.repo).commits + [Commit([q.expectedBranch, q.expectedBase],
                                                 old(p.repo).commits[q.resolution].tree)],
                   old(p.repo).base, r.value)
  {
    readback := p.repo;
    var prepared := PrepareMerge(p, q, diff, others, firstOrder);
    if prepared.Refused? {
      return Refused(prepared.error), readback;
    }
    var parents := [q.expectedBranch, q.expectedBase];
    label Prepared:
    var written := WriteMerge(p, parents, prepared.value, others);
    ExtendsTransitive(old(p.repo), old@Prepared(p.repo), p.repo);
    if written.Refused? {
      return Refused(written.error), readback;
    }
    label Written:
    if Quiet(others) {
      MergedIsAhead(p.repo, old(p.repo).base, written.value);
    }
    var ok, last := ReadBackMerge(p, written.value, Commit(parents, prepared.value), diff, others, lastOrder);
    ExtendsTransitive(old(p.repo), old@Written(p.repo), p.repo);
    ExtendsTransitive(old(p.repo), old@Written(p.repo), last);
    readback := last;
    if !ok {
      return Refused(ReadbackFailed), readback;
    }
    return Done(written.value), readback;
  }

  /** A commit with the base among its parents is ahead of the base. */
  lemma MergedIsAhead(r: Repo, base: nat, merge: nat)
    requires ValidRepo(r) && merge < |r.commits| && base in r.commits[merge].parents
    ensures base != merge && base in Ancestors(r.commits, merge)
  {
    assert base in Ancestors(r.commits, base);
  }
}
