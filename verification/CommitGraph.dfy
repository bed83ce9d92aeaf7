/** A repository as a commit graph with a default branch and one work branch, changed by non-forced pushes only. */
module CommitGraph {
  import opened Folds

  /** Commits are numbered in the order they were created, so parents come earlier. */
  datatype Commit = Commit(parents: seq<nat>, tree: nat)

  datatype Repo = Repo(commits: seq<Commit>, base: nat, branch: nat)

  predicate ParentsEarlier(commits: seq<Commit>) {
    forall i :: 0 <= i < |commits| ==> forall p :: p in commits[i].parents ==> p < i
  }

  predicate ValidRepo(r: Repo) {
    ParentsEarlier(r.commits) && r.base < |r.commits| && r.branch < |r.commits|
  }

  /** `c` and everything reachable from it through parents. */
  function Ancestors(commits: seq<Commit>, c: nat): set<nat>
    requires ParentsEarlier(commits) && c < |commits|
    decreases c
  {
    {c} + set p, a | p in commits[c].parents && a in Ancestors(commits, p) :: a
  }

  lemma {:induction false} AncestorsEarlier(commits: seq<Commit>, c: nat, a: nat)
    requires ParentsEarlier(commits) && c < |commits| && a in Ancestors(commits, c)
    ensures a <= c
    decreases c
  {
    if a != c {
      var p :| p in commits[c].parents && a in Ancestors(commits, p);
      AncestorsEarlier(commits, p, a);
    }
  }

  lemma {:induction false} AncestorsClosed(commits: seq<Commit>, c: nat, a: nat)
    requires ParentsEarlier(commits) && c < |commits| && a in Ancestors(commits, c)
    ensures a < |commits| && Ancestors(commits, a) <= Ancestors(commits, c)
    decreases c
  {
    AncestorsEarlier(commits, c, a);
    if a != c {
      var p :| p in commits[c].parents && a in Ancestors(commits, p);
      AncestorsClosed(commits, p, a);
    }
  }

  /** Adding commits changes nobody's ancestry. */
  lemma {:induction false} AncestorsStay(commits: seq<Commit>, more: seq<Commit>, c: nat)
    requires ParentsEarlier(commits) && ParentsEarlier(more) && commits <= more && c < |commits|
    ensures Ancestors(more, c) == Ancestors(commits, c)
    decreases c
  {
    assert more[c] == commits[c];
    forall p | p in commits[c].parents ensures Ancestors(more, p) == Ancestors(commits, p) {
      AncestorsStay(commits, more, p);
    }
  }

  /** Each an ancestor of the other: the same commit. */
  lemma AncestorsAntisymmetric(commits: seq<Commit>, a: nat, b: nat)
    requires ParentsEarlier(commits) && a < |commits| && b < |commits|
    requires a in Ancestors(commits, b) && b in Ancestors(commits, a)
    ensures a == b
  {
    AncestorsEarlier(commits, a, b);
    AncestorsEarlier(commits, b, a);
  }

  /** Commits of `head` that `from` lacks, as a compare request counts them. */
  function AheadBy(commits: seq<Commit>, from: nat, head: nat): nat
    requires ParentsEarlier(commits) && from < |commits| && head < |commits|
  {
    |Ancestors(commits, head) - Ancestors(commits, from)|
  }

  lemma NoneAhead(commits: seq<Commit>, from: nat, head: nat)
    requires ParentsEarlier(commits) && from < |commits| && head < |commits|
    ensures AheadBy(commits, from, head) == 0 <==> head in Ancestors(commits, from)
  {
    var only := Ancestors(commits, head) - Ancestors(commits, from);
    if head in Ancestors(commits, from) {
      AncestorsClosed(commits, from, head);
      assert only == {};
    } else {
      assert head in only;
    }
  }

  // ---------------------------------------------------------------- pushes

  /** What any client may do: create a commit, or ask for a non-forced move of one of the two refs. */
  datatype Action = Create(commit: Commit) | MoveBranch(to: nat) | MoveBase(to: nat)

  /** A non-forced update is accepted only when it is a fast-forward. */
  predicate Accepted(r: Repo, a: Action)
    requires ValidRepo(r)
  {
    match a
    case Create(commit) => forall p :: p in commit.parents ==> p < |r.commits|
    case MoveBranch(to) => to < |r.commits| && r.branch in Ancestors(r.commits, to)
    case MoveBase(to) => to < |r.commits| && r.base in Ancestors(r.commits, to)
  }

  function Push(r: Repo, a: Action): (r': Repo)
    ensures ValidRepo(r) ==> ValidRepo(r')
  {
    if !ValidRepo(r) || !Accepted(r, a) then r
    else match a
      case Create(commit) => r.(commits := r.commits + [commit])
      case MoveBranch(to) => r.(branch := to)
      case MoveBase(to) => r.(base := to)
  }

  function Pushes(r: Repo, actions: seq<Action>): Repo {
    Fold(Push, r, actions)
  }

  /** Nothing is lost: commits stay, and what either ref reached it still reaches. */
  ghost predicate Extends(r: Repo, r': Repo) {
    && ValidRepo(r) && ValidRepo(r')
    && r.commits <= r'.commits
    && Ancestors(r.commits, r.branch) <= Ancestors(r'.commits, r'.branch)
    && Ancestors(r.commits, r.base) <= Ancestors(r'.commits, r'.base)
  }

  lemma ExtendsTransitive(a: Repo, b: Repo, c: Repo)
    requires Extends(a, b) && Extends(b, c)
    ensures Extends(a, c)
  {
  }

  lemma PushExtends(r: Repo, a: Action)
    requires ValidRepo(r)
    ensures Extends(r, Push(r, a))
  {
    if Accepted(r, a) {
      match a
      case Create(commit) =>
        AncestorsStay(r.commits, r.commits + [commit], r.branch);
        AncestorsStay(r.commits, r.commits + [commit], r.base);
      case MoveBranch(to) => AncestorsClosed(r.commits, to, r.branch);
      case MoveBase(to) => AncestorsClosed(r.commits, to, r.base);
    }
  }

  lemma {:induction false} PushesExtend(r: Repo, actions: seq<Action>)
    requires ValidRepo(r)
    ensures Extends(r, Pushes(r, actions))
    decreases |actions|
  {
    if actions != [] {
      PushExtends(r, actions[0]);
      PushesExtend(Push(r, actions[0]), actions[1..]);
      ExtendsTransitive(r, Push(r, actions[0]), Pushes(r, actions));
    }
  }

  /** In every run, whoever acts, what the work branch reached at one moment it reaches at every later one. */
  lemma NothingLeavesTheBranch(r: Repo, run: seq<Action>, i: nat, j: nat)
    requires ValidRepo(r) && i <= j <= |run|
    ensures Extends(Pushes(r, run[..i]), Pushes(r, run[..j]))
  {
    PushesExtend(r, run[..i]);
    FoldFrom(Push, r, run, i, j);
    PushesExtend(Pushes(r, run[..i]), run[i..j]);
  }
}
