// The commit loop of Finalize, over trees: what each committed entry may touch,
// so that verified files reach distinct targets and bystanders stay unchanged.
module Committing {
  import opened Results
  import opened Transfers
  import opened Paths
  import opened Disk

  function PartOf(base: Path, f: File): Path {
    PartComponents(base, f.path)
  }

  ghost predicate DistinctRelative(files: seq<File>) {
    forall i, j :: 0 <= i < j < |files| ==> files[i].path != files[j].path
  }

  lemma PartOfInjective(base: Path, f: File, g: File)
    requires f.path != g.path
    ensures PartOf(base, f) != PartOf(base, g)
  {
    PartNamesJoin(f.path);
    PartNamesJoin(g.path);
    assert PartNames(f.path) == PartOf(base, f)[|base|..];
    assert PartNames(g.path) == PartOf(base, g)[|base|..];
    assert (f.path + ".part")[..|f.path|] == f.path && (g.path + ".part")[..|g.path|] == g.path;
  }

  ghost predicate IsPart(base: Path, files: seq<File>, q: Path) {
    exists f :: f in files && !f.directory && q == PartOf(base, f)
  }

  ghost predicate IsDestination(files: seq<File>, q: Path) {
    exists f :: f in files && !f.directory && f.destination == Some(q)
  }

  // Under the overwrite policy: no two destinations are equal, and none is the
  // partial of a file that is moved later. The other policies need nothing.
  ghost predicate CommitSafe(base: Path, files: seq<File>, policy: Policy) {
    policy.Overwrite? ==> forall j, k :: 0 <= j < k < |files| ==> PairSafe(base, files[j], files[k])
  }

  predicate PairSafe(base: Path, earlier: File, later: File) {
    !earlier.directory && !later.directory && earlier.destination.Some? ==>
      earlier.destination != later.destination && earlier.destination.value != PartOf(base, later)
  }

  // Nobody else's files: not one of the transfer's partials, and not a
  // destination the user agreed to overwrite.
  ghost predicate Bystander(base: Path, files: seq<File>, policy: Policy, q: Path) {
    !IsPart(base, files, q) && (policy.Overwrite? ==> !IsDestination(files, q))
  }

  ghost predicate Spared(base: Path, files: seq<File>, policy: Policy, before: Tree, after: Tree) {
    forall q :: q in before && Bystander(base, files, policy, q) ==> q in after && after[q] == before[q]
  }

  // One manifest entry at its target: a directory, or the verified partial's bytes.
  ghost predicate Placed(base: Path, orig: Tree, tree: Tree, f: File, target: Path) {
    if f.directory then IsFolder(tree, target)
    else PartOf(base, f) in orig && IsRegular(tree, target) && tree[target] == orig[PartOf(base, f)]
  }

  // A partial still to be moved is untouched and is nobody's target.
  ghost predicate Waiting(base: Path, orig: Tree, tree: Tree, f: File, files: seq<File>, targets: seq<Path>)
    requires |targets| <= |files|
  {
    !f.directory ==>
      && PartOf(base, f) in tree && PartOf(base, f) in orig
      && tree[PartOf(base, f)] == orig[PartOf(base, f)] && tree[PartOf(base, f)].Regular?
      && forall j :: 0 <= j < |targets| && !files[j].directory ==> targets[j] != PartOf(base, f)
  }

  ghost predicate DistinctTargets(files: seq<File>, targets: seq<Path>)
    requires |targets| <= |files|
  {
    forall j, k :: 0 <= j < k < |targets| && !files[j].directory && !files[k].directory ==> targets[j] != targets[k]
  }

  ghost predicate Progressed(base: Path, files: seq<File>, policy: Policy, orig: Tree, tree: Tree, targets: seq<Path>) {
    && |targets| <= |files|
    && (forall j :: 0 <= j < |targets| ==> Placed(base, orig, tree, files[j], targets[j]))
    && (forall k :: |targets| <= k < |files| ==> Waiting(base, orig, tree, files[k], files, targets))
    && DistinctTargets(files, targets)
    && Spared(base, files, policy, orig, tree)
    && (policy.Overwrite? ==>
          forall j :: 0 <= j < |targets| && !files[j].directory ==> files[j].destination == Some(targets[j]))
  }

  // The target of the next file, as resolveConflict leaves it.
  ghost predicate Resolved(tree: Tree, f: File, policy: Policy, target: Path) {
    target !in tree || (policy.Overwrite? && f.destination == Some(target))
  }

  // The new target is no earlier target and no later partial, and the partial now
  // moved is no earlier target.
  lemma TargetIsFresh(
      base: Path, files: seq<File>, policy: Policy, orig: Tree, tree: Tree, targets: seq<Path>, target: Path, k: nat)
    requires DistinctRelative(files) && CommitSafe(base, files, policy)
    requires Progressed(base, files, policy, orig, tree, targets) && |targets| < |files| && k < |files|
    requires !files[|targets|].directory && Resolved(tree, files[|targets|], policy, target)
    requires policy.Overwrite? ==> files[|targets|].destination == Some(target)
    ensures k < |targets| && !files[k].directory ==> targets[k] != target && targets[k] != PartOf(base, files[|targets|])
    ensures |targets| < k && !files[k].directory ==>
      PartOf(base, files[k]) != target && PartOf(base, files[k]) != PartOf(base, files[|targets|])
  {
    var i := |targets|;
    assert Waiting(base, orig, tree, files[i], files, targets);
    if k < i {
      assert Placed(base, orig, tree, files[k], targets[k]);
      assert policy.Overwrite? ==> PairSafe(base, files[k], files[i]);
    } else if i < k {
      assert Waiting(base, orig, tree, files[k], files, targets);
      assert policy.Overwrite? ==> PairSafe(base, files[i], files[k]);
      assert files[i].path != files[k].path;
      PartOfInjective(base, files[i], files[k]);
    }
  }

  lemma SparedStep(base: Path, files: seq<File>, policy: Policy, orig: Tree, tree: Tree, f: File, target: Path,
      after: Tree)
    requires f in files && !f.directory && Spared(base, files, policy, orig, tree)
    requires Resolved(tree, f, policy, target)
    requires OnlyTouches(tree, after, {PartOf(base, f), target})
    ensures Spared(base, files, policy, orig, after)
  {
    forall q | q in orig && Bystander(base, files, policy, q) ensures q in after && after[q] == orig[q] {
      assert IsPart(base, files, PartOf(base, f));
      assert target in tree ==> IsDestination(files, target);
      assert q in tree && tree[q] == orig[q];
    }
  }

  // What moving the next verified partial to its resolved target does.
  ghost predicate MovedNext(base: Path, f: File, policy: Policy, tree: Tree, target: Path, after: Tree) {
    && !f.directory && f.destination.Some? && Resolved(tree, f, policy, target)
    && (policy.Overwrite? ==> f.destination == Some(target)) && Dir(target) == Dir(f.destination.value)
    && OnlyTouches(tree, after, {PartOf(base, f), target})
    && IsRegular(tree, PartOf(base, f)) && PartOf(base, f) != target && PartOf(base, f) !in after
    && target in after && after[target] == tree[PartOf(base, f)]
    && (target in tree ==> tree[target].Regular?)
    && (forall q :: q in after && q !in tree && q != target ==> q <= Dir(target))
  }

  lemma PlacedAfterMove(
      base: Path, files: seq<File>, policy: Policy, orig: Tree, tree: Tree, targets: seq<Path>, target: Path,
      after: Tree, j: nat)
    requires DistinctRelative(files) && CommitSafe(base, files, policy)
    requires Progressed(base, files, policy, orig, tree, targets) && j <= |targets| < |files|
    requires MovedNext(base, files[|targets|], policy, tree, target, after)
    ensures Placed(base, orig, after, files[j], (targets + [target])[j])
    ensures j < |targets| && !files[j].directory ==> targets[j] != target
  {
    hide Spared, CommitSafe, DistinctRelative, OnlyTouches;
    var i := |targets|;
    assert Waiting(base, orig, tree, files[i], files, targets);
    if j < i {
      MoveKeepsResolved(base, files[i], policy, tree, target, after);
      TargetIsFresh(base, files, policy, orig, tree, targets, target, j);
      assert Placed(base, orig, tree, files[j], targets[j]);
      Untouched(tree, after, {PartOf(base, files[i]), target}, targets[j]);
    }
  }

  lemma MoveKeepsResolved(base: Path, f: File, policy: Policy, tree: Tree, target: Path, after: Tree)
    requires MovedNext(base, f, policy, tree, target, after)
    ensures !f.directory && Resolved(tree, f, policy, target) && (policy.Overwrite? ==> f.destination == Some(target))
    ensures OnlyTouches(tree, after, {PartOf(base, f), target})
  {
  }

  lemma Untouched(before: Tree, after: Tree, touched: set<Path>, q: Path)
    requires OnlyTouches(before, after, touched)
    ensures q in before && q !in touched ==> q in after && after[q] == before[q]
  {
  }

  lemma WaitingAfterMove(
      base: Path, files: seq<File>, policy: Policy, orig: Tree, tree: Tree, targets: seq<Path>, target: Path,
      after: Tree, k: nat)
    requires DistinctRelative(files) && CommitSafe(base, files, policy)
    requires Progressed(base, files, policy, orig, tree, targets) && |targets| < k < |files|
    requires MovedNext(base, files[|targets|], policy, tree, target, after)
    ensures Waiting(base, orig, after, files[k], files, targets + [target])
  {
    TargetIsFresh(base, files, policy, orig, tree, targets, target, k);
    assert Waiting(base, orig, tree, files[k], files, targets);
  }

  // Moving one verified partial to its resolved target.
  lemma FileStep(
      base: Path, files: seq<File>, policy: Policy, orig: Tree, tree: Tree, targets: seq<Path>, target: Path,
      after: Tree)
    requires DistinctRelative(files) && CommitSafe(base, files, policy)
    requires Progressed(base, files, policy, orig, tree, targets) && |targets| < |files|
    requires MovedNext(base, files[|targets|], policy, tree, target, after)
    ensures Progressed(base, files, policy, orig, after, targets + [target])
  {
    hide Placed, Waiting, Spared, OnlyTouches, CommitSafe, DistinctRelative;
    var i := |targets|;
    SparedStep(base, files, policy, orig, tree, files[i], target, after);
    forall j | 0 <= j <= i ensures Placed(base, orig, after, files[j], (targets + [target])[j]) {
      PlacedAfterMove(base, files, policy, orig, tree, targets, target, after, j);
    }
    forall k | i < k < |files| ensures Waiting(base, orig, after, files[k], files, targets + [target]) {
      WaitingAfterMove(base, files, policy, orig, tree, targets, target, after, k);
    }
    forall j | 0 <= j < i && !files[j].directory ensures targets[j] != target {
      PlacedAfterMove(base, files, policy, orig, tree, targets, target, after, j);
    }
  }

  // Creating one manifest directory.
  lemma FolderStep(base: Path, files: seq<File>, policy: Policy, orig: Tree, tree: Tree, targets: seq<Path>,
      target: Path, after: Tree)
    requires Progressed(base, files, policy, orig, tree, targets) && |targets| < |files|
    requires files[|targets|].directory && OnlyTouches(tree, after, {}) && IsFolder(after, target)
    ensures Progressed(base, files, policy, orig, after, targets + [target])
  {
    var i := |targets|;
    forall j | 0 <= j <= i ensures Placed(base, orig, after, files[j], (targets + [target])[j]) {
      if j < i {
        assert Placed(base, orig, tree, files[j], targets[j]);
      }
    }
    forall k | i < k < |files| ensures Waiting(base, orig, after, files[k], files, targets + [target]) {
      assert Waiting(base, orig, tree, files[k], files, targets);
    }
  }

  // --- what goes wrong otherwise ---------------------------------------------------

  // A moved partial's path holds no file, unless a later target is put there.
  ghost predicate Vacated(base: Path, files: seq<File>, tree: Tree, targets: seq<Path>)
    requires |targets| <= |files|
  {
    forall k :: 0 <= k < |targets| && !files[k].directory ==> VacatedBy(base, files, tree, targets, k)
  }

  ghost predicate VacatedBy(base: Path, files: seq<File>, tree: Tree, targets: seq<Path>, k: nat)
    requires k < |targets| <= |files|
  {
    IsRegular(tree, PartOf(base, files[k])) ==>
      exists m :: k < m < |targets| && !files[m].directory && targets[m] == PartOf(base, files[k])
  }

  lemma VacatedStep(
      base: Path, files: seq<File>, tree: Tree, targets: seq<Path>, target: Path, after: Tree, touched: set<Path>)
    requires |targets| < |files| && Vacated(base, files, tree, targets)
    requires OnlyTouches(tree, after, touched)
    requires if files[|targets|].directory then touched == {} else
      touched == {PartOf(base, files[|targets|]), target} && PartOf(base, files[|targets|]) !in after
    ensures Vacated(base, files, after, targets + [target])
  {
    var more, i := targets + [target], |targets|;
    forall k | 0 <= k < |more| && !files[k].directory ensures VacatedBy(base, files, after, more, k) {
      var q := PartOf(base, files[k]);
      if k < i && IsRegular(after, q) {
        assert VacatedBy(base, files, tree, targets, k);
        if IsRegular(tree, q) {
          var m :| k < m < |targets| && !files[m].directory && targets[m] == q;
          assert more[m] == q;
        } else {
          assert q in touched && more[i] == q;
        }
      }
    }
  }

  // Every file at its own target.
  ghost predicate EachAtTarget(files: seq<File>, tree: Tree, targets: seq<Path>)
    requires |targets| <= |files|
  {
    && DistinctTargets(files, targets)
    && forall j :: 0 <= j < |targets| && !files[j].directory ==> IsRegular(tree, targets[j])
  }

  lemma PlacedPairSafe(base: Path, files: seq<File>, tree: Tree, targets: seq<Path>, j: nat, k: nat)
    requires j < k < |files| == |targets| && EachAtTarget(files, tree, targets) && Vacated(base, files, tree, targets)
    requires forall j :: 0 <= j < |files| && !files[j].directory ==> files[j].destination == Some(targets[j])
    ensures PairSafe(base, files[j], files[k])
  {
    assert !files[k].directory ==> VacatedBy(base, files, tree, targets, k);
  }

  // A commit under overwrite that ran to its end left every file at a target of
  // its own only if it was safe.
  lemma PlacedOnlyIfSafe(base: Path, files: seq<File>, policy: Policy, tree: Tree, targets: seq<Path>)
    requires |targets| == |files| && Vacated(base, files, tree, targets)
    requires policy.Overwrite? ==>
      forall j :: 0 <= j < |files| && !files[j].directory ==> files[j].destination == Some(targets[j])
    ensures EachAtTarget(files, tree, targets) ==> CommitSafe(base, files, policy)
  {
    hide EachAtTarget, Vacated, PairSafe;
    if EachAtTarget(files, tree, targets) && policy.Overwrite? {
      forall j, k | 0 <= j < k < |files| ensures PairSafe(base, files[j], files[k]) {
        PlacedPairSafe(base, files, tree, targets, j, k);
      }
    }
  }

  // --- a commit that nothing hinders ----------------------------------------------

  // The directory that has to exist for an entry.
  function Way(f: File): Path
    requires f.destination.Some?
  {
    if f.directory then f.destination.value else Dir(f.destination.value)
  }

  // Nothing in the tree or among the destinations stands in an entry's way.
  ghost predicate Open(base: Path, files: seq<File>, tree: Tree) {
    && (forall f :: f in files ==> f.destination.Some? && !Blocked(tree, Way(f)))
    && (forall f :: f in files && !f.directory ==>
          f.destination.value != PartOf(base, f) && !IsEntryFolder(tree, f.destination.value))
  }

  ghost predicate NotNested(files: seq<File>) {
    forall f, g :: f in files && g in files && !g.directory && f.destination.Some? && g.destination.Some? ==>
      !(g.destination.value <= Way(f))
  }

  ghost predicate PartsWait(base: Path, files: seq<File>, tree: Tree, k: nat)
    requires k <= |files|
  {
    forall j :: k <= j < |files| && !files[j].directory ==> IsRegular(tree, PartOf(base, files[j]))
  }

  // The start of a commit under overwrite that only a failing disk could stop.
  ghost predicate Unhindered(base: Path, files: seq<File>, policy: Policy, tree: Tree) {
    policy.Overwrite? && Open(base, files, tree) && NotNested(files)
  }

  // What a step that succeeded touches.
  ghost predicate Stepped(base: Path, f: File, after: Tree, touched: set<Path>)
    requires f.destination.Some?
  {
    if f.directory then touched == {}
    else touched == {PartOf(base, f), f.destination.value} && PartOf(base, f) !in after && IsRegular(after, f.destination.value)
  }

  lemma StaysOpen(base: Path, files: seq<File>, tree: Tree, f: File, after: Tree, touched: set<Path>)
    requires f in files && Open(base, files, tree) && NotNested(files)
    requires OnlyTouches(tree, after, touched) && Stepped(base, f, after, touched)
    requires forall q :: q in after && q !in tree && q !in touched ==> q <= Way(f)
    ensures Open(base, files, after)
  {
    hide OnlyTouches, Blocked;
    forall g | g in files ensures !Blocked(after, Way(g)) {
      if Blocked(after, Way(g)) {
        NewlyBlocked(base, files, tree, f, after, touched, g);
      }
    }
    forall g | g in files && !g.directory ensures !IsEntryFolder(after, g.destination.value) {
      NoNewFolder(base, files, tree, f, after, touched, g);
    }
  }

  lemma NoNewFolder(base: Path, files: seq<File>, tree: Tree, f: File, after: Tree, touched: set<Path>, g: File)
    requires f in files && g in files && !g.directory && Open(base, files, tree) && NotNested(files)
    requires OnlyTouches(tree, after, touched) && Stepped(base, f, after, touched)
    requires forall q :: q in after && q !in tree && q !in touched ==> q <= Way(f)
    ensures !IsEntryFolder(after, g.destination.value)
  {
    hide Blocked;
    assert !(g.destination.value <= Way(f));
    assert !IsEntryFolder(tree, g.destination.value);
  }

  // A regular file on an entry's way after a step was there before.
  lemma NewlyBlocked(base: Path, files: seq<File>, tree: Tree, f: File, after: Tree, touched: set<Path>, g: File)
    requires f in files && g in files && f.destination.Some? && g.destination.Some? && NotNested(files)
    requires OnlyTouches(tree, after, touched) && Stepped(base, f, after, touched)
    requires Blocked(after, Way(g))
    ensures Blocked(tree, Way(g))
  {
    var k :| 0 < k <= |Way(g)| && IsRegular(after, Way(g)[..k]);
    assert Way(g)[..k] <= Way(g);
    assert touched != {} ==> !(f.destination.value <= Way(g));
    assert IsRegular(tree, Way(g)[..k]);
  }

  lemma PartsStillWait(
      base: Path, files: seq<File>, tree: Tree, i: nat, after: Tree, touched: set<Path>, target: Path)
    requires DistinctRelative(files) && i < |files| && PartsWait(base, files, tree, i)
    requires OnlyTouches(tree, after, touched)
    requires touched == {} || (touched == {PartOf(base, files[i]), target} && IsRegular(after, target))
    ensures PartsWait(base, files, after, i + 1)
  {
    forall j | i + 1 <= j < |files| && !files[j].directory ensures IsRegular(after, PartOf(base, files[j])) {
      assert files[i].path != files[j].path;
      PartOfInjective(base, files[i], files[j]);
      assert IsRegular(tree, PartOf(base, files[j]));
    }
  }

  // --- the staging directory ---------------------------------------------------------

  // Below the staging directory of all transfers a commit only takes its own
  // partials away.
  ghost predicate OnlyTakesParts(incoming: Path, base: Path, files: seq<File>, before: Tree, after: Tree) {
    forall q :: incoming < q ==>
      ContentsAt(after, q) == ContentsAt(before, q)
      || (IsPart(base, files, q) && IsRegular(before, q) && !IsRegular(after, q))
  }

  ghost predicate Outside(incoming: Path, files: seq<File>) {
    forall f :: f in files && f.destination.Some? ==> !(incoming <= f.destination.value)
  }

  // The partial is untouched or gone, and nothing new is a file but the target.
  ghost predicate Took(base: Path, f: File, tree: Tree, target: Path, after: Tree) {
    && OnlyTouches(tree, after, {PartOf(base, f), target})
    && (PartOf(base, f) in after && PartOf(base, f) in tree ==> after[PartOf(base, f)] == tree[PartOf(base, f)])
    && (PartOf(base, f) in after && PartOf(base, f) !in tree ==> after[PartOf(base, f)].Folder?)
  }

  lemma TargetOutside(incoming: Path, files: seq<File>, f: File, target: Path)
    requires Outside(incoming, files) && f in files && f.destination.Some? && target != []
    requires Dir(target) == Dir(f.destination.value)
    ensures !(incoming < target)
  {
    assert incoming < target ==> incoming <= Dir(target);
    assert f.destination.value != [] ==> Dir(f.destination.value) <= f.destination.value;
  }

  lemma TakesStep(incoming: Path, base: Path, files: seq<File>, orig: Tree, tree: Tree, f: File, target: Path,
      after: Tree)
    requires OnlyTakesParts(incoming, base, files, orig, tree) && f in files && !f.directory
    requires Took(base, f, tree, target, after) && !(incoming < target)
    ensures OnlyTakesParts(incoming, base, files, orig, after)
  {
    assert IsPart(base, files, PartOf(base, f));
    forall q | incoming < q
      ensures ContentsAt(after, q) == ContentsAt(orig, q)
        || (IsPart(base, files, q) && IsRegular(orig, q) && !IsRegular(after, q))
    {
      if q == PartOf(base, f) {
        assert ContentsAt(after, q) == ContentsAt(tree, q) || !IsRegular(after, q);
      } else {
        assert ContentsAt(after, q) == ContentsAt(tree, q);
      }
    }
  }

  // --- the loop ---------------------------------------------------------------------

  // The state of the commit loop after some entries: bystanders are spared and
  // moved partials gone whatever happens; a safe commit has placed what it
  // reached; and on a reliable disk an unhindered one can go on.
  ghost predicate Advancing(
      incoming: Path, base: Path, files: seq<File>, policy: Policy, fair: bool, orig: Tree, tree: Tree,
      targets: seq<Path>)
  {
    && |targets| <= |files| && Spared(base, files, policy, orig, tree) && Vacated(base, files, tree, targets)
    && AtDestinations(files, policy, targets)
    && (CommitSafe(base, files, policy) ==> Progressed(base, files, policy, orig, tree, targets))
    && (Outside(incoming, files) ==> OnlyTakesParts(incoming, base, files, orig, tree))
    && (fair ==> policy.Overwrite? && Open(base, files, tree) && NotNested(files) && PartsWait(base, files, tree, |targets|))
  }

  ghost predicate AtDestinations(files: seq<File>, policy: Policy, targets: seq<Path>)
    requires |targets| <= |files|
  {
    policy.Overwrite? ==>
      forall j :: 0 <= j < |targets| && !files[j].directory ==> files[j].destination == Some(targets[j])
  }

  lemma AdvancingStarts(incoming: Path, base: Path, files: seq<File>, policy: Policy, fair: bool, tree: Tree)
    requires forall f :: f in files && !f.directory ==> IsRegular(tree, PartOf(base, f))
    requires fair ==> Unhindered(base, files, policy, tree)
    ensures Advancing(incoming, base, files, policy, fair, tree, tree, [])
  {
  }

  lemma FileAdvances(
      incoming: Path, base: Path, files: seq<File>, policy: Policy, fair: bool, orig: Tree, tree: Tree,
      targets: seq<Path>,
      target: Path, after: Tree)
    requires DistinctRelative(files) && Advancing(incoming, base, files, policy, fair, orig, tree, targets)
    requires |targets| < |files| && target != [] && MovedNext(base, files[|targets|], policy, tree, target, after)
    ensures Advancing(incoming, base, files, policy, fair, orig, after, targets + [target])
  {
    hide Progressed, Spared, Vacated, CommitSafe, Outside, OnlyTakesParts, Open, NotNested, PartsWait, OnlyTouches;
    hide IsPart;
    var f := files[|targets|];
    MovedFacts(base, f, policy, tree, target, after);
    SparedStep(base, files, policy, orig, tree, f, target, after);
    VacatedStep(base, files, tree, targets, target, after, {PartOf(base, f), target});
    if CommitSafe(base, files, policy) {
      FileStep(base, files, policy, orig, tree, targets, target, after);
    }
    if Outside(incoming, files) {
      TargetOutside(incoming, files, f, target);
      TakesStep(incoming, base, files, orig, tree, f, target, after);
    }
    if fair {
      StaysOpen(base, files, tree, f, after, {PartOf(base, f), target});
      PartsStillWait(base, files, tree, |targets|, after, {PartOf(base, f), target}, target);
    }
  }

  lemma MovedFacts(base: Path, f: File, policy: Policy, tree: Tree, target: Path, after: Tree)
    requires MovedNext(base, f, policy, tree, target, after)
    ensures Took(base, f, tree, target, after)
    ensures policy.Overwrite? ==>
      Stepped(base, f, after, {PartOf(base, f), target})
      && forall q :: q in after && q !in tree && q !in {PartOf(base, f), target} ==> q <= Way(f)
  {
  }

  lemma FolderAdvances(
      incoming: Path, base: Path, files: seq<File>, policy: Policy, fair: bool, orig: Tree, tree: Tree,
      targets: seq<Path>,
      target: Path, after: Tree)
    requires DistinctRelative(files) && Advancing(incoming, base, files, policy, fair, orig, tree, targets)
    requires |targets| < |files| && files[|targets|].directory && files[|targets|].destination == Some(target)
    requires OnlyTouches(tree, after, {}) && IsFolder(after, target)
    requires forall q :: q in after && q !in tree ==> q <= target
    ensures Advancing(incoming, base, files, policy, fair, orig, after, targets + [target])
  {
    FolderSpares(incoming, base, files, policy, orig, tree, after);
    hide Progressed, Spared, Vacated, CommitSafe, Outside, OnlyTakesParts, Open, NotNested, PartsWait, OnlyTouches;
    VacatedStep(base, files, tree, targets, target, after, {});
    if CommitSafe(base, files, policy) {
      FolderStep(base, files, policy, orig, tree, targets, target, after);
    }
    if fair {
      StaysOpen(base, files, tree, files[|targets|], after, {});
      PartsStillWait(base, files, tree, |targets|, after, {}, target);
    }
  }

  lemma FolderSpares(incoming: Path, base: Path, files: seq<File>, policy: Policy, orig: Tree, tree: Tree, after: Tree)
    requires OnlyTouches(tree, after, {})
    ensures Spared(base, files, policy, orig, tree) ==> Spared(base, files, policy, orig, after)
    ensures OnlyTakesParts(incoming, base, files, orig, tree) ==> OnlyTakesParts(incoming, base, files, orig, after)
  {
    hide Bystander;
    forall q ensures ContentsAt(after, q) == ContentsAt(tree, q) && (IsRegular(after, q) <==> IsRegular(tree, q)) {}
  }

  // What a file that could not be moved leaves.
  lemma FailureSpares(
      incoming: Path, base: Path, files: seq<File>, policy: Policy, fair: bool, orig: Tree, tree: Tree,
      targets: seq<Path>,
      f: File, target: Path, after: Tree)
    requires Advancing(incoming, base, files, policy, fair, orig, tree, targets)
    requires f in files && !f.directory && f.destination.Some? && target != []
    requires Dir(target) == Dir(f.destination.value)
    requires Resolved(tree, f, policy, target) && OnlyTouches(tree, after, {PartOf(base, f), target})
    requires Outside(incoming, files) ==> Took(base, f, tree, target, after)
    ensures Spared(base, files, policy, orig, after)
    ensures Outside(incoming, files) ==> OnlyTakesParts(incoming, base, files, orig, after)
  {
    hide Progressed, Spared, Vacated, CommitSafe, OnlyTakesParts, Open, NotNested, PartsWait, OnlyTouches, Took;
    SparedStep(base, files, policy, orig, tree, f, target, after);
    if Outside(incoming, files) {
      TargetOutside(incoming, files, f, target);
      TakesStep(incoming, base, files, orig, tree, f, target, after);
    }
  }

  // What the whole loop leaves.
  lemma CommitEnds(
      incoming: Path, base: Path, files: seq<File>, policy: Policy, fair: bool, orig: Tree, tree: Tree,
      targets: seq<Path>)
    requires Advancing(incoming, base, files, policy, fair, orig, tree, targets) && |targets| == |files|
    ensures Spared(base, files, policy, orig, tree)
    ensures CommitSafe(base, files, policy) ==> Progressed(base, files, policy, orig, tree, targets)
    ensures EachAtTarget(files, tree, targets) ==> CommitSafe(base, files, policy)
  {
    hide Progressed, Spared, Vacated, CommitSafe, OnlyTakesParts, Open, NotNested, PartsWait, EachAtTarget;
    PlacedOnlyIfSafe(base, files, policy, tree, targets);
  }
}
