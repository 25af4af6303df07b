/** Builds that record the same image reference, and what deleting one of them takes from the
    other. */
module SharedImages {
  import opened Meta
  import opened Names
  import opened ImageBuild
  import opened Housekeeping

  // ----- when two builds push to the same reference -----

  const TAG_MAX := 128

  predicate TagChar(c: char) { Alnum(c) || c == '_' || c == '.' || c == '-' }
  predicate Edge(c: char) { c == '-' || c == '.' || c == '_' }

  /** Lower-cased, with every maximal run of characters a tag cannot hold replaced by a dash. */
  function CollapseTag(s: string): string {
    if s == "" then ""
    else
      var front, c := CollapseTag(s[..|s| - 1]), Lower(s[|s| - 1]);
      if TagChar(c) then front + [c]
      else if |s| > 1 && !TagChar(Lower(s[|s| - 2])) then front
      else front + "-"
  }

  function TrimHead(s: string): string { if s != "" && Edge(s[0]) then TrimHead(s[1..]) else s }
  function TrimTail(s: string): string { if s != "" && Edge(s[|s| - 1]) then TrimTail(s[..|s| - 1]) else s }

  function SanitizeTag(s: string): string {
    var t := TrimTail(TrimHead(CollapseTag(s)));
    if |t| > TAG_MAX then t[..TAG_MAX] else t
  }

  function ResolveTag(fixed: Option<string>, revision: string): string {
    if fixed.Some? && fixed.value != "" then fixed.value else SanitizeTag(revision)
  }

  predicate TagChars(s: string) { forall i :: 0 <= i < |s| ==> TagChar(s[i]) }

  /** Already a tag: a lower-case commit digest, for one. */
  predicate CleanTag(s: string) {
    && TagChars(s) && |s| <= 128
    && (s != "" ==> s[0] !in "-._" && s[|s| - 1] !in "-._")
  }

  lemma {:induction false} CollapseTagFacts(s: string)
    ensures TagChars(CollapseTag(s)) && |CollapseTag(s)| <= |s|
    ensures TagChars(s) ==> CollapseTag(s) == s
  {
    if s != "" {
      CollapseTagFacts(s[..|s| - 1]);
      assert s == s[..|s| - 1] + [s[|s| - 1]];
    }
  }

  predicate NoTagChar(s: string) { forall i :: 0 <= i < |s| ==> !TagChar(Lower(s[i])) }

  /** A run of characters that no tag can hold becomes one dash. */
  lemma {:induction false} RunBecomesDash(s: string)
    requires s != "" && NoTagChar(s)
    ensures CollapseTag(s) == "-"
  {
    if |s| > 1 {
      RunBecomesDash(s[..|s| - 1]);
    }
  }

  /** Apart from such runs, a text is collapsed piece by piece. */
  lemma {:induction false} CollapsePieces(a: string, b: string)
    requires a == "" || b == "" || TagChar(Lower(a[|a| - 1])) || TagChar(Lower(b[0]))
    ensures CollapseTag(a + b) == CollapseTag(a) + CollapseTag(b)
  {
    if b == "" {
      assert a + b == a;
    } else if a == "" {
      assert a + b == b;
    } else {
      var front := b[..|b| - 1];
      assert (a + b)[..|a + b| - 1] == a + front;
      CollapsePieces(a, front);
    }
  }

  lemma {:induction false} TrimHeadFacts(s: string)
    ensures var t := TrimHead(s);
            && (TagChars(s) ==> TagChars(t)) && |t| <= |s| && (t != "" ==> !Edge(t[0]))
            && (|t| == |s| ==> t == s)
  {
    if s != "" && Edge(s[0]) {
      TrimHeadFacts(s[1..]);
    }
  }

  lemma {:induction false} TrimTailFacts(s: string)
    ensures var t := TrimTail(s);
            && (TagChars(s) ==> TagChars(t)) && |t| <= |s| && (t != "" ==> t[0] == s[0] && !Edge(t[|t| - 1]))
            && (|t| == |s| ==> t == s)
  {
    if s != "" && Edge(s[|s| - 1]) {
      TrimTailFacts(s[..|s| - 1]);
    }
  }

  /** A revision is its own tag if and only if it is already a clean one. */
  lemma CleanRevisionIsItsTag(s: string)
    ensures SanitizeTag(s) == s <==> CleanTag(s)
  {
    var c := CollapseTag(s);
    CollapseTagFacts(s);
    TrimHeadFacts(c);
    TrimTailFacts(TrimHead(c));
  }

  lemma SameTag(host: string, repository: string, tag: string, tag': string)
    ensures var a, b := Resolved(host, repository, tag), Resolved(host, repository, tag');
            Reference(a) == Reference(b) <==> tag == tag'
  {
    var prefix := host + "/" + repository + ":";
    assert (prefix + tag)[|prefix|..] == tag && (prefix + tag')[|prefix|..] == tag';
  }

  /** Two builds into one repository record the same reference if and only if its tag is fixed
      or their revisions sanitize alike; whatever else differs between them, such as the build
      arguments, is not part of it. */
  lemma SharedReferenceIff(host: string, repository: string, fixed: Option<string>, revision: string, revision': string)
    ensures var a := Resolved(host, repository, ResolveTag(fixed, revision));
            var b := Resolved(host, repository, ResolveTag(fixed, revision'));
            && (Reference(a) == Reference(b) <==>
                  (fixed.Some? && fixed.value != "") || SanitizeTag(revision) == SanitizeTag(revision'))
            && (fixed.None? && CleanTag(revision) && CleanTag(revision') ==>
                  (Reference(a) == Reference(b) <==> revision == revision'))
  {
    SameTag(host, repository, ResolveTag(fixed, revision), ResolveTag(fixed, revision'));
    CleanRevisionIsItsTag(revision);
    CleanRevisionIsItsTag(revision');
  }

  // ----- builds and the tags of the operator's own registry -----

  datatype Shelf = Shelf(builds: map<string, Build>, images: set<string>)

  /** A pass of the ImageBuild controller over the build of this name. */
  datatype Turn = Turn(name: string, sight: BuildSight)

  /** The deletions of a retention round are requests: the finalizer runs later. */
  function Prune(shelf: Shelf, gone: set<string>): Shelf {
    shelf.(builds := map n | n in shelf.builds ::
      if n in gone then shelf.builds[n].(deleting := true) else shelf.builds[n])
  }

  function TakeTurn(shelf: Shelf, t: Turn): Shelf {
    if t.name !in shelf.builds then shelf
    else
      var out := ReconcileBuild(shelf.builds[t.name], t.sight);
      Shelf(shelf.builds[t.name := out.build],
            if out.deletedImage.Some? then shelf.images - {out.deletedImage.value} else shelf.images)
  }

  function TakeTurns(shelf: Shelf, turns: seq<Turn>): Shelf
    decreases |turns|
  {
    if turns == [] then shelf else TakeTurns(TakeTurn(shelf, turns[0]), turns[1..])
  }

  /** What the passes over one build see, whatever comes between them. */
  function TurnsOf(turns: seq<Turn>, name: string): seq<BuildSight> {
    if turns == [] then []
    else (if turns[0].name == name then [turns[0].sight] else []) + TurnsOf(turns[1..], name)
  }

  /** The registry takes a deletion before a pass finds the registry gone and gets the
      finalizer dropped. */
  predicate RegistryAnswers(sights: seq<BuildSight>) {
    sights != [] &&
    (sights[0].registry == RegistryFound(true)
     || (!(sights[0].registry.RegistryGone? && sights[0].written) && RegistryAnswers(sights[1..])))
  }

  /** Finalizing this build takes the reference from the registry. */
  predicate Takes(b: Build, image: string, sights: seq<BuildSight>) {
    && b.deleting && b.finalizer && b.internalRegistry
    && image != "" && b.status.imageUrl == image && RegistryAnswers(sights)
  }

  lemma TakesStep(b: Build, image: string, sights: seq<BuildSight>)
    requires sights != []
    ensures var out := ReconcileBuild(b, sights[0]);
            Takes(b, image, sights) <==> out.deletedImage == Some(image) || Takes(out.build, image, sights[1..])
  {
  }

  lemma {:induction false} NothingComesBack(shelf: Shelf, turns: seq<Turn>, image: string)
    requires image !in shelf.images
    ensures image !in TakeTurns(shelf, turns).images
    decreases |turns|
  {
    if turns != [] {
      NothingComesBack(TakeTurn(shelf, turns[0]), turns[1..], image);
    }
  }

  ghost predicate SomeTakes(shelf: Shelf, turns: seq<Turn>, image: string) {
    exists n :: n in shelf.builds && Takes(shelf.builds[n], image, TurnsOf(turns, n))
  }

  lemma SomeTakesStep(shelf: Shelf, turns: seq<Turn>, image: string)
    requires turns != [] && image in shelf.images
    ensures var next := TakeTurn(shelf, turns[0]);
            SomeTakes(shelf, turns, image) <==> image !in next.images || SomeTakes(next, turns[1..], image)
  {
    var t, next := turns[0], TakeTurn(shelf, turns[0]);
    forall n | n in shelf.builds
      ensures Takes(shelf.builds[n], image, TurnsOf(turns, n)) <==>
              (n == t.name && image !in next.images) || Takes(next.builds[n], image, TurnsOf(turns[1..], n))
    {
      if n == t.name {
        TakesStep(shelf.builds[n], image, TurnsOf(turns, n));
        assert TurnsOf(turns, n)[1..] == TurnsOf(turns[1..], n);
      } else {
        assert TurnsOf(turns, n) == TurnsOf(turns[1..], n);
      }
    }
  }

  /** Over every interleaving of controller passes a reference stays in the registry if and
      only if no build in deletion records it, holds the finalizer, is in the operator's own
      registry and gets an answer from it. */
  lemma {:induction false} ImageStaysIff(shelf: Shelf, turns: seq<Turn>, image: string)
    requires image in shelf.images
    ensures image in TakeTurns(shelf, turns).images <==> !SomeTakes(shelf, turns, image)
    decreases |turns|
  {
    if turns != [] {
      var next := TakeTurn(shelf, turns[0]);
      SomeTakesStep(shelf, turns, image);
      if image in next.images {
        ImageStaysIff(next, turns[1..], image);
      } else {
        NothingComesBack(next, turns[1..], image);
      }
    } else {
      NoTurns(shelf, image);
    }
  }

  lemma NoTurns(shelf: Shelf, image: string)
    ensures !SomeTakes(shelf, [], image)
  {
  }

  // ----- retention -----

  /** The listed builds are those on the shelf, none of them in deletion yet. */
  ghost predicate Lists(sorted: seq<Build>, shelf: Shelf) {
    && (forall j :: 0 <= j < |sorted| ==> sorted[j].name in shelf.builds && shelf.builds[sorted[j].name] == sorted[j])
    && (forall n :: n in shelf.builds ==> !shelf.builds[n].deleting)
  }

  /** Build j is pruned and its finalizer takes the reference. */
  ghost predicate PrunedWith(sorted: seq<Build>, uid: string, current: string, limit: int, rejected: set<string>,
                             turns: seq<Turn>, image: string, j: int)
    requires 0 <= j < |sorted|
  {
    var b := sorted[j];
    && 0 < limit <= j && b.name !in rejected && b.name != current && uid in b.owners
    && (IsTrue(b.status, BuildAvailable) || IsTrue(b.status, BuildFailed) || IsTrue(b.status, BuildCancelled))
    && b.finalizer && b.internalRegistry && image != "" && b.status.imageUrl == image
    && RegistryAnswers(TurnsOf(turns, b.name))
  }

  lemma TakenMeansPruned(shelf: Shelf, sorted: seq<Build>, uid: string, current: string, limit: int,
                         rejected: set<string>, gone: set<string>, turns: seq<Turn>, image: string)
    requires Lists(sorted, shelf) && Retained(sorted, uid, current, limit, rejected, gone)
    ensures SomeTakes(Prune(shelf, gone), turns, image) <==>
            exists j :: 0 <= j < |sorted| && PrunedWith(sorted, uid, current, limit, rejected, turns, image, j)
  {
    var pruned := Prune(shelf, gone);
    if SomeTakes(pruned, turns, image) {
      var n :| n in pruned.builds && Takes(pruned.builds[n], image, TurnsOf(turns, n));
      assert n in gone;
      var j :| 0 < limit <= j < |sorted| && sorted[j].name == n && Prunable(sorted[j], uid, current);
      assert PrunedWith(sorted, uid, current, limit, rejected, turns, image, j);
    }
    if j :| 0 <= j < |sorted| && PrunedWith(sorted, uid, current, limit, rejected, turns, image, j) {
      var n := sorted[j].name;
      assert n in gone;
      assert Takes(pruned.builds[n], image, TurnsOf(turns, n));
    }
  }

  /** After a retention round, an image such as the one the current build records stays in
      the registry through every interleaving of passes if and only if no pruned build
      records the same reference, under the finalizer and in a registry of the operator's
      own that takes the deletion. */
  lemma RetentionKeepsImageIff(shelf: Shelf, sorted: seq<Build>, uid: string, current: string, limit: int,
                               rejected: set<string>, gone: set<string>, turns: seq<Turn>, image: string)
    requires Lists(sorted, shelf) && Retained(sorted, uid, current, limit, rejected, gone)
    requires image in shelf.images
    ensures image in TakeTurns(Prune(shelf, gone), turns).images <==>
            !exists j :: 0 <= j < |sorted| && PrunedWith(sorted, uid, current, limit, rejected, turns, image, j)
  {
    TakenMeansPruned(shelf, sorted, uid, current, limit, rejected, gone, turns, image);
    ImageStaysIff(Prune(shelf, gone), turns, image);
  }

  function DoneBuild(name: string, createdAt: int, image: string): Build {
    Build(name, createdAt, {"uid"}, 1, false, false, true, Git, true, true,
          BuildStatus(BuildSuccess, map[BuildAvailable := Condition(true, 1, "BuildComplete", 0)], image))
  }

  /** A rebuild with other arguments, or under a fixed tag, pushes to the reference of the old
      build. Pruning the old build then takes the image the current build records. */
  lemma PruningCanTakeTheCurrentImage(image: string)
    requires image != ""
    ensures var current, previous := DoneBuild("new", 2, image), DoneBuild("old", 1, image);
            var shelf := Shelf(map["new" := current, "old" := previous], {image});
            var after := TakeTurns(Prune(shelf, {"old"}), [Turn("old", LeakSight())]);
            && Lifecycle(current.status) && Lifecycle(previous.status)
            && Lists([current, previous], shelf) && Retained([current, previous], "uid", "new", 1, {}, {"old"})
            && after.builds["new"] == current && image !in after.images
  {
    var current, previous := DoneBuild("new", 2, image), DoneBuild("old", 1, image);
    var turns := [Turn("old", LeakSight())];
    var sorted := [current, previous];
    assert "old" != "new";
    assert sorted[1].name == "old" && Prunable(sorted[1], "uid", "new");
    assert turns[1..] == [];
    var shelf := Shelf(map["new" := current, "old" := previous], {image});
    var pruned := Prune(shelf, {"old"});
    assert TakeTurns(pruned, turns) == TakeTurn(pruned, turns[0]);
  }
}
