/** Planning a patch: several hunks applied to virtual files become one guarded mutation for each path. */
module PatchPlan {
  import opened Prelude
  import opened PatchChunks

  type Path = string

  /** File bytes: valid UTF-8 text, or bytes that are not. */
  datatype Content = Text(text: string) | Binary(bytes: seq<nat>)

  /** A collision-free fingerprint. */
  datatype Digest = Digest(content: Content)

  type Files = map<Path, Content>

  datatype Hunk =
    | Add(path: Path, content: string)
    | Delete(path: Path)
    | Update(path: Path, movePath: Option<Path>, chunks: seq<Chunk>)

  datatype Mutation =
    | Write(path: Path, data: Content, desired: Digest, expected: Option<Digest>)
    | Remove(path: Path, present: Digest)

  datatype PatchError = InvalidPath | TooManyPaths | TargetNotFound | NotUtf8 | Chunks(error: ChunkError)

  const MAX_PATCH_PATHS: nat := 32

  // ---------------------------------------------------------------- hunks one after another

  function Lookup(files: Files, path: Path): Option<Content> { if path in files then Some(files[path]) else None }

  function Put(files: Files, path: Path, content: Option<Content>): Files {
    if content.Some? then files[path := content.value] else files - {path}
  }

  function UpdatedText(files: Files, path: Path, chunks: seq<Chunk>): Result<string, PatchError> {
    if path !in files then Err(TargetNotFound)
    else if !files[path].Text? then Err(NotUtf8)
    else
      var updated := ApplyChunks(files[path].text, chunks);
      if updated.Err? then Err(Chunks(updated.error)) else Ok(updated.value)
  }

  function ApplyHunk(files: Files, hunk: Hunk): Result<Files, PatchError> {
    match hunk
    case Add(path, content) => Ok(Put(files, path, Some(Text(content))))
    case Delete(path) => if path in files then Ok(Put(files, path, None)) else Err(TargetNotFound)
    case Update(path, movePath, chunks) =>
      var updated := UpdatedText(files, path, chunks);
      if updated.Err? then Err(updated.error)
      else if movePath.Some? then
        Ok(Put(Put(files, path, None), movePath.value, Some(Text(updated.value))))
      else Ok(Put(files, path, Some(Text(updated.value))))
  }

  function ApplyHunks(files: Files, hunks: seq<Hunk>): Result<Files, PatchError> {
    if hunks == [] then Ok(files)
    else
      var rest := ApplyHunks(files, hunks[..|hunks| - 1]);
      if rest.Err? then rest else ApplyHunk(rest.value, hunks[|hunks| - 1])
  }

  lemma {:induction false} FailedHunkFailsAll(files: Files, hunks: seq<Hunk>, n: nat)
    requires n <= |hunks| && ApplyHunks(files, hunks[..n]).Err?
    ensures ApplyHunks(files, hunks) == ApplyHunks(files, hunks[..n])
    decreases |hunks|
  {
    if n == |hunks| {
      assert hunks[..n] == hunks;
    } else {
      assert hunks[..|hunks| - 1][..n] == hunks[..n];
      FailedHunkFailsAll(files, hunks[..|hunks| - 1], n);
    }
  }

  // ---------------------------------------------------------------- what hunks mean

  /** The text a file holds, with chunks applied. */
  predicate UpdatesTo(files: Files, path: Path, chunks: seq<Chunk>, text: string) {
    path in files && files[path].Text? && ApplyChunks(files[path].text, chunks) == Ok(text)
  }

  /** One hunk, path by path: what it adds, removes, updates or moves, and that all other paths are left alone. */
  ghost predicate HunkDone(before: Files, hunk: Hunk, after: Files) {
    && (forall path :: path !in HunkPaths(hunk) ==> Lookup(after, path) == Lookup(before, path))
    && match hunk
       case Add(path, content) => Lookup(after, path) == Some(Text(content))
       case Delete(path) => path in before && path !in after
       case Update(path, movePath, chunks) =>
         exists text :: UpdatesTo(before, path, chunks, text)
           && if movePath.None? then Lookup(after, path) == Some(Text(text))
              else Lookup(after, movePath.value) == Some(Text(text)) && (path != movePath.value ==> path !in after)
  }

  /** Why a hunk cannot be applied. */
  predicate HunkFails(before: Files, hunk: Hunk, error: PatchError) {
    match hunk
    case Add(_, _) => false
    case Delete(path) => path !in before && error == TargetNotFound
    case Update(path, _, chunks) =>
      if path !in before then error == TargetNotFound
      else if !before[path].Text? then error == NotUtf8
      else ApplyChunks(before[path].text, chunks).Err? && error == Chunks(ApplyChunks(before[path].text, chunks).error)
  }

  lemma HunksMean(files: Files, hunk: Hunk)
    ensures var applied := ApplyHunk(files, hunk);
            if applied.Ok? then HunkDone(files, hunk, applied.value) else HunkFails(files, hunk, applied.error)
  {
    match hunk
    case Add(path, _) => assert HunkPaths(hunk)[0] == path;
    case Delete(path) => assert HunkPaths(hunk)[0] == path;
    case Update(path, movePath, chunks) =>
      assert HunkPaths(hunk)[0] == path;
      if movePath.Some? { assert HunkPaths(hunk)[1] == movePath.value; }
      if UpdatedText(files, path, chunks).Ok? { assert UpdatesTo(files, path, chunks, UpdatedText(files, path, chunks).value); }
  }

  /** The files before and after each of the first hunks. */
  ghost predicate HunksDone(states: seq<Files>, hunks: seq<Hunk>, n: nat)
    requires n <= |hunks|
  {
    |states| == n + 1 && forall i :: 0 <= i < n ==> HunkDone(states[i], hunks[i], states[i + 1])
  }

  /** Hunks that can be applied lead from the first files to the last, one after another; otherwise one of
      them fails on what those before it left. */
  lemma {:induction false} HunksLead(files: Files, hunks: seq<Hunk>) returns (states: seq<Files>, n: nat)
    ensures n <= |hunks| && HunksDone(states, hunks, n) && states[0] == files
    ensures if ApplyHunks(files, hunks).Ok? then n == |hunks| && ApplyHunks(files, hunks).value == states[n]
            else n < |hunks| && HunkFails(states[n], hunks[n], ApplyHunks(files, hunks).error)
  {
    if hunks == [] {
      states, n := [files], 0;
    } else {
      var init := hunks[..|hunks| - 1];
      states, n := HunksLead(files, init);
      StillDone(states, init, hunks, n);
      if ApplyHunks(files, init).Ok? {
        HunksMean(states[n], hunks[n]);
        if ApplyHunk(states[n], hunks[n]).Ok? {
          OneMoreDone(states, hunks, n, ApplyHunk(states[n], hunks[n]).value);
          states, n := states + [ApplyHunk(states[n], hunks[n]).value], n + 1;
        }
      }
    }
  }

  lemma StillDone(states: seq<Files>, init: seq<Hunk>, hunks: seq<Hunk>, n: nat)
    requires hunks != [] && init == hunks[..|hunks| - 1] && n <= |init| && HunksDone(states, init, n)
    ensures HunksDone(states, hunks, n) && (n < |init| ==> init[n] == hunks[n])
  {
    forall i | 0 <= i < n ensures HunkDone(states[i], hunks[i], states[i + 1]) {
      assert HunkDone(states[i], init[i], states[i + 1]);
    }
  }

  lemma OneMoreDone(states: seq<Files>, hunks: seq<Hunk>, n: nat, after: Files)
    requires n < |hunks| && HunksDone(states, hunks, n) && HunkDone(states[n], hunks[n], after)
    ensures HunksDone(states + [after], hunks, n + 1)
  {
    var all := states + [after];
    forall i | 0 <= i < n + 1 ensures HunkDone(all[i], hunks[i], all[i + 1]) {
      if i < n { assert HunkDone(states[i], hunks[i], states[i + 1]); }
    }
  }

  // ---------------------------------------------------------------- running mutations

  /** The executor's check: the file has the expected digest, or is missing where none is expected. */
  predicate PreconditionHolds(files: Files, mutation: Mutation) {
    match mutation
    case Write(path, _, _, expected) =>
      if expected.None? then path !in files else path in files && Digest(files[path]) == expected.value
    case Remove(path, present) => path in files && Digest(files[path]) == present
  }

  function RunMutation(files: Files, mutation: Mutation): Option<Files> {
    if !PreconditionHolds(files, mutation) then None
    else match mutation
      case Write(path, data, _, _) => Some(Put(files, path, Some(data)))
      case Remove(path, _) => Some(Put(files, path, None))
  }

  /** Sequential mode: the first mutation whose precondition fails stops the batch. */
  function RunMutations(files: Files, mutations: seq<Mutation>): Option<Files> {
    if mutations == [] then Some(files)
    else
      var rest := RunMutations(files, mutations[..|mutations| - 1]);
      if rest.None? then None else RunMutation(rest.value, mutations[|mutations| - 1])
  }

  // ---------------------------------------------------------------- paths

  predicate ValidPath(path: Path) { path != "" && '\0' !in path }

  function HunkPaths(hunk: Hunk): seq<Path> {
    match hunk
    case Add(path, _) => [path]
    case Delete(path) => [path]
    case Update(path, movePath, _) => if movePath.Some? then [path, movePath.value] else [path]
  }

  predicate Mentioned(hunks: seq<Hunk>, path: Path) { exists i :: 0 <= i < |hunks| && path in HunkPaths(hunks[i]) }

  predicate HunkPathsValid(hunk: Hunk) { forall k :: 0 <= k < |HunkPaths(hunk)| ==> ValidPath(HunkPaths(hunk)[k]) }

  predicate AllPathsValid(hunks: seq<Hunk>) { forall i :: 0 <= i < |hunks| ==> HunkPathsValid(hunks[i]) }

  predicate Distinct<T(==)>(s: seq<T>) { forall i, j :: 0 <= i < j < |s| ==> s[i] != s[j] }

  function Touch(paths: seq<Path>, path: Path): seq<Path> { if path in paths then paths else paths + [path] }

  function TouchAll(paths: seq<Path>, more: seq<Path>): seq<Path> {
    if more == [] then paths else Touch(TouchAll(paths, more[..|more| - 1]), more[|more| - 1])
  }

  /** The paths of a patch in order of first mention. */
  function PathsOf(hunks: seq<Hunk>): seq<Path> {
    if hunks == [] then []
    else TouchAll(PathsOf(hunks[..|hunks| - 1]), HunkPaths(hunks[|hunks| - 1]))
  }

  predicate PathsOk(hunks: seq<Hunk>) { AllPathsValid(hunks) && |PathsOf(hunks)| <= MAX_PATCH_PATHS }

  lemma {:induction false} TouchedAre(paths: seq<Path>, more: seq<Path>)
    requires Distinct(paths)
    ensures Distinct(TouchAll(paths, more))
    ensures forall path :: path in TouchAll(paths, more) <==> path in paths || path in more
  {
    if more != [] {
      TouchedAre(paths, more[..|more| - 1]);
      assert forall path :: path in more <==> path in more[..|more| - 1] || path == more[|more| - 1];
    }
  }

  /** The paths are those mentioned, each once. */
  lemma {:induction false} PathsAreMentioned(hunks: seq<Hunk>)
    ensures Distinct(PathsOf(hunks))
    ensures forall path :: path in PathsOf(hunks) <==> Mentioned(hunks, path)
  {
    if hunks != [] {
      var n := |hunks| - 1;
      PathsAreMentioned(hunks[..n]);
      TouchedAre(PathsOf(hunks[..n]), HunkPaths(hunks[n]));
      MentionedNext(hunks, n);
      assert hunks[..n + 1] == hunks;
    }
  }

  method TouchHunk(before: seq<Path>, hunk: Hunk) returns (paths: Option<seq<Path>>)
    ensures paths.Some? <==> HunkPathsValid(hunk)
    ensures paths.Some? ==> paths.value == TouchAll(before, HunkPaths(hunk))
  {
    var mine := HunkPaths(hunk);
    var all := before;
    for k := 0 to |mine|
      invariant all == TouchAll(before, mine[..k])
      invariant forall l :: 0 <= l < k ==> ValidPath(mine[l])
    {
      if !ValidPath(mine[k]) { return None; }
      assert mine[..k + 1][..k] == mine[..k];
      all := Touch(all, mine[k]);
    }
    assert mine[..|mine|] == mine;
    paths := Some(all);
  }

  lemma NextPaths(hunks: seq<Hunk>, i: nat)
    requires i < |hunks|
    ensures PathsOf(hunks[..i + 1]) == TouchAll(PathsOf(hunks[..i]), HunkPaths(hunks[i]))
  {
    assert hunks[..i + 1][..i] == hunks[..i];
  }

  /** `patch_paths` */
  method PatchPaths(hunks: seq<Hunk>) returns (result: Result<seq<Path>, PatchError>)
    ensures result.Ok? <==> PathsOk(hunks)
    ensures result.Ok? ==> result.value == PathsOf(hunks)
    ensures result.Err? ==> result.error == if AllPathsValid(hunks) then TooManyPaths else InvalidPath
  {
    var paths: seq<Path> := [];
    for i := 0 to |hunks|
      invariant paths == PathsOf(hunks[..i])
      invariant forall j :: 0 <= j < i ==> HunkPathsValid(hunks[j])
    {
      NextPaths(hunks, i);
      var touched := TouchHunk(paths, hunks[i]);
      if touched.None? {
        assert !AllPathsValid(hunks) by { assert !HunkPathsValid(hunks[i]); }
        return Err(InvalidPath);
      }
      paths := touched.value;
    }
    assert hunks[..|hunks|] == hunks && AllPathsValid(hunks);
    if |paths| > MAX_PATCH_PATHS { return Err(TooManyPaths); }
    result := Ok(paths);
  }

  lemma MentionedNext(hunks: seq<Hunk>, i: nat)
    requires i < |hunks|
    ensures forall path :: Mentioned(hunks[..i + 1], path) <==> Mentioned(hunks[..i], path) || path in HunkPaths(hunks[i])
  {
    forall path | Mentioned(hunks[..i], path) ensures Mentioned(hunks[..i + 1], path) {
      var j :| 0 <= j < i && path in HunkPaths(hunks[..i][j]);
      assert hunks[..i + 1][j] == hunks[..i][j];
    }
    forall path | path in HunkPaths(hunks[i]) ensures Mentioned(hunks[..i + 1], path) {
      assert hunks[..i + 1][i] == hunks[i];
    }
    forall path | Mentioned(hunks[..i + 1], path) ensures Mentioned(hunks[..i], path) || path in HunkPaths(hunks[i]) {
      var j :| 0 <= j < i + 1 && path in HunkPaths(hunks[..i + 1][j]);
      if j < i { assert hunks[..i][j] == hunks[..i + 1][j]; }
    }
  }

  // ---------------------------------------------------------------- virtual files

  type Virtual = map<Path, Option<Content>>

  /** The virtual files agree with `files` on the patch's paths. */
  ghost predicate Mirrors(virtual: Virtual, paths: seq<Path>, files: Files) {
    forall path :: (path in virtual <==> path in paths) && (path in virtual ==> virtual[path] == Lookup(files, path))
  }

  /** What changed since `before` has been touched, and only paths of the patch were. */
  ghost predicate TouchedCovers(touched: seq<Path>, paths: seq<Path>, before: Files, now: Files) {
    && Distinct(touched) && (forall path :: path in touched ==> path in paths)
    && (forall path :: Lookup(now, path) != Lookup(before, path) ==> path in touched)
  }

  lemma PutLooksUp(files: Files, path: Path, content: Option<Content>)
    ensures forall p :: Lookup(Put(files, path, content), p) == if p == path then content else Lookup(files, p)
  {
  }

  lemma TouchOne(touched: seq<Path>, paths: seq<Path>, before: Files, now: Files, path: Path, content: Option<Content>)
    requires TouchedCovers(touched, paths, before, now) && path in paths
    ensures TouchedCovers(Touch(touched, path), paths, before, Put(now, path, content))
  {
    PutLooksUp(now, path, content);
  }

  lemma MirrorOne(virtual: Virtual, paths: seq<Path>, now: Files, path: Path, content: Option<Content>)
    requires Mirrors(virtual, paths, now) && path in paths
    ensures Mirrors(virtual[path := content], paths, Put(now, path, content))
  {
    PutLooksUp(now, path, content);
  }

  /** One hunk applied to the virtual files. */
  method ApplyToVirtual(hunk: Hunk, before: Virtual, touchedBefore: seq<Path>, ghost paths: seq<Path>,
                        ghost initial: Files, ghost now: Files)
    returns (error: Option<PatchError>, virtual: Virtual, touched: seq<Path>)
    requires Mirrors(before, paths, now) && TouchedCovers(touchedBefore, paths, initial, now)
    requires forall path :: path in HunkPaths(hunk) ==> path in paths
    ensures error.Some? ==> ApplyHunk(now, hunk) == Err(error.value)
    ensures error.None? ==>
              && ApplyHunk(now, hunk).Ok?
              && Mirrors(virtual, paths, ApplyHunk(now, hunk).value)
              && TouchedCovers(touched, paths, initial, ApplyHunk(now, hunk).value)
  {
    error, virtual, touched := None, before, touchedBefore;
    match hunk {
      case Add(path, content) =>
        assert path in HunkPaths(hunk);
        virtual := virtual[path := Some(Text(content))];
        touched := Touch(touched, path);
        MirrorOne(before, paths, now, path, Some(Text(content)));
        TouchOne(touchedBefore, paths, initial, now, path, Some(Text(content)));
      case Delete(path) =>
        assert path in HunkPaths(hunk);
        if virtual[path].None? { error := Some(TargetNotFound); return; }
        virtual := virtual[path := None];
        touched := Touch(touched, path);
        MirrorOne(before, paths, now, path, None);
        TouchOne(touchedBefore, paths, initial, now, path, None);
      case Update(path, movePath, chunks) =>
        assert path in HunkPaths(hunk);
        if virtual[path].None? { error := Some(TargetNotFound); return; }
        var source := virtual[path].value;
        if !source.Text? { error := Some(NotUtf8); return; }
        var updated := ApplyChunksTo(source.text, chunks);
        if updated.Err? { error := Some(Chunks(updated.error)); return; }
        var after := Some(Text(updated.value));
        if movePath.Some? {
          assert movePath.value in HunkPaths(hunk) by { assert HunkPaths(hunk)[1] == movePath.value; }
          virtual := virtual[path := None];
          virtual := virtual[movePath.value := after];
          touched := Touch(Touch(touched, movePath.value), path);
          ghost var moved := Put(now, path, None);
          MirrorOne(before, paths, now, path, None);
          MirrorOne(before[path := None], paths, moved, movePath.value, after);
          TouchTwo(touchedBefore, paths, initial, now, path, movePath.value, after);
        } else {
          virtual := virtual[path := after];
          touched := Touch(touched, path);
          MirrorOne(before, paths, now, path, after);
          TouchOne(touchedBefore, paths, initial, now, path, after);
        }
    }
  }

  lemma TouchTwo(touched: seq<Path>, paths: seq<Path>, before: Files, now: Files, path: Path, to: Path, content: Option<Content>)
    requires TouchedCovers(touched, paths, before, now) && path in paths && to in paths
    ensures TouchedCovers(Touch(Touch(touched, to), path), paths, before, Put(Put(now, path, None), to, content))
  {
    PutLooksUp(now, path, None);
    PutLooksUp(Put(now, path, None), to, content);
  }

  // ---------------------------------------------------------------- the plan

  predicate MutatesPath(mutations: seq<Mutation>, path: Path) {
    exists i :: 0 <= i < |mutations| && mutations[i].path == path
  }

  /** Mutations for the first touched paths: run on the initial files they give those paths their final
      content, in order, each path once and only if it changes. */
  ghost predicate Planned(initial: Files, final: Files, touched: seq<Path>, mutations: seq<Mutation>) {
    && (forall i, j :: 0 <= i < j < |mutations| ==> mutations[i].path != mutations[j].path)
    && (forall path :: MutatesPath(mutations, path) <==> path in touched && Lookup(initial, path) != Lookup(final, path))
    && RunMutations(initial, mutations).Some?
    && forall path :: Lookup(RunMutations(initial, mutations).value, path)
                      == if path in touched then Lookup(final, path) else Lookup(initial, path)
  }

  function DigestOf(content: Option<Content>): Option<Digest> {
    if content.None? then None else Some(Digest(content.value))
  }

  function MutationFor(path: Path, before: Option<Content>, after: Option<Content>): Mutation
    requires before != after
  {
    if after.Some? then Write(path, after.value, Digest(after.value), DigestOf(before))
    else Remove(path, Digest(before.value))
  }

  lemma RunOneMore(initial: Files, mutations: seq<Mutation>, path: Path, before: Option<Content>, after: Option<Content>)
    requires before != after && RunMutations(initial, mutations).Some?
    requires Lookup(RunMutations(initial, mutations).value, path) == before
    ensures RunMutations(initial, mutations + [MutationFor(path, before, after)])
         == Some(Put(RunMutations(initial, mutations).value, path, after))
  {
    var more := mutations + [MutationFor(path, before, after)];
    assert more[..|mutations|] == mutations;
  }

  lemma MutatesOneMore(mutations: seq<Mutation>, m: Mutation)
    ensures forall path :: MutatesPath(mutations + [m], path) <==> MutatesPath(mutations, path) || path == m.path
  {
    var more := mutations + [m];
    assert more[|mutations|].path == m.path;
    forall path | MutatesPath(mutations, path) ensures MutatesPath(more, path) {
      var i :| 0 <= i < |mutations| && mutations[i].path == path;
      assert more[i].path == path;
    }
  }

  lemma PlanOneSame(initial: Files, final: Files, touched: seq<Path>, mutations: seq<Mutation>, path: Path)
    requires Planned(initial, final, touched, mutations) && Lookup(initial, path) == Lookup(final, path)
    ensures Planned(initial, final, touched + [path], mutations)
  {
  }

  lemma PlanOneChanged(initial: Files, final: Files, touched: seq<Path>, mutations: seq<Mutation>, path: Path)
    requires Planned(initial, final, touched, mutations) && path !in touched
    requires Lookup(initial, path) != Lookup(final, path)
    ensures Planned(initial, final, touched + [path],
                    mutations + [MutationFor(path, Lookup(initial, path), Lookup(final, path))])
  {
    var m := MutationFor(path, Lookup(initial, path), Lookup(final, path));
    RunOneMore(initial, mutations, path, Lookup(initial, path), Lookup(final, path));
    PutLooksUp(RunMutations(initial, mutations).value, path, Lookup(final, path));
    MutatesOneMore(mutations, m);
    forall i | 0 <= i < |mutations| ensures mutations[i].path != path { assert MutatesPath(mutations, mutations[i].path); }
  }

  lemma SameFiles(a: Files, b: Files)
    requires forall path :: Lookup(a, path) == Lookup(b, path)
    ensures a == b
  {
    forall path | path in a ensures path in b && b[path] == a[path] { assert Lookup(a, path) == Lookup(b, path); }
    forall path | path in b ensures path in a { assert Lookup(a, path) == Lookup(b, path); }
  }

  /** The virtual files after all hunks, and the paths they touched. */
  method RunHunks(hunks: seq<Hunk>, initial: Virtual, ghost paths: seq<Path>, ghost files: Files)
    returns (error: Option<PatchError>, virtual: Virtual, touched: seq<Path>)
    requires Mirrors(initial, paths, files)
    requires forall path :: path in paths <==> Mentioned(hunks, path)
    ensures error.Some? ==> ApplyHunks(files, hunks) == Err(error.value)
    ensures error.None? ==>
              && ApplyHunks(files, hunks).Ok?
              && Mirrors(virtual, paths, ApplyHunks(files, hunks).value)
              && TouchedCovers(touched, paths, files, ApplyHunks(files, hunks).value)
  {
    error, virtual, touched := None, initial, [];
    ghost var now := files;
    for i := 0 to |hunks|
      invariant ApplyHunks(files, hunks[..i]) == Ok(now)
      invariant Mirrors(virtual, paths, now) && TouchedCovers(touched, paths, files, now)
    {
      NextHunk(files, hunks, i);
      error, virtual, touched := ApplyToVirtual(hunks[i], virtual, touched, paths, files, now);
      if error.Some? {
        FailedHunkFailsAll(files, hunks, i + 1);
        return;
      }
      now := ApplyHunk(now, hunks[i]).value;
    }
    error := None;
    assert hunks[..|hunks|] == hunks;
  }

  lemma NextHunk(files: Files, hunks: seq<Hunk>, i: nat)
    requires i < |hunks| && ApplyHunks(files, hunks[..i]).Ok?
    ensures ApplyHunks(files, hunks[..i + 1]) == ApplyHunk(ApplyHunks(files, hunks[..i]).value, hunks[i])
    ensures forall path :: path in HunkPaths(hunks[i]) ==> Mentioned(hunks, path)
  {
    assert hunks[..i + 1][..i] == hunks[..i];
  }

  /** One guarded mutation for each touched path that changes. */
  method MutationsOf(initial: Virtual, virtual: Virtual, touched: seq<Path>, ghost paths: seq<Path>,
                     ghost files: Files, ghost final: Files)
    returns (mutations: seq<Mutation>)
    requires Mirrors(initial, paths, files) && Mirrors(virtual, paths, final)
    requires TouchedCovers(touched, paths, files, final)
    ensures Planned(files, final, touched, mutations)
  {
    mutations := [];
    for k := 0 to |touched|
      invariant Planned(files, final, touched[..k], mutations)
    {
      var path := touched[k];
      assert touched[..k + 1] == touched[..k] + [path];
      assert path in touched && path !in touched[..k];
      var before, after := initial[path], virtual[path];
      if DigestOf(before) != DigestOf(after) {
        PlanOneChanged(files, final, touched[..k], mutations, path);
        mutations := mutations + [MutationFor(path, before, after)];
      } else {
        SameDigest(before, after);
        PlanOneSame(files, final, touched[..k], mutations, path);
      }
    }
    assert touched[..|touched|] == touched;
  }

  lemma SameDigest(a: Option<Content>, b: Option<Content>)
    requires DigestOf(a) == DigestOf(b)
    ensures a == b
  {
  }

  lemma PlannedIsComplete(files: Files, final: Files, touched: seq<Path>, paths: seq<Path>, mutations: seq<Mutation>)
    requires Planned(files, final, touched, mutations) && TouchedCovers(touched, paths, files, final)
    ensures RunMutations(files, mutations) == Some(final)
    ensures forall path :: MutatesPath(mutations, path) <==> Lookup(files, path) != Lookup(final, path)
  {
    SameFiles(RunMutations(files, mutations).value, final);
  }

  /** The plan of a patch whose files were read as `contents`.  Run in order on those files it gives exactly
      what the hunks give one after another; every precondition holds when its mutation runs; each
      path is mutated at most once, and exactly the paths that change are. */
  method PlanMutations(hunks: seq<Hunk>, contents: seq<Option<Content>>, ghost files: Files)
    returns (result: Result<seq<Mutation>, PatchError>)
    requires |contents| == |PathsOf(hunks)|
    requires forall i :: 0 <= i < |contents| ==> contents[i] == Lookup(files, PathsOf(hunks)[i])
    ensures result.Ok? <==> PathsOk(hunks) && ApplyHunks(files, hunks).Ok?
    ensures result.Err? && PathsOk(hunks) ==> ApplyHunks(files, hunks) == Err(result.error)
    ensures result.Ok? ==> RunMutations(files, result.value) == Some(ApplyHunks(files, hunks).value)
    ensures result.Ok? ==>
              forall i, j :: 0 <= i < j < |result.value| ==> result.value[i].path != result.value[j].path
    ensures result.Ok? ==>
              forall path :: MutatesPath(result.value, path)
                <==> Lookup(files, path) != Lookup(ApplyHunks(files, hunks).value, path)
    ensures result.Ok? ==>
              exists states :: HunksDone(states, hunks, |hunks|) && states[0] == files
                               && RunMutations(files, result.value) == Some(states[|hunks|])
    ensures result.Err? && PathsOk(hunks) ==>
              exists states, n | 0 <= n < |hunks| ::
                HunksDone(states, hunks, n) && states[0] == files && HunkFails(states[n], hunks[n], result.error)
  {
    var listed := PatchPaths(hunks);
    if listed.Err? { return Err(listed.error); }
    ghost var states, done := HunksLead(files, hunks);
    var paths := listed.value;
    PathsAreMentioned(hunks);
    var initial: Virtual := map i | 0 <= i < |paths| :: paths[i] := contents[i];
    MirrorsReads(initial, paths, contents, files);
    var error, virtual, touched := RunHunks(hunks, initial, paths, files);
    if error.Some? { return Err(error.value); }
    ghost var final := ApplyHunks(files, hunks).value;
    var mutations := MutationsOf(initial, virtual, touched, paths, files, final);
    PlannedIsComplete(files, final, touched, paths, mutations);
    result := Ok(mutations);
  }

  lemma MirrorsReads(initial: Virtual, paths: seq<Path>, contents: seq<Option<Content>>, files: Files)
    requires |contents| == |paths| && Distinct(paths)
    requires forall i :: 0 <= i < |contents| ==> contents[i] == Lookup(files, paths[i])
    requires forall path :: path in initial <==> exists i :: 0 <= i < |paths| && paths[i] == path
    requires forall i :: 0 <= i < |paths| ==> initial[paths[i]] == contents[i]
    ensures Mirrors(initial, paths, files)
  {
  }

  // ---------------------------------------------------------------- after an unknown outcome

  predicate Reached(files: Files, mutation: Mutation) {
    match mutation
    case Write(path, _, desired, _) => path in files && Digest(files[path]) == desired
    case Remove(path, _) => path !in files
  }

  /** Reading every mutated path back confirms the patch exactly if the files are those the whole batch
      leaves on its paths. */
  lemma {:induction false} ReconciledIffApplied(initial: Files, mutations: seq<Mutation>, now: Files)
    requires forall i, j :: 0 <= i < j < |mutations| ==> mutations[i].path != mutations[j].path
    requires RunMutations(initial, mutations).Some?
    requires forall i :: 0 <= i < |mutations| && mutations[i].Write? ==> mutations[i].desired == Digest(mutations[i].data)
    ensures (forall i :: 0 <= i < |mutations| ==> Reached(now, mutations[i]))
            <==> (forall i :: 0 <= i < |mutations| ==>
                    Lookup(now, mutations[i].path) == Lookup(RunMutations(initial, mutations).value, mutations[i].path))
  {
    forall i | 0 <= i < |mutations|
      ensures Reached(now, mutations[i])
              <==> Lookup(now, mutations[i].path) == Lookup(RunMutations(initial, mutations).value, mutations[i].path)
    {
      FinalContent(initial, mutations, i);
    }
  }

  function Wanted(mutation: Mutation): Option<Content> { if mutation.Write? then Some(mutation.data) else None }

  lemma {:induction false} FinalContent(initial: Files, mutations: seq<Mutation>, i: nat)
    requires i < |mutations| && RunMutations(initial, mutations).Some?
    requires forall j, k :: 0 <= j < k < |mutations| ==> mutations[j].path != mutations[k].path
    ensures Lookup(RunMutations(initial, mutations).value, mutations[i].path) == Wanted(mutations[i])
  {
    var n := |mutations| - 1;
    var before := RunMutations(initial, mutations[..n]).value;
    PutLooksUp(before, mutations[n].path, Wanted(mutations[n]));
    if i < n { FinalContent(initial, mutations[..n], i); }
  }
}
