/** The repository side of gitfs (git.go): bootstrapping a repository on a
    backing store, resetting it, pulling, and reconciling go-git's per-file
    status with a walk over the store's directory tree.

    Every call into go-git or go-billy is an outcome handed in by the caller
    (an "oracle"); repositories and worktrees are values that record how they
    were obtained. */
module Git {
  import opened Support

  /** git.GitDirName: the metadata directory at the root of the store. */
  const GitDirName: string := ".git"
  const RemoteName: string := "origin"
  const AuthUser: string := "git"
  const RepoAlreadyExists: string := "repo already exists"
  const NotADirectory: string := ".git is not a directory"

  // ---------------------------------------------------------------------------
  // Status codes and the staging/worktree decision
  // ---------------------------------------------------------------------------

  /** gitfs's StatusCode: go-git's short-status letters plus '!' for Inconsistent. */
  datatype StatusCode =
    | Unmodified | Inconsistent | Untracked | Modified | Added
    | Deleted | Renamed | Copied | UpdatedButUnmerged

  /** The byte each code is declared as. */
  function Letter(c: StatusCode): char
  {
    match c
    case Unmodified => ' '
    case Inconsistent => '!'
    case Untracked => '?'
    case Modified => 'M'
    case Added => 'A'
    case Deleted => 'D'
    case Renamed => 'R'
    case Copied => 'C'
    case UpdatedButUnmerged => 'U'
  }

  /** Reads a status byte back; None for a byte that is no declared code. */
  function FromLetter(b: char): (r: Option<StatusCode>)
    ensures r.Some? ==> Letter(r.value) == b
    ensures r.None? ==> b !in {' ', '!', '?', 'M', 'A', 'D', 'R', 'C', 'U'}
  {
    match b
    case ' ' => Some(Unmodified)
    case '!' => Some(Inconsistent)
    case '?' => Some(Untracked)
    case 'M' => Some(Modified)
    case 'A' => Some(Added)
    case 'D' => Some(Deleted)
    case 'R' => Some(Renamed)
    case 'C' => Some(Copied)
    case 'U' => Some(UpdatedButUnmerged)
    case _ => None
  }

  /** Distinct codes are distinct bytes: reading a code's byte gives the code back. */
  lemma LetterRoundTrip(c: StatusCode)
    ensures FromLetter(Letter(c)) == Some(c)
  {
  }

  /** go-git's own StatusCode: the same letters without '!'. The byte conversion
      `StatusCode(byte(x))` is therefore the identity on these codes. */
  type EngineCode = c: StatusCode | c != Inconsistent witness Unmodified

  /** go-git's FileStatus for one path. */
  datatype FileStatus = FileStatus(staging: EngineCode, worktree: EngineCode)

  function Lookup(raw: map<string, FileStatus>, path: string): Option<FileStatus>
  {
    if path in raw then Some(raw[path]) else None
  }

  /** Staging and worktree are both changed, in different ways. */
  predicate Disagree(f: FileStatus)
  {
    f.staging != Unmodified && f.worktree != Unmodified && f.staging != f.worktree
  }

  /** The decision chain inside GetStatus's callback: the code stored for a path
      whose go-git status is `fstatus` (`s[path]`, None when nil), or None when
      nothing is stored. A stored code agrees with every side that changed, and
      Inconsistent stands for two changed sides that differ. */
  function Reconcile(fstatus: Option<FileStatus>): (r: Option<StatusCode>)
    ensures r.None? <==> fstatus.None? || (fstatus.value.staging == Unmodified && fstatus.value.worktree == Unmodified)
    ensures r != Some(Unmodified)
    ensures r == Some(Inconsistent) <==> fstatus.Some? && Disagree(fstatus.value)
    ensures r.Some? && r.value != Inconsistent ==>
              && (fstatus.value.staging == Unmodified || r.value == fstatus.value.staging)
              && (fstatus.value.worktree == Unmodified || r.value == fstatus.value.worktree)
  {
    match fstatus
    case None => None
    case Some(f) =>
      if f.staging == Unmodified && f.worktree == Unmodified then None
      else if f.staging == Unmodified then Some(f.worktree)
      else if f.worktree == Unmodified then Some(f.staging)
      else if f.staging != f.worktree then Some(Inconsistent)
      else Some(f.worktree)
  }

  /** The decision does not depend on which side, staging or worktree, holds which code. */
  lemma ReconcileSymmetric(s: EngineCode, w: EngineCode)
    ensures Reconcile(Some(FileStatus(s, w))) == Reconcile(Some(FileStatus(w, s)))
  {
  }

  // ---------------------------------------------------------------------------
  // The directory tree and traverseDir
  // ---------------------------------------------------------------------------

  /** An entry ReadDir lists: a directory with what ReadDir gives for it, or any
      other kind of entry (a regular file, a symlink, ...). */
  datatype Entry = File(name: string) | Dir(name: string, listing: Listing)

  /** What ReadDir returns for a directory: its entries in order, or an error. */
  datatype Listing = Listed(entries: seq<Entry>) | Unreadable(err: Error)

  /** filepath.Join of a directory path and an entry name. */
  function Join(dir: string, name: string): (path: string)
    ensures |path| > 0
  {
    if dir == "/" then "/" + name else dir + "/" + name
  }

  /** The paths handed to the callback, in call order, and the error the walk returned. */
  datatype Walked = Walked(calls: seq<string>, err: Option<Error>)

  function Then(calls: seq<string>, w: Walked): Walked
  {
    Walked(calls + w.calls, w.err)
  }

  /** What traverseDir(fs, dir, cb) does on the tree `l` found at `dir`. */
  function Walk(l: Listing, dir: string, cb: string -> Option<Error>): Walked
    decreases l
  {
    match l
    case Unreadable(e) => Walked([], Some(e))
    case Listed(es) => WalkEntries(es, dir, cb)
  }

  function WalkEntries(es: seq<Entry>, dir: string, cb: string -> Option<Error>): Walked
    decreases es
  {
    if es == [] then Walked([], None)
    else if es[0].name == GitDirName then WalkEntries(es[1..], dir, cb)
    else
      var first := Visit(es[0], dir, cb);
      if first.err.Some? then first else Then(first.calls, WalkEntries(es[1..], dir, cb))
  }

  /** One entry of the loop: recurse into a directory, or call back with the
      joined path minus its leading separator. */
  function Visit(e: Entry, dir: string, cb: string -> Option<Error>): Walked
    decreases e
  {
    var path := Join(dir, e.name);
    match e
    case Dir(_, sub) => Walk(sub, path, cb)
    case File(_) => Walked([path[1..]], cb(path[1..]))
  }

  /** Reference order: every non-directory entry below `dir`, depth first in
      ReadDir order, as the callback sees its path, skipping `.git` entries
      and taking an unreadable directory as empty. */
  function Files(l: Listing, dir: string): seq<string>
    decreases l
  {
    match l
    case Unreadable(_) => []
    case Listed(es) => FilesIn(es, dir)
  }

  function FilesIn(es: seq<Entry>, dir: string): seq<string>
    decreases es
  {
    if es == [] then []
    else if es[0].name == GitDirName then FilesIn(es[1..], dir)
    else
      var path := Join(dir, es[0].name);
      var first := match es[0]
        case Dir(_, sub) => Files(sub, path)
        case File(_) => [path[1..]];
      first + FilesIn(es[1..], dir)
  }

  /** `w` reports a prefix of `files`, all of them when it returns no error,
      and it stopped at the first path whose callback failed, returning that
      callback's error. */
  predicate Follows(w: Walked, files: seq<string>, cb: string -> Option<Error>)
  {
    && w.calls <= files
    && (w.err.None? ==> w.calls == files)
    && forall k | 0 <= k < |w.calls| && cb(w.calls[k]).Some? :: k == |w.calls| - 1 && w.err == cb(w.calls[k])
  }

  /** The walk reports files in the reference order, stops at the first
      failing callback, and visits every file when it returns no error. */
  lemma {:induction false} WalkFollowsFiles(l: Listing, dir: string, cb: string -> Option<Error>)
    ensures Follows(Walk(l, dir, cb), Files(l, dir), cb)
    decreases l
  {
    match l
    case Unreadable(_) =>
    case Listed(es) => WalkEntriesFollowFiles(es, dir, cb);
  }

  lemma {:induction false} WalkEntriesFollowFiles(es: seq<Entry>, dir: string, cb: string -> Option<Error>)
    ensures Follows(WalkEntries(es, dir, cb), FilesIn(es, dir), cb)
    decreases es
  {
    if es == [] {
    } else if es[0].name == GitDirName {
      WalkEntriesFollowFiles(es[1..], dir, cb);
    } else {
      var path := Join(dir, es[0].name);
      var first := Visit(es[0], dir, cb);
      var firstFiles := match es[0]
        case Dir(_, sub) => Files(sub, path)
        case File(_) => [path[1..]];
      match es[0] {
        case Dir(_, sub) => WalkFollowsFiles(sub, path, cb);
        case File(_) =>
      }
      assert Follows(first, firstFiles, cb);
      if first.err.None? {
        WalkEntriesFollowFiles(es[1..], dir, cb);
        FollowsThen(first, firstFiles, WalkEntries(es[1..], dir, cb), FilesIn(es[1..], dir), cb);
      }
    }
  }

  lemma FollowsThen(first: Walked, firstFiles: seq<string>, rest: Walked, restFiles: seq<string>, cb: string -> Option<Error>)
    requires first.err.None? && Follows(first, firstFiles, cb) && Follows(rest, restFiles, cb)
    ensures Follows(Then(first.calls, rest), firstFiles + restFiles, cb)
  {
    var all := first.calls + rest.calls;
    assert forall k | 0 <= k < |first.calls| :: cb(first.calls[k]).None?;
    assert forall k | 0 <= k < |first.calls| :: all[k] == first.calls[k];
    assert forall k | |first.calls| <= k < |all| :: all[k] == rest.calls[k - |first.calls|];
  }

  /** No entry named `.git` at any depth. */
  predicate NoGitDir(l: Listing)
    decreases l
  {
    match l
    case Unreadable(_) => true
    case Listed(es) => NoGitDirIn(es)
  }

  predicate NoGitDirIn(es: seq<Entry>)
    decreases es
  {
    es == [] ||
    (es[0].name != GitDirName
     && (match es[0] case Dir(_, sub) => NoGitDir(sub) case File(_) => true)
     && NoGitDirIn(es[1..]))
  }

  /** The tree with every entry named `.git`, and everything below it, removed. */
  function Prune(l: Listing): (r: Listing)
    ensures NoGitDir(r)
    decreases l
  {
    match l
    case Unreadable(_) => l
    case Listed(es) => Listed(PruneEntries(es))
  }

  function PruneEntries(es: seq<Entry>): (r: seq<Entry>)
    ensures NoGitDirIn(r)
    decreases es
  {
    if es == [] then []
    else if es[0].name == GitDirName then PruneEntries(es[1..])
    else
      var e := match es[0]
        case Dir(n, sub) => Dir(n, Prune(sub))
        case File(n) => File(n);
      var rest := PruneEntries(es[1..]);
      assert ([e] + rest)[1..] == rest;
      [e] + rest
  }

  /** `.git` entries are never visited at any depth: walking the tree is
      walking it with every `.git` entry removed. */
  lemma {:induction false} WalkSkipsGitDir(l: Listing, dir: string, cb: string -> Option<Error>)
    ensures Walk(Prune(l), dir, cb) == Walk(l, dir, cb)
    decreases l
  {
    match l
    case Unreadable(_) =>
    case Listed(es) => WalkEntriesSkipGitDir(es, dir, cb);
  }

  lemma {:induction false} WalkEntriesSkipGitDir(es: seq<Entry>, dir: string, cb: string -> Option<Error>)
    ensures WalkEntries(PruneEntries(es), dir, cb) == WalkEntries(es, dir, cb)
    decreases es
  {
    if es == [] {
    } else if es[0].name == GitDirName {
      WalkEntriesSkipGitDir(es[1..], dir, cb);
    } else {
      var pruned := PruneEntries(es);
      var rest := PruneEntries(es[1..]);
      assert pruned[1..] == rest;
      WalkEntriesSkipGitDir(es[1..], dir, cb);
      match es[0]
      case Dir(n, sub) => WalkSkipsGitDir(sub, Join(dir, n), cb);
      case File(_) =>
    }
  }

  /** Every directory reached by the walk (outside `.git`) can be listed. */
  predicate Readable(l: Listing)
    decreases l
  {
    match l
    case Unreadable(_) => false
    case Listed(es) => ReadableIn(es)
  }

  predicate ReadableIn(es: seq<Entry>)
    decreases es
  {
    es == [] ||
    ((es[0].name == GitDirName || match es[0] case Dir(_, sub) => Readable(sub) case File(_) => true)
     && ReadableIn(es[1..]))
  }

  /** With a callback that never fails, the walk fails exactly when some
      directory it reaches cannot be listed. */
  lemma {:induction false} WalkFailsOnlyOnUnreadable(l: Listing, dir: string)
    ensures Walk(l, dir, NoError).err.None? <==> Readable(l)
    decreases l
  {
    match l
    case Unreadable(_) =>
    case Listed(es) => WalkEntriesFailOnlyOnUnreadable(es, dir);
  }

  lemma {:induction false} WalkEntriesFailOnlyOnUnreadable(es: seq<Entry>, dir: string)
    ensures WalkEntries(es, dir, NoError).err.None? <==> ReadableIn(es)
    decreases es
  {
    if es != [] {
      WalkEntriesFailOnlyOnUnreadable(es[1..], dir);
      match es[0]
      case Dir(n, sub) => WalkFailsOnlyOnUnreadable(sub, Join(dir, n));
      case File(_) =>
    }
  }

  /** What the walk meets, depth first in ReadDir order outside `.git`: a
      file whose path goes to the callback, or a directory ReadDir fails on. */
  datatype Event = CallBack(path: string) | ReadFailed(err: Error)

  function Events(l: Listing, dir: string): seq<Event>
    decreases l
  {
    match l
    case Unreadable(e) => [ReadFailed(e)]
    case Listed(es) => EventsIn(es, dir)
  }

  function EventsIn(es: seq<Entry>, dir: string): seq<Event>
    decreases es
  {
    if es == [] then []
    else if es[0].name == GitDirName then EventsIn(es[1..], dir)
    else
      var path := Join(dir, es[0].name);
      var first := match es[0]
        case Dir(_, sub) => Events(sub, path)
        case File(_) => [CallBack(path[1..])];
      first + EventsIn(es[1..], dir)
  }

  /** The error an event produces: the callback's, or ReadDir's. */
  function Outcome(ev: Event, cb: string -> Option<Error>): Option<Error>
  {
    match ev
    case CallBack(p) => cb(p)
    case ReadFailed(e) => Some(e)
  }

  /** The callback invocations among `evs`, in order. */
  function CallsOf(evs: seq<Event>): seq<string>
  {
    if evs == [] then []
    else (if evs[0].CallBack? then [evs[0].path] else []) + CallsOf(evs[1..])
  }

  lemma {:induction false} CallsOfAppend(a: seq<Event>, b: seq<Event>)
    ensures CallsOf(a + b) == CallsOf(a) + CallsOf(b)
  {
    if a != [] {
      assert (a + b)[0] == a[0] && (a + b)[1..] == a[1..] + b;
      CallsOfAppend(a[1..], b);
    } else {
      assert a + b == b;
    }
  }

  /** The index of the first event that fails, or |evs| when none does. */
  function FirstFailure(evs: seq<Event>, cb: string -> Option<Error>): (n: nat)
    ensures n <= |evs|
    ensures forall i | 0 <= i < n :: Outcome(evs[i], cb).None?
    ensures n < |evs| ==> Outcome(evs[n], cb).Some?
  {
    if evs == [] || Outcome(evs[0], cb).Some? then 0 else 1 + FirstFailure(evs[1..], cb)
  }

  /** Runs the events in order and stops at the first one that fails: the
      calls are those up to and including that event, and its error is
      returned; with no failure, every call is made and no error returned. */
  function RunEvents(evs: seq<Event>, cb: string -> Option<Error>): (w: Walked)
    ensures var n := FirstFailure(evs, cb);
            && w.err == (if n < |evs| then Outcome(evs[n], cb) else None)
            && w.calls == CallsOf(evs[..if n < |evs| then n + 1 else n])
  {
    if evs == [] then Walked([], None)
    else
      var call := if evs[0].CallBack? then [evs[0].path] else [];
      var outcome := Outcome(evs[0], cb);
      if outcome.Some? then
        assert evs[..1][1..] == [];
        Walked(call, outcome)
      else
        var rest := RunEvents(evs[1..], cb);
        var n := FirstFailure(evs[1..], cb);
        var k := if n < |evs| - 1 then n + 1 else n;
        assert evs[..k + 1][0] == evs[0] && evs[..k + 1][1..] == evs[1..][..k];
        Then(call, rest)
  }

  lemma {:induction false} RunEventsAppend(a: seq<Event>, b: seq<Event>, cb: string -> Option<Error>)
    ensures RunEvents(a + b, cb)
            == var w := RunEvents(a, cb); if w.err.Some? then w else Then(w.calls, RunEvents(b, cb))
  {
    if a == [] {
      assert a + b == b;
    } else {
      assert (a + b)[0] == a[0] && (a + b)[1..] == a[1..] + b;
      RunEventsAppend(a[1..], b, cb);
      var call := if a[0].CallBack? then [a[0].path] else [];
      var w' := RunEvents(a[1..], cb);
      assert call + (w'.calls + RunEvents(b, cb).calls) == (call + w'.calls) + RunEvents(b, cb).calls;
    }
  }

  /** traverseDir is a first-failure run over the events of the tree: it
      stops at the first ReadDir error or failing callback, depth first in
      ReadDir order, returns that error and makes no call after it. */
  lemma {:induction false} WalkIsFirstFailure(l: Listing, dir: string, cb: string -> Option<Error>)
    ensures Walk(l, dir, cb) == RunEvents(Events(l, dir), cb)
    decreases l
  {
    match l
    case Unreadable(e) =>
      assert [ReadFailed(e)][..1][1..] == [];
    case Listed(es) => WalkEntriesAreFirstFailure(es, dir, cb);
  }

  lemma {:induction false} WalkEntriesAreFirstFailure(es: seq<Entry>, dir: string, cb: string -> Option<Error>)
    ensures WalkEntries(es, dir, cb) == RunEvents(EventsIn(es, dir), cb)
    decreases es
  {
    if es == [] {
    } else if es[0].name == GitDirName {
      WalkEntriesAreFirstFailure(es[1..], dir, cb);
    } else {
      var path := Join(dir, es[0].name);
      var first := match es[0]
        case Dir(_, sub) => Events(sub, path)
        case File(_) => [CallBack(path[1..])];
      match es[0] {
        case Dir(_, sub) => WalkIsFirstFailure(sub, path, cb);
        case File(_) =>
          assert [path[1..]] + [] == [path[1..]];
      }
      assert Visit(es[0], dir, cb) == RunEvents(first, cb);
      WalkEntriesAreFirstFailure(es[1..], dir, cb);
      RunEventsAppend(first, EventsIn(es[1..], dir), cb);
    }
  }

  /** The callbacks among the events are the reference file order. */
  lemma {:induction false} EventCallsAreFiles(l: Listing, dir: string)
    ensures CallsOf(Events(l, dir)) == Files(l, dir)
    decreases l
  {
    match l
    case Unreadable(e) =>
    case Listed(es) => EventCallsAreFilesIn(es, dir);
  }

  lemma {:induction false} EventCallsAreFilesIn(es: seq<Entry>, dir: string)
    ensures CallsOf(EventsIn(es, dir)) == FilesIn(es, dir)
    decreases es
  {
    if es == [] {
    } else if es[0].name == GitDirName {
      EventCallsAreFilesIn(es[1..], dir);
    } else {
      var path := Join(dir, es[0].name);
      var first := match es[0]
        case Dir(_, sub) => Events(sub, path)
        case File(_) => [CallBack(path[1..])];
      match es[0] {
        case Dir(_, sub) => EventCallsAreFiles(sub, path);
        case File(_) =>
      }
      EventCallsAreFilesIn(es[1..], dir);
      CallsOfAppend(first, EventsIn(es[1..], dir));
    }
  }

  /** The walk over the entries from index `i` on, one entry at a time. */
  lemma WalkEntriesAt(es: seq<Entry>, i: nat, dir: string, cb: string -> Option<Error>)
    requires i < |es|
    ensures WalkEntries(es[i..], dir, cb) ==
              if es[i].name == GitDirName then WalkEntries(es[i + 1..], dir, cb)
              else if Visit(es[i], dir, cb).err.Some? then Visit(es[i], dir, cb)
              else Then(Visit(es[i], dir, cb).calls, WalkEntries(es[i + 1..], dir, cb))
  {
    assert es[i..][0] == es[i] && es[i..][1..] == es[i + 1..];
  }

  /** traverseDir: lists `dir`, skips `.git`, recurses into directories and calls
      `cb` on every other entry with the joined path minus its leading
      separator, returning the first error met. `calls` records the callback's
      invocations in order. */
  method TraverseDir(l: Listing, dir: string, cb: string -> Option<Error>) returns (calls: seq<string>, err: Option<Error>)
    ensures Walked(calls, err) == Walk(l, dir, cb)
    decreases l
  {
    if l.Unreadable? {
      return [], Some(l.err);
    }
    var files := l.entries;
    calls, err := [], None;
    for i := 0 to |files|
      invariant err.None?
      invariant Walk(l, dir, cb) == Then(calls, WalkEntries(files[i..], dir, cb))
    {
      var fi := files[i];
      WalkEntriesAt(files, i, dir, cb);
      if fi.name == GitDirName {
        continue;
      }
      var path := Join(dir, fi.name);
      var step: seq<string>;
      if fi.Dir? {
        step, err := TraverseDir(fi.listing, path, cb);
      } else {
        step := [path[1..]];
        err := cb(path[1..]);
      }
      assert Walked(step, err) == Visit(fi, dir, cb);
      ghost var rest := WalkEntries(files[i + 1..], dir, cb);
      assert WalkEntries(files[i..], dir, cb) == if err.Some? then Walked(step, err) else Then(step, rest);
      assert calls + step + rest.calls == calls + (step + rest.calls);
      calls := calls + step;
      if err.Some? {
        return;
      }
    }
    assert files[|files|..] == [];
  }

  // ---------------------------------------------------------------------------
  // GetStatus
  // ---------------------------------------------------------------------------

  /** GetStatus's callback, which never fails. */
  function NoError(path: string): Option<Error>
  {
    None
  }

  /** The map GetStatus's callback builds after being called on `paths`. */
  function Collect(raw: map<string, FileStatus>, paths: seq<string>): map<string, StatusCode>
  {
    map p | p in paths && Reconcile(Lookup(raw, p)).Some? :: Reconcile(Lookup(raw, p)).value
  }

  /** GetStatus's result for go-git's status outcome `status` and the store's tree `root`. */
  function StatusOf(status: Result<map<string, FileStatus>>, root: Listing): Result<map<string, StatusCode>>
  {
    match status
    case Err(e) => Err(Wrapped("error getting status", e))
    case Ok(raw) =>
      var w := Walk(root, "/", NoError);
      if w.err.Some? then Err(w.err.value) else Ok(Collect(raw, w.calls))
  }

  /** GetStatus fails exactly when go-git's status fails or some directory
      outside `.git` cannot be listed. On success its keys are the files the
      walk visits that go-git reports changed, each with its reconciled code:
      never Unmodified, and Inconsistent only for two differing changes. */
  lemma StatusOfShape(status: Result<map<string, FileStatus>>, root: Listing)
    ensures StatusOf(status, root).Ok? <==> status.Ok? && Readable(root)
    ensures StatusOf(status, root).Ok? ==>
              var m := StatusOf(status, root).value;
              && (forall p | p in m :: p in Files(root, "/") && p in status.value)
              && (forall p | p in Files(root, "/") ::
                    (p in m <==> Reconcile(Lookup(status.value, p)).Some?)
                    && (p in m ==> Some(m[p]) == Reconcile(Lookup(status.value, p))))
              && (forall p | p in m :: m[p] != Unmodified)
              && (forall p | p in m :: m[p] == Inconsistent <==> Disagree(status.value[p]))
  {
    WalkFailsOnlyOnUnreadable(root, "/");
    WalkFollowsFiles(root, "/", NoError);
  }

  lemma CollectStep(raw: map<string, FileStatus>, paths: seq<string>, p: string)
    ensures Collect(raw, paths + [p]) ==
            if Reconcile(Lookup(raw, p)).Some? then Collect(raw, paths)[p := Reconcile(Lookup(raw, p)).value]
            else Collect(raw, paths)
  {
    var ps := paths + [p];
    assert forall q :: q in ps <==> q in paths || q == p;
  }

  // ---------------------------------------------------------------------------
  // Stores, repositories, buildDotStore
  // ---------------------------------------------------------------------------

  /** A go-billy filesystem: the in-memory one, the OS one rooted at a base
      directory, or a sub-view of another one. */
  datatype Filesystem = MemFs | OsFs(baseDir: string) | Chroot(parent: Filesystem, path: string)

  /** The choice NewGit makes between memfs.New() and osfs.New(baseDir). */
  function SelectFs(useMemfs: bool, baseDir: string): Filesystem
  {
    if useMemfs then MemFs else OsFs(baseDir)
  }

  /** filesystem.NewStorage over the `.git` sub-view. */
  datatype Storage = Storage(dot: Filesystem)

  /** The outcome of fs.Stat(".git"). */
  datatype StatResult = Stat(isDir: bool) | StatFailed(err: Error)

  /** buildDotStore's three results: the storage or an error, and `exists` (here `present`). */
  datatype Probe = Probe(store: Result<Storage>, present: bool)

  /** buildDotStore: `stat` is the outcome of fs.Stat(".git") and `chroot` that
      of fs.Chroot(".git"). */
  function BuildDotStore(fs: Filesystem, stat: StatResult, chroot: Option<Error>, errorIfExists: bool): (p: Probe)
    ensures p.present <==> !(stat.StatFailed? && IsNotExist(stat.err))
    ensures stat.StatFailed? && !IsNotExist(stat.err) ==> p.store == Err(stat.err)
    ensures stat.Stat? && errorIfExists ==> p.store == Err(Message(RepoAlreadyExists))
    ensures stat.Stat? && !errorIfExists && !stat.isDir ==> p.store == Err(Message(NotADirectory))
    ensures p.store.Ok? <==>
              && chroot.None?
              && ((stat.StatFailed? && IsNotExist(stat.err)) || (stat.Stat? && stat.isDir && !errorIfExists))
    ensures p.store.Ok? ==> p.store.value == Storage(Chroot(fs, GitDirName))
    ensures chroot.Some? && ((stat.StatFailed? && IsNotExist(stat.err)) || (stat.Stat? && stat.isDir && !errorIfExists)) ==>
              p.store == Err(Wrapped("error chrooting " + GitDirName, chroot.value))
  {
    var present := !(stat.StatFailed? && IsNotExist(stat.err));
    if stat.StatFailed? && !IsNotExist(stat.err) then Probe(Err(stat.err), present)
    else if present && errorIfExists then Probe(Err(Message(RepoAlreadyExists)), true)
    else if present && !stat.isDir then Probe(Err(Message(NotADirectory)), true)
    else match chroot
      case Some(e) => Probe(Err(Wrapped("error chrooting " + GitDirName, e)), present)
      case None => Probe(Ok(Storage(Chroot(fs, GitDirName))), present)
  }

  /** The parsed private key, kept opaque. */
  datatype Signer = Signer(id: nat)

  /** gogitssh.PublicKeys. */
  datatype Auth = PublicKeys(user: string, signer: Signer)

  datatype Remote = Remote(name: string, urls: seq<string>)

  /** A go-git repository, by how it was obtained. */
  datatype Repo =
    | Opened(store: Storage, worktreeFs: Filesystem)                              // git.Open
    | Cloned(store: Storage, worktreeFs: Filesystem, url: string, auth: Auth)     // git.CloneContext
    | Initialized(store: Storage, worktreeFs: Filesystem, remotes: seq<Remote>)   // git.Init, then CreateRemote

  /** The worktree repo.Worktree() gives. */
  datatype Worktree = Worktree(repo: Repo)

  /** The fields of a Git handle, as values. */
  datatype GitState = GitState(repoUrl: string, auth: Auth, fs: Filesystem, repo: Repo, wt: Worktree, pulled: bool)

  // ---------------------------------------------------------------------------
  // NewGit
  // ---------------------------------------------------------------------------

  /** The outcomes of NewGit's foreign calls: key loading and parsing, the stat
      and chroot of `.git`, git.Open, git.CloneContext and repo.Worktree(). */
  datatype OpenOracle = OpenOracle(
    credential: Result<Signer>, stat: StatResult, chroot: Option<Error>,
    open: Option<Error>, clone: Option<Error>, worktree: Option<Error>)

  /** What NewGit returns. An existing `.git` is opened, an absent one is
      cloned from `repoUrl`; errorIfExists refuses an existing one; the new
      handle has not pulled. */
  function OpenPlan(repoUrl: string, useMemfs: bool, baseDir: string, errorIfExists: bool, o: OpenOracle): (r: Result<GitState>)
    ensures var p := BuildDotStore(SelectFs(useMemfs, baseDir), o.stat, o.chroot, errorIfExists);
            r.Ok? <==> o.credential.Ok? && p.store.Ok? && (if p.present then o.open else o.clone).None? && o.worktree.None?
    ensures o.credential.Err? ==> r == Err(o.credential.error)
    ensures var p := BuildDotStore(SelectFs(useMemfs, baseDir), o.stat, o.chroot, errorIfExists);
            o.credential.Ok? && p.store.Err? ==> r == Err(Wrapped("error chrooting .git", p.store.error))
    ensures var p := BuildDotStore(SelectFs(useMemfs, baseDir), o.stat, o.chroot, errorIfExists);
            var fetched := if p.present then o.open else o.clone;
            o.credential.Ok? && p.store.Ok? && fetched.Some? ==> r == Err(Wrapped("error cloning repo " + repoUrl, fetched.value))
    ensures var p := BuildDotStore(SelectFs(useMemfs, baseDir), o.stat, o.chroot, errorIfExists);
            var fetched := if p.present then o.open else o.clone;
            o.credential.Ok? && p.store.Ok? && fetched.None? && o.worktree.Some? ==>
              r == Err(Wrapped("error reading worktree", o.worktree.value))
    ensures o.credential.Ok? && o.stat.Stat? && errorIfExists ==>
              r == Err(Wrapped("error chrooting .git", Message(RepoAlreadyExists)))
    ensures r.Ok? ==>
              var fs := SelectFs(useMemfs, baseDir);
              var store := Storage(Chroot(fs, GitDirName));
              var auth := PublicKeys(AuthUser, o.credential.value);
              && o.credential.Ok?
              && r.value.repoUrl == repoUrl && r.value.fs == fs && r.value.auth == auth
              && !r.value.pulled
              && r.value.wt == Worktree(r.value.repo)
              && (BuildDotStore(fs, o.stat, o.chroot, errorIfExists).present <==> r.value.repo.Opened?)
              && r.value.repo == (if r.value.repo.Opened? then Opened(store, fs) else Cloned(store, fs, repoUrl, auth))
  {
    match o.credential
    case Err(e) => Err(e)
    case Ok(signer) =>
      var auth := PublicKeys(AuthUser, signer);
      var fs := SelectFs(useMemfs, baseDir);
      var probe := BuildDotStore(fs, o.stat, o.chroot, errorIfExists);
      match probe.store
      case Err(e) => Err(Wrapped("error chrooting .git", e))
      case Ok(dotStore) =>
        var outcome := if probe.present then o.open else o.clone;
        if outcome.Some? then Err(Wrapped("error cloning repo " + repoUrl, outcome.value))
        else
          var repo := if probe.present then Opened(dotStore, fs) else Cloned(dotStore, fs, repoUrl, auth);
          if o.worktree.Some? then Err(Wrapped("error reading worktree", o.worktree.value))
          else Ok(GitState(repoUrl, auth, fs, repo, Worktree(repo), false))
  }

  /** NewGit. The context `ctx` is not modelled. */
  method NewGit(repoUrl: string, useMemfs: bool, baseDir: string, errorIfExists: bool, o: OpenOracle) returns (r: Result<Git>)
    ensures OpenPlan(repoUrl, useMemfs, baseDir, errorIfExists, o).Err? ==>
              r == Err(OpenPlan(repoUrl, useMemfs, baseDir, errorIfExists, o).error)
    ensures OpenPlan(repoUrl, useMemfs, baseDir, errorIfExists, o).Ok? ==>
              r.Ok? && fresh(r.value) && r.value.State() == OpenPlan(repoUrl, useMemfs, baseDir, errorIfExists, o).value
  {
    if o.credential.Err? {
      return Err(o.credential.error);
    }
    var auth := PublicKeys(AuthUser, o.credential.value);
    var fs := SelectFs(useMemfs, baseDir);
    var probe := BuildDotStore(fs, o.stat, o.chroot, errorIfExists);
    if probe.store.Err? {
      return Err(Wrapped("error chrooting .git", probe.store.error));
    }
    var dotStore := probe.store.value;
    var repo: Repo;
    var err: Option<Error>;
    if probe.present {
      repo, err := Opened(dotStore, fs), o.open;
    } else {
      repo, err := Cloned(dotStore, fs, repoUrl, auth), o.clone;
    }
    if err.Some? {
      return Err(Wrapped("error cloning repo " + repoUrl, err.value));
    }
    if o.worktree.Some? {
      return Err(Wrapped("error reading worktree", o.worktree.value));
    }
    var g := new Git(repoUrl, auth, fs, repo, Worktree(repo));
    return Ok(g);
  }

  // ---------------------------------------------------------------------------
  // Reset
  // ---------------------------------------------------------------------------

  /** The outcomes of Reset's foreign calls: util.RemoveAll(".git"), the stat
      and chroot inside buildDotStore, git.Init, repo.CreateRemote and
      repo.Worktree(). */
  datatype ResetOracle = ResetOracle(
    removeAll: Option<Error>, stat: StatResult, chroot: Option<Error>,
    init: Option<Error>, createRemote: Option<Error>, worktree: Option<Error>)

  /** What Reset ends with: the new repository and worktree, or its error.
      The new repository is empty, stored in `.git`, and has exactly the remote
      "origin" pointing at the handle's URL; a `.git` still present after the
      removal is refused. */
  function ResetPlan(fs: Filesystem, repoUrl: string, o: ResetOracle): (r: Result<(Repo, Worktree)>)
    ensures r.Ok? <==>
              && o.removeAll.None? && o.stat.StatFailed? && IsNotExist(o.stat.err) && o.chroot.None?
              && o.init.None? && o.createRemote.None? && o.worktree.None?
    ensures r.Ok? ==>
              && r.value.0 == Initialized(Storage(Chroot(fs, GitDirName)), fs, [Remote(RemoteName, [repoUrl])])
              && r.value.1 == Worktree(r.value.0)
    ensures o.removeAll.Some? ==> r == Err(Wrapped("error removing .git", o.removeAll.value))
    ensures o.removeAll.None? && o.stat.Stat? ==> r == Err(Message(RepoAlreadyExists))
    ensures var p := BuildDotStore(fs, o.stat, o.chroot, true);
            o.removeAll.None? && p.store.Err? ==> r == Err(p.store.error)
    ensures var p := BuildDotStore(fs, o.stat, o.chroot, true);
            o.removeAll.None? && p.store.Ok? && o.init.Some? ==> r == Err(Wrapped("error initing repo", o.init.value))
    ensures var p := BuildDotStore(fs, o.stat, o.chroot, true);
            o.removeAll.None? && p.store.Ok? && o.init.None? && o.createRemote.Some? ==>
              r == Err(Wrapped("error pushing change", o.createRemote.value))
    ensures var p := BuildDotStore(fs, o.stat, o.chroot, true);
            o.removeAll.None? && p.store.Ok? && o.init.None? && o.createRemote.None? && o.worktree.Some? ==>
              r == Err(Wrapped("error reading worktree", o.worktree.value))
  {
    if o.removeAll.Some? then Err(Wrapped("error removing .git", o.removeAll.value))
    else
      var probe := BuildDotStore(fs, o.stat, o.chroot, true);
      match probe.store
      case Err(e) => Err(e)
      case Ok(dotStore) =>
        if o.init.Some? then Err(Wrapped("error initing repo", o.init.value))
        else if o.createRemote.Some? then Err(Wrapped("error pushing change", o.createRemote.value))
        else if o.worktree.Some? then Err(Wrapped("error reading worktree", o.worktree.value))
        else
          var repo := Initialized(dotStore, fs, [Remote(RemoteName, [repoUrl])]);
          Ok((repo, Worktree(repo)))
  }

  // ---------------------------------------------------------------------------
  // The Git handle
  // ---------------------------------------------------------------------------

  /** A repository handle; not safe for concurrent use. The context and the
      credential's origin are not modelled. */
  class Git {
    const repoUrl: string
    const auth: Auth
    const fs: Filesystem
    var repo: Repo
    var wt: Worktree
    var pulled: bool

    function State(): GitState
      reads this
    {
      GitState(repoUrl, auth, fs, repo, wt, pulled)
    }

    /** The struct literal at the end of NewGit. */
    constructor (repoUrl: string, auth: Auth, fs: Filesystem, repo: Repo, wt: Worktree)
      ensures State() == GitState(repoUrl, auth, fs, repo, wt, false)
    {
      this.repoUrl := repoUrl;
      this.auth := auth;
      this.fs := fs;
      this.repo := repo;
      this.wt := wt;
      this.pulled := false;
    }

    /** Reset: remove `.git`, probe it again refusing an existing one, init,
        add the remote "origin", read the worktree; `repo` and `wt` are
        replaced only when every step succeeded. */
    method Reset(o: ResetOracle) returns (err: Option<Error>)
      modifies this`repo, this`wt
      ensures ResetPlan(fs, repoUrl, o).Ok? ==>
                err.None? && (repo, wt) == ResetPlan(fs, repoUrl, o).value
      ensures ResetPlan(fs, repoUrl, o).Err? ==>
                err == Some(ResetPlan(fs, repoUrl, o).error) && repo == old(repo) && wt == old(wt)
    {
      if o.removeAll.Some? {
        return Some(Wrapped("error removing .git", o.removeAll.value));
      }
      var probe := BuildDotStore(fs, o.stat, o.chroot, true);
      if probe.store.Err? {
        return Some(probe.store.error);
      }
      if o.init.Some? {
        return Some(Wrapped("error initing repo", o.init.value));
      }
      var newRepo := Initialized(probe.store.value, fs, []);
      if o.createRemote.Some? {
        return Some(Wrapped("error pushing change", o.createRemote.value));
      }
      newRepo := newRepo.(remotes := newRepo.remotes + [Remote(RemoteName, [repoUrl])]);
      if o.worktree.Some? {
        return Some(Wrapped("error reading worktree", o.worktree.value));
      }
      assert newRepo == ResetPlan(fs, repoUrl, o).value.0;
      repo := newRepo;
      wt := Worktree(newRepo);
      return None;
    }

    /** Pull: `outcome` is what wt.Pull returns. Being already up to date
        counts as success; every other error is returned, wrapped. */
    method Pull(outcome: Option<Error>) returns (err: Option<Error>)
      ensures err.None? <==> outcome.None? || outcome == Some(AlreadyUpToDate)
      ensures err.Some? ==> err == Some(Wrapped("error pulling changes from origin", outcome.value))
    {
      if outcome.Some? && outcome != Some(AlreadyUpToDate) {
        return Some(Wrapped("error pulling changes from origin", outcome.value));
      }
      return None;
    }

    /** GetStatus: `status` is the outcome of wt.Status() and `root` the tree
        of this handle's store. The map is filled by the walk's callback, in
        the order the walk calls it. */
    method GetStatus(status: Result<map<string, FileStatus>>, root: Listing) returns (r: Result<map<string, StatusCode>>)
      ensures r == StatusOf(status, root)
    {
      if status.Err? {
        return Err(Wrapped("error getting status", status.error));
      }
      var s := status.value;
      var calls, err := TraverseDir(root, "/", NoError);
      if err.Some? {
        return Err(err.value);
      }
      var files: map<string, StatusCode> := map[];
      for i := 0 to |calls|
        invariant files == Collect(s, calls[..i])
      {
        var path := calls[i];
        assert calls[..i + 1] == calls[..i] + [path];
        CollectStep(s, calls[..i], path);
        var code := Reconcile(Lookup(s, path));
        if code.Some? {
          files := files[path := code.value];
        }
      }
      assert calls[..|calls|] == calls;
      return Ok(files);
    }
  }
}
