# gitfs: configuration, bootstrap, status reconciliation and sync

gitfs is a Go package that offers a file-system API backed by a remote git
repository over SSH. This project models in Dafny the core of that package:

- **fs.go** (module `Fs`, file `fs.dfy`):
  - the mutable `Config` builder (`SetUrl`, `UseMemFs`, `UseOsFs`);
  - its in-place validation `Valid`;
  - `New`, which validates and then opens or clones;
  - `GitFs.Sync`, the chain of optional Reset, then add-all, commit and push;
  - `GitFs.Pull`;
  - `Exist`.
- **git.go** (module `Git`, file `git.dfy`):
  - the `StatusCode` enumeration;
  - `buildDotStore`, the probe of the `.git` directory;
  - `NewGit`, with its choice between opening and cloning;
  - the `Git` handle with `Reset`, `Pull` and `GetStatus`;
  - the recursive directory walk `traverseDir`;
  - the staging/worktree decision that `GetStatus` applies to every file.
- **support.dfy** (module `Support`) holds the error values the package
  creates or wraps, Option/Result, and Go's `strings.TrimSpace`, with
  `unicode.IsSpace`'s set of white-space characters.

How the model treats the outside world:

- Every call into go-git, go-billy or the OS is a parameter holding that
  call's outcome. This covers stat, chroot, open, clone, init,
  create-remote, worktree, add, commit, push, pull, status and ReadDir. The
  outcomes for one operation are bundled in a datatype: `OpenOracle`,
  `ResetOracle` or `SyncOracle`.
- Repositories and worktrees are values that record how they were obtained:
  opened, cloned from a URL with credentials, or initialised with remotes.
  So a contract can say which of open or clone was used.
- A directory tree is an inductive datatype. A `Listing` is either the
  entries `ReadDir` returns, in order, or the error it returns.
- The `traverseDir` callback is a function from a path to an optional
  error.
- `GetStatus` fills its map inside that callback. The model replays the
  callback's invocations, in the order the walk makes them, into the map.

Mutable state is modelled in place:

- `Config` and the `Git` handle are classes.
- Their methods carry `modifies` clauses.
- Their postconditions give the new field values through `Value()` and
  `State()`, which are snapshots of the fields as datatype values.
- `traverseDir` is a recursive method with a `for` loop. It is proved equal
  to the specification function `Walk`.

Notes on the source:

- `Valid` trims the base directory only after the URL passed its check. With
  a blank URL it returns before line 56, so the base directory stays as
  given. `Fs.ValidateDecides` states this, and `Fs.ValidateIdempotent` holds
  in both cases.
- `NewGit` wraps every `buildDotStore` error as "error chrooting .git". That
  includes "repo already exists" and ".git is not a directory".
- `NewGit` wraps an open failure as "error cloning repo …".
- `Reset` wraps a `CreateRemote` failure as "error pushing change".
- `Reset` passes a `buildDotStore` error through unwrapped.
- The model keeps all of these messages as written.
- `Pull` never sets `pulled`. A new handle starts with `pulled` false, and
  nothing reads the flag or changes it.
- `buildDotStore` treats a stat failure other than not-exist as "present"
  and returns it. `Exist` reports the same stat as "absent" plus an error.
  `Fs.ExistAgreesWithProbe` states where the two agree.

## Model

| member | source | states |
|---|---|---|
| `Support.TrimSpace` | fs.go:51-56 | the result is the part of the input that starts right after its leading white space and is followed only by white space; it is empty exactly when the input is all white space, and otherwise begins and ends with a non-space character |
| `Support.TrimSpaceIdempotent` | fs.go:50-64 | trimming an already trimmed string changes nothing, which is what makes `Valid` idempotent |
| `Git.FromLetter` | git.go:229-241 | a byte read back as a status code is the code declared with that byte; bytes that are no declared code give None |
| `Git.LetterRoundTrip` | git.go:229-241 | the nine status codes have distinct bytes: reading a code's byte gives back the code |
| `Git.Reconcile` | git.go:251-262 | no entry exactly when go-git has no status for the path or both sides are Unmodified; never Unmodified; Inconsistent exactly when both sides changed and differ; otherwise the code of the changed side(s) |
| `Git.ReconcileSymmetric` | git.go:253-262 | swapping the staging and worktree codes does not change the decision |
| `Git.TraverseDir` | git.go:167-195 | the callback invocations and the returned error are exactly those of `Walk`: ReadDir errors returned, `.git` skipped, directories recursed into, the callback given the joined path without its first character, the first error returned at once |
| `Git.WalkFollowsFiles` | git.go:176-191 | the walk calls back for a prefix of the depth-first, ReadDir-ordered list of non-directory entries outside `.git`; for all of them when it returns no error; and it stops at the first callback that fails, returning that error |
| `Git.Prune` | git.go:176-179 | removing every `.git` entry leaves a tree with no `.git` entry at any depth |
| `Git.WalkSkipsGitDir` | git.go:176-179 | `.git` entries are never visited at any depth: walking a tree is the same as walking it with every `.git` entry and its content removed |
| `Git.RunEvents` | git.go:167-195 | running events in order stops at the first that fails: the callbacks made are those up to and including it, its error is returned, and with no failure every callback is made and no error returned |
| `Git.WalkIsFirstFailure` | git.go:170-191 | the walk is that first-failure run over the tree's events (a file's callback or a directory's ReadDir error), depth first in ReadDir order outside `.git`: a ReadDir error stops it at once and is returned, with no callback after it |
| `Git.EventCallsAreFiles` | git.go:176-191 | the callbacks among the events are exactly the reference file order |
| `Git.WalkFailsOnlyOnUnreadable` | git.go:170-174 | with a callback that never fails, the walk returns an error exactly when a directory it reaches cannot be listed |
| `Git.StatusOfShape` | git.go:243-269 | GetStatus fails exactly when go-git's status fails or a directory outside `.git` is unreadable; otherwise every key is a visited file that go-git reports, every visited file is a key exactly when the decision stores a code, values are never Unmodified, and Inconsistent marks exactly the disagreeing paths |
| `Git.Git.GetStatus` | git.go:243-269 | returns the status error wrapped, the walk's error, or the map the callback builds over the walk's calls |
| `Git.BuildDotStore` | git.go:94-115 | `exists` is "stat did not report not-exist"; any other stat error is returned; an existing `.git` is refused when errorIfExists, before the directory check; a non-directory `.git` is refused; a chroot failure is returned wrapped as "error chrooting .git"; success exactly when `.git` is absent or an accepted directory and chroot succeeds, with storage on the `.git` sub-view |
| `Git.OpenPlan` | git.go:36-92 | success exactly when the credential, the `.git` probe, the open (when `.git` exists) or the clone (when it does not) and the worktree all succeed; a credential failure is returned; a probe failure is wrapped "error chrooting .git" (so an existing `.git` under errorIfExists gives "repo already exists" wrapped); an open or clone failure is wrapped "error cloning repo " with the URL; a worktree failure is wrapped "error reading worktree"; on success the repository is opened exactly when `.git` exists and is cloned from the URL with user "git" otherwise, the worktree is that repository's, and `pulled` is false |
| `Git.NewGit` | git.go:36-92 | creates a fresh handle whose fields are those `OpenPlan` gives, or returns its error |
| `Git.Git.constructor` | git.go:84-91 | a new handle holds the given URL, credentials, store, repository and worktree, with `pulled` false |
| `Git.ResetPlan` | git.go:117-149 | Reset succeeds exactly when the removal, a fresh probe that finds `.git` absent, init, remote creation and worktree all succeed; the new repository is empty, stored in `.git`, with the single remote "origin" at the handle's URL; a removal failure is reported first and a surviving `.git` is refused; then, each only when every earlier step succeeded: the probe's error unwrapped (a stat error as given, a chroot failure wrapped "error chrooting .git"), an init failure as "error initing repo", a create-remote failure as "error pushing change", a worktree failure as "error reading worktree" |
| `Git.Git.Reset` | git.go:117-149 | on success `repo` and `wt` are replaced by `ResetPlan`'s; on any failure its error is returned and `repo` and `wt` are unchanged |
| `Git.Git.Pull` | git.go:155-165 | succeeds exactly when go-git's pull succeeds or reports already-up-to-date; any other error is returned wrapped |
| `Fs.Config.constructor` | fs.go:27-29 | a new configuration has every field at its zero value |
| `Fs.Config.SetUrl` | fs.go:31-34 | sets the URL, changes nothing else, returns the same configuration |
| `Fs.Config.UseMemFs` | fs.go:36-41 | selects memory, clears the base directory and open-existing, leaves the URL unchanged |
| `Fs.Config.UseOsFs` | fs.go:43-48 | selects the OS store with the given base directory and open-existing flag, leaves the URL unchanged |
| `Fs.Validate` | fs.go:50-64 | validation never changes the use-memory and open-existing flags |
| `Fs.ValidateDecides` | fs.go:50-64 | valid exactly when the URL is not blank and "use memory" holds exactly when the base directory is blank; a blank URL is reported first and leaves the base directory untrimmed; "mutually exclusive" and "not provided" each for exactly their case; URL (and, past the URL check, base directory) left trimmed |
| `Fs.Config.Valid` | fs.go:50-64 | the fields afterwards and the error returned are those `Validate` gives for the fields before |
| `Fs.ValidateIdempotent` | fs.go:50-64 | validating a second time gives the same configuration and the same result |
| `Fs.MemFsConfigIsValid` | fs.go:31-63 | the fields UseMemFs and SetUrl leave, with a non-blank URL, pass validation, which only trims the URL |
| `Fs.OsFsConfigNeedsBaseDir` | fs.go:31-63 | the fields UseOsFs and SetUrl leave, with a non-blank URL, pass validation exactly when the base directory is not blank, and are otherwise refused as "osFs base dir is not provided" |
| `Fs.New` | fs.go:66-80 | validation runs before anything is created and its error is returned unchanged; otherwise NewGit is called with the validated fields and errorIfExists equal to not open-existing, and its failure is returned wrapped or a fresh GitFs over the new handle and its store is returned |
| `Fs.RunChain` | fs.go:91-116 | the steps run are a prefix of the plan; all but the last succeeded; success exactly when the whole plan ran and every step succeeded; otherwise the last step's error wrapped in that step's context |
| `Fs.SyncOutcomeIsChain` | fs.go:91-116 | for any outcome of Reset, Sync's step-by-step result equals the first-failure chain over its plan: Reset if purging, then add-all, commit with "gitfs sync - " and the timestamp by gitfs, then push of master to origin |
| `Fs.SyncWithoutPurgeNeverResets` | fs.go:92-96 | Sync without purge never runs Reset |
| `Fs.SyncRunsPlanInOrder` | fs.go:91-116 | the steps Sync runs are a prefix of its plan, and it succeeds exactly when the reset (if purging), add, commit and push all succeed |
| `Fs.GitFs.Sync` | fs.go:91-116 | returns the steps run and the error of `SyncOutcome`, which `Fs.SyncOutcomeIsChain` equates with the first-failure chain over the plan, Reset failing as `ResetPlan` does; the repository is replaced exactly when purging and Reset succeeds, and is otherwise unchanged |
| `Fs.GitFs.Pull` | fs.go:87-89 | the same result as the handle's Pull |
| `Fs.GitFs.constructor` | fs.go:76-79 | a GitFs holds the handle and its store |
| `Fs.Exist` | fs.go:249-259 | true exactly on a successful stat; no error on success or not-exist; any other stat error is returned wrapped |
| `Fs.ExistAgreesWithProbe` | fs.go:249-259 | where Exist reports no error it agrees with buildDotStore's `exists`; where it reports one, buildDotStore fails too |

## Left out

- SSH key loading and parsing (git.go:37-46). This is environment I/O and foreign crypto. `NewGit` receives the outcome as `credential`. A failure is returned as given; the messages "error reading private key" and "error parsing private key" are not modelled.
- Context cancellation during clone (git.go:64-65). This is runtime plumbing; the `ctx` fields and parameters are dropped.
- What go-git does inside clone, open, init, create-remote, worktree, add, commit, push, pull and status (git.go:62-73, 127-143, 156-160, 197-223, 244). Each is modelled only as a success-or-failure outcome. The store's contents are not modelled, so removing `.git` and the later stat of `.git` are independent outcomes.
- `AddAll`, `Commit` and `Push` (git.go:197-223). These are single go-git calls. Each appears only as its outcome and as a step in Sync's trace, which records the commit message, the author name and e-mail, the remote and the refspec. The author's wall-clock time is not modelled.
- The timestamp in the commit message (fs.go:102). It is an opaque string parameter; the clock and its layout are not modelled.
- The properties that hold after Sync, such as an empty status or a single commit after a purge. These depend on what go-git stores.
- The pass-through facade (fs.go:118-247): `Create`, `Open`, `OpenFile`, `Stat`, `Rename`, `Remove`, `RemoveAll`, `Join`, `TempFile`, `ReadDir`, `MkdirAll`, `Lstat`, `Symlink`, `Readlink`, `Chroot`, `Root`. These are thin wrappers with no logic of their own. `Git.FileSystem` is left out as a plain accessor.
- `fmt.Printf` tracing in `traverseDir` and `GetStatus`. This is logging.
- `filepath.Join`'s cleaning (git.go:181). Entry names are taken as `ReadDir` gives them: plain names without separators. Joining is then concatenation with "/".
- Which non-directory entries appear. A symlink, for example, is an entry like any other file, as `fi.IsDir()` decides in the source.
- example/run.go. It is a command-line driver.
