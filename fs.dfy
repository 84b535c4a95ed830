/** The file-system side of gitfs (fs.go): the configuration builder and its
    validation, opening a GitFs, the sync chain and the existence check. The
    pass-through file operations are not part of this model. */
module Fs {
  import opened Support
  import Git

  const EmptyRepoUrl: string := "empty repo url"
  const MutuallyExclusive: string := "memFs and osFs base dir are mutually exclusive"
  const BaseDirNotProvided: string := "osFs base dir is not provided"

  // ---------------------------------------------------------------------------
  // Config
  // ---------------------------------------------------------------------------

  /** The fields of a Config, as values. */
  datatype ConfigValue = ConfigValue(repoUrl: string, useMemFs: bool, osFsBaseDir: string, openExisting: bool)

  /** The configuration after Valid and the error Valid returns. */
  datatype Validated = Validated(config: ConfigValue, err: Option<Error>)

  /** The checks of Valid on the trimmed URL `url` and the trimmed base
      directory `base`. The base directory is stored only past the URL check. */
  function Check(c: ConfigValue, url: string, base: string): Validated
  {
    if url == "" then Validated(c.(repoUrl := url), Some(Message(EmptyRepoUrl)))
    else
      var c' := c.(repoUrl := url, osFsBaseDir := base);
      if c.useMemFs && base != "" then Validated(c', Some(Message(MutuallyExclusive)))
      else if !c.useMemFs && base == "" then Validated(c', Some(Message(BaseDirNotProvided)))
      else Validated(c', None)
  }

  /** What Valid does to a configuration `c`: the fields afterwards and the
      error returned. */
  function Validate(c: ConfigValue): (v: Validated)
    ensures v.config.useMemFs == c.useMemFs && v.config.openExisting == c.openExisting
  {
    Check(c, TrimSpace(c.repoUrl), TrimSpace(c.osFsBaseDir))
  }

  /** Valid succeeds exactly when the URL is not blank and "use memory" holds
      exactly when the base directory is blank. A blank URL is reported first
      and leaves the base directory untrimmed; the other two errors each name
      exactly their case. */
  lemma ValidateDecides(c: ConfigValue)
    ensures Validate(c).config.repoUrl == TrimSpace(c.repoUrl)
    ensures Validate(c).config.osFsBaseDir == if Blank(c.repoUrl) then c.osFsBaseDir else TrimSpace(c.osFsBaseDir)
    ensures Validate(c).config.useMemFs == c.useMemFs && Validate(c).config.openExisting == c.openExisting
    ensures Validate(c).err.None? <==> !Blank(c.repoUrl) && (c.useMemFs <==> Blank(c.osFsBaseDir))
    ensures Validate(c).err == Some(Message(EmptyRepoUrl)) <==> Blank(c.repoUrl)
    ensures Validate(c).err == Some(Message(MutuallyExclusive)) <==> !Blank(c.repoUrl) && c.useMemFs && !Blank(c.osFsBaseDir)
    ensures Validate(c).err == Some(Message(BaseDirNotProvided)) <==> !Blank(c.repoUrl) && !c.useMemFs && Blank(c.osFsBaseDir)
  {
  }

  /** Calling Valid a second time changes nothing and gives the same result. */
  lemma ValidateIdempotent(c: ConfigValue)
    ensures Validate(Validate(c).config) == Validate(c)
  {
    var v := Validate(c);
    ValidateDecides(c);
    ValidateDecides(v.config);
    TrimSpaceIdempotent(c.repoUrl);
    TrimSpaceIdempotent(c.osFsBaseDir);
  }

  /** The fields UseMemFs and then SetUrl(url) leave on a configuration `c`. */
  function MemFsConfig(c: ConfigValue, url: string): ConfigValue
  {
    c.(useMemFs := true, openExisting := false, osFsBaseDir := "").(repoUrl := url)
  }

  /** The fields UseOsFs(baseDir, openExisting) and then SetUrl(url) leave on
      a configuration `c`. */
  function OsFsConfig(c: ConfigValue, url: string, baseDir: string, openExisting: bool): ConfigValue
  {
    c.(useMemFs := false, openExisting := openExisting, osFsBaseDir := baseDir).(repoUrl := url)
  }

  /** A memory configuration with a non-blank URL is valid, and Valid leaves it
      with the URL trimmed and nothing else changed. */
  lemma MemFsConfigIsValid(c: ConfigValue, url: string)
    requires !Blank(url)
    ensures Validate(MemFsConfig(c, url)) == Validated(MemFsConfig(c, TrimSpace(url)), None)
  {
    ValidateDecides(MemFsConfig(c, url));
  }

  /** An OS-store configuration with a non-blank URL is valid exactly when its
      base directory is not blank, and is otherwise refused as "not provided". */
  lemma OsFsConfigNeedsBaseDir(c: ConfigValue, url: string, baseDir: string, openExisting: bool)
    requires !Blank(url)
    ensures Validate(OsFsConfig(c, url, baseDir, openExisting)).err.None? <==> !Blank(baseDir)
    ensures Blank(baseDir) ==>
              Validate(OsFsConfig(c, url, baseDir, openExisting)).err == Some(Message(BaseDirNotProvided))
  {
    ValidateDecides(OsFsConfig(c, url, baseDir, openExisting));
  }

  /** Config: a mutable builder. */
  class Config {
    var repoUrl: string
    var useMemFs: bool
    var osFsBaseDir: string
    var openExisting: bool

    function Value(): ConfigValue
      reads this
    {
      ConfigValue(repoUrl, useMemFs, osFsBaseDir, openExisting)
    }

    /** NewConfig: every field at its zero value. */
    constructor ()
      ensures Value() == ConfigValue("", false, "", false)
    {
      repoUrl, useMemFs, osFsBaseDir, openExisting := "", false, "", false;
    }

    method SetUrl(url: string) returns (self: Config)
      modifies this
      ensures self == this
      ensures Value() == old(Value()).(repoUrl := url)
    {
      repoUrl := url;
      return this;
    }

    /** Selects the memory store: no base directory and nothing to open. */
    method UseMemFs() returns (self: Config)
      modifies this
      ensures self == this
      ensures Value() == old(Value()).(useMemFs := true, openExisting := false, osFsBaseDir := "")
    {
      useMemFs := true;
      openExisting := false;
      osFsBaseDir := "";
      return this;
    }

    /** Selects the OS store rooted at `baseDir`. */
    method UseOsFs(baseDir: string, openExisting: bool) returns (self: Config)
      modifies this
      ensures self == this
      ensures Value() == old(Value()).(useMemFs := false, openExisting := openExisting, osFsBaseDir := baseDir)
    {
      useMemFs := false;
      this.openExisting := openExisting;
      osFsBaseDir := baseDir;
      return this;
    }

    /** Valid: trims the URL and, when the URL is not blank, the base
        directory, in place, and checks them. */
    method Valid() returns (err: Option<Error>)
      modifies this
      ensures Validated(Value(), err) == Validate(old(Value()))
    {
      ghost var before := Value();
      repoUrl := TrimSpace(repoUrl);
      if repoUrl == "" {
        assert Value() == before.(repoUrl := "");
        return Some(Message(EmptyRepoUrl));
      }
      osFsBaseDir := TrimSpace(osFsBaseDir);
      assert Value() == before.(repoUrl := repoUrl, osFsBaseDir := osFsBaseDir);
      assert Validate(before) == Check(before, repoUrl, osFsBaseDir);
      if useMemFs && osFsBaseDir != "" {
        return Some(Message(MutuallyExclusive));
      } else if !useMemFs && osFsBaseDir == "" {
        return Some(Message(BaseDirNotProvided));
      }
      return None;
    }
  }

  // ---------------------------------------------------------------------------
  // Sync
  // ---------------------------------------------------------------------------

  const CommitPrefix: string := "gitfs sync - "
  const AuthorName: string := "gitfs"
  const AuthorEmail: string := "gitfs@github.com"
  const PushRefSpec: string := "+refs/heads/master:refs/heads/master"

  /** A step of Sync, with what it hands to go-git. */
  datatype SyncStep =
    | ResetStep
    | AddAllStep                                                    // wt.Add("")
    | CommitStep(message: string, authorName: string, authorEmail: string)
    | PushStep(remote: string, refSpec: string)

  /** The context Sync wraps a failing step's error in. */
  function Context(s: SyncStep): string
  {
    match s
    case ResetStep => "error resetting git"
    case AddAllStep => "error adding files to git"
    case CommitStep(_, _, _) => "error committing sync changes"
    case PushStep(_, _) => "error pushing change to remote repo"
  }

  /** The steps Sync runs when all succeed: Reset only when purging, then
      add, commit (with the message for `timestamp`) and push. */
  function SyncPlan(purge: bool, timestamp: string): seq<SyncStep>
  {
    (if purge then [ResetStep] else [])
    + [AddAllStep, CommitStep(CommitPrefix + timestamp, AuthorName, AuthorEmail), PushStep(Git.RemoteName, PushRefSpec)]
  }

  /** A step and the outcome it has when run. */
  datatype Attempt = Attempt(step: SyncStep, outcome: Option<Error>)

  /** The steps run and the error returned. */
  datatype Run = Run(executed: seq<SyncStep>, err: Option<Error>)

  function Steps(plan: seq<Attempt>): (s: seq<SyncStep>)
    ensures |s| == |plan| && forall i | 0 <= i < |plan| :: s[i] == plan[i].step
  {
    if plan == [] then [] else [plan[0].step] + Steps(plan[1..])
  }

  /** Runs the attempts in order until one fails. The steps run are a prefix
      of the plan, every one of them but the last succeeded, and the call
      succeeds only if it ran the whole plan; otherwise it returns the last
      step's error wrapped in that step's context. */
  function RunChain(plan: seq<Attempt>): (r: Run)
    ensures |r.executed| <= |plan| && r.executed == Steps(plan[..|r.executed|])
    ensures forall i | 0 <= i < |r.executed| - 1 :: plan[i].outcome.None?
    ensures r.err.None? <==> |r.executed| == |plan| && forall i | 0 <= i < |plan| :: plan[i].outcome.None?
    ensures r.err.Some? ==>
              && |r.executed| > 0
              && var last := plan[|r.executed| - 1];
                 last.outcome.Some? && r.err == Some(Wrapped(Context(last.step), last.outcome.value))
  {
    if plan == [] then Run([], None)
    else if plan[0].outcome.Some? then Run([plan[0].step], Some(Wrapped(Context(plan[0].step), plan[0].outcome.value)))
    else
      var rest := RunChain(plan[1..]);
      assert Steps(plan[..|rest.executed| + 1]) == [plan[0].step] + Steps(plan[1..][..|rest.executed|]) by {
        assert plan[..|rest.executed| + 1][1..] == plan[1..][..|rest.executed|];
      }
      Run([plan[0].step] + rest.executed, rest.err)
  }

  /** The outcomes of Sync's foreign calls: those inside Reset, and of add,
      commit and push. */
  datatype SyncOracle = SyncOracle(reset: Git.ResetOracle, addAll: Option<Error>, commit: Option<Error>, push: Option<Error>)

  function ResetError(r: Result<(Git.Repo, Git.Worktree)>): Option<Error>
  {
    if r.Ok? then None else Some(r.error)
  }

  /** The attempts after the optional Reset. */
  function SyncTail(timestamp: string, o: SyncOracle): seq<Attempt>
  {
    [Attempt(AddAllStep, o.addAll),
     Attempt(CommitStep(CommitPrefix + timestamp, AuthorName, AuthorEmail), o.commit),
     Attempt(PushStep(Git.RemoteName, PushRefSpec), o.push)]
  }

  /** Sync's plan paired with each step's outcome, `resetErr` being what
      Reset returns. */
  function SyncAttempts(purge: bool, timestamp: string, resetErr: Option<Error>, o: SyncOracle): (a: seq<Attempt>)
    ensures Steps(a) == SyncPlan(purge, timestamp)
  {
    (if purge then [Attempt(ResetStep, resetErr)] else []) + SyncTail(timestamp, o)
  }

  /** Sync's result written out step by step, `resetErr` being what Reset returns. */
  function SyncOutcome(purge: bool, timestamp: string, resetErr: Option<Error>, o: SyncOracle): Run
  {
    var commit := CommitStep(CommitPrefix + timestamp, AuthorName, AuthorEmail);
    var push := PushStep(Git.RemoteName, PushRefSpec);
    var prefix := if purge then [ResetStep] else [];
    if purge && resetErr.Some? then Run([ResetStep], Some(Wrapped(Context(ResetStep), resetErr.value)))
    else if o.addAll.Some? then Run(prefix + [AddAllStep], Some(Wrapped(Context(AddAllStep), o.addAll.value)))
    else if o.commit.Some? then Run(prefix + [AddAllStep, commit], Some(Wrapped(Context(commit), o.commit.value)))
    else if o.push.Some? then Run(prefix + [AddAllStep, commit, push], Some(Wrapped(Context(push), o.push.value)))
    else Run(prefix + [AddAllStep, commit, push], None)
  }

  lemma SyncTailIsChain(timestamp: string, resetErr: Option<Error>, o: SyncOracle)
    ensures RunChain(SyncTail(timestamp, o)) == SyncOutcome(false, timestamp, resetErr, o)
  {
    var tail := SyncTail(timestamp, o);
    assert tail[1..][1..] == [tail[2]] && [tail[2]][1..] == [];
  }

  /** The step-by-step sync is the first-failure chain over its plan. */
  lemma SyncOutcomeIsChain(purge: bool, timestamp: string, resetErr: Option<Error>, o: SyncOracle)
    ensures SyncOutcome(purge, timestamp, resetErr, o) == RunChain(SyncAttempts(purge, timestamp, resetErr, o))
  {
    var a := SyncAttempts(purge, timestamp, resetErr, o);
    var tail := SyncTail(timestamp, o);
    SyncTailIsChain(timestamp, resetErr, o);
    if purge {
      assert a[1..] == tail;
      if resetErr.None? {
        var w := SyncOutcome(false, timestamp, resetErr, o);
        assert SyncOutcome(true, timestamp, resetErr, o) == Run([ResetStep] + w.executed, w.err);
      }
    }
  }

  /** Sync without purge never resets, whatever the outcomes. */
  lemma SyncWithoutPurgeNeverResets(timestamp: string, resetErr: Option<Error>, o: SyncOracle)
    ensures ResetStep !in RunChain(SyncAttempts(false, timestamp, resetErr, o)).executed
  {
    SyncOutcomeIsChain(false, timestamp, resetErr, o);
  }

  /** Sync runs its steps in the order of SyncPlan and stops at the first
      failure: what it ran is a prefix of the plan, and it succeeds exactly
      when the reset (if any), add, commit and push all succeed. */
  lemma SyncRunsPlanInOrder(purge: bool, timestamp: string, resetErr: Option<Error>, o: SyncOracle)
    ensures RunChain(SyncAttempts(purge, timestamp, resetErr, o)).executed <= SyncPlan(purge, timestamp)
    ensures RunChain(SyncAttempts(purge, timestamp, resetErr, o)).err.None? <==>
              && (purge ==> resetErr.None?)
              && o.addAll.None? && o.commit.None? && o.push.None?
  {
    SyncOutcomeIsChain(purge, timestamp, resetErr, o);
  }

  // ---------------------------------------------------------------------------
  // GitFs
  // ---------------------------------------------------------------------------

  /** The arguments New hands to NewGit. */
  datatype GitArgs = GitArgs(repoUrl: string, useMemfs: bool, baseDir: string, errorIfExists: bool)

  /** New: validates `config` before creating anything, then opens or clones
      with errorIfExists set to the negation of openExisting. `args` records
      the call to NewGit, None when there was none. The context is not
      modelled. */
  method New(config: Config, o: Git.OpenOracle) returns (r: Result<GitFs>, args: Option<GitArgs>)
    modifies config
    ensures config.Value() == Validate(old(config.Value())).config
    ensures Validate(old(config.Value())).err.Some? ==>
              r == Err(Validate(old(config.Value())).err.value) && args.None?
    ensures Validate(old(config.Value())).err.None? ==>
              && args == Some(GitArgs(config.repoUrl, config.useMemFs, config.osFsBaseDir, !config.openExisting))
              && var plan := Git.OpenPlan(config.repoUrl, config.useMemFs, config.osFsBaseDir, !config.openExisting, o);
                 && (plan.Err? ==> r == Err(Wrapped("error creating git client", plan.error)))
                 && (plan.Ok? ==> r.Ok? && fresh(r.value) && fresh(r.value.git)
                                  && r.value.git.State() == plan.value && r.value.fs == plan.value.fs)
  {
    var err := config.Valid();
    if err.Some? {
      return Err(err.value), None;
    }
    args := Some(GitArgs(config.repoUrl, config.useMemFs, config.osFsBaseDir, !config.openExisting));
    var git := Git.NewGit(config.repoUrl, config.useMemFs, config.osFsBaseDir, !config.openExisting, o);
    if git.Err? {
      return Err(Wrapped("error creating git client", git.error)), args;
    }
    var g := new GitFs(git.value, git.value.fs);
    return Ok(g), args;
  }

  /** Exist: `stat` is the outcome of fs.Stat(path). A missing path is no
      error; any other stat failure is reported, wrapped. */
  function Exist(stat: Git.StatResult): (r: (bool, Option<Error>))
    ensures r.0 <==> stat.Stat?
    ensures r.1.None? <==> stat.Stat? || IsNotExist(stat.err)
    ensures r.1.Some? ==> r.1 == Some(Wrapped("error stating path", stat.err))
  {
    match stat
    case StatFailed(e) => if IsNotExist(e) then (false, None) else (false, Some(Wrapped("error stating path", e)))
    case Stat(_) => (true, None)
  }

  /** Exist and buildDotStore read a stat of `.git` alike, except that a
      failing stat other than not-exist counts as present for buildDotStore
      (which then fails) and as absent for Exist (which reports it). */
  lemma ExistAgreesWithProbe(fs: Git.Filesystem, stat: Git.StatResult, chroot: Option<Error>, errorIfExists: bool)
    ensures Exist(stat).1.None? ==> Exist(stat).0 == Git.BuildDotStore(fs, stat, chroot, errorIfExists).present
    ensures Exist(stat).1.Some? ==> Git.BuildDotStore(fs, stat, chroot, errorIfExists).store.Err?
  {
  }

  /** A gitfs file system: a repository handle and its store. */
  class GitFs {
    const git: Git.Git
    const fs: Git.Filesystem

    constructor (git: Git.Git, fs: Git.Filesystem)
      ensures this.git == git && this.fs == fs
    {
      this.git := git;
      this.fs := fs;
    }

    method Pull(outcome: Option<Error>) returns (err: Option<Error>)
      ensures err.None? <==> outcome.None? || outcome == Some(AlreadyUpToDate)
      ensures err.Some? ==> err == Some(Wrapped("error pulling changes from origin", outcome.value))
    {
      err := git.Pull(outcome);
    }

    /** Sync: Reset when `purge`, then add everything, commit with the
        message for `timestamp`, and push, stopping at the first failure.
        `executed` lists the steps run. The repository is replaced only by a
        successful Reset. */
    method Sync(purge: bool, timestamp: string, o: SyncOracle) returns (err: Option<Error>, executed: seq<SyncStep>)
      modifies git`repo, git`wt
      ensures Run(executed, err) == SyncOutcome(purge, timestamp, ResetError(Git.ResetPlan(git.fs, git.repoUrl, o.reset)), o)
      ensures purge && Git.ResetPlan(git.fs, git.repoUrl, o.reset).Ok? ==>
                (git.repo, git.wt) == Git.ResetPlan(git.fs, git.repoUrl, o.reset).value
      ensures !(purge && Git.ResetPlan(git.fs, git.repoUrl, o.reset).Ok?) ==>
                git.repo == old(git.repo) && git.wt == old(git.wt)
    {
      executed := [];
      if purge {
        executed := executed + [ResetStep];
        var e := git.Reset(o.reset);
        if e.Some? {
          return Some(Wrapped(Context(ResetStep), e.value)), executed;
        }
      }
      executed := executed + [AddAllStep];
      if o.addAll.Some? {
        return Some(Wrapped(Context(AddAllStep), o.addAll.value)), executed;
      }
      var commit := CommitStep(CommitPrefix + timestamp, AuthorName, AuthorEmail);
      executed := executed + [commit];
      if o.commit.Some? {
        return Some(Wrapped(Context(commit), o.commit.value)), executed;
      }
      var push := PushStep(Git.RemoteName, PushRefSpec);
      executed := executed + [push];
      if o.push.Some? {
        return Some(Wrapped(Context(push), o.push.value)), executed;
      }
      return None, executed;
    }
  }
}
