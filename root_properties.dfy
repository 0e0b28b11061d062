/** What the two hooks promise: which collaborators they consult, in which
    order, and how each hook ends. */
module RootProperties {
  import opened Wrappers
  import opened Text
  import opened Whitelists
  import opened Environment
  import opened Root

  /** A failed creation ends the hook with that very error; neither the
      whitelist nor the marker is looked at, and nothing is printed. */
  lemma PreRunCreateFailure(w: World, home: string, path: string)
    requires w.createError.Some?
    ensures PreRun(w, home, path) ==
      Answer(w.(calls := w.calls + [DirCreate(home)]), PreErr(w.createError.value))
  {
  }

  /** Whitelisted and completion paths proceed right after the home
      directory is created, without consulting Exists. */
  lemma PreRunExemptProceeds(w: World, home: string, path: string)
    requires w.createError.None? && Exempt(path)
    ensures PreRun(w, home, path) ==
      Answer(w.(paths := w.paths + {home}, calls := w.calls + [DirCreate(home)]), Proceed)
  {
  }

  /** For any other path the marker decides: without it the hook prints
      MsgInit and exits with status 0, with it the hook proceeds silently. */
  lemma PreRunGate(w: World, home: string, path: string)
    requires w.createError.None? && !Exempt(path)
    ensures PreRun(w, home, path).value == (if CommonsPath(home) in w.paths then Proceed else ExitInit)
    ensures PreRun(w, home, path).world.out ==
      w.out + (if CommonsPath(home) in w.paths then [] else [Plain(MsgInit)])
  {
  }

  /** An exempt path never ends in the early exit, whatever the marker. */
  lemma ExemptNeverExits(w: World, home: string, path: string)
    requires Exempt(path)
    ensures PreRun(w, home, path).value != ExitInit
  {
  }

  /** Asking twice gives the same answer. */
  lemma CheckInitializedIdempotent(w: World, home: string)
    ensures CheckInitialized(CheckInitialized(w, home).world, home).value == CheckInitialized(w, home).value
  {
  }

  /** Within the post-run hook, the stable version is fetched for the bare
      root path and for no other: no subcommand's post-run hook fetches. */
  lemma VersionNoticeOnlyForRoot(w: World, home: string, path: string, version: string)
    ensures StableFetch(StableVersionUrl, FetchTimeoutSeconds) in PostRun(w, home, path, version).world.calls[|w.calls|..]
        <==> path == CmdUse
  {
    var tail := PostRun(w, home, path, version).world.calls[|w.calls|..];
    assert tail ==
      (if path == CmdUse then [StableFetch(StableVersionUrl, FetchTimeoutSeconds)] else []) +
      [DirExists(CommonsPath(home))] +
      (if CommonsPath(home) in w.paths then [] else [TutorialFind]);
  }

  /** When initialized the hook succeeds and never asks the tutorial store. */
  lemma PostRunInitialized(w: World, home: string, path: string, version: string)
    requires CommonsPath(home) in w.paths
    ensures PostRun(w, home, path, version).value == PostOk
    ensures TutorialFind !in PostRun(w, home, path, version).world.calls[|w.calls|..]
  {
    var tail := PostRun(w, home, path, version).world.calls[|w.calls|..];
    assert tail ==
      (if path == CmdUse then [StableFetch(StableVersionUrl, FetchTimeoutSeconds)] else []) +
      [DirExists(CommonsPath(home))];
  }

  /** When not initialized, an error from the tutorial store ends the hook
      with that very error. */
  lemma PostRunFindError(w: World, home: string, path: string, version: string)
    requires CommonsPath(home) !in w.paths && w.tutorial.Err?
    ensures PostRun(w, home, path, version).value == PostErr(w.tutorial.error)
  {
  }

  /** When not initialized and the store answers, the hook succeeds and
      prints the banner exactly when the status is the "on" status; the
      banner is all it prints after the version notice. */
  lemma PostRunTutorial(w: World, home: string, path: string, version: string)
    requires CommonsPath(home) !in w.paths && w.tutorial.Ok?
    ensures PostRun(w, home, path, version).value == PostOk
    ensures PostRun(w, home, path, version).world.out ==
      NotifyNewVersion(w, path, version).out +
      (if w.tutorial.value == TutorialStatusOn then TutorialBanner else [])
    ensures Info(TagTutorial) in PostRun(w, home, path, version).world.out[|w.out|..]
        <==> w.tutorial.value == TutorialStatusOn
  {
    var after := PostRun(w, home, path, version).world.out[|w.out|..];
    var notice := NotifyNewVersion(w, path, version).out[|w.out|..];
    assert notice == if IsWhitelist(UpgradeWhitelist, path) then [VersionNotice(w.stable, version)] else [];
    assert after == notice + (if w.tutorial.value == TutorialStatusOn then TutorialBanner else []);
    if w.tutorial.value == TutorialStatusOn {
      assert after[|notice|] == Info(TagTutorial);
    }
  }

  /** The pre-run hook never leaves the marker behind: creating the home
      directory does not make rit initialized. A first run on a fresh home,
      for a command such as "rit formula", creates the home, prints MsgInit
      and exits with status 0. */
  lemma FreshHomeScenario(w: World, home: string)
    requires w.paths == {} && w.createError.None?
    ensures PreRun(w, home, "rit formula").value == ExitInit
    ensures home in PreRun(w, home, "rit formula").world.paths
    ensures PreRun(w, home, "rit formula").world.out == w.out + [Plain(MsgInit)]
  {
    WhitelistIsExact("rit formula");
    assert !IsCompleteCmd("rit formula") by {
      if IsCompleteCmd("rit formula") {
        ContainsFirstChar("rit formula", CompleteMarker);
        assert false;
      }
    }
  }

  /** "rit init" proceeds whether or not the marker is there. */
  lemma InitScenario(w: World, home: string)
    requires w.createError.None?
    ensures PreRun(w, home, "rit init").value == Proceed
  {
    NoPrefixMatching();
  }
}
