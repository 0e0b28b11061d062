/** The root command's pre-run and post-run hooks (pkg/cmd/root.go): first
    as functions from the world before a hook to the world after it and the
    hook's outcome, then as the methods of `RootCmd`, proved to do exactly
    what those functions say. */
module Root {
  import opened Wrappers
  import opened Text
  import opened Whitelists
  import opened Environment

  const MsgInit := "To start using rit, you need to initialize rit first.\nCommand: rit init"
  const StableVersionUrl := "https://commons-repo.ritchiecli.io/stable.txt"
  const FetchTimeoutSeconds: nat := 1

  /** The tutorial status that turns the banner on; the value is defined
      outside root.go and no property below depends on it. */
  const TutorialStatusOn := "on"

  const TagTutorial := "\n[TUTORIAL]"
  const MessageTitle := "To initialize the ritchie:"
  const MessageBody := " \U{2219} Run \"rit init\"" + "\n"

  /** The three lines of the first-run banner, in the order they are printed. */
  const TutorialBanner: seq<Line> := [Info(TagTutorial), Info(MessageTitle), Plain(MessageBody)]

  /** How the pre-run hook ends: with an error, by letting the command run, or
      by printing MsgInit and exiting the process with status 0. */
  datatype PreOutcome = PreErr(error: string) | Proceed | ExitInit

  /** How the post-run hook ends. */
  datatype PostOutcome = PostErr(error: string) | PostOk

  /** `s` with every trailing '/' removed. */
  function TrimTrailingSlashes(s: string): (r: string)
    ensures |r| <= |s| && r == s[..|r|]
    ensures forall k :: |r| <= k < |s| ==> s[k] == '/'
    ensures r == "" || r[|r| - 1] != '/'
  {
    if |s| > 0 && s[|s| - 1] == '/' then TrimTrailingSlashes(s[..|s| - 1]) else s
  }

  /** path.Join(home, "repos", "commons"): the initialization marker, the
      home path (without trailing slashes) followed by "/repos/commons". */
  function CommonsPath(home: string): (r: string)
    ensures home == "" ==> r == "repos/commons"
    ensures home != "" ==> r == TrimTrailingSlashes(home) + "/repos/commons"
    ensures r != home
    ensures |r| >= |"repos/commons"| && r[|r| - |"repos/commons"|..] == "repos/commons"
  {
    var base := TrimTrailingSlashes(home);
    if home == "" then "repos/commons"
    else
      var r := base + "/repos/commons";
      assert r[|base|] == '/' && r[|base| + 1] == 'r';
      assert r[|r| - |"repos/commons"|..] == "repos/commons";
      r
  }

  /** ritchieIsInitialized: one existence query for the marker; the answer
      is the marker's presence, and only the call trace changes. */
  function CheckInitialized(w: World, home: string): (r: Answer<bool>)
    ensures r.value <==> CommonsPath(home) in w.paths
    ensures r.world == w.(calls := w.calls + [DirExists(CommonsPath(home))])
  {
    ExistsStep(w, CommonsPath(home))
  }

  /** The pre-run hook. It always asks to create the home directory first;
      a failed creation ends it with that error. Exempt paths then proceed;
      any other path asks for the marker and proceeds when it exists, or
      prints MsgInit and takes the early exit when it does not. */
  function PreRun(w: World, home: string, path: string): (r: Answer<PreOutcome>)
    ensures r.value ==
      if w.createError.Some? then PreErr(w.createError.value)
      else if Exempt(path) || CommonsPath(home) in w.paths then Proceed
      else ExitInit
    ensures r.world.calls ==
      w.calls + [DirCreate(home)] +
      (if w.createError.None? && !Exempt(path) then [DirExists(CommonsPath(home))] else [])
    ensures r.world.paths == if w.createError.None? then w.paths + {home} else w.paths
    ensures r.world.out == w.out + (if r.value == ExitInit then [Plain(MsgInit)] else [])
  {
    var created := CreateStep(w, home);
    if created.value.Some? then Answer(created.world, PreErr(created.value.value))
    else if IsWhitelist(Whitelist, path) || IsCompleteCmd(path) then Answer(created.world, Proceed)
    else
      var init := CheckInitialized(created.world, home);
      if !init.value then Answer(PrintStep(init.world, Plain(MsgInit)), ExitInit)
      else Answer(init.world, Proceed)
  }

  /** verifyNewVersion: the bare root path, and only it, fetches the stable
      version and prints the notice built from the answer. */
  function NotifyNewVersion(w: World, path: string, version: string): (r: World)
    ensures r.calls == w.calls + (if path == CmdUse then [StableFetch(StableVersionUrl, FetchTimeoutSeconds)] else [])
    ensures r.out == w.out + (if path == CmdUse then [VersionNotice(w.stable, version)] else [])
    ensures r == w.(calls := r.calls, out := r.out)
  {
    if IsWhitelist(UpgradeWhitelist, path) then
      var fetched := FetchStep(w, StableVersionUrl, FetchTimeoutSeconds);
      PrintStep(fetched.world, VersionNotice(fetched.value, version))
    else w
  }

  /** tutorialRit: the banner, when the status is the "on" status, and
      nothing otherwise. */
  function ShowTutorial(w: World, status: string): (r: World)
    ensures r.out == w.out + (if status == TutorialStatusOn then TutorialBanner else [])
    ensures r == w.(out := r.out)
  {
    if status == TutorialStatusOn then
      PrintStep(PrintStep(PrintStep(w, TutorialBanner[0]), TutorialBanner[1]), TutorialBanner[2])
    else w
  }

  /** The post-run hook. The stable version is fetched only for the bare
      root path; then the marker is asked for, and only when it is missing
      is the tutorial store asked, whose error ends the hook and whose
      status decides the banner. */
  function PostRun(w: World, home: string, path: string, version: string): (r: Answer<PostOutcome>)
    ensures r.value ==
      if CommonsPath(home) !in w.paths && w.tutorial.Err? then PostErr(w.tutorial.error) else PostOk
    ensures r.world.calls ==
      w.calls +
      (if path == CmdUse then [StableFetch(StableVersionUrl, FetchTimeoutSeconds)] else []) +
      [DirExists(CommonsPath(home))] +
      (if CommonsPath(home) in w.paths then [] else [TutorialFind])
    ensures r.world.out ==
      w.out +
      (if path == CmdUse then [VersionNotice(w.stable, version)] else []) +
      (if CommonsPath(home) !in w.paths && w.tutorial == Ok(TutorialStatusOn) then TutorialBanner else [])
    ensures r.world.paths == w.paths
  {
    var notified := NotifyNewVersion(w, path, version);
    var init := CheckInitialized(notified, home);
    if !init.value then
      var found := FindStep(init.world);
      match found.value
      case Err(e) => Answer(found.world, PostErr(e))
      case Ok(status) => Answer(ShowTutorial(found.world, status), PostOk)
    else Answer(init.world, PostOk)
  }

  /** rootCmd: the home directory and the collaborators, fixed at construction. */
  class RootCmd {
    const ritchieHome: string
    const env: Env

    constructor (ritchieHome: string, env: Env)
      ensures this.ritchieHome == ritchieHome && this.env == env
    {
      this.ritchieHome := ritchieHome;
      this.env := env;
    }

    method RitchieIsInitialized() returns (b: bool)
      modifies env
      ensures Answer(env.State(), b) == CheckInitialized(old(env.State()), ritchieHome)
    {
      b := env.Exists(CommonsPath(ritchieHome));
    }

    /** The function PersistentPreRunE runs before every command. */
    method PreRunFunc(path: string) returns (outcome: PreOutcome)
      modifies env
      ensures Answer(env.State(), outcome) == PreRun(old(env.State()), ritchieHome, path)
    {
      var err := env.Create(ritchieHome);
      if err.Some? {
        return PreErr(err.value);
      }
      if IsWhitelist(Whitelist, path) || IsCompleteCmd(path) {
        return Proceed;
      }
      var initialized := RitchieIsInitialized();
      if !initialized {
        env.Println(Plain(MsgInit));
        return ExitInit;
      }
      return Proceed;
    }

    /** The function PersistentPostRunE runs after every command. */
    method PostRunFunc(path: string, version: string) returns (outcome: PostOutcome)
      modifies env
      ensures Answer(env.State(), outcome) == PostRun(old(env.State()), ritchieHome, path, version)
    {
      VerifyNewVersion(path, version);
      var initialized := RitchieIsInitialized();
      if !initialized {
        var found := env.Find();
        if found.Err? {
          return PostErr(found.error);
        }
        TutorialRit(found.value);
      }
      return PostOk;
    }

    method VerifyNewVersion(path: string, version: string)
      modifies env
      ensures env.State() == NotifyNewVersion(old(env.State()), path, version)
    {
      if IsWhitelist(UpgradeWhitelist, path) {
        var stable := env.Fetch(StableVersionUrl, FetchTimeoutSeconds);
        env.Println(VersionNotice(stable, version));
      }
    }

    method TutorialRit(status: string)
      modifies env
      ensures env.State() == ShowTutorial(old(env.State()), status)
    {
      if status == TutorialStatusOn {
        env.Println(Info(TagTutorial));
        env.Println(Info(MessageTitle));
        env.Println(Plain(MessageBody));
      }
    }
  }
}
