/** The text of `rit --version` (versionFlag in pkg/cmd/root.go). */
module Version {
  import opened Wrappers
  import opened Text

  const LatestVersionMsg := "Latest available version: %s"
  const VersionMsg := "%s\n  Build date: %s\n  Built with: %s\n"
  const VersionMsgWithLatestVersion := "%s\n  %s\n  Build date: %s\n  Built with: %s\n"

  /** Build-time facts: the injected version and build date, and the Go
      runtime's version. */
  datatype Build = Build(version: string, buildDate: string, goVersion: string)

  /** The plain format with its three arguments filled in. */
  lemma PlainText(v: string, date: string, goVersion: string)
    ensures Sprintf(VersionMsg, [v, date, goVersion])
         == v + "\n  Build date: " + date + "\n  Built with: " + goVersion + "\n"
  {
    assert VersionMsg == "%s" + "\n  Build date: " + "%s" + "\n  Built with: " + "%s" + "\n";
    SprintfThree("\n  Build date: ", "\n  Built with: ", "\n", v, date, goVersion);
  }

  /** The format with the latest-version line, its four arguments filled in. */
  lemma NoticeText(v: string, notice: string, date: string, goVersion: string)
    ensures Sprintf(VersionMsgWithLatestVersion, [v, notice, date, goVersion])
         == v + "\n  " + notice + "\n  Build date: " + date + "\n  Built with: " + goVersion + "\n"
  {
    assert VersionMsgWithLatestVersion
        == "%s" + "\n  " + "%s" + "\n  Build date: " + "%s" + "\n  Built with: " + "%s" + "\n";
    SprintfFour("\n  ", "\n  Build date: ", "\n  Built with: ", "\n", v, notice, date, goVersion);
  }

  /** The latest-version line before colouring. */
  lemma LatestText(latest: string)
    ensures Sprintf(LatestVersionMsg, [latest]) == "Latest available version: " + latest
  {
    assert LatestVersionMsg == "Latest available version: " + VerbsFormat([""]);
    SprintfLiteral("Latest available version: ", VerbsFormat([""]), [latest]);
    SprintfVerbs([""], [latest]);
    InterleaveOne(latest, "");
  }

  /** versionFlag: given the running build, the answer of the stable-version
      fetch and the colouring prompt.Yellow applies, the `--version` text.
      The latest version is shown exactly when the fetch succeeded and its
      answer differs, as a string, from the running version; otherwise, a
      failed fetch included, only the build facts are shown. */
  function VersionFlag(build: Build, latest: Result<string>, yellow: string -> string): (r: string)
    ensures latest.Ok? && latest.value != build.version ==>
      r == build.version + "\n  " + yellow("Latest available version: " + latest.value)
           + "\n  Build date: " + build.buildDate + "\n  Built with: " + build.goVersion + "\n"
    ensures latest.Err? || latest.value == build.version ==>
      r == build.version + "\n  Build date: " + build.buildDate + "\n  Built with: " + build.goVersion + "\n"
  {
    if latest.Ok? && latest.value != build.version then
      var notice := yellow(Sprintf(LatestVersionMsg, [latest.value]));
      LatestText(latest.value);
      NoticeText(build.version, notice, build.buildDate, build.goVersion);
      Sprintf(VersionMsgWithLatestVersion, [build.version, notice, build.buildDate, build.goVersion])
    else
      PlainText(build.version, build.buildDate, build.goVersion);
      Sprintf(VersionMsg, [build.version, build.buildDate, build.goVersion])
  }
}
