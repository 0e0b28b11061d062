/** Which command paths are exempt from the initialization gate and which
    trigger the upgrade notice (pkg/cmd/root.go). */
module Whitelists {
  import opened Text

  /** The root command's name; every command path starts with it. */
  const CmdUse := "rit"

  /** Command paths that run even when rit is not initialized. */
  const Whitelist: seq<string> := [
    CmdUse,
    CmdUse + " help",
    CmdUse + " completion zsh",
    CmdUse + " completion bash",
    CmdUse + " completion fish",
    CmdUse + " completion powershell",
    CmdUse + " init",
    CmdUse + " upgrade"
  ]

  /** Command paths after which the upgrade notice is attempted. */
  const UpgradeWhitelist: seq<string> := [CmdUse]

  /** The marker that dynamic shell-completion queries carry in their path. */
  const CompleteMarker := "__complete"

  /** sliceutil.Contains: a front-to-back scan comparing whole strings,
      answering yes exactly when `s` equals one of the entries. */
  function Member(list: seq<string>, s: string): (r: bool)
    ensures r <==> s in list
  {
    if list == [] then false
    else
      assert list == [list[0]] + list[1..];
      list[0] == s || Member(list[1..], s)
  }

  /** isWhitelist: the command path is, as a whole string, one of the list's
      entries. */
  function IsWhitelist(list: seq<string>, path: string): (r: bool)
    ensures r <==> path in list
  {
    Member(list, path)
  }

  /** isCompleteCmd: the command path contains the completion marker
      somewhere. */
  function IsCompleteCmd(path: string): (r: bool)
    ensures r <==> Occurs(path, CompleteMarker)
  {
    Contains(path, CompleteMarker)
  }

  /** Command paths the pre-run hook lets through without the initialization check. */
  predicate Exempt(path: string)
  {
    IsWhitelist(Whitelist, path) || IsCompleteCmd(path)
  }

  /** Whitelist membership is exact equality with one of the eight entries. */
  lemma WhitelistIsExact(path: string)
    ensures IsWhitelist(Whitelist, path) <==>
      path == "rit" || path == "rit help" ||
      path == "rit completion zsh" || path == "rit completion bash" ||
      path == "rit completion fish" || path == "rit completion powershell" ||
      path == "rit init" || path == "rit upgrade"
  {
    assert CmdUse + " help" == "rit help";
    assert CmdUse + " completion zsh" == "rit completion zsh";
    assert CmdUse + " completion bash" == "rit completion bash";
    assert CmdUse + " completion fish" == "rit completion fish";
    assert CmdUse + " completion powershell" == "rit completion powershell";
    assert CmdUse + " init" == "rit init";
    assert CmdUse + " upgrade" == "rit upgrade";
    assert Whitelist == ["rit", "rit help", "rit completion zsh", "rit completion bash",
      "rit completion fish", "rit completion powershell", "rit init", "rit upgrade"];
  }

  /** No prefix matching: "rit init" and the bare "rit" are whitelisted,
      "rit init foo" is not. */
  lemma NoPrefixMatching()
    ensures IsWhitelist(Whitelist, "rit init")
    ensures IsWhitelist(Whitelist, "rit")
    ensures !IsWhitelist(Whitelist, "rit init foo")
  {
    WhitelistIsExact("rit init");
    WhitelistIsExact("rit");
    WhitelistIsExact("rit init foo");
  }

  /** The upgrade notice gate admits the bare root path and nothing else. */
  lemma UpgradeWhitelistIsRootOnly(path: string)
    ensures IsWhitelist(UpgradeWhitelist, path) <==> path == CmdUse
  {
  }

  /** Any path carrying the completion marker, wherever it sits, is a
      completion query. */
  lemma CompletionAnywhere(before: string, after: string)
    ensures IsCompleteCmd(before + CompleteMarker + after)
  {
    ContainsInfix(before, CompleteMarker, after);
  }

  /** The two exemptions do not overlap: no whitelist entry is a completion
      query (none of them holds an underscore). */
  lemma WhitelistHasNoCompletion(path: string)
    requires IsWhitelist(Whitelist, path)
    ensures !IsCompleteCmd(path)
  {
    WhitelistIsExact(path);
    if IsCompleteCmd(path) {
      ContainsFirstChar(path, CompleteMarker);
      assert false;
    }
  }
}
