/**
 * The cluster lifecycle tools: the talosctl argument lists that reboot,
 * shutdown, reset, upgrade, image, bootstrap and cluster-show build from their
 * arguments, and the base class each tool derives from.
 *
 * Each argument record carries the defaults of its schema. Each builder grows
 * the list step by step; its contract pins the final list to a reference
 * definition. A reader for every list but bootstrap's shows that the list
 * determines the arguments it was built from, normalised for image and
 * cluster show; the bootstrap list is tied to `ensure_nodes` instead.
 */
module Cluster {
  import opened Wrappers
  import opened Text
  import opened Cache
  import opened Base

  // ---------------------------------------------------------------------------
  // Argument records
  // ---------------------------------------------------------------------------

  datatype RebootArgs = RebootArgs(nodes: string, mode: string := "default")
  datatype ShutdownArgs = ShutdownArgs(nodes: string, force: bool := false)
  datatype ResetArgs = ResetArgs(nodes: string, reboot: bool := false,
                                 systemLabelsToWipe: string := "", graceful: bool := true)
  datatype UpgradeArgs = UpgradeArgs(nodes: string, image: string, preserve: bool := true)
  datatype ImageArgs = ImageArgs(nodes: string, cmd: string := "list", image: string := "",
                                 layout: string := "", platform: string := "")
  datatype BootstrapArgs = BootstrapArgs(nodes: string)
  datatype ClusterShowArgs = ClusterShowArgs(nodes: Option<string> := None)

  /** `flag value` when the value is non-empty, nothing otherwise. */
  function OptionalPair(flag: string, value: string): seq<string> {
    if value != "" then [flag, value] else []
  }

  // ---------------------------------------------------------------------------
  // Reboot
  // ---------------------------------------------------------------------------

  /** `reboot -n NODES`, and `--mode MODE` for any mode but "default". */
  function RebootArgv(a: RebootArgs): seq<string> {
    ["reboot", "-n", a.nodes] + (if a.mode != "default" then ["--mode", a.mode] else [])
  }

  method RebootCommand(a: RebootArgs) returns (cmd: seq<string>)
    ensures cmd == RebootArgv(a)
  {
    cmd := ["reboot", "-n", a.nodes];
    if a.mode != "default" {
      cmd := cmd + ["--mode", a.mode];
    }
  }

  function ParseReboot(argv: seq<string>): Option<RebootArgs> {
    if |argv| < 3 || argv[0] != "reboot" || argv[1] != "-n" then None
    else if |argv| == 3 then Some(RebootArgs(argv[2]))
    else if |argv| == 5 && argv[3] == "--mode" && argv[4] != "default" then Some(RebootArgs(argv[2], argv[4]))
    else None
  }

  lemma RebootRoundTrip(a: RebootArgs)
    ensures ParseReboot(RebootArgv(a)) == Some(a)
  {
  }

  // ---------------------------------------------------------------------------
  // Shutdown
  // ---------------------------------------------------------------------------

  /** `shutdown -n NODES`, and `--force` when forced. */
  function ShutdownArgv(a: ShutdownArgs): seq<string> {
    ["shutdown", "-n", a.nodes] + (if a.force then ["--force"] else [])
  }

  method ShutdownCommand(a: ShutdownArgs) returns (cmd: seq<string>)
    ensures cmd == ShutdownArgv(a)
  {
    cmd := ["shutdown", "-n", a.nodes];
    if a.force {
      cmd := cmd + ["--force"];
    }
  }

  function ParseShutdown(argv: seq<string>): Option<ShutdownArgs> {
    if |argv| < 3 || argv[0] != "shutdown" || argv[1] != "-n" then None
    else if |argv| == 3 then Some(ShutdownArgs(argv[2]))
    else if |argv| == 4 && argv[3] == "--force" then Some(ShutdownArgs(argv[2], true))
    else None
  }

  lemma ShutdownRoundTrip(a: ShutdownArgs)
    ensures ParseShutdown(ShutdownArgv(a)) == Some(a)
  {
  }

  // ---------------------------------------------------------------------------
  // Reset
  // ---------------------------------------------------------------------------

  /** `reset -n NODES`, then `--reboot`, `--system-labels-to-wipe LABELS` and
      `--graceful=false`, each only when it applies, in that order. */
  function ResetArgv(a: ResetArgs): seq<string> {
    ["reset", "-n", a.nodes]
      + (if a.reboot then ["--reboot"] else [])
      + OptionalPair("--system-labels-to-wipe", a.systemLabelsToWipe)
      + (if !a.graceful then ["--graceful=false"] else [])
  }

  method ResetCommand(a: ResetArgs) returns (cmd: seq<string>)
    ensures cmd == ResetArgv(a)
  {
    cmd := ["reset", "-n", a.nodes];
    if a.reboot {
      cmd := cmd + ["--reboot"];
    }
    if a.systemLabelsToWipe != "" {
      cmd := cmd + ["--system-labels-to-wipe", a.systemLabelsToWipe];
    }
    if !a.graceful {
      cmd := cmd + ["--graceful=false"];
    }
  }

  /** Reads the flags of a reset list from index 3 on, each where it may stand. */
  function ParseReset(argv: seq<string>): Option<ResetArgs> {
    if |argv| < 3 || argv[0] != "reset" || argv[1] != "-n" then None
    else
      var rest := argv[3..];
      var reboot := |rest| > 0 && rest[0] == "--reboot";
      var rest1 := if reboot then rest[1..] else rest;
      var hasLabels := |rest1| >= 2 && rest1[0] == "--system-labels-to-wipe" && rest1[1] != "";
      var labels := if hasLabels then rest1[1] else "";
      var rest2 := if hasLabels then rest1[2..] else rest1;
      var notGraceful := |rest2| > 0 && rest2[0] == "--graceful=false";
      var rest3 := if notGraceful then rest2[1..] else rest2;
      if rest3 == [] then Some(ResetArgs(argv[2], reboot, labels, !notGraceful)) else None
  }

  lemma ResetRoundTrip(a: ResetArgs)
    ensures ParseReset(ResetArgv(a)) == Some(a)
  {
    var argv := ResetArgv(a);
    var r := if a.reboot then ["--reboot"] else [];
    var l := OptionalPair("--system-labels-to-wipe", a.systemLabelsToWipe);
    var g := if !a.graceful then ["--graceful=false"] else [];
    assert argv[3..] == r + l + g;
    assert (r + l + g)[|r|..] == l + g;
    assert (l + g)[|l|..] == g;
  }

  // ---------------------------------------------------------------------------
  // Upgrade
  // ---------------------------------------------------------------------------

  /** `upgrade -n NODES --image IMAGE`, and `--preserve` when preserving. */
  function UpgradeArgv(a: UpgradeArgs): seq<string> {
    ["upgrade", "-n", a.nodes, "--image", a.image] + (if a.preserve then ["--preserve"] else [])
  }

  method UpgradeCommand(a: UpgradeArgs) returns (cmd: seq<string>)
    ensures cmd == UpgradeArgv(a)
  {
    cmd := ["upgrade", "-n", a.nodes, "--image", a.image];
    if a.preserve {
      cmd := cmd + ["--preserve"];
    }
  }

  function ParseUpgrade(argv: seq<string>): Option<UpgradeArgs> {
    if |argv| < 5 || argv[0] != "upgrade" || argv[1] != "-n" || argv[3] != "--image" then None
    else if |argv| == 5 then Some(UpgradeArgs(argv[2], argv[4], false))
    else if |argv| == 6 && argv[5] == "--preserve" then Some(UpgradeArgs(argv[2], argv[4]))
    else None
  }

  lemma UpgradeRoundTrip(a: UpgradeArgs)
    ensures ParseUpgrade(UpgradeArgv(a)) == Some(a)
  {
  }

  // ---------------------------------------------------------------------------
  // Image
  // ---------------------------------------------------------------------------

  /** The sub-commands `image` knows; any other falls back to "list". */
  predicate KnownImageCommand(cmd: string) {
    cmd in ["pull", "default", "cache-create", "cache-serve"]
  }

  /** Pulling and creating a cache need an image name. */
  predicate NeedsImage(cmd: string) {
    cmd == "pull" || cmd == "cache-create"
  }

  /** The sub-command part of an image list, between "image" and "-n". */
  function ImageSubcommand(a: ImageArgs): seq<string> {
    if a.cmd == "pull" then ["pull", a.image]
    else if a.cmd == "default" then ["default"]
    else if a.cmd == "cache-create" then
      ["cache-create", a.image] + OptionalPair("--layout", a.layout) + OptionalPair("--platform", a.platform)
    else if a.cmd == "cache-serve" then ["cache-serve"] + OptionalPair("--layout", a.layout)
    else ["list"]
  }

  /** `image SUB... -n NODES`: the node pair always comes last. */
  function ImageArgv(a: ImageArgs): seq<string> {
    ["image"] + ImageSubcommand(a) + ["-n", a.nodes]
  }

  /** What the image tool does: refuse with a message, or run an argument list. */
  datatype ImageAction = Refuse(message: string) | Execute(argv: seq<string>)

  /** The fields the image list actually carries: the sub-command (unknown ones
      read as "list") and only the options that sub-command uses. */
  function NormalizeImage(a: ImageArgs): ImageArgs {
    var cmd := if KnownImageCommand(a.cmd) then a.cmd else "list";
    ImageArgs(a.nodes, cmd,
              if NeedsImage(cmd) then a.image else "",
              if cmd == "cache-create" || cmd == "cache-serve" then a.layout else "",
              if cmd == "cache-create" then a.platform else "")
  }

  /** `ImageTool.run` before talosctl: a missing image for "pull" or "cache-create"
      is refused with a fixed message; otherwise the list is built. */
  method ImageCommand(a: ImageArgs) returns (action: ImageAction)
    ensures NeedsImage(a.cmd) && a.image == "" ==> action == Refuse("Image name required for " + a.cmd)
    ensures !(NeedsImage(a.cmd) && a.image == "") ==> action == Execute(ImageArgv(a))
  {
    var baseCmd := ["image"];
    if a.cmd == "pull" {
      if a.image == "" {
        return Refuse("Image name required for pull");
      }
      baseCmd := baseCmd + ["pull", a.image];
    } else if a.cmd == "default" {
      baseCmd := baseCmd + ["default"];
    } else if a.cmd == "cache-create" {
      if a.image == "" {
        return Refuse("Image name required for cache-create");
      }
      baseCmd := baseCmd + ["cache-create", a.image];
      if a.layout != "" {
        baseCmd := baseCmd + ["--layout", a.layout];
      }
      if a.platform != "" {
        baseCmd := baseCmd + ["--platform", a.platform];
      }
    } else if a.cmd == "cache-serve" {
      baseCmd := baseCmd + ["cache-serve"];
      if a.layout != "" {
        baseCmd := baseCmd + ["--layout", a.layout];
      }
    } else {
      baseCmd := baseCmd + ["list"];
    }
    baseCmd := baseCmd + ["-n", a.nodes];
    action := Execute(baseCmd);
  }

  /** `ImageTool.run`: a refusal answers its message without running talosctl;
      otherwise talosctl runs the list and `outcome` is how it ended. */
  method ImageToolRun(a: ImageArgs, outcome: ExecOutcome) returns (result: seq<Content>, ran: bool)
    ensures ran <==> !(NeedsImage(a.cmd) && a.image == "")
    ensures !ran ==> result == [TextContent("Image name required for " + a.cmd)]
    ensures ran ==> result == [TextContent(OutcomeText("talos_image", outcome))]
  {
    var action := ImageCommand(a);
    match action {
      case Refuse(message) =>
        result, ran := [TextContent(message)], false;
      case Execute(argv) =>
        result := ExecuteTalosctl("talos_image", outcome);
        ran := true;
    }
  }

  /** Reads optional `--layout L` then `--platform P` pairs; anything else is refused. */
  function ParseCacheOptions(rest: seq<string>, allowPlatform: bool): Option<(string, string)> {
    var hasLayout := |rest| >= 2 && rest[0] == "--layout" && rest[1] != "";
    var layout := if hasLayout then rest[1] else "";
    var rest1 := if hasLayout then rest[2..] else rest;
    var hasPlatform := allowPlatform && |rest1| >= 2 && rest1[0] == "--platform" && rest1[1] != "";
    var platform := if hasPlatform then rest1[1] else "";
    var rest2 := if hasPlatform then rest1[2..] else rest1;
    if rest2 == [] then Some((layout, platform)) else None
  }

  /** Reads the sub-command part of an image list. */
  function ParseImageSubcommand(sub: seq<string>, nodes: string): Option<ImageArgs> {
    if sub == ["list"] then Some(ImageArgs(nodes))
    else if sub == ["default"] then Some(ImageArgs(nodes, "default"))
    else if |sub| == 2 && sub[0] == "pull" && sub[1] != "" then Some(ImageArgs(nodes, "pull", sub[1]))
    else if |sub| >= 2 && sub[0] == "cache-create" && sub[1] != "" then
      match ParseCacheOptions(sub[2..], true)
      case Some((layout, platform)) => Some(ImageArgs(nodes, "cache-create", sub[1], layout, platform))
      case None => None
    else if |sub| >= 1 && sub[0] == "cache-serve" then
      match ParseCacheOptions(sub[1..], false)
      case Some((layout, _)) => Some(ImageArgs(nodes, "cache-serve", "", layout))
      case None => None
    else None
  }

  function ParseImage(argv: seq<string>): Option<ImageArgs> {
    if |argv| < 4 || argv[0] != "image" || argv[|argv| - 2] != "-n" then None
    else ParseImageSubcommand(argv[1..|argv| - 2], argv[|argv| - 1])
  }

  lemma CacheOptionsRoundTrip(layout: string, platform: string, allowPlatform: bool)
    requires allowPlatform || platform == ""
    ensures ParseCacheOptions(OptionalPair("--layout", layout) + OptionalPair("--platform", platform), allowPlatform)
         == Some((layout, platform))
  {
    var l := OptionalPair("--layout", layout);
    var p := OptionalPair("--platform", platform);
    assert (l + p)[|l|..] == p;
  }

  lemma ImageSubcommandRoundTrip(a: ImageArgs)
    requires !(NeedsImage(a.cmd) && a.image == "")
    ensures ParseImageSubcommand(ImageSubcommand(a), a.nodes) == Some(NormalizeImage(a))
  {
    var sub := ImageSubcommand(a);
    if a.cmd == "cache-create" {
      CacheOptionsRoundTrip(a.layout, a.platform, true);
      assert sub[2..] == OptionalPair("--layout", a.layout) + OptionalPair("--platform", a.platform);
    } else if a.cmd == "cache-serve" {
      CacheOptionsRoundTrip(a.layout, "", false);
      assert OptionalPair("--platform", "") == [];
      assert sub[0] == "cache-serve" && sub != ["list"] && sub != ["default"];
      assert sub[1..] == OptionalPair("--layout", a.layout) + OptionalPair("--platform", "");
    }
  }

  /** An image list that was built (a refused request builds none) reads back as
      the normalized arguments. */
  lemma ImageRoundTrip(a: ImageArgs)
    requires !(NeedsImage(a.cmd) && a.image == "")
    ensures ParseImage(ImageArgv(a)) == Some(NormalizeImage(a))
  {
    var argv := ImageArgv(a);
    assert argv[1..|argv| - 2] == ImageSubcommand(a);
    ImageSubcommandRoundTrip(a);
  }

  /** Options the sub-command does not use leave the list unchanged. */
  lemma ImageArgvIgnoresUnusedOptions(a: ImageArgs)
    ensures ImageArgv(NormalizeImage(a)) == ImageArgv(a)
  {
  }

  // ---------------------------------------------------------------------------
  // Bootstrap and cluster show
  // ---------------------------------------------------------------------------

  /** `bootstrap -n NODES` with the nodes defaulted by `ensure_nodes`. */
  method BootstrapCommand(a: BootstrapArgs, clientNodes: seq<string>) returns (cmd: seq<string>)
    ensures cmd == ["bootstrap", "-n", EnsureNodes(Some(a.nodes), clientNodes)]
  {
    var nodes := EnsureNodes(Some(a.nodes), clientNodes);
    cmd := ["bootstrap", "-n", nodes];
  }

  /** Bootstrapping "all" or no nodes targets every node of the client. */
  lemma BootstrapDefaultsToClientNodes(a: BootstrapArgs, clientNodes: seq<string>)
    requires a.nodes == "" || Lower(a.nodes) == "all" || Lower(a.nodes) == "cluster"
    requires |clientNodes| >= 1
    requires forall i :: 0 <= i < |clientNodes| ==> ',' !in clientNodes[i]
    ensures Split(EnsureNodes(Some(a.nodes), clientNodes), ',') == clientNodes
  {
    EnsureNodesDefaultSplits(Some(a.nodes), clientNodes);
  }

  /** `cluster show`, and `-n NODES` only when nodes are given and non-empty. */
  function ClusterShowArgv(a: ClusterShowArgs): seq<string> {
    ["cluster", "show"] + (if a.nodes != None && a.nodes.value != "" then ["-n", a.nodes.value] else [])
  }

  method ClusterShowCommand(a: ClusterShowArgs) returns (cmd: seq<string>)
    ensures cmd == ClusterShowArgv(a)
  {
    cmd := ["cluster", "show"];
    if a.nodes != None && a.nodes.value != "" {
      cmd := cmd + ["-n", a.nodes.value];
    }
  }

  function ParseClusterShow(argv: seq<string>): Option<ClusterShowArgs> {
    if |argv| < 2 || argv[0] != "cluster" || argv[1] != "show" then None
    else if |argv| == 2 then Some(ClusterShowArgs())
    else if |argv| == 4 && argv[2] == "-n" && argv[3] != "" then Some(ClusterShowArgs(Some(argv[3])))
    else None
  }

  /** The list reads back as the arguments, an empty node string as none at all. */
  lemma ClusterShowRoundTrip(a: ClusterShowArgs)
    ensures ParseClusterShow(ClusterShowArgv(a))
         == Some(if a.nodes == Some("") then ClusterShowArgs() else a)
  {
  }

  // ---------------------------------------------------------------------------
  // Tool classes
  // ---------------------------------------------------------------------------

  const RebootTool := ToolClass("talos_reboot", MutatingToolBase, None, None)
  const ShutdownTool := ToolClass("talos_shutdown", MutatingToolBase, None, None)
  const ResetTool := ToolClass("talos_reset", MutatingToolBase, None, None)
  const UpgradeTool := ToolClass("talos_upgrade", MutatingToolBase, None, None)
  const ImageTool := ToolClass("talos_image", TalosToolBase, Some(true), None)
  const BootstrapTool := ToolClass("talos_bootstrap", MutatingToolBase, None, None)
  const ClusterShowTool := ToolClass("talos_cluster_show", TalosToolBase, None, None)

  /** Reboot, shutdown, reset, upgrade and bootstrap are mutations run through
      `MutatingTool`, so they empty the cache; the image tool declares itself a
      mutation but runs on the plain base class, so it leaves the cache alone;
      cluster show is neither. */
  lemma ClusterToolClasses()
    ensures forall t :: t in [RebootTool, ShutdownTool, ResetTool, UpgradeTool, BootstrapTool] ==>
              IsMutation(t) && t.base == MutatingToolBase
    ensures IsMutation(ImageTool) && ImageTool.base == TalosToolBase
    ensures !IsMutation(ClusterShowTool) && ClusterShowTool.base == TalosToolBase
  {
  }
}
