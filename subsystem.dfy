/**
 * Package `subsystem`, file subsystem.go: the CLI's registered commands, the
 * flag help lines, the command listing of the usage text, the deprecated `-s`
 * check and the dispatch of a sub-command (falling back to `run`).
 *
 * Terminal set-up, the welcome banner, provider registration and the flag
 * package's parser are foreign: their results are parameters.
 */
module Subsystem {
  import opened Wrappers
  import opened GoTypes
  import opened StringOrder

  /** SCType: the help section a command is listed in. */
  datatype SCType = SecMain | SecRuntime | SecHidden
  {
    /** The iota value of the constant. */
    function Code(): (c: int)
      ensures 0 <= c <= 2
    {
      match this
      case SecMain => 0
      case SecRuntime => 1
      case SecHidden => 2
    }
  }

  lemma SCTypeCodes()
    ensures SecMain.Code() == 0 && SecRuntime.Code() == 1 && SecHidden.Code() == 2
    ensures forall a: SCType, b: SCType :: a.Code() == b.Code() ==> a == b
  {
  }

  /** A parsed flag set: its name and the arguments left after the flags. */
  datatype FlagSet = FlagSet(name: string, args: seq<string>)

  /** The streams a command reads and writes: the terminal's, or ones set before it runs. */
  datatype Stream = TerminalIn | TerminalOut | Provided(id: nat)

  /** What a command's Call sees of it when it runs. */
  datatype CommandView = CommandView(cmdline: FlagSet, stdin: Stream, stdout: Stream)

  /** NBLcommand */
  class NBLcommand {
    var upgradeTerm: bool
    var welcomeMsg: bool
    var initProviders: bool
    var help: string
    var sec: SCType
    var call: CommandView -> (int, Option<Error>)
    var cmdline: Option<FlagSet>
    var stdin: Option<Stream>
    var stdout: Option<Stream>

    constructor (upgradeTerm: bool, welcomeMsg: bool, initProviders: bool, help: string, sec: SCType,
                 call: CommandView -> (int, Option<Error>), stdin: Option<Stream>, stdout: Option<Stream>)
      ensures this.upgradeTerm == upgradeTerm && this.welcomeMsg == welcomeMsg && this.initProviders == initProviders
      ensures this.help == help && this.sec == sec && this.call == call
      ensures this.cmdline == None && this.stdin == stdin && this.stdout == stdout
    {
      this.upgradeTerm := upgradeTerm;
      this.welcomeMsg := welcomeMsg;
      this.initProviders := initProviders;
      this.help := help;
      this.sec := sec;
      this.call := call;
      this.cmdline := None;
      this.stdin := stdin;
      this.stdout := stdout;
    }

    /**
     * Run: keep the flag set, use the terminal for a stream that was not set
     * (leaving a set one alone), then hand over to the command's Call.
     */
    method Run(cmdline: FlagSet) returns (code: int, err: Option<Error>)
      modifies this
      ensures this.cmdline == Some(cmdline)
      ensures stdin == (if old(stdin).None? then Some(TerminalIn) else old(stdin))
      ensures stdout == (if old(stdout).None? then Some(TerminalOut) else old(stdout))
      ensures upgradeTerm == old(upgradeTerm) && welcomeMsg == old(welcomeMsg) && initProviders == old(initProviders)
      ensures help == old(help) && sec == old(sec) && call == old(call)
      ensures (code, err) == call(CommandView(cmdline, stdin.value, stdout.value))
    {
      this.cmdline := Some(cmdline);
      if stdin.None? {
        stdin := Some(TerminalIn);
      }
      if stdout.None? {
        stdout := Some(TerminalOut);
      }
      var result := call(CommandView(cmdline, stdin.value, stdout.value));
      code, err := result.0, result.1;
    }
  }

  // ---------------------------------------------------------------------
  // Flag help lines

  /**
   * A flag as the help printer sees it: its name, the placeholder and usage
   * text the flag package derives from its usage string, and its default.
   */
  datatype Flag = Flag(name: string, placeholder: string, usage: string, defValue: string)

  /** The start of a help line: `  -name ` and the placeholder. */
  function Head(f: Flag): string
  {
    "  -" + f.name + " " + f.placeholder
  }

  /** The spaces written after the head: 25 less the head's length and, a second time, the placeholder's. */
  function Padding(f: Flag): nat
  {
    Max(0, 25 - (|Head(f)| + |f.placeholder|))
  }

  /** ` (default X)`, unless the default is "" or "false". */
  function DefaultSuffix(f: Flag): (s: string)
    ensures s == "" <==> f.defValue == "" || f.defValue == "false"
  {
    if f.defValue != "" && f.defValue != "false" then " (default " + f.defValue + ")" else ""
  }

  function Spaces(n: nat): (s: string)
    ensures |s| == n && forall i :: 0 <= i < n ==> s[i] == ' '
  {
    if n == 0 then "" else Spaces(n - 1) + " "
  }

  /** The help line of one flag, without its newline. */
  function FlagText(f: Flag): string
  {
    Head(f) + Spaces(Padding(f)) + f.usage + DefaultSuffix(f)
  }

  /**
   * The layout of a help line: the head, blanks up to the usage column, the
   * usage and the default. The usage column is 25 less the placeholder's
   * length (a flag without placeholder lines up at 25), or just past the head
   * when the head is longer.
   */
  lemma FlagTextLayout(f: Flag)
    ensures var t := FlagText(f);
            var c := Max(|Head(f)|, 25 - |f.placeholder|);
            && |Head(f)| <= c <= |t|
            && t[..|Head(f)|] == Head(f)
            && (forall i :: |Head(f)| <= i < c ==> t[i] == ' ')
            && t[c..] == f.usage + DefaultSuffix(f)
  {
    var t := FlagText(f);
    var h := |Head(f)|;
    var c := Max(h, 25 - |f.placeholder|);
    assert c == h + Padding(f);
    assert t == Head(f) + Spaces(Padding(f)) + (f.usage + DefaultSuffix(f));
    assert t[..h] == Head(f);
    assert t[h..c] == Spaces(Padding(f));
    assert t[c..] == f.usage + DefaultSuffix(f);
  }

  /** The loop that writes one help line into a builder: head, the padding a space at a time, usage, default. */
  method FlagLine(f: Flag) returns (line: string)
    ensures line == FlagText(f)
  {
    line := "  -" + f.name + " ";
    if |f.placeholder| > 0 {
      line := line + f.placeholder;
    }
    var l := 25 - (|line| + |f.placeholder|);
    var i := 0;
    while i < l
      invariant 0 <= i <= Max(0, l)
      invariant line == Head(f) + Spaces(i)
    {
      line := line + " ";
      i := i + 1;
    }
    assert i == Padding(f);
    line := line + f.usage;
    if f.defValue != "" && f.defValue != "false" {
      line := line + " (default " + f.defValue + ")";
    }
  }

  /** Everything PrintDefaults writes: one line per flag, in the order the flag set visits them. */
  function Listing(flags: seq<Flag>): string
  {
    if flags == [] then "" else Listing(flags[..|flags| - 1]) + FlagText(flags[|flags| - 1]) + "\n"
  }

  /** PrintDefaults: the help lines of the flags, each followed by a newline. */
  method PrintDefaults(flags: seq<Flag>) returns (out: string)
    ensures out == Listing(flags)
  {
    out := "";
    for i := 0 to |flags|
      invariant out == Listing(flags[..i])
    {
      assert flags[..i + 1][..i] == flags[..i];
      var line := FlagLine(flags[i]);
      out := out + line + "\n";
    }
    assert flags[..|flags|] == flags;
  }

  // ---------------------------------------------------------------------
  // The usage text

  const UsageHead: string := "\nUsage: nebulant [flags] [command]\n" + "\nFlags:\n"
  const CommandsHead: string := "\nCommands:\n"
  const RuntimeHead: string := "\n\nRuntime commands:\n"
  const UsageTail: string := "\n\nrun nebulant [command] --help to show help for a command\n"

  /** The help texts of the commands named in `keys`, in that order, of the runtime section or of the main one. */
  function HelpList(commands: map<string, NBLcommand>, keys: seq<string>, runtime: bool): seq<string>
    requires forall i :: 0 <= i < |keys| ==> keys[i] in commands
    reads commands.Values
  {
    if keys == [] then []
    else
      var cmd := commands[keys[|keys| - 1]];
      var earlier := HelpList(commands, keys[..|keys| - 1], runtime);
      if (cmd.sec == SecRuntime) == runtime then earlier + [cmd.help] else earlier
  }

  /** Each listed command is in exactly one of the two sections. */
  lemma {:induction false} HelpListSplits(commands: map<string, NBLcommand>, keys: seq<string>)
    requires forall i :: 0 <= i < |keys| ==> keys[i] in commands
    ensures |HelpList(commands, keys, false)| + |HelpList(commands, keys, true)| == |keys|
  {
    if keys != [] {
      HelpListSplits(commands, keys[..|keys| - 1]);
    }
  }

  function Concat(parts: seq<string>): string
  {
    if parts == [] then "" else Concat(parts[..|parts| - 1]) + parts[|parts| - 1]
  }

  /** The loop over the registry that keeps the names of the commands that are not hidden, in no particular order. */
  method VisibleCommands(commands: map<string, NBLcommand>) returns (names: seq<string>)
    ensures Distinct(names)
    ensures forall k :: k in names <==> k in commands && commands[k].sec != SecHidden
  {
    names := [];
    var remaining := commands.Keys;
    while remaining != {}
      invariant remaining <= commands.Keys
      invariant Distinct(names)
      invariant forall k :: k in names <==> k in commands && k !in remaining && commands[k].sec != SecHidden
      decreases remaining
    {
      var k :| k in remaining;
      remaining := remaining - {k};
      if commands[k].sec != SecHidden {
        names := names + [k];
      }
    }
  }

  /**
   * The loop over the listed names: the help of a main command is written
   * out, the help of a runtime command is held back, both in listing order.
   */
  method CommandSections(commands: map<string, NBLcommand>, listed: seq<string>) returns (written: string, runtimecmds: seq<string>)
    requires forall i :: 0 <= i < |listed| ==> listed[i] in commands
    ensures written == Concat(HelpList(commands, listed, false))
    ensures runtimecmds == HelpList(commands, listed, true)
  {
    written := "";
    runtimecmds := [];
    for i := 0 to |listed|
      invariant written == Concat(HelpList(commands, listed[..i], false))
      invariant runtimecmds == HelpList(commands, listed[..i], true)
    {
      assert listed[..i + 1][..i] == listed[..i];
      var cmd := commands[listed[i]];
      if cmd.sec == SecRuntime {
        runtimecmds := runtimecmds + [cmd.help];
      } else {
        ghost var earlier := HelpList(commands, listed[..i], false);
        assert (earlier + [cmd.help])[..|earlier|] == earlier;
        written := written + cmd.help;
      }
    }
    assert listed[..|listed|] == listed;
  }

  /** The loop that writes the held-back runtime helps. */
  method WriteAll(parts: seq<string>) returns (written: string)
    ensures written == Concat(parts)
  {
    written := "";
    for i := 0 to |parts|
      invariant written == Concat(parts[..i])
    {
      assert parts[..i + 1][..i] == parts[..i];
      written := written + parts[i];
    }
    assert parts[..|parts|] == parts;
  }

  /**
   * The usage text: the flag lines, then the commands that are not hidden in
   * ascending name order, runtime ones held back for a trailing section
   * in the same order. `listed` is that order.
   */
  method Usage(commands: map<string, NBLcommand>, flags: seq<Flag>) returns (out: string, listed: seq<string>)
    ensures Sorted(listed) && Distinct(listed)
    ensures forall k :: k in listed <==> k in commands && commands[k].sec != SecHidden
    ensures out == UsageHead + Listing(flags) + CommandsHead + Concat(HelpList(commands, listed, false))
                   + RuntimeHead + Concat(HelpList(commands, listed, true)) + UsageTail
  {
    var ordered := VisibleCommands(commands);
    DistinctCounts(ordered);
    listed := SortStrings(ordered);
    DistinctCounts(listed);
    forall k
      ensures k in listed <==> k in ordered
    {
      assert k in listed <==> k in multiset(listed);
      assert k in ordered <==> k in multiset(ordered);
    }

    var flagLines := PrintDefaults(flags);
    var written, runtimecmds := CommandSections(commands, listed);
    var runtimeText := WriteAll(runtimecmds);
    out := UsageHead + flagLines + CommandsHead + written + RuntimeHead + runtimeText + UsageTail;
  }

  // ---------------------------------------------------------------------
  // Preparing and dispatching a command

  /**
   * PrepareCmd: a command that upgrades the terminal fails when the upgrade
   * does, with both errors joined; nothing else it does can fail.
   */
  function PrepareCmd(cmd: NBLcommand, upgrade: Option<Error>): (err: Option<Error>)
    reads cmd
    ensures err.Some? <==> cmd.upgradeTerm && upgrade.Some?
    ensures err.Some? ==> err.value == Joined([Message("cannot init term :("), upgrade.value])
  {
    if cmd.upgradeTerm && upgrade.Some? then Some(Joined([Message("cannot init term :("), upgrade.value])) else None
  }

  /** The flags ConfArgs reads after parsing: the deprecated `-s`. */
  datatype ConfFlags = ConfFlags(s: bool)

  /** ConfArgs: a parse error is returned as is; a set `-s` is refused. */
  function ConfArgs(parsed: Result<ConfFlags, Error>): (err: Option<Error>)
    ensures err.None? <==> parsed.Success? && !parsed.value.s
    ensures parsed.Failure? ==> err == Some(parsed.error)
    ensures parsed.Success? && parsed.value.s ==> err == Some(Message("deprecated flag err"))
  {
    match parsed
    case Failure(e) => Some(e)
    case Success(flags) => if flags.s then Some(Message("deprecated flag err")) else None
  }

  /** The arguments a blueprint run gets when the sub-command is not registered. */
  function FallbackArgs(forceFile: Option<bool>, rest: seq<string>): (args: seq<string>)
    ensures |args| == |rest| + (if forceFile == Some(true) then 2 else 1)
    ensures args[0] == "run" && args[|args| - |rest|..] == rest
    ensures forceFile == Some(true) ==> args[1] == "-f"
  {
    (["run"] + (if forceFile == Some(true) then ["-f"] else [])) + rest
  }

  /** The command Run dispatches `sc` to: the registered one, else `run`. */
  function Target(commands: map<string, NBLcommand>, sc: string): NBLcommand
    requires sc in commands || "run" in commands
  {
    if sc in commands then commands[sc] else commands["run"]
  }

  /**
   * Run: prepare the command `sc` names (or `run` when none is registered) and
   * stop with (1, err) when that fails; otherwise run it on the program's
   * command line, or for `run` on a new flag set over the fallback arguments,
   * where flag parsing stops at the leading "run" and every argument stays
   * positional.
   */
  method Run(commands: map<string, NBLcommand>, sc: string, commandLine: FlagSet,
             forceFile: Option<bool>, upgrade: Option<Error>) returns (code: int, err: Option<Error>)
    requires sc in commands || "run" in commands
    modifies Target(commands, sc)
    ensures var cmd := Target(commands, sc);
            var prepared := old(PrepareCmd(cmd, upgrade));
            && (prepared.Some? ==> code == 1 && err == prepared && unchanged(cmd))
            && (prepared.None? ==>
                  var line := if sc in commands then commandLine
                              else FlagSet("run", FallbackArgs(forceFile, commandLine.args));
                  && cmd.cmdline == Some(line)
                  && cmd.stdin == (if old(cmd.stdin).None? then Some(TerminalIn) else old(cmd.stdin))
                  && cmd.stdout == (if old(cmd.stdout).None? then Some(TerminalOut) else old(cmd.stdout))
                  && (code, err) == old(cmd.call)(CommandView(line, cmd.stdin.value, cmd.stdout.value)))
  {
    if sc in commands {
      var cmd := commands[sc];
      var prepared := PrepareCmd(cmd, upgrade);
      if prepared.Some? {
        return 1, prepared;
      }
      code, err := cmd.Run(commandLine);
    } else {
      var cmd := commands["run"];
      var prepared := PrepareCmd(cmd, upgrade);
      if prepared.Some? {
        return 1, prepared;
      }
      var args := ["run"];
      if forceFile == Some(true) {
        args := args + ["-f"];
      }
      args := args + commandLine.args;
      assert args == FallbackArgs(forceFile, commandLine.args);
      var cmdline := FlagSet("run", args);
      code, err := cmd.Run(cmdline);
    }
  }
}
