/**
 * The command line of index.js: the hand-written left-to-right scan of the
 * arguments, the order in which `main` acts on the resulting options, and the
 * two string tests `handleInlineRequest` makes on the message it sends.
 */
module Cli {
  import opened Wrappers
  import opened Text
  import opened Js
  import opened Debugging

  /** `options.ask`: absent, `true` (the flag without a message) or the message. */
  datatype AskOption = NoAsk | AskFlag | AskMessage(text: string) {
    /** JavaScript truthiness of `options.ask`: an empty message is falsy. */
    predicate Truthy() {
      AskFlag? || (AskMessage? && text != "")
    }
  }

  /** The `options` object the scan fills in; `None` is a property never set. */
  datatype Options = Options(
    setup: bool, config: bool, setupDynamic: bool,
    exportFlag: bool, exportPath: Option<string>,
    importFlag: bool, importPath: Option<string>,
    debug: bool, version: bool,
    ask: AskOption, output: Option<string>)

  /** What the scan produces: the positional provider and the options. */
  datatype Parsed = Parsed(provider: Option<string>, options: Options)

  const NoOptions: Options := Options(false, false, false, false, None, false, None, false, false, NoAsk, None)

  /** What an argument is to the scan, tested in the source's order. */
  datatype ArgKind =
    | SetupArg | ConfigArg | SetupDynamicArg | ExportArg | ImportArg | DebugArg | VersionArg
    | AskArg | OutputArg | Positional | Ignored

  /** Every argument the scan recognises. */
  const KnownFlags: set<string> := {"--setup", "-s", "--config", "-c", "--setup-dynamic", "--export", "-e",
                                    "--import", "-i", "--debug", "-d", "--version", "-v", "--ask", "--output", "-o"}

  /**
   * An argument is positional exactly when it does not start with '-', and
   * ignored exactly when it does but is none of the recognised flags.
   */
  function Classify(arg: string): (k: ArgKind)
    ensures k == Positional <==> !StartsWith(arg, "-")
    ensures k == Ignored <==> StartsWith(arg, "-") && arg !in KnownFlags
  {
    if arg == "--setup" || arg == "-s" then SetupArg
    else if arg == "--config" || arg == "-c" then ConfigArg
    else if arg == "--setup-dynamic" then SetupDynamicArg
    else if arg == "--export" || arg == "-e" then ExportArg
    else if arg == "--import" || arg == "-i" then ImportArg
    else if arg == "--debug" || arg == "-d" then DebugArg
    else if arg == "--version" || arg == "-v" then VersionArg
    else if arg == "--ask" then AskArg
    else if arg == "--output" || arg == "-o" then OutputArg
    else if !StartsWith(arg, "-") then Positional
    else Ignored
  }

  /** The arguments that take the next argument as their value. */
  predicate TakesValue(arg: string) {
    Classify(arg) in {ExportArg, ImportArg, AskArg, OutputArg}
  }

  /** The argument after position `i`, when it exists and does not start with '-'. */
  function ValueAfter(args: seq<string>, i: nat): (v: Option<string>)
    ensures v.Some? <==> i + 1 < |args| && !StartsWith(args[i + 1], "-")
    ensures v.Some? ==> v.value == args[i + 1]
  {
    if i + 1 < |args| && !StartsWith(args[i + 1], "-") then Some(args[i + 1]) else None
  }

  /** Where the scan goes after position `i`: past the value when one was consumed. */
  function Next(args: seq<string>, i: nat): nat
    requires i < |args|
  {
    if TakesValue(args[i]) && ValueAfter(args, i).Some? then i + 2 else i + 1
  }

  /** What the argument at position `i` does to the scan's result. */
  function Step(args: seq<string>, i: nat, p: Parsed): Parsed
    requires i < |args|
  {
    var o := p.options;
    var v := ValueAfter(args, i);
    match Classify(args[i])
    case SetupArg => p.(options := o.(setup := true))
    case ConfigArg => p.(options := o.(config := true))
    case SetupDynamicArg => p.(options := o.(setupDynamic := true))
    case ExportArg => p.(options := o.(exportFlag := true, exportPath := if v.Some? then v else o.exportPath))
    case ImportArg => p.(options := o.(importFlag := true, importPath := if v.Some? then v else o.importPath))
    case DebugArg => p.(options := o.(debug := true))
    case VersionArg => p.(options := o.(version := true))
    case AskArg => p.(options := o.(ask := if v.Some? then AskMessage(v.value) else AskFlag))
    case OutputArg => p.(options := o.(output := if v.Some? then v else o.output))
    case Positional => if !TruthyString(p.provider) then p.(provider := Some(args[i])) else p
    case Ignored => p
  }

  /** The scan from position `i` on. */
  function Scan(args: seq<string>, i: nat, p: Parsed): Parsed
    decreases |args| - i
  {
    if i >= |args| then p else Scan(args, Next(args, i), Step(args, i, p))
  }

  /** The positions the scan looks at from `i` on: consumed values are skipped. */
  function Visited(args: seq<string>, i: nat): (vs: seq<nat>)
    ensures forall j :: j in vs ==> i <= j < |args|
    decreases |args| - i
  {
    if i >= |args| then [] else [i] + Visited(args, Next(args, i))
  }

  /**
   * The loop of index.js: `i` goes up by one each round, and by one more when
   * a flag consumed the following argument as its value.
   */
  method ParseArgs(args: seq<string>) returns (provider: Option<string>, options: Options)
    ensures Parsed(provider, options) == Scan(args, 0, Parsed(None, NoOptions))
  {
    provider := None;
    options := NoOptions;
    var i := 0;
    while i < |args|
      invariant 0 <= i
      invariant Scan(args, i, Parsed(provider, options)) == Scan(args, 0, Parsed(None, NoOptions))
      decreases |args| - i
    {
      ghost var step := Step(args, i, Parsed(provider, options));
      ghost var next := Next(args, i);
      var usable := i + 1 < |args| && !StartsWith(args[i + 1], "-");
      match Classify(args[i]) {
        case SetupArg => options := options.(setup := true);
        case ConfigArg => options := options.(config := true);
        case SetupDynamicArg => options := options.(setupDynamic := true);
        case ExportArg =>
          options := options.(exportFlag := true);
          if usable {
            options := options.(exportPath := Some(args[i + 1]));
            i := i + 1;
          }
        case ImportArg =>
          options := options.(importFlag := true);
          if usable {
            options := options.(importPath := Some(args[i + 1]));
            i := i + 1;
          }
        case DebugArg => options := options.(debug := true);
        case VersionArg => options := options.(version := true);
        case AskArg =>
          options := options.(ask := AskFlag);
          if usable {
            options := options.(ask := AskMessage(args[i + 1]));
            i := i + 1;
          }
        case OutputArg =>
          if usable {
            options := options.(output := Some(args[i + 1]));
            i := i + 1;
          }
        case Positional =>
          if !TruthyString(provider) {
            provider := Some(args[i]);
          }
        case Ignored =>
      }
      assert Parsed(provider, options) == step && i + 1 == next;
      i := i + 1;
    }
  }

  /** One scanning step: the index moves past a value exactly when a value flag is followed by a usable argument. */
  lemma StepAdvance(args: seq<string>, i: nat)
    requires i < |args|
    ensures Next(args, i) == i + 1 || Next(args, i) == i + 2
    ensures Next(args, i) == i + 2 <==> TakesValue(args[i]) && i + 1 < |args| && !StartsWith(args[i + 1], "-")
  {
  }

  /**
   * `--ask` leaves `true` when no usable message follows and takes the
   * message otherwise; `--output` without a usable value sets nothing.
   */
  lemma AskAndOutput(args: seq<string>, i: nat, p: Parsed)
    requires i < |args|
    ensures args[i] == "--ask" && ValueAfter(args, i).None? ==> Step(args, i, p).options.ask == AskFlag
    ensures args[i] == "--ask" && ValueAfter(args, i).Some? ==>
              Step(args, i, p).options.ask == AskMessage(args[i + 1]) && Next(args, i) == i + 2
    ensures (args[i] == "--output" || args[i] == "-o") && ValueAfter(args, i).None? ==> Step(args, i, p) == p
    ensures (args[i] == "--output" || args[i] == "-o") && ValueAfter(args, i).Some? ==>
              Step(args, i, p) == p.(options := p.options.(output := Some(args[i + 1])))
  {
  }

  /** An argument starting with '-' that the scan does not recognise changes nothing. */
  lemma UnknownDashIgnored(args: seq<string>, i: nat, p: Parsed)
    requires i < |args| && StartsWith(args[i], "-") && args[i] !in KnownFlags
    ensures Step(args, i, p) == p && Next(args, i) == i + 1
  {
  }

  /**
   * `terminal-ai grok --ask hi -o out.txt --debug`: the provider is taken,
   * both values are consumed, and the debug switch is set.
   */
  lemma ScanExample()
    ensures Scan(["grok", "--ask", "hi", "-o", "out.txt", "--debug"], 0, Parsed(None, NoOptions))
            == Parsed(Some("grok"), NoOptions.(ask := AskMessage("hi"), output := Some("out.txt"), debug := true))
  {
    var args := ["grok", "--ask", "hi", "-o", "out.txt", "--debug"];
    assert Classify(args[0]) == Positional by { assert args[0][..1] == "g"; }
    assert Classify(args[1]) == AskArg;
    assert !StartsWith(args[2], "-") by { assert args[2][..1] == "h"; }
    assert Next(args, 1) == 3;
    assert Classify(args[3]) == OutputArg;
    assert !StartsWith(args[4], "-") by { assert args[4][..1] == "o"; }
    assert Next(args, 3) == 5;
    assert Classify(args[5]) == DebugArg;
  }

  /** The boolean switches of the scan. */
  datatype Switch = Setup | Config | SetupDynamic | Export | Import | Debug | Version

  /** The option a switch sets. */
  function IsOn(o: Options, s: Switch): bool {
    match s
    case Setup => o.setup
    case Config => o.config
    case SetupDynamic => o.setupDynamic
    case Export => o.exportFlag
    case Import => o.importFlag
    case Debug => o.debug
    case Version => o.version
  }

  /** The arguments that set a switch. */
  predicate Sets(arg: string, s: Switch) {
    Classify(arg) == match s
      case Setup => SetupArg
      case Config => ConfigArg
      case SetupDynamic => SetupDynamicArg
      case Export => ExportArg
      case Import => ImportArg
      case Debug => DebugArg
      case Version => VersionArg
  }

  /** A step turns a switch on exactly when its argument names it, and never turns one off. */
  lemma StepSwitch(args: seq<string>, i: nat, p: Parsed, s: Switch)
    requires i < |args|
    ensures IsOn(Step(args, i, p).options, s) <==> IsOn(p.options, s) || Sets(args[i], s)
  {
  }

  /**
   * A switch is on after the scan exactly when it was on before or one of the
   * positions the scan looks at names it; a consumed value never counts.
   */
  lemma {:induction false} ScanSwitch(args: seq<string>, i: nat, p: Parsed, s: Switch)
    ensures IsOn(Scan(args, i, p).options, s) <==>
              IsOn(p.options, s) || exists j :: j in Visited(args, i) && Sets(args[j], s)
    decreases |args| - i
  {
    if i < |args| {
      StepSwitch(args, i, p, s);
      ScanSwitch(args, Next(args, i), Step(args, i, p), s);
      assert Visited(args, i) == [i] + Visited(args, Next(args, i));
    }
  }

  /** Once the provider is set to a non-empty argument, later positional arguments leave it. */
  lemma {:induction false} ProviderKept(args: seq<string>, i: nat, p: Parsed)
    requires TruthyString(p.provider)
    ensures Scan(args, i, p).provider == p.provider
    decreases |args| - i
  {
    if i < |args| {
      ProviderKept(args, Next(args, i), Step(args, i, p));
    }
  }

  /** The provider is the one given, or a visited argument that does not start with '-'. */
  lemma {:induction false} ProviderPositional(args: seq<string>, i: nat, p: Parsed)
    ensures var r := Scan(args, i, p).provider;
      r == p.provider || exists j :: j in Visited(args, i) && !StartsWith(args[j], "-") && r == Some(args[j])
    decreases |args| - i
  {
    if i < |args| {
      ProviderPositional(args, Next(args, i), Step(args, i, p));
      assert Visited(args, i) == [i] + Visited(args, Next(args, i));
    }
  }

  /** A visited non-empty argument that is neither a flag nor a value sets the provider. */
  lemma {:induction false} ProviderTaken(args: seq<string>, i: nat, p: Parsed, j: nat)
    requires j in Visited(args, i) && args[j] != "" && !StartsWith(args[j], "-")
    ensures TruthyString(Scan(args, i, p).provider)
    decreases |args| - i
  {
    assert i < |args|;
    assert Visited(args, i) == [i] + Visited(args, Next(args, i));
    if j == i {
      assert TruthyString(Step(args, i, p).provider);
      ProviderKept(args, Next(args, i), Step(args, i, p));
    } else {
      ProviderTaken(args, Next(args, i), Step(args, i, p), j);
    }
  }

  /**
   * With no provider yet, the first visited non-empty argument that does not
   * start with '-' becomes the provider; arguments after it are ignored.
   */
  lemma {:induction false} ProviderIsFirst(args: seq<string>, i: nat, p: Parsed, j: nat)
    requires !TruthyString(p.provider)
    requires j in Visited(args, i) && args[j] != "" && !StartsWith(args[j], "-")
    requires forall k :: k in Visited(args, i) && k < j ==> StartsWith(args[k], "-") || args[k] == ""
    ensures Scan(args, i, p).provider == Some(args[j])
    decreases |args| - i
  {
    assert i < |args|;
    assert Visited(args, i) == [i] + Visited(args, Next(args, i));
    if j == i {
      assert Step(args, i, p).provider == Some(args[j]);
      ProviderKept(args, Next(args, i), Step(args, i, p));
    } else {
      assert !TruthyString(Step(args, i, p).provider);
      ProviderIsFirst(args, Next(args, i), Step(args, i, p), j);
    }
  }

  /** The action `main` takes on the options, in its order of precedence. */
  datatype Action =
    | ShowVersion
    | RunSetup
    | ShowConfig
    | ExportTo(path: string)
    | ImportFrom(path: string)
    | InlineAsk(provider: Option<string>, ask: AskOption)
    // `main` still receives the selected provider on this path, but builds
    // the interactive UI without it (index.js:95-105): the field records the
    // selection only and nothing downstream reads it.
    | Interactive(provider: Option<string>)

  const DefaultConfigPath: string := "./terminal-ai-config.json"

  /** The first of `main`'s tests that holds decides the action. */
  function Chosen(provider: Option<string>, o: Options): Action {
    if o.version then ShowVersion
    else if o.setup || o.setupDynamic then RunSetup
    else if o.config then ShowConfig
    else if o.exportFlag then ExportTo(if TruthyString(o.exportPath) then o.exportPath.value else DefaultConfigPath)
    else if o.importFlag then ImportFrom(if TruthyString(o.importPath) then o.importPath.value else DefaultConfigPath)
    else if o.ask.Truthy() then InlineAsk(provider, o.ask)
    else Interactive(provider)
  }

  /**
   * Each action is taken exactly when its own option is set and no option
   * tested before it is: only the first matching action runs.
   */
  lemma Precedence(provider: Option<string>, o: Options)
    ensures Chosen(provider, o).ShowVersion? <==> o.version
    ensures Chosen(provider, o).RunSetup? <==> !o.version && (o.setup || o.setupDynamic)
    ensures Chosen(provider, o).ShowConfig? <==> !o.version && !o.setup && !o.setupDynamic && o.config
    ensures Chosen(provider, o).ExportTo? <==> !o.version && !o.setup && !o.setupDynamic && !o.config && o.exportFlag
    ensures Chosen(provider, o).ImportFrom? <==>
              !o.version && !o.setup && !o.setupDynamic && !o.config && !o.exportFlag && o.importFlag
    ensures Chosen(provider, o).InlineAsk? <==>
              !o.version && !o.setup && !o.setupDynamic && !o.config && !o.exportFlag && !o.importFlag && o.ask.Truthy()
    ensures Chosen(provider, o).ExportTo? ==>
              Chosen(provider, o).path == (if TruthyString(o.exportPath) then o.exportPath.value else DefaultConfigPath)
    ensures Chosen(provider, o).ImportFrom? ==>
              Chosen(provider, o).path == (if TruthyString(o.importPath) then o.importPath.value else DefaultConfigPath)
  {
  }

  /**
   * `main(selectedProvider, options)` up to the point where it hands over:
   * the version flag returns before anything else; otherwise the debug flag
   * switches the debugger on at level 'verbose' and logs that it did, and
   * then the first matching action is taken.
   */
  method RunMain(provider: Option<string>, options: Options, debugger: Debugger) returns (action: Action)
    modifies debugger
    ensures action == Chosen(provider, options)
    ensures options.version || !options.debug ==>
              debugger.enabled == old(debugger.enabled) && debugger.debugLevel == old(debugger.debugLevel)
              && debugger.lines == old(debugger.lines)
    ensures !options.version && options.debug ==>
              debugger.enabled && debugger.debugLevel == "verbose"
              && debugger.lines == old(debugger.lines)
                                   + [Debugger.DebugLineFor(EnabledMessage, JObj(map["level" := JStr("verbose")])),
                                      Debugger.DebugLineFor(CliDebugMessage, JNull)]
  {
    if options.version {
      return ShowVersion;
    }
    if options.debug {
      debugger.Enable("verbose");
      debugger.Log(CliDebugMessage, JNull);
    }
    if options.setup || options.setupDynamic {
      return RunSetup;
    }
    if options.config {
      return ShowConfig;
    }
    if options.exportFlag {
      return ExportTo(if TruthyString(options.exportPath) then options.exportPath.value else DefaultConfigPath);
    }
    if options.importFlag {
      return ImportFrom(if TruthyString(options.importPath) then options.importPath.value else DefaultConfigPath);
    }
    if options.ask.Truthy() {
      return InlineAsk(provider, options.ask);
    }
    action := Interactive(provider);
  }

  const CliDebugMessage: string := "Debug mode enabled via CLI option"

  /** The test `handleInlineRequest` uses to read the message from a file instead. */
  predicate IsFilePath(message: string) {
    StartsWith(message, "./") || StartsWith(message, "/") || StartsWith(message, ".\\") || StartsWith(message, "C:\\")
  }

  /** The file-path test, character by character. */
  lemma FilePathIff(message: string)
    ensures IsFilePath(message) <==>
              (|message| >= 1 && message[0] == '/')
              || (|message| >= 2 && message[0] == '.' && (message[1] == '/' || message[1] == '\\'))
              || (|message| >= 3 && message[0] == 'C' && message[1] == ':' && message[2] == '\\')
  {
    if |message| >= 2 && message[0] == '.' && message[1] == '/' {
      assert message[..2] == "./";
    }
    if |message| >= 2 && message[0] == '.' && message[1] == '\\' {
      assert message[..2] == ".\\";
    }
    if |message| >= 3 && message[0] == 'C' && message[1] == ':' && message[2] == '\\' {
      assert message[..3] == "C:\\";
    }
    if |message| >= 1 && message[0] == '/' {
      assert message[..1] == "/";
    }
  }

  /** The echoed preview of the message: its first 100 characters, and '...' exactly when it is longer. */
  function SendingPreview(message: string): (r: string)
    ensures |r| <= 103 && StartsWith(r, Take(message, 100))
    ensures |message| <= 100 ==> r == message
    ensures |message| > 100 ==> r == message[..100] + "..." && |r| == 103
  {
    Abbreviate(message, 100)
  }
}
