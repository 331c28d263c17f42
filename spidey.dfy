/** The command line of the spidey server: the option scanner that
    overwrites the configuration globals, their defaults, and the start-up
    sequence that picks the single or the forking server. */
module Spidey {
  import opened Strings

  /** The concurrency mode; UNKNOWN exists in the enumeration but no option
      selects it. */
  datatype Mode = Single | Forking | Unknown

  /** The process's configuration globals. A None is a NULL pointer: what a
      value-taking option that is the last argument stores. */
  datatype Settings = Settings(port: Option<string>, mimeTypesPath: Option<string>,
                               defaultMimeType: Option<string>, rootPath: Option<string>, mode: Mode)

  const ExitSuccess: int := 0
  const ExitFailure: int := 1

  /** The globals' initial values, and main's initial mode. */
  const Defaults: Settings :=
    Settings(Some("9898"), Some("/etc/mime.types"), Some("text/plain"), Some("www"), Single)

  /** How the scan ends: parse_options returns its result, usage exits the
      process with a status, or `-c` as the last argument hands NULL to the
      string comparison. */
  datatype ScanEnd = Returned(ok: bool) | Exited(status: int) | NullDereference

  datatype Scanned = Scanned(end: ScanEnd, settings: Settings)

  /** argv[i] is an option: it is longer than one character and starts with
      a dash. */
  predicate IsOption(argv: seq<string>, i: nat) {
    i < |argv| && |argv[i]| > 1 && argv[i][0] == '-'
  }

  /** The argument after position i, or NULL past the end (argv[argc] is
      NULL). */
  function ValueAfter(argv: seq<string>, i: nat): Option<string> {
    if i + 1 < |argv| then Some(argv[i + 1]) else None
  }

  /** The four options that take a path or a name and store it. */
  function Stored(s: Settings, flag: char, value: Option<string>): Settings {
    if flag == 'm' then s.(mimeTypesPath := value)
    else if flag == 'M' then s.(defaultMimeType := value)
    else if flag == 'p' then s.(port := value)
    else if flag == 'r' then s.(rootPath := value)
    else s
  }

  /** The setting a value-taking option writes. */
  function Field(s: Settings, flag: char): Option<string> {
    if flag == 'm' then s.mimeTypesPath
    else if flag == 'M' then s.defaultMimeType
    else if flag == 'p' then s.port
    else if flag == 'r' then s.rootPath
    else None
  }

  /** parse_options from argument i on, with the globals at s: scan while
      the argument is an option, select by its second character only, let
      each value-taking option consume the next argument. */
  function Scan(argv: seq<string>, i: nat, s: Settings): (r: Scanned)
    requires i <= |argv| + 1
    decreases |argv| + 1 - i
  {
    if !IsOption(argv, i) then Scanned(Returned(true), s)
    else
      var flag := argv[i][1];
      var value := ValueAfter(argv, i);
      if flag == 'c' then
        if value.None? then Scanned(NullDereference, s)
        else if value.value == "single" then Scan(argv, i + 2, s.(mode := Single))
        else if value.value == "forking" then Scan(argv, i + 2, s.(mode := Forking))
        else Scanned(Exited(ExitFailure), s)
      else if flag == 'h' then Scanned(Exited(ExitSuccess), s)
      else if flag in {'m', 'M', 'p', 'r'} then Scan(argv, i + 2, Stored(s, flag, value))
      else Scanned(Exited(ExitFailure), s)
  }

  /** When parse_options returns, it returns true; the scan exits with
      success only for `-h` and crashes only for a trailing `-c`. */
  lemma {:induction false} ScanOutcomes(argv: seq<string>, i: nat, s: Settings)
    requires i <= |argv| + 1
    ensures Scan(argv, i, s).end.Returned? ==> Scan(argv, i, s).end.ok
    ensures Scan(argv, i, s).end.Exited? ==> Scan(argv, i, s).end.status in {ExitSuccess, ExitFailure}
    ensures Scan(argv, i, s).end == Exited(ExitSuccess) ==>
              exists k :: i <= k < |argv| && IsOption(argv, k) && argv[k][1] == 'h'
    ensures Scan(argv, i, s).end.NullDereference? ==>
              IsOption(argv, |argv| - 1) && argv[|argv| - 1][1] == 'c'
    decreases |argv| + 1 - i
  {
    if IsOption(argv, i) {
      var flag := argv[i][1];
      var value := ValueAfter(argv, i);
      if flag == 'c' && value.Some? && value.value == "single" {
        ScanOutcomes(argv, i + 2, s.(mode := Single));
      } else if flag == 'c' && value.Some? && value.value == "forking" {
        ScanOutcomes(argv, i + 2, s.(mode := Forking));
      } else if flag in {'m', 'M', 'p', 'r'} {
        ScanOutcomes(argv, i + 2, Stored(s, flag, value));
      }
    }
  }

  /** No option selects UNKNOWN: a scan that starts from a known mode ends
      in a known mode. */
  lemma {:induction false} ScanNeverUnknown(argv: seq<string>, i: nat, s: Settings)
    requires i <= |argv| + 1
    requires s.mode != Unknown
    ensures Scan(argv, i, s).settings.mode != Unknown
    decreases |argv| + 1 - i
  {
    if IsOption(argv, i) {
      var flag := argv[i][1];
      var value := ValueAfter(argv, i);
      if flag == 'c' && value.Some? && value.value == "single" {
        ScanNeverUnknown(argv, i + 2, s.(mode := Single));
      } else if flag == 'c' && value.Some? && value.value == "forking" {
        ScanNeverUnknown(argv, i + 2, s.(mode := Forking));
      } else if flag in {'m', 'M', 'p', 'r'} {
        ScanNeverUnknown(argv, i + 2, Stored(s, flag, value));
      }
    }
  }

  /** The scan goes on past the option at i: a `-c` with a known mode, or
      one of the four value-taking options. */
  predicate Continues(argv: seq<string>, i: nat) {
    && IsOption(argv, i)
    && var value := ValueAfter(argv, i);
       || (argv[i][1] == 'c' && value.Some? && value.value in {"single", "forking"})
       || argv[i][1] in {'m', 'M', 'p', 'r'}
  }

  /** The scan from i reads argv[k] as an option (and not as an option's
      value). Which positions it visits depends on the arguments alone. */
  predicate Visited(argv: seq<string>, i: nat, k: nat)
    ensures Visited(argv, i, k) ==> i <= k && IsOption(argv, k)
    decreases |argv| + 1 - i
  {
    && IsOption(argv, i)
    && (k == i || (Continues(argv, i) && Visited(argv, i + 2, k)))
  }

  /** A setting that no option visited from i on names keeps its value:
      only an option whose second character is the setting's letter writes
      it, and an option's value is never read as an option. */
  lemma {:induction false} UnnamedSettingKept(argv: seq<string>, i: nat, s: Settings, flag: char)
    requires i <= |argv| + 1
    requires flag in {'m', 'M', 'p', 'r'}
    requires forall k: nat :: Visited(argv, i, k) ==> argv[k][1] != flag
    ensures Field(Scan(argv, i, s).settings, flag) == Field(s, flag)
    decreases |argv| + 1 - i
  {
    if IsOption(argv, i) {
      assert Visited(argv, i, i);
      var f := argv[i][1];
      var value := ValueAfter(argv, i);
      if Continues(argv, i) {
        forall k: nat | Visited(argv, i + 2, k) ensures argv[k][1] != flag {
          assert Visited(argv, i, k);
        }
      }
      if f == 'c' && value.Some? && value.value == "single" {
        UnnamedSettingKept(argv, i + 2, s.(mode := Single), flag);
      } else if f == 'c' && value.Some? && value.value == "forking" {
        UnnamedSettingKept(argv, i + 2, s.(mode := Forking), flag);
      } else if f in {'m', 'M', 'p', 'r'} {
        UnnamedSettingKept(argv, i + 2, Stored(s, f, value), flag);
      }
    }
  }

  /** The last occurrence of a value-taking option wins: when the scan
      visits an option at k and no later option of the same letter, the
      setting ends with the argument after k (NULL when k is last), however
      the scan ends. */
  lemma {:induction false} LastOccurrenceWins(argv: seq<string>, i: nat, s: Settings, k: nat, flag: char)
    requires i <= |argv| + 1
    requires flag in {'m', 'M', 'p', 'r'}
    requires Visited(argv, i, k) && argv[k][1] == flag
    requires forall j: nat :: Visited(argv, k + 2, j) ==> argv[j][1] != flag
    ensures Field(Scan(argv, i, s).settings, flag) == ValueAfter(argv, k)
    decreases |argv| + 1 - i
  {
    var f := argv[i][1];
    var value := ValueAfter(argv, i);
    if k == i {
      UnnamedSettingKept(argv, k + 2, Stored(s, flag, value), flag);
    } else if f == 'c' && value.Some? && value.value == "single" {
      LastOccurrenceWins(argv, i + 2, s.(mode := Single), k, flag);
    } else if f == 'c' && value.Some? && value.value == "forking" {
      LastOccurrenceWins(argv, i + 2, s.(mode := Forking), k, flag);
    } else {
      LastOccurrenceWins(argv, i + 2, Stored(s, f, value), k, flag);
    }
  }

  /** `-p 1 -r x -p 2` listens on port 2. */
  lemma PortRepeated(prog: string)
    ensures Scan([prog, "-p", "1", "-r", "x", "-p", "2"], 1, Defaults).settings.port == Some("2")
  {
    var argv := [prog, "-p", "1", "-r", "x", "-p", "2"];
    assert Visited(argv, 5, 5);
    assert Visited(argv, 1, 5) by {
      assert Continues(argv, 1) && Continues(argv, 3) && Visited(argv, 3, 5);
    }
    LastOccurrenceWins(argv, 1, Defaults, 5, 'p');
  }

  /** Only the second character selects the option: `-pfoo` is `-p`. */
  lemma FlagIsSecondChar(argv: seq<string>, i: nat, s: Settings)
    requires IsOption(argv, i)
    ensures Scan(argv, i, s) == Scan(argv[i := ['-', argv[i][1]]], i, s)
  {
    var short := argv[i := ['-', argv[i][1]]];
    assert IsOption(short, i) && short[i][1] == argv[i][1];
    assert ValueAfter(short, i) == ValueAfter(argv, i);
    ScanTail(argv, short, i + 2, s.(mode := Single));
    ScanTail(argv, short, i + 2, s.(mode := Forking));
    ScanTail(argv, short, i + 2, Stored(s, argv[i][1], ValueAfter(argv, i)));
  }

  /** The scan from i on reads only the arguments from i on. */
  lemma {:induction false} ScanTail(argv: seq<string>, other: seq<string>, i: nat, s: Settings)
    requires i <= |argv| + 1 && |other| == |argv|
    requires forall k :: i <= k < |argv| ==> other[k] == argv[k]
    ensures Scan(argv, i, s) == Scan(other, i, s)
    decreases |argv| + 1 - i
  {
    if IsOption(argv, i) {
      assert IsOption(other, i) && ValueAfter(other, i) == ValueAfter(argv, i);
      var flag := argv[i][1];
      var value := ValueAfter(argv, i);
      if flag == 'c' && value.Some? && value.value == "single" {
        ScanTail(argv, other, i + 2, s.(mode := Single));
      } else if flag == 'c' && value.Some? && value.value == "forking" {
        ScanTail(argv, other, i + 2, s.(mode := Forking));
      } else if flag in {'m', 'M', 'p', 'r'} {
        ScanTail(argv, other, i + 2, Stored(s, flag, value));
      }
    } else {
      assert !IsOption(other, i);
    }
  }

  /** The configuration globals, which parse_options overwrites in place. */
  class Options {
    var port: Option<string>
    var mimeTypesPath: Option<string>
    var defaultMimeType: Option<string>
    var rootPath: Option<string>
    var mode: Mode

    function Current(): Settings
      reads this
    {
      Settings(port, mimeTypesPath, defaultMimeType, rootPath, mode)
    }

    /** The globals' initialisers and main's `mode = SINGLE`. */
    constructor ()
      ensures Current() == Defaults
    {
      port := Some("9898");
      mimeTypesPath := Some("/etc/mime.types");
      defaultMimeType := Some("text/plain");
      rootPath := Some("www");
      mode := Single;
    }

    /** parse_options: the argv loop, proved to end as Scan does and to
        leave the globals as Scan does. */
    method ParseOptions(argv: seq<string>) returns (end: ScanEnd)
      modifies this
      ensures Scanned(end, Current()) == Scan(argv, 1, old(Current()))
    {
      var argind := 1;
      while argind < |argv| && |argv[argind]| > 1 && argv[argind][0] == '-'
        invariant argind <= |argv| + 1
        invariant Scan(argv, argind, Current()) == Scan(argv, 1, old(Current()))
        decreases |argv| + 1 - argind
      {
        var arg := argv[argind];
        argind := argind + 1;
        var value := if argind < |argv| then Some(argv[argind]) else None;
        match arg[1]
        case 'c' =>
          if value.None? {
            return NullDereference;
          }
          if value.value == "single" {
            mode := Single;
          } else if value.value == "forking" {
            mode := Forking;
          } else {
            return Exited(ExitFailure);
          }
          argind := argind + 1;
        case 'h' =>
          return Exited(ExitSuccess);
        case 'm' =>
          mimeTypesPath := value;
          argind := argind + 1;
        case 'M' =>
          defaultMimeType := value;
          argind := argind + 1;
        case 'p' =>
          port := value;
          argind := argind + 1;
        case 'r' =>
          rootPath := value;
          argind := argind + 1;
        case _ =>
          return Exited(ExitFailure);
      }
      return Returned(true);
    }
  }

  /** What main ends in: an exit status, the crash of a trailing `-c`, or
      one of the two servers running on the listening socket with the
      final settings (their loops do not return). */
  datatype Launch = Exit(status: int) | Crash | SingleServer(socket: int, settings: Settings)
                  | ForkingServer(socket: int, settings: Settings)

  /** main: defaults, option scan, listen on the port (socket_listen is a
      parameter; a negative descriptor fails), resolve the root with
      realpath (a parameter; None is NULL), then start the server the mode
      names; UNKNOWN exits with failure. */
  function Launched(argv: seq<string>, listen: Option<string> -> int,
                    realpath: Option<string> -> Option<string>): Launch
  {
    var scan := Scan(argv, 1, Defaults);
    match scan.end
    case Exited(status) => Exit(status)
    case NullDereference => Crash
    case Returned(ok) =>
      if !ok then Exit(ExitFailure)
      else if listen(scan.settings.port) < 0 then Exit(ExitFailure)
      else
        var settings := scan.settings.(rootPath := realpath(scan.settings.rootPath));
        match settings.mode
        case Single => SingleServer(listen(scan.settings.port), settings)
        case Forking => ForkingServer(listen(scan.settings.port), settings)
        case Unknown => Exit(ExitFailure)
  }

  /** main, step by step over the globals. */
  method Startup(argv: seq<string>, listen: Option<string> -> int,
                 realpath: Option<string> -> Option<string>) returns (launch: Launch)
    ensures launch == Launched(argv, listen, realpath)
  {
    var options := new Options();
    var end := options.ParseOptions(argv);
    if end.Exited? {
      return Exit(end.status);
    }
    if end.NullDereference? {
      return Crash;
    }
    if !end.ok {
      return Exit(ExitFailure);
    }
    var sock := listen(options.port);
    if sock < 0 {
      return Exit(ExitFailure);
    }
    options.rootPath := realpath(options.rootPath);
    match options.mode
    case Single =>
      launch := SingleServer(sock, options.Current());
    case Forking =>
      launch := ForkingServer(sock, options.Current());
    case Unknown =>
      launch := Exit(ExitFailure);
  }

  /** Without arguments the server runs in single mode on port 9898, with
      the default MIME settings and the resolved `www` root. */
  lemma DefaultLaunch(prog: string, listen: Option<string> -> int,
                      realpath: Option<string> -> Option<string>)
    requires listen(Some("9898")) >= 0
    ensures Launched([prog], listen, realpath)
            == SingleServer(listen(Some("9898")),
                            Defaults.(rootPath := realpath(Some("www"))))
  {
  }

  /** main exits only because the scan exited or listening failed: the
      UNKNOWN branch is never taken, and a server starts whenever the scan
      returns and the socket is open. */
  lemma LaunchReasons(argv: seq<string>, listen: Option<string> -> int,
                      realpath: Option<string> -> Option<string>)
    ensures Launched(argv, listen, realpath).Exit? <==>
              Scan(argv, 1, Defaults).end.Exited?
              || (Scan(argv, 1, Defaults).end.Returned? && listen(Scan(argv, 1, Defaults).settings.port) < 0)
    ensures Launched(argv, listen, realpath).Crash? <==> Scan(argv, 1, Defaults).end.NullDereference?
  {
    ScanOutcomes(argv, 1, Defaults);
    ScanNeverUnknown(argv, 1, Defaults);
  }
}
