/** scripts/run_cuopt_mps.py: finding the cuOpt command-line executable, assembling its
  * argument list, and the exit code of `main`. The lookup on PATH, the file-system test and
  * the child process are parameters. */
module CuoptRunner {
  import opened Wrappers
  import opened Text

  /** Python truthiness of an optional string: neither None nor empty. */
  predicate Truthy(s: Option<string>)
  {
    s.Some? && |s.value| > 0
  }

  /** The names tried, in order: the preferred one when given, then the two usual names. */
  function Candidates(preferred: Option<string>): (cs: seq<string>)
    ensures Truthy(preferred) ==> cs == [preferred.value, "cuopt_cli", "cuopt"]
    ensures !Truthy(preferred) ==> cs == ["cuopt_cli", "cuopt"]
  {
    (if Truthy(preferred) then [preferred.value] else []) + ["cuopt_cli", "cuopt"]
  }

  /** The first candidate whose lookup gives a non-empty path, with its path. */
  function FirstFound(cs: seq<string>, which: string -> Option<string>): (r: Option<(nat, string)>)
    ensures r.Some? ==> r.value.0 < |cs| && which(cs[r.value.0]) == Some(r.value.1) && Truthy(Some(r.value.1))
    ensures r.Some? ==> forall j :: 0 <= j < r.value.0 ==> !Truthy(which(cs[j]))
    ensures r.None? <==> forall j :: 0 <= j < |cs| ==> !Truthy(which(cs[j]))
    decreases |cs|
  {
    if |cs| == 0 then None
    else if Truthy(which(cs[0])) then Some((0, which(cs[0]).value))
    else
      match FirstFound(cs[1..], which)
      case None => None
      case Some((i, path)) => Some((i + 1, path))
  }

  const NOT_FOUND_PREFIX: string := "cuOpt CLI executable not found. Tried: "
  const NOT_FOUND_SUFFIX: string := ". Set --exe to the correct command or ensure it is on PATH."

  function NotFoundMessage(cs: seq<string>): string
  {
    NOT_FOUND_PREFIX + Join(cs, ", ") + NOT_FOUND_SUFFIX
  }

  predicate Contains(s: string, w: string)
  {
    exists i :: 0 <= i <= |s| && w <= s[i..]
  }

  /** The error names every candidate tried. */
  lemma NotFoundNamesAll(cs: seq<string>, k: nat)
    requires k < |cs|
    ensures Contains(NotFoundMessage(cs), cs[k])
  {
    JoinContains(cs, ", ", k);
    var msg, off := NotFoundMessage(cs), |NOT_FOUND_PREFIX| + JoinOffset(cs, ", ", k);
    assert msg[off..off + |cs[k]|] == Join(cs, ", ")[JoinOffset(cs, ", ", k)..JoinOffset(cs, ", ", k) + |cs[k]|];
    assert cs[k] <= msg[off..];
  }

  function Resolved(preferred: Option<string>, which: string -> Option<string>): Result<string, string>
  {
    match FirstFound(Candidates(preferred), which)
    case Some((_, path)) => Success(path)
    case None => Failure(NotFoundMessage(Candidates(preferred)))
  }

  /** `resolve_executable` (run_cuopt_mps.py:10-22); a Failure is the FileNotFoundError. */
  method ResolveExecutable(preferred: Option<string>, which: string -> Option<string>) returns (r: Result<string, string>)
    ensures r == Resolved(preferred, which)
  {
    var candidates: seq<string> := [];
    if Truthy(preferred) {
      candidates := candidates + [preferred.value];
    }
    candidates := candidates + ["cuopt_cli", "cuopt"];
    assert candidates == Candidates(preferred);
    for i := 0 to |candidates|
      invariant forall j :: 0 <= j < i ==> !Truthy(which(candidates[j]))
    {
      var path := which(candidates[i]);
      if Truthy(path) {
        FirstFoundIsFirst(candidates, which, i);
        return Success(path.value);
      }
    }
    r := Failure(NotFoundMessage(candidates));
  }

  lemma FirstFoundIsFirst(cs: seq<string>, which: string -> Option<string>, i: nat)
    requires i < |cs| && Truthy(which(cs[i]))
    requires forall j :: 0 <= j < i ==> !Truthy(which(cs[j]))
    ensures FirstFound(cs, which) == Some((i, which(cs[i]).value))
  {
    var r := FirstFound(cs, which);
    assert r.Some?;
    if r.value.0 < i {
    } else if r.value.0 > i {
    }
  }

  /** The preferred name wins when it is found; otherwise a fallback is tried, and a failure
    * names every candidate. */
  lemma ResolvedMeaning(preferred: Option<string>, which: string -> Option<string>)
    ensures Truthy(preferred) && Truthy(which(preferred.value)) ==>
              Resolved(preferred, which) == Success(which(preferred.value).value)
    ensures Resolved(preferred, which).Success? ==>
              exists c :: c in Candidates(preferred) && which(c) == Some(Resolved(preferred, which).value)
    ensures Resolved(preferred, which).Failure? ==>
              forall c :: c in Candidates(preferred) ==> !Truthy(which(c)) && Contains(Resolved(preferred, which).error, c)
  {
    var cs := Candidates(preferred);
    if Resolved(preferred, which).Failure? {
      forall c | c in cs ensures Contains(Resolved(preferred, which).error, c) {
        var k :| 0 <= k < |cs| && cs[k] == c;
        NotFoundNamesAll(cs, k);
      }
    } else {
      var i := FirstFound(cs, which).value.0;
      assert cs[i] in cs;
    }
  }

  // ---------------------------------------------------------------- the command

  /** `build_command` as a value; `timeLimit` is `str(time_limit)` already written out. */
  function Command(exe: string, mps: string, timeLimit: Option<string>, threads: Option<int>, extra: seq<string>): seq<string>
  {
    [exe, mps]
    + (if timeLimit.Some? then ["--time-limit", timeLimit.value] else [])
    + (if threads.Some? then ["--threads", IntToString(threads.value)] else [])
    + extra
  }

  /** run_cuopt_mps.py:25-34: the list grows by `extend`. */
  method BuildCommand(exe: string, mps: string, timeLimit: Option<string>, threads: Option<int>, extra: seq<string>)
      returns (cmd: seq<string>)
    ensures cmd == Command(exe, mps, timeLimit, threads, extra)
  {
    cmd := [exe, mps];
    if timeLimit.Some? {
      cmd := cmd + ["--time-limit", timeLimit.value];
    }
    if threads.Some? {
      cmd := cmd + ["--threads", IntToString(threads.value)];
    }
    if |extra| > 0 {
      cmd := cmd + extra;
    }
  }

  /** The executable and the model come first, the time limit before the threads, each flag
    * only when given, and the extra flags verbatim at the end. */
  lemma CommandLayout(exe: string, mps: string, timeLimit: Option<string>, threads: Option<int>, extra: seq<string>)
    ensures var cmd := Command(exe, mps, timeLimit, threads, extra);
      var tl := if timeLimit.Some? then 2 else 0;
      var th := if threads.Some? then 2 else 0;
      && |cmd| == 2 + tl + th + |extra|
      && cmd[..2] == [exe, mps]
      && (timeLimit.Some? ==> cmd[2..4] == ["--time-limit", timeLimit.value])
      && (threads.Some? ==> cmd[2 + tl..4 + tl] == ["--threads", IntToString(threads.value)])
      && cmd[2 + tl + th..] == extra
  {
  }

  /** A thread count can be read back from the command. */
  lemma ThreadsReadBack(exe: string, mps: string, timeLimit: Option<string>, n: int, extra: seq<string>)
    ensures var cmd := Command(exe, mps, timeLimit, Some(n), extra);
      var at := if timeLimit.Some? then 5 else 3;
      ParseInt(cmd[at]) == Some(n)
  {
    IntRoundTrip(n);
  }

  /** `args.extra or []` without a single leading `--` (run_cuopt_mps.py:59-62). */
  function StripSeparator(extra: Option<seq<string>>): (r: seq<string>)
    ensures extra.None? ==> r == []
    ensures extra.Some? && |extra.value| > 0 && extra.value[0] == "--" ==> r == extra.value[1..]
    ensures extra.Some? && (|extra.value| == 0 || extra.value[0] != "--") ==> r == extra.value
  {
    var e := if extra.Some? then extra.value else [];
    if |e| > 0 && e[0] == "--" then e[1..] else e
  }

  /** Only one separator goes: a second `--` is forwarded. */
  lemma SecondSeparatorKept(rest: seq<string>)
    ensures StripSeparator(Some(["--", "--"] + rest)) == ["--"] + rest
    ensures StripSeparator(Some(["--"] + rest)) == rest
  {
    assert (["--", "--"] + rest)[1..] == ["--"] + rest;
  }

  // ---------------------------------------------------------------- main

  /** The arguments `main` reads, with `mps` already made absolute. */
  datatype Args = Args(mps: string, exe: Option<string>, timeLimit: Option<string>, threads: Option<int>, extra: Option<seq<string>>)

  /** What `subprocess.run` does with the command: the child runs and exits with its code, the
    * executable is missing (`FileNotFoundError`), or another `OSError` is raised (a permission
    * error, or a file the system cannot execute). */
  datatype Launch = Completed(returncode: int) | NotFound | OtherOSError

  /** How `main` ends: it returns an exit code, or an exception escapes it. Under
    * `raise SystemExit(main())` the interpreter then prints the traceback and exits with 1. */
  datatype ScriptEnd = Exit(code: int) | Uncaught

  /** The end of the script: 2 without the model file, 3 without an executable, 4 when the
    * executable is missing at start, the child's own code once it ran; any other error raised
    * while starting the child escapes `main`. */
  function ExitCode(args: Args, exists_: string -> bool, which: string -> Option<string>,
                    run: seq<string> -> Launch): ScriptEnd
  {
    if !exists_(args.mps) then Exit(2)
    else match Resolved(args.exe, which)
      case Failure(_) => Exit(3)
      case Success(exe) =>
        match run(Command(exe, args.mps, args.timeLimit, args.threads, StripSeparator(args.extra)))
        case NotFound => Exit(4)
        case OtherOSError => Uncaught
        case Completed(code) => Exit(code)
  }

  /** run_cuopt_mps.py:37-99, without the echo of the output and the log file. */
  method RunScript(args: Args, exists_: string -> bool, which: string -> Option<string>,
              run: seq<string> -> Launch) returns (end: ScriptEnd)
    ensures end == ExitCode(args, exists_, which, run)
  {
    if !exists_(args.mps) {
      return Exit(2);
    }
    var exe := ResolveExecutable(args.exe, which);
    if exe.Failure? {
      return Exit(3);
    }
    var extra := StripSeparator(args.extra);
    var cmd := BuildCommand(exe.value, args.mps, args.timeLimit, args.threads, extra);
    var completed := run(cmd);
    match completed
    case NotFound =>
      return Exit(4);
    case OtherOSError =>
      return Uncaught;
    case Completed(code) =>
      end := Exit(code);
  }

  /** The checks come in order: a missing model file is reported even when no executable
    * exists, and the child is started only with both present, with the built command. Only a
    * missing executable is caught at start; every other start failure escapes. */
  lemma ExitCodeOrder(args: Args, exists_: string -> bool, which: string -> Option<string>,
                      run: seq<string> -> Launch)
    ensures !exists_(args.mps) ==> ExitCode(args, exists_, which, run) == Exit(2)
    ensures exists_(args.mps) && Resolved(args.exe, which).Failure? ==> ExitCode(args, exists_, which, run) == Exit(3)
    ensures exists_(args.mps) && Resolved(args.exe, which).Success? ==>
      var cmd := Command(Resolved(args.exe, which).value, args.mps, args.timeLimit, args.threads, StripSeparator(args.extra));
      ExitCode(args, exists_, which, run) ==
        (match run(cmd)
         case NotFound => Exit(4)
         case OtherOSError => Uncaught
         case Completed(code) => Exit(code))
    ensures ExitCode(args, exists_, which, run) == Uncaught <==>
      exists_(args.mps) && Resolved(args.exe, which).Success?
      && run(Command(Resolved(args.exe, which).value, args.mps, args.timeLimit, args.threads, StripSeparator(args.extra))) == OtherOSError
  {
  }
}
