/**
 * The command-line parser of options.c. Arguments are read strictly left to
 * right; flags adjust three counters, and the callbacks (repl, cfar, bist, demo)
 * and the help text are recorded as events in the order they would fire.
 */
module CommandLine {

  /** A callback firing, or the help text followed by exit(EX_OK). */
  datatype Event = Repl | File(path: string) | Bist | Demo | Help

  datatype Counters = Counters(verbose: int, dryrun: int, debug: int)

  /** The counters at the end, the callbacks fired, and whether help ended the process. */
  datatype Outcome = Outcome(counters: Counters, events: seq<Event>, exited: bool)

  /** Every argument is a C string: it holds no NUL before its terminator. */
  predicate CStrings(argv: seq<string>) {
    forall k :: 0 <= k < |argv| ==> '\0' !in argv[k]
  }

  /** argp[k] of a C string: the terminating NUL just past its last character. */
  function CharAt(s: string, k: nat): char {
    if k < |s| then s[k] else '\0'
  }

  /** The repl callback at the end of an iteration, if autoRepl is still set. */
  function AutoRepl(autoRepl: bool): seq<Event> {
    if autoRepl then [Repl] else []
  }

  /**
   * The short-flag group of `arg` from position k: each letter in turn adjusts a
   * counter; unknown letters are ignored; '?' or 'h' stops everything (the bool).
   */
  function ShortFlags(c: Counters, arg: string, k: nat): (Counters, bool)
    decreases |arg| - k
  {
    if k >= |arg| then (c, false)
    else
      match arg[k]
      case 'd' => ShortFlags(c.(debug := c.debug + 1), arg, k + 1)
      case 'v' => ShortFlags(c.(verbose := c.verbose + 1), arg, k + 1)
      case 'n' => ShortFlags(c.(dryrun := c.dryrun + 1), arg, k + 1)
      case 'D' => ShortFlags(c.(debug := c.debug - 1), arg, k + 1)
      case 'V' => ShortFlags(c.(verbose := c.verbose - 1), arg, k + 1)
      case 'N' => ShortFlags(c.(dryrun := c.dryrun - 1), arg, k + 1)
      case '?' => (c, true)
      case 'h' => (c, true)
      case _ => ShortFlags(c, arg, k + 1)
  }

  /**
   * What parse_options does with the arguments from argv[argi] on, given the
   * counters, the two local flags and the events so far.
   */
  function Parse(c: Counters, autoRepl: bool, parseFlags: bool, argv: seq<string>, argi: nat, events: seq<Event>): Outcome
    decreases |argv| - argi
  {
    if argi >= |argv| then Outcome(c, events, false)
    else
      var a := argv[argi];
      if parseFlags && CharAt(a, 0) == '-' then
        if CharAt(a, 1) == '-' then
          if CharAt(a, 2) == '\0' then Parse(c, autoRepl, false, argv, argi + 1, events)
          else if a[2..] == "help" then Outcome(c, events + [Help], true)
          else if a[2..] == "verbose" then Parse(c.(verbose := c.verbose + 1), autoRepl, parseFlags, argv, argi + 1, events)
          else if a[2..] == "debug" then Parse(c.(debug := c.debug + 1), autoRepl, parseFlags, argv, argi + 1, events)
          else if a[2..] == "dryrun" then Parse(c.(debug := c.debug + 1), autoRepl, parseFlags, argv, argi + 1, events)
          else if a[2..] == "no-verbose" then Parse(c.(verbose := c.verbose - 1), autoRepl, parseFlags, argv, argi + 1, events)
          else if a[2..] == "no-debug" then Parse(c.(debug := c.debug - 1), autoRepl, parseFlags, argv, argi + 1, events)
          else if a[2..] == "no-dryrun" then Parse(c.(debug := c.debug - 1), autoRepl, parseFlags, argv, argi + 1, events)
          else if a[2..] == "bist" then Parse(c, autoRepl, parseFlags, argv, argi + 1, events + [Bist])
          else if a[2..] == "demo" then Parse(c, autoRepl, parseFlags, argv, argi + 1, events + [Demo])
          else Parse(c, autoRepl, parseFlags, argv, argi + 1, events + AutoRepl(autoRepl))
        else if CharAt(a, 1) == '\0' then
          Parse(c, false, parseFlags, argv, argi + 1, events + [Repl])
        else
          var (c', help) := ShortFlags(c, a, 1);
          if help then Outcome(c', events + [Help], true)
          else Parse(c', autoRepl, parseFlags, argv, argi + 1, events + AutoRepl(autoRepl))
      else
        Parse(c, false, parseFlags, argv, argi + 1, events + [File(a)])
  }

  /** The outcome of parse_options(argc, argv) starting from the counters `c` (argv[0] is the program name). */
  function ParseOptionsSpec(c: Counters, argv: seq<string>): Outcome {
    Parse(c, true, true, argv, 1, [])
  }

  /** Events only ever accumulate: the events passed in are a prefix of the outcome's. */
  lemma {:induction false} ParseExtendsEvents(c: Counters, autoRepl: bool, parseFlags: bool, argv: seq<string>, argi: nat, events: seq<Event>)
    ensures events <= Parse(c, autoRepl, parseFlags, argv, argi, events).events
    decreases |argv| - argi
  {
    if argi < |argv| {
      var a := argv[argi];
      if parseFlags && CharAt(a, 0) == '-' && CharAt(a, 1) != '-' && CharAt(a, 1) != '\0' {
        var (c', help) := ShortFlags(c, a, 1);
        ParseExtendsEvents(c', autoRepl, parseFlags, argv, argi + 1, events + AutoRepl(autoRepl));
      } else {
        ParseExtendsEvents(c, autoRepl, parseFlags, argv, argi + 1, events);
        ParseExtendsEvents(c, false, parseFlags, argv, argi + 1, events + [Repl]);
        ParseExtendsEvents(c, false, parseFlags, argv, argi + 1, events + [File(a)]);
        ParseExtendsEvents(c, autoRepl, false, argv, argi + 1, events);
        ParseExtendsEvents(c.(verbose := c.verbose + 1), autoRepl, parseFlags, argv, argi + 1, events);
        ParseExtendsEvents(c.(debug := c.debug + 1), autoRepl, parseFlags, argv, argi + 1, events);
        ParseExtendsEvents(c.(verbose := c.verbose - 1), autoRepl, parseFlags, argv, argi + 1, events);
        ParseExtendsEvents(c.(debug := c.debug - 1), autoRepl, parseFlags, argv, argi + 1, events);
        ParseExtendsEvents(c, autoRepl, parseFlags, argv, argi + 1, events + [Bist]);
        ParseExtendsEvents(c, autoRepl, parseFlags, argv, argi + 1, events + [Demo]);
        ParseExtendsEvents(c, autoRepl, parseFlags, argv, argi + 1, events + AutoRepl(autoRepl));
      }
    }
  }

  /** After `--` every remaining argument, dashes and all, is passed to cfar, in order. */
  lemma {:induction false} AfterDoubleDashAllFiles(c: Counters, autoRepl: bool, argv: seq<string>, argi: nat, events: seq<Event>)
    requires argi <= |argv|
    ensures Parse(c, autoRepl, false, argv, argi, events)
         == Outcome(c, events + seq(|argv| - argi, k requires 0 <= k < |argv| - argi => File(argv[argi + k])), false)
    decreases |argv| - argi
  {
    if argi < |argv| {
      AfterDoubleDashAllFiles(c, false, argv, argi + 1, events + [File(argv[argi])]);
      var rest := seq(|argv| - (argi + 1), k requires 0 <= k < |argv| - (argi + 1) => File(argv[argi + 1 + k]));
      var all := seq(|argv| - argi, k requires 0 <= k < |argv| - argi => File(argv[argi + k]));
      assert all == [File(argv[argi])] + rest;
    }
  }

  /** How often `ch` occurs in s[k..]. */
  function Count(s: string, k: nat, ch: char): nat
    decreases |s| - k
  {
    if k >= |s| then 0 else (if s[k] == ch then 1 else 0) + Count(s, k + 1, ch)
  }

  /**
   * A short-flag group without '?' or 'h' adds (lower-case count - upper-case count)
   * to each counter, whatever the order of the letters.
   */
  lemma {:induction false} ShortFlagsCount(c: Counters, arg: string, k: nat)
    requires forall j :: k <= j < |arg| ==> arg[j] != '?' && arg[j] != 'h'
    ensures ShortFlags(c, arg, k) == (Counters(
      c.verbose + Count(arg, k, 'v') - Count(arg, k, 'V'),
      c.dryrun + Count(arg, k, 'n') - Count(arg, k, 'N'),
      c.debug + Count(arg, k, 'd') - Count(arg, k, 'D')), false)
    decreases |arg| - k
  {
    if k < |arg| {
      match arg[k]
      case 'd' => ShortFlagsCount(c.(debug := c.debug + 1), arg, k + 1);
      case 'v' => ShortFlagsCount(c.(verbose := c.verbose + 1), arg, k + 1);
      case 'n' => ShortFlagsCount(c.(dryrun := c.dryrun + 1), arg, k + 1);
      case 'D' => ShortFlagsCount(c.(debug := c.debug - 1), arg, k + 1);
      case 'V' => ShortFlagsCount(c.(verbose := c.verbose - 1), arg, k + 1);
      case 'N' => ShortFlagsCount(c.(dryrun := c.dryrun - 1), arg, k + 1);
      case _ => ShortFlagsCount(c, arg, k + 1);
    }
  }

  /** A help letter ends the group and the process: later letters have no effect. */
  lemma {:induction false} ShortFlagsHelpStops(c: Counters, arg: string, k: nat, h: nat)
    requires k <= h < |arg| && (arg[h] == '?' || arg[h] == 'h')
    ensures ShortFlags(c, arg, k).1
    ensures ShortFlags(c, arg, k) == ShortFlags(c, arg[..h], k).(1 := true)
    decreases h - k
  {
    if k < h {
      assert arg[..h][k] == arg[k];
      match arg[k]
      case 'd' => ShortFlagsHelpStops(c.(debug := c.debug + 1), arg, k + 1, h);
      case 'v' => ShortFlagsHelpStops(c.(verbose := c.verbose + 1), arg, k + 1, h);
      case 'n' => ShortFlagsHelpStops(c.(dryrun := c.dryrun + 1), arg, k + 1, h);
      case 'D' => ShortFlagsHelpStops(c.(debug := c.debug - 1), arg, k + 1, h);
      case 'V' => ShortFlagsHelpStops(c.(verbose := c.verbose - 1), arg, k + 1, h);
      case 'N' => ShortFlagsHelpStops(c.(dryrun := c.dryrun - 1), arg, k + 1, h);
      case '?' =>
      case 'h' =>
      case _ => ShortFlagsHelpStops(c, arg, k + 1, h);
    }
  }

  /** `--dryrun` and `--no-dryrun` move the debug level and leave dryrun alone. */
  lemma DryrunLongOptionsMoveDebug(c: Counters, autoRepl: bool, argv: seq<string>, argi: nat, events: seq<Event>)
    requires argi < |argv| && (argv[argi] == "--dryrun" || argv[argi] == "--no-dryrun")
    ensures Parse(c, autoRepl, true, argv, argi, events)
         == Parse(c.(debug := c.debug + (if argv[argi] == "--dryrun" then 1 else -1)), autoRepl, true, argv, argi + 1, events)
  {
    var a := argv[argi];
    assert a[2..] == (if a == "--dryrun" then "dryrun" else "no-dryrun");
  }

  /**
   * While no file or lone `-` has been seen, every short-flag group fires repl
   * once more: `clox -v -d` runs the REPL twice.
   */
  lemma {:induction false} ShortFlagGroupsRepeatRepl(c: Counters, argv: seq<string>, argi: nat, events: seq<Event>)
    requires argi <= |argv|
    requires forall k :: argi <= k < |argv| ==>
      |argv[k]| >= 2 && argv[k][0] == '-' && argv[k][1] != '-' && '\0' !in argv[k]
      && '?' !in argv[k] && 'h' !in argv[k]
    ensures Parse(c, true, true, argv, argi, events).events
         == events + seq(|argv| - argi, _ => Repl)
    decreases |argv| - argi
  {
    if argi < |argv| {
      var a := argv[argi];
      ShortFlagsCount(c, a, 1);
      var (c', help) := ShortFlags(c, a, 1);
      ShortFlagGroupsRepeatRepl(c', argv, argi + 1, events + [Repl]);
      assert events + [Repl] + seq(|argv| - (argi + 1), _ => Repl) == events + seq(|argv| - argi, _ => Repl);
    }
  }

  /** The global options structure: the three counters parse_options updates. */
  class Options {
    var verbose: int
    var dryrun: int
    var debug: int

    function Current(): Counters
      reads this
    {
      Counters(verbose, dryrun, debug)
    }

    constructor ()
      ensures verbose == 0 && dryrun == 0 && debug == 0
    {
      verbose, dryrun, debug := 0, 0, 0;
    }

    /**
     * parse_options: the `while (argi < argc)` loop with its `continue`s, the inner
     * loop over a short-flag group, and the autoRepl check at the bottom of the
     * loop body. Help records its event and stops (exit in C).
     */
    method ParseOptions(argv: seq<string>) returns (events: seq<Event>, exited: bool)
      requires CStrings(argv)
      modifies this
      ensures Outcome(Current(), events, exited) == ParseOptionsSpec(old(Current()), argv)
    {
      var autoRepl := true;
      var parseFlags := true;
      var argi := 1;
      events, exited := [], false;
      while argi < |argv|
        invariant 1 <= argi
        invariant ParseOptionsSpec(old(Current()), argv) == Parse(Current(), autoRepl, parseFlags, argv, argi, events)
        invariant !exited
        decreases |argv| - argi
      {
        var argp := argv[argi];
        argi := argi + 1;
        if parseFlags && CharAt(argp, 0) == '-' {
          if CharAt(argp, 1) == '-' {
            if CharAt(argp, 2) == '\0' {
              parseFlags := false;
              continue;
            }
            var name := argp[2..];
            if name == "help" {
              events, exited := events + [Help], true;
              return;
            }
            if name == "verbose" {
              verbose := verbose + 1;
              continue;
            }
            if name == "debug" {
              debug := debug + 1;
              continue;
            }
            if name == "dryrun" {
              debug := debug + 1;
              continue;
            }
            if name == "no-verbose" {
              verbose := verbose - 1;
              continue;
            }
            if name == "no-debug" {
              debug := debug - 1;
              continue;
            }
            if name == "no-dryrun" {
              debug := debug - 1;
              continue;
            }
            if name == "bist" {
              events := events + [Bist];
              continue;
            }
            if name == "demo" {
              events := events + [Demo];
              continue;
            }
          } else {
            if CharAt(argp, 1) == '\0' {
              autoRepl := false;
              events := events + [Repl];
            } else {
              var k := 1;
              ghost var c0, events0 := Current(), events;
              while k < |argp|
                invariant 1 <= k <= |argp|
                invariant events == events0 && !exited
                invariant ShortFlags(c0, argp, 1) == ShortFlags(Current(), argp, k)
                decreases |argp| - k
              {
                var flag := argp[k];
                k := k + 1;
                if flag == 'd' {
                  debug := debug + 1;
                } else if flag == 'v' {
                  verbose := verbose + 1;
                } else if flag == 'n' {
                  dryrun := dryrun + 1;
                } else if flag == 'D' {
                  debug := debug - 1;
                } else if flag == 'V' {
                  verbose := verbose - 1;
                } else if flag == 'N' {
                  dryrun := dryrun - 1;
                } else if flag == '?' || flag == 'h' {
                  events, exited := events + [Help], true;
                  return;
                }
              }
              assert ShortFlags(c0, argp, 1) == (Current(), false);
              }
          }
        } else {
          autoRepl := false;
          events := events + [File(argp)];
        }
        assert events + AutoRepl(false) == events;
        if autoRepl {
          events := events + [Repl];
        }
      }
    }
  }
}
