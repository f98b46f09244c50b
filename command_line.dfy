/**
  Command-line variable assignments. Each launch argument is split on `=`
  the way `String.Split('=')` does; an argument with at least one `=` assigns
  the text before the first `=` to the name and the rest, rejoined with `=`,
  to the value. Any other argument is reported and ignored.
*/
module CommandLine {
  import opened Wrappers
  import opened Bootstrapper

  const Separator: char := '='

  /** Joins the pieces with `sep` between consecutive pieces, as `string.Join` does. */
  function Join(parts: seq<string>, sep: char): string
  {
    if |parts| == 0 then ""
    else if |parts| == 1 then parts[0]
    else parts[0] + [sep] + Join(parts[1..], sep)
  }

  /**
    The pieces of `s` between occurrences of `sep`, empty pieces kept, as
    `String.Split(char)` returns them: joining them back gives `s`, no piece
    holds `sep`, and there is more than one piece exactly when `s` holds `sep`.
  */
  function Split(s: string, sep: char): (parts: seq<string>)
    ensures |parts| >= 1
    ensures |parts| > 1 <==> sep in s
    ensures forall i :: 0 <= i < |parts| ==> sep !in parts[i]
    ensures Join(parts, sep) == s
    decreases |s|
  {
    if s == [] then [""]
    else
      var rest := Split(s[1..], sep);
      assert s == [s[0]] + s[1..];
      if s[0] == sep then [""] + rest
      else [[s[0]] + rest[0]] + rest[1..]
  }

  /** The first position of `c` in `s`. */
  function FirstIndex(s: string, c: char): (k: nat)
    requires c in s
    ensures k < |s| && s[k] == c && c !in s[..k]
  {
    if s[0] == c then 0 else 1 + FirstIndex(s[1..], c)
  }

  datatype Assignment = Assignment(name: string, value: string)

  /**
    One launch argument: `Some` of the assignment it makes when it holds a
    `=`, `None` when it must be ignored. The name never holds a `=`, and name,
    `=` and value put back together give the argument.
  */
  function ParseArgument(arg: string): (r: Option<Assignment>)
    ensures r.Some? <==> Separator in arg
    ensures r.Some? ==> Separator !in r.value.name
    ensures r.Some? ==> r.value.name + [Separator] + r.value.value == arg
  {
    var splits := Split(arg, Separator);
    if |splits| > 1 then Some(Assignment(splits[0], Join(splits[1..], Separator))) else Option.None
  }

  lemma {:induction false} FirstIndexAfterPrefix(a: string, b: string, c: char)
    requires c !in a
    ensures c in a + [c] + b && FirstIndex(a + [c] + b, c) == |a|
  {
    if a != [] {
      assert (a + [c] + b)[1..] == a[1..] + [c] + b;
      FirstIndexAfterPrefix(a[1..], b, c);
    }
  }

  /** The stored name is the text before the first `=`, the value everything after it. */
  lemma NameBeforeFirstSeparator(arg: string)
    requires Separator in arg
    ensures var k := FirstIndex(arg, Separator);
      ParseArgument(arg) == Some(Assignment(arg[..k], arg[k + 1..]))
  {
    var a := ParseArgument(arg).value;
    FirstIndexAfterPrefix(a.name, a.value, Separator);
    var k := |a.name|;
    assert arg[..k] == a.name;
    assert arg[k + 1..] == a.value;
  }

  /** Round trip: a name without `=` and any value come back from `name=value`. */
  lemma ParseRoundTrip(name: string, value: string)
    requires Separator !in name
    ensures ParseArgument(name + [Separator] + value) == Some(Assignment(name, value))
  {
    var arg := name + [Separator] + value;
    FirstIndexAfterPrefix(name, value, Separator);
    NameBeforeFirstSeparator(arg);
    var k := |name|;
    assert arg[..k] == name;
    assert arg[k + 1..] == value;
  }

  /**
    The edge cases are still stored: a leading `=` gives the empty name, a
    trailing `=` the empty value. The empty argument stores nothing.
  */
  lemma EdgeCases(name: string, value: string)
    requires Separator !in name
    ensures ParseArgument([Separator] + value) == Some(Assignment("", value))
    ensures ParseArgument(name + [Separator]) == Some(Assignment(name, ""))
    ensures ParseArgument("") == Option.None
  {
    ParseRoundTrip("", value);
    assert "" + [Separator] + value == [Separator] + value;
    ParseRoundTrip(name, "");
    assert name + [Separator] + "" == name + [Separator];
  }

  /** `arg` assigns the variable `name`. */
  predicate Assigns(arg: string, name: string)
  {
    ParseArgument(arg).Some? && ParseArgument(arg).value.name == name
  }

  /** `arg` assigns `value` to the variable `name`. */
  predicate AssignsValue(arg: string, name: string, value: string)
  {
    ParseArgument(arg) == Some(Assignment(name, value))
  }

  /** The variable store after one argument: an assignment inserts or overwrites. */
  function StoreArgument(vars: map<string, string>, arg: string): map<string, string>
  {
    match ParseArgument(arg)
    case Some(a) => vars[a.name := a.value]
    case None => vars
  }

  /** The variable store after all arguments, taken in order. */
  function StoreAll(vars: map<string, string>, args: seq<string>): map<string, string>
    decreases |args|
  {
    if args == [] then vars
    else StoreArgument(StoreAll(vars, args[..|args| - 1]), args[|args| - 1])
  }

  /** The value the last argument assigning `name` gives it, if any argument does. */
  function LastValue(args: seq<string>, name: string): Option<string>
    decreases |args|
  {
    if args == [] then Option.None
    else if Assigns(args[|args| - 1], name) then Some(ParseArgument(args[|args| - 1]).value.value)
    else LastValue(args[..|args| - 1], name)
  }

  /** `LastValue` is `None` exactly when no argument assigns the name. */
  lemma {:induction false} LastValueNone(args: seq<string>, name: string)
    ensures LastValue(args, name).None? <==> forall i :: 0 <= i < |args| ==> !Assigns(args[i], name)
    decreases |args|
  {
    if args != [] {
      var n := |args| - 1;
      var init := args[..n];
      LastValueNone(init, name);
      if !Assigns(args[n], name) {
        assert LastValue(args, name) == LastValue(init, name);
        forall i | 0 <= i < n
          ensures args[i] == init[i]
        {
        }
      }
    }
  }

  /** `LastValue` is the value of an assignment to the name that no later argument overrides. */
  lemma {:induction false} LastValueIsLastAssignment(args: seq<string>, name: string)
    requires LastValue(args, name).Some?
    ensures exists i ::
      && 0 <= i < |args|
      && AssignsValue(args[i], name, LastValue(args, name).value)
      && forall j :: i < j < |args| ==> !Assigns(args[j], name)
    decreases |args|
  {
    var n := |args| - 1;
    var v := LastValue(args, name).value;
    if Assigns(args[n], name) {
      assert AssignsValue(args[n], name, v);
    } else {
      var init := args[..n];
      assert LastValue(init, name) == LastValue(args, name);
      LastValueIsLastAssignment(init, name);
      var i :| 0 <= i < n && AssignsValue(init[i], name, v) &&
        forall j :: i < j < n ==> !Assigns(init[j], name);
      assert args[i] == init[i];
      forall j | i < j < |args|
        ensures !Assigns(args[j], name)
      {
        if j < n {
          assert args[j] == init[j];
        }
      }
    }
  }

  /**
    Last write wins: after all arguments, a name holds the value of the last
    argument assigning it; a name no argument assigns keeps its old entry or
    stays absent.
  */
  lemma {:induction false} LastWriteWins(vars: map<string, string>, args: seq<string>, name: string)
    ensures name in StoreAll(vars, args) <==> name in vars || LastValue(args, name).Some?
    ensures LastValue(args, name).Some? ==> StoreAll(vars, args)[name] == LastValue(args, name).value
    ensures LastValue(args, name).None? && name in vars ==> StoreAll(vars, args)[name] == vars[name]
    decreases |args|
  {
    if args != [] {
      LastWriteWins(vars, args[..|args| - 1], name);
    }
  }

  /** One error-level entry for each ignored argument, in argument order. */
  function RejectionLog(args: seq<string>): seq<LogEntry>
    decreases |args|
  {
    if args == [] then []
    else
      var last := args[|args| - 1];
      RejectionLog(args[..|args| - 1])
        + (if Separator in last then [] else [LogEntry(LogLevel.Error, IgnoringArgument(last))])
  }

  /**
    Every entry of the rejection log is an error naming an argument without
    `=`, and each such argument is named exactly as often as it occurs.
  */
  lemma {:induction false} RejectionLogCounts(args: seq<string>, arg: string)
    ensures forall e :: e in RejectionLog(args) ==>
      e.level == LogLevel.Error && e.message.IgnoringArgument? && e.message.arg in args && Separator !in e.message.arg
    ensures multiset(RejectionLog(args))[LogEntry(LogLevel.Error, IgnoringArgument(arg))]
      == if Separator in arg then 0 else multiset(args)[arg]
    decreases |args|
  {
    if args != [] {
      var n := |args| - 1;
      RejectionLogCounts(args[..n], arg);
      assert args == args[..n] + [args[n]];
    }
  }

  /**
    Two assignments and one argument without `=`: both variables are stored,
    the second winning if the names coincide, and exactly the third argument is
    reported (for instance `FOO=1`, `BAR=a=b`, `bad`).
  */
  lemma {:induction false} ThreeArguments(n1: string, v1: string, n2: string, v2: string, bad: string)
    requires Separator !in n1 && Separator !in n2 && Separator !in bad
    ensures var args := [n1 + [Separator] + v1, n2 + [Separator] + v2, bad];
      StoreAll(map[], args) == map[n1 := v1][n2 := v2] &&
      RejectionLog(args) == [LogEntry(LogLevel.Error, IgnoringArgument(bad))]
  {
    var a1, a2 := n1 + [Separator] + v1, n2 + [Separator] + v2;
    var args := [a1, a2, bad];
    ParseRoundTrip(n1, v1);
    ParseRoundTrip(n2, v2);
    assert args[..2] == [a1, a2] && [a1, a2][..1] == [a1] && [a1][..0] == [];
    assert StoreAll(map[], [a1]) == map[n1 := v1];
    assert StoreAll(map[], [a1, a2]) == map[n1 := v1][n2 := v2];
    assert StoreAll(map[], args) == StoreArgument(StoreAll(map[], [a1, a2]), bad);
    assert RejectionLog([a1]) == [];
    assert RejectionLog([a1, a2]) == [];
  }
}
