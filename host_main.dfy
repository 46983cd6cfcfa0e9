/** The host program's command line (main.go): after the plugin is started and dispensed, the
    first user argument picks `get` or `put`; `main` turns the result into the exit code.
    Starting the plugin is not part of this model: its error, if any, is an input. The plugin's
    `Get` and `Put`, reached over RPC, are oracles. */
module HostMain {
  import opened GoTypes

  /** The message for an unknown command; the command follows, quoted as `%q` does. */
  const UsagePrefix: string := "please only use 'get' or 'put', given: "

  function HexDigit(n: int): (r: char)
    requires 0 <= n < 16
    ensures HexValue(r) == Some(n)
  {
    if n < 10 then ('0' as int + n) as char else ('a' as int + n - 10) as char
  }

  function HexValue(c: char): (r: Option<int>)
    ensures r.Some? ==> 0 <= r.value < 16
  {
    if '0' <= c <= '9' then Some(c as int - '0' as int)
    else if 'a' <= c <= 'f' then Some(c as int - 'a' as int + 10)
    else None
  }

  /** How `%q` writes one character: the named escapes, a backslash before `"` and `\`, `\x`
      and two hex digits for the other control characters, anything else as it is. */
  function Escape(c: char): (r: string)
    ensures 1 <= |r| <= 4 && r[0] != '"'
    ensures |r| == 1 <==> r == [c]
  {
    if c == '\U{07}' then "\\a"
    else if c == '\U{08}' then "\\b"
    else if c == '\U{0C}' then "\\f"
    else if c == '\n' then "\\n"
    else if c == '\r' then "\\r"
    else if c == '\t' then "\\t"
    else if c == '\U{0B}' then "\\v"
    else if c == '\\' then "\\\\"
    else if c == '"' then "\\\""
    else if c < ' ' || c == '\U{7F}' then "\\x" + [HexDigit(c as int / 16), HexDigit(c as int % 16)]
    else [c]
  }

  function QuoteBody(s: string): string {
    if s == [] then [] else Escape(s[0]) + QuoteBody(s[1..])
  }

  /** `%q` of a string: between double quotes, with every character escaped as needed. */
  function Quote(s: string): (r: string)
    ensures |r| >= 2 + |s| && r[0] == '"' && r[|r| - 1] == '"'
  {
    QuoteBodyLength(s);
    "\"" + QuoteBody(s) + "\""
  }

  lemma {:induction false} QuoteBodyLength(s: string)
    ensures |QuoteBody(s)| >= |s|
  {
    if s != [] {
      QuoteBodyLength(s[1..]);
    }
  }

  /** The character a named escape letter stands for. */
  function NamedEscape(e: char): Option<char> {
    if e == 'a' then Some('\U{07}')
    else if e == 'b' then Some('\U{08}')
    else if e == 'f' then Some('\U{0C}')
    else if e == 'n' then Some('\n')
    else if e == 'r' then Some('\r')
    else if e == 't' then Some('\t')
    else if e == 'v' then Some('\U{0B}')
    else if e == '\\' then Some('\\')
    else if e == '"' then Some('"')
    else None
  }

  /** Reads back the text between the quotes, or None when it is not a valid quoted body. */
  function UnquoteBody(t: string): (r: Option<string>)
    decreases |t|
  {
    if t == [] then Some([])
    else if t[0] == '"' then None
    else if t[0] != '\\' then
      match UnquoteBody(t[1..])
      case None => None
      case Some(rest) => Some([t[0]] + rest)
    else if |t| >= 2 && NamedEscape(t[1]).Some? then
      match UnquoteBody(t[2..])
      case None => None
      case Some(rest) => Some([NamedEscape(t[1]).value] + rest)
    else if |t| >= 4 && t[1] == 'x' && HexValue(t[2]).Some? && HexValue(t[3]).Some? then
      match UnquoteBody(t[4..])
      case None => None
      case Some(rest) => Some([(HexValue(t[2]).value * 16 + HexValue(t[3]).value) as char] + rest)
    else None
  }

  /** Reads back a quoted string. */
  function Unquote(q: string): Option<string> {
    if |q| >= 2 && q[0] == '"' && q[|q| - 1] == '"' then UnquoteBody(q[1..|q| - 1]) else None
  }

  /** One escaped character is read back as that character. */
  lemma UnquoteEscape(c: char, rest: string)
    ensures UnquoteBody(Escape(c) + rest)
            == match UnquoteBody(rest) case None => None case Some(u) => Some([c] + u)
  {
    var e := Escape(c);
    var t := e + rest;
    if |e| == 1 {
      assert t[1..] == rest;
    } else if |e| == 2 {
      assert t[2..] == rest;
    } else {
      assert t[4..] == rest;
    }
  }

  /** The quoted command in the usage error can be read back exactly. */
  lemma {:induction false} UnquoteQuoteBody(s: string)
    ensures UnquoteBody(QuoteBody(s)) == Some(s)
  {
    if s != [] {
      UnquoteEscape(s[0], QuoteBody(s[1..]));
      UnquoteQuoteBody(s[1..]);
      assert [s[0]] + s[1..] == s;
    }
  }

  lemma UnquoteQuote(s: string)
    ensures Unquote(Quote(s)) == Some(s)
  {
    var q := Quote(s);
    assert q[1..|q| - 1] == QuoteBody(s);
    UnquoteQuoteBody(s);
  }

  /** What the argument switch decides. */
  datatype Command =
    | GetCommand(key: string)
    | PutCommand(key: string, value: string)
    | Usage(err: Error)

  /** The switch on `os.Args` after the program name is dropped: `args` is the whole command line,
      program name first. Each path indexes the arguments it needs, and panics when they are
      missing. */
  function Dispatch(args: seq<string>): (r: Outcome<Command>)
    ensures |args| == 0 ==> r == Panicked(SliceOutOfRange(1, 0, 0))
    ensures |args| == 1 ==> r == Panicked(IndexOutOfRange(0, 0))
    ensures |args| >= 2 && args[1] == "get" ==>
              (r.Returned? <==> |args| >= 3) && (r.Returned? ==> r.value == GetCommand(args[2]))
    ensures |args| >= 2 && args[1] == "put" ==>
              (r.Returned? <==> |args| >= 4) && (r.Returned? ==> r.value == PutCommand(args[2], args[3]))
    ensures |args| >= 2 && args[1] != "get" && args[1] != "put" ==>
              r == Returned(Usage(Error(UsagePrefix + Quote(args[1]))))
  {
    if |args| == 0 then Panicked(SliceOutOfRange(1, 0, 0))
    else
      var userArgs := args[1..];
      if |userArgs| == 0 then Panicked(IndexOutOfRange(0, 0))
      else if userArgs[0] == "get" then
        if |userArgs| < 2 then Panicked(IndexOutOfRange(1, |userArgs|))
        else Returned(GetCommand(userArgs[1]))
      else if userArgs[0] == "put" then
        if |userArgs| < 2 then Panicked(IndexOutOfRange(1, |userArgs|))
        else if |userArgs| < 3 then Panicked(IndexOutOfRange(2, |userArgs|))
        else Returned(PutCommand(userArgs[1], userArgs[2]))
      else Returned(Usage(Error(UsagePrefix + Quote(userArgs[0]))))
  }

  /** An unknown command's error names it, and the name can be read back from the message. */
  lemma UsageNamesCommand(args: seq<string>)
    requires |args| >= 2 && args[1] != "get" && args[1] != "put"
    ensures Dispatch(args).Returned? && Dispatch(args).value.Usage?
    ensures var msg := Dispatch(args).value.err.message;
            msg[..|UsagePrefix|] == UsagePrefix && Unquote(msg[|UsagePrefix|..]) == Some(args[1])
  {
    var msg := UsagePrefix + Quote(args[1]);
    assert msg[|UsagePrefix|..] == Quote(args[1]);
    UnquoteQuote(args[1]);
  }

  /** What `run` returns, once the command is decided: `get`'s and `put`'s errors unchanged. */
  function RunOutcome(cmd: Outcome<Command>, get: string -> (Bytes, Option<Error>),
                      put: (string, Bytes) -> Option<Error>): Outcome<Option<Error>>
  {
    match cmd
    case Panicked(p) => Panicked(p)
    case Returned(GetCommand(key)) => Returned(get(key).1)
    case Returned(PutCommand(key, value)) => Returned(put(key, value))
    case Returned(Usage(err)) => Returned(Some(err))
  }

  /** `run`: an error starting the plugin is returned first; then the program name is dropped
      from the arguments and the first remaining one is dispatched. */
  method Run(args: seq<string>, setupErr: Option<Error>, get: string -> (Bytes, Option<Error>),
             put: (string, Bytes) -> Option<Error>) returns (r: Outcome<Option<Error>>)
    ensures setupErr.Some? ==> r == Returned(setupErr)
    ensures setupErr.None? ==> r == RunOutcome(Dispatch(args), get, put)
  {
    if setupErr.Some? {
      return Returned(setupErr);
    }

    var osArgs := args;
    if |osArgs| < 1 {
      return Panicked(SliceOutOfRange(1, |osArgs|, |osArgs|));
    }
    osArgs := osArgs[1..];

    if |osArgs| == 0 {
      return Panicked(IndexOutOfRange(0, 0));
    }
    if osArgs[0] == "get" {
      if |osArgs| < 2 {
        return Panicked(IndexOutOfRange(1, |osArgs|));
      }
      var (result, err) := get(osArgs[1]);
      if err.Some? {
        return Returned(err);
      }
      return Returned(None);
    } else if osArgs[0] == "put" {
      if |osArgs| < 2 {
        return Panicked(IndexOutOfRange(1, |osArgs|));
      }
      if |osArgs| < 3 {
        return Panicked(IndexOutOfRange(2, |osArgs|));
      }
      var err := put(osArgs[1], osArgs[2]);
      if err.Some? {
        return Returned(err);
      }
      return Returned(None);
    } else {
      return Returned(Some(Error(UsagePrefix + Quote(osArgs[0]))));
    }
  }

  /** The process exit status: 0 when `run` returns nil, 1 when it returns an error (from `main`),
      2 when it panics (from the Go runtime). */
  function ExitCode(r: Outcome<Option<Error>>): (code: int)
    ensures code == 0 <==> r == Returned(None)
    ensures code == 1 <==> r.Returned? && r.value.Some?
    ensures code == 2 <==> r.Panicked?
  {
    match r
    case Panicked(_) => 2
    case Returned(None) => 0
    case Returned(Some(_)) => 1
  }

  /** `main`: calls `run`, and exits with the status of what `run` did. */
  method HostMain(args: seq<string>, setupErr: Option<Error>, get: string -> (Bytes, Option<Error>),
                  put: (string, Bytes) -> Option<Error>) returns (code: int)
    ensures setupErr.Some? ==> code == 1
    ensures setupErr.None? ==> code == ExitCode(RunOutcome(Dispatch(args), get, put))
  {
    var r := Run(args, setupErr, get, put);
    code := ExitCode(r);
  }

  /** An unknown command, or a missing argument, never exits 0. */
  lemma BadCommandLineFails(args: seq<string>, get: string -> (Bytes, Option<Error>),
                            put: (string, Bytes) -> Option<Error>)
    requires |args| < 2 || (args[1] != "get" && args[1] != "put")
             || (args[1] == "get" && |args| < 3) || (args[1] == "put" && |args| < 4)
    ensures ExitCode(RunOutcome(Dispatch(args), get, put)) != 0
  {
  }
}
