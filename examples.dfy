/**
 * The command line of the `Requestor` example program:
 * `[-s <url> | --server <url>]... <subject> <message>`.
 *
 * `Parse` and the functions beneath it define what a command line means;
 * `Requestor.ParseArgs` is the imperative parser, proved against them.
 */
module Examples {
  import opened Wrappers

  /** The client library's default server URL. */
  const DEFAULT_URL: string := "nats://localhost:4222"

  /** Why a command line is rejected. */
  datatype ParseError =
    | TooFewArgs
    | MissingArgument(flag: string)
    | UnexpectedToken(token: string)

  /** The message of the `IllegalArgumentException` raised for `e`. */
  function ErrorMessage(e: ParseError): (msg: string)
    ensures e.TooFewArgs? ==> msg == "must supply at least subject and msg"
    // a missing argument is reported by naming the flag first
    ensures e.MissingArgument? ==>
              |msg| > |e.flag| && msg[..|e.flag|] == e.flag &&
              msg[|e.flag|..] == " requires an argument"
    // an unexpected token is quoted between single quotes after a fixed prefix
    ensures e.UnexpectedToken? ==>
              |msg| == |"Unexpected token: '"| + |e.token| + 1 &&
              msg[..|"Unexpected token: '"|] == "Unexpected token: '" &&
              msg[|msg| - |e.token| - 1..|msg| - 1] == e.token &&
              msg[|msg| - 1] == '\''
  {
    match e
    case TooFewArgs => "must supply at least subject and msg"
    case MissingArgument(flag) => flag + " requires an argument"
    case UnexpectedToken(token) => "Unexpected token: '" + token + "'"
  }

  /** Different errors give different messages: the text tells which
      error was raised and for which token. */
  lemma ErrorMessageIdentifiesError(e1: ParseError, e2: ParseError)
    requires ErrorMessage(e1) == ErrorMessage(e2)
    ensures e1 == e2
  {
  }

  /** What a well-formed command line asks for. */
  datatype Options = Options(url: string, subject: string, payload: string)

  predicate IsServerFlag(token: string) {
    token == "-s" || token == "--server"
  }

  /** The tokens before the subject and the payload. */
  function Flags(args: seq<string>): seq<string>
    requires |args| >= 2
  {
    args[..|args| - 2]
  }

  /** Reference definition: the leading tokens are a list of
      `<flag> <value>` pairs. */
  predicate WellFormed(flags: seq<string>) {
    |flags| % 2 == 0 &&
    forall i :: 0 <= i < |flags| && i % 2 == 0 ==> IsServerFlag(flags[i])
  }

  /** The first error met when walking the leading tokens from the left. */
  function FlagsError(flags: seq<string>): (e: Option<ParseError>)
    ensures e.Some? ==> !e.value.TooFewArgs?
    decreases |flags|
  {
    if flags == [] then None
    else if !IsServerFlag(flags[0]) then Some(UnexpectedToken(flags[0]))
    else if |flags| == 1 then Some(MissingArgument(flags[0]))
    else FlagsError(flags[2..])
  }

  /** The URL held after walking the leading tokens from `url`: each flag
      replaces it by its value, until the walk ends or stops at an error. */
  function FlagsUrl(flags: seq<string>, url: string): (r: string)
    ensures r == url || exists i :: 1 <= i < |flags| && IsServerFlag(flags[i - 1]) && r == flags[i]
    decreases |flags|
  {
    if flags == [] || !IsServerFlag(flags[0]) || |flags| == 1 then url
    else FlagsUrl(flags[2..], flags[1])
  }

  /** The meaning of a whole command line. */
  function Parse(args: seq<string>): (r: Result<Options, ParseError>)
    ensures |args| < 2 <==> r == Failure(TooFewArgs)
    ensures r.Success? ==>
              r.value.payload == args[|args| - 1] && r.value.subject == args[|args| - 2]
    ensures |args| == 2 ==> r == Success(Options(DEFAULT_URL, args[0], args[1]))
  {
    if |args| < 2 then Failure(TooFewArgs)
    else
      match FlagsError(Flags(args))
      case Some(e) => Failure(e)
      case None => Success(Options(FlagsUrl(Flags(args), DEFAULT_URL), args[|args| - 2], args[|args| - 1]))
  }

  /** The walk finds no error exactly when the tokens are well formed. */
  lemma {:induction false} FlagsErrorIffMalformed(flags: seq<string>)
    ensures FlagsError(flags).None? <==> WellFormed(flags)
    decreases |flags|
  {
    if |flags| >= 2 {
      FlagsErrorIffMalformed(flags[2..]);
      if IsServerFlag(flags[0]) && WellFormed(flags[2..]) {
        forall i | 0 <= i < |flags| && i % 2 == 0 ensures IsServerFlag(flags[i]) {
          if i >= 2 {
            assert flags[i] == flags[2..][i - 2];
          }
        }
      }
      if WellFormed(flags) {
        forall i | 0 <= i < |flags[2..]| && i % 2 == 0 ensures IsServerFlag(flags[2..][i]) {
          assert flags[2..][i] == flags[i + 2];
        }
      }
    }
  }

  /** On well-formed tokens the last flag's value wins; with no flags the
      starting URL is kept. */
  lemma {:induction false} FlagsUrlIsLastValue(flags: seq<string>, url: string)
    requires WellFormed(flags)
    ensures FlagsUrl(flags, url) == if flags == [] then url else flags[|flags| - 1]
    decreases |flags|
  {
    if flags != [] {
      assert IsServerFlag(flags[0]);
      var rest := flags[2..];
      assert WellFormed(rest) by {
        forall i | 0 <= i < |rest| && i % 2 == 0 ensures IsServerFlag(rest[i]) {
          assert rest[i] == flags[i + 2];
        }
      }
      FlagsUrlIsLastValue(rest, flags[1]);
    }
  }

  /** A token in flag position that is not a flag is reported as
      unexpected, once every pair before it is well formed. */
  lemma {:induction false} UnexpectedTokenAt(flags: seq<string>, k: nat)
    requires k < |flags| && k % 2 == 0
    requires WellFormed(flags[..k]) && !IsServerFlag(flags[k])
    ensures FlagsError(flags) == Some(UnexpectedToken(flags[k]))
    decreases k
  {
    if k > 0 {
      assert IsServerFlag(flags[0]) by { assert flags[..k][0] == flags[0]; }
      var rest := flags[2..];
      assert WellFormed(rest[..k - 2]) by {
        forall i | 0 <= i < k - 2 && i % 2 == 0 ensures IsServerFlag(rest[..k - 2][i]) {
          assert rest[..k - 2][i] == flags[..k][i + 2];
        }
      }
      UnexpectedTokenAt(rest, k - 2);
    }
  }

  /** A flag that ends the leading tokens, after well-formed pairs, is
      reported as missing its argument. */
  lemma {:induction false} MissingArgumentAtEnd(flags: seq<string>)
    requires |flags| % 2 == 1
    requires WellFormed(flags[..|flags| - 1]) && IsServerFlag(flags[|flags| - 1])
    ensures FlagsError(flags) == Some(MissingArgument(flags[|flags| - 1]))
    decreases |flags|
  {
    if |flags| > 1 {
      var n := |flags| - 1;
      assert IsServerFlag(flags[0]) by { assert flags[..n][0] == flags[0]; }
      var rest := flags[2..];
      assert WellFormed(rest[..|rest| - 1]) by {
        forall i | 0 <= i < |rest| - 1 && i % 2 == 0 ensures IsServerFlag(rest[..|rest| - 1][i]) {
          assert rest[..|rest| - 1][i] == flags[..n][i + 2];
        }
      }
      MissingArgumentAtEnd(rest);
    }
  }

  /** A command line is accepted exactly when it has a subject and a payload
      and its leading tokens are `<flag> <value>` pairs; the URL is then the
      last value given, or the default when there is none. */
  lemma ParseAcceptsExactly(args: seq<string>)
    ensures Parse(args).Success? <==> |args| >= 2 && WellFormed(Flags(args))
    ensures Parse(args).Success? ==>
              Parse(args).value.url ==
                if |args| == 2 then DEFAULT_URL else args[|args| - 3]
  {
    if |args| >= 2 {
      FlagsErrorIffMalformed(Flags(args));
      if WellFormed(Flags(args)) {
        FlagsUrlIsLastValue(Flags(args), DEFAULT_URL);
      }
    }
  }

  /** With repeated flags the last one wins. */
  lemma LastServerWins(flags: seq<string>, flag: string, value: string, subject: string, payload: string)
    requires WellFormed(flags) && IsServerFlag(flag)
    ensures Parse(flags + [flag, value, subject, payload]) == Success(Options(value, subject, payload))
  {
    var args := flags + [flag, value, subject, payload];
    assert Flags(args) == flags + [flag, value];
    var f := Flags(args);
    assert WellFormed(f) by {
      forall i | 0 <= i < |f| && i % 2 == 0 ensures IsServerFlag(f[i]) {
        if i < |flags| {
          assert f[i] == flags[i];
        }
      }
    }
    ParseAcceptsExactly(args);
  }

  /** The example program's state: where to connect, and what to send. */
  class Requestor {
    var url: string
    /** Null until the command line is parsed. */
    var subject: Option<string>
    var payload: Option<string>

    /** The field initialisers: the default URL, no subject, no payload.
        The Java constructor `new Requestor(args)` is this constructor
        followed by `ParseArgs(args)`. */
    constructor ()
      ensures url == DEFAULT_URL && subject == None && payload == None
    {
      url := DEFAULT_URL;
      subject := None;
      payload := None;
    }

    /** `parseArgs(args)`: takes the payload and the subject from the end of
        a copy of `args`, then walks the remaining tokens, each flag setting
        `url` to the token after it. Returns the error it would throw, if
        any; fields already set when the error is met stay set. */
    method ParseArgs(args: array?<string>) returns (err: Option<ParseError>)
      modifies this
      ensures args == null || args.Length < 2 ==>
                err == Some(TooFewArgs) &&
                url == old(url) && subject == old(subject) && payload == old(payload)
      ensures args != null && args.Length >= 2 ==>
                var a := args[..];
                payload == Some(a[|a| - 1]) && subject == Some(a[|a| - 2]) &&
                err == FlagsError(Flags(a)) && url == FlagsUrl(Flags(a), old(url))
      // starting from the default URL, the outcome is the meaning of the line
      ensures old(url) == DEFAULT_URL && args != null ==>
                match Parse(args[..])
                case Failure(e) => err == Some(e)
                case Success(o) => err == None && o == Options(url, subject.value, payload.value)
      // the caller's array is left as it was
      ensures args != null ==> args[..] == old(args[..])
    {
      if args == null || args.Length < 2 {
        return Some(TooFewArgs);
      }
      var argList := args[..];
      payload := Some(argList[|argList| - 1]);
      argList := argList[..|argList| - 1];
      subject := Some(argList[|argList| - 1]);
      argList := argList[..|argList| - 1];
      assert argList == Flags(args[..]);

      var i := 0;
      while i < |argList|
        invariant 0 <= i <= |argList|
        invariant payload == Some(args[args.Length - 1]) && subject == Some(args[args.Length - 2])
        invariant FlagsError(argList[i..]) == FlagsError(argList)
        invariant FlagsUrl(argList[i..], url) == FlagsUrl(argList, old(url))
        decreases |argList| - i
      {
        var arg := argList[i];
        if IsServerFlag(arg) {
          if i + 1 == |argList| {
            return Some(MissingArgument(arg));
          }
          assert argList[i..][2..] == argList[i + 2..];
          url := argList[i + 1];
          i := i + 2;
        } else {
          return Some(UnexpectedToken(arg));
        }
      }
      err := None;
    }
  }
}
