/**
 Argument lists printed as one ProxyCommand line. On Unix the line passes OpenSSH's `%%` expansion and then a
 POSIX shell's quoting (sections 2.2.2 and 2.2.3 of the Shell Command Language); on Windows it is read by the
 C runtime's backslash-and-quote rule.
 */
module ProxyCommand {
  import opened Common

  function JoinWords(words: seq<string>): string {
    if words == [] then ""
    else if |words| == 1 then words[0]
    else words[0] + " " + JoinWords(words[1..])
  }

  // ---- Unix ----

  predicate UnixSafe(arg: string) {
    '\r' !in arg && '\n' !in arg && '\0' !in arg
  }

  function ReplaceChar(s: string, c: char, with: string): string {
    if s == "" then ""
    else (if s[0] == c then with else [s[0]]) + ReplaceChar(s[1..], c, with)
  }

  function QuoteUnix(arg: string): string {
    "'" + ReplaceChar(ReplaceChar(arg, '%', "%%"), '\'', "'\"'\"'") + "'"
  }

  function QuoteAllUnix(args: seq<string>): seq<string> {
    if args == [] then [] else [QuoteUnix(args[0])] + QuoteAllUnix(args[1..])
  }

  function JoinUnix(args: seq<string>): Result<string> {
    if exists a :: a in args && !UnixSafe(a) then Err else Ok(JoinWords(QuoteAllUnix(args)))
  }

  /** OpenSSH's expansion of a line with no other token than `%%`; anything else after `%` is not for it. */
  function Expand(s: string): Option<string> {
    if s == "" then Some("")
    else if s[0] != '%' then
      (match Expand(s[1..])
       case None => None
       case Some(r) => Some([s[0]] + r))
    else if |s| == 1 || s[1] != '%' then None
    else
      match Expand(s[2..])
      case None => None
      case Some(r) => Some("%" + r)
  }

  datatype Mode = Plain | Single | Double

  function Started(word: Option<string>): string {
    if word.None? then "" else word.value
  }

  function Then(word: string, more: Option<seq<string>>): Option<seq<string>> {
    match more
    case None => None
    case Some(words) => Some([word] + words)
  }

  /** Unquoted characters that would make the shell do more than split words. */
  predicate Special(c: char) {
    c in "|&;<>()$`*?[]#~=%!{}\n\0"
  }

  /** Word splitting by a POSIX shell; None where the line is unfinished or asks for an expansion. */
  function Shell(s: string, mode: Mode, word: Option<string>): Option<seq<string>>
    decreases |s|
  {
    match mode
    case Plain =>
      if s == "" then (if word.None? then Some([]) else Some([word.value]))
      else if s[0] == ' ' || s[0] == '\t' then
        (if word.None? then Shell(s[1..], Plain, None) else Then(word.value, Shell(s[1..], Plain, None)))
      else if s[0] == '\'' then Shell(s[1..], Single, Some(Started(word)))
      else if s[0] == '"' then Shell(s[1..], Double, Some(Started(word)))
      else if s[0] == '\\' then
        if |s| == 1 then None else Shell(s[2..], Plain, Some(Started(word) + [s[1]]))
      else if Special(s[0]) then None
      else Shell(s[1..], Plain, Some(Started(word) + [s[0]]))
    case Single =>
      if s == "" then None
      else if s[0] == '\'' then Shell(s[1..], Plain, Some(Started(word)))
      else Shell(s[1..], Single, Some(Started(word) + [s[0]]))
    case Double =>
      if s == "" || s[0] == '$' || s[0] == '`' then None
      else if s[0] == '"' then Shell(s[1..], Plain, Some(Started(word)))
      else if s[0] == '\\' && |s| > 1 && s[1] in "$`\"\\" then Shell(s[2..], Double, Some(Started(word) + [s[1]]))
      else Shell(s[1..], Double, Some(Started(word) + [s[0]]))
  }

  // ---- The expansion gives back the line without doubled percent signs ----

  function Quoted(arg: string): string {
    "'" + ReplaceChar(arg, '\'', "'\"'\"'") + "'"
  }

  function QuotedAll(args: seq<string>): seq<string> {
    if args == [] then [] else [Quoted(args[0])] + QuotedAll(args[1..])
  }

  lemma {:induction false} ExpandAppend(a: string, b: string)
    requires Expand(a).Some?
    ensures Expand(a + b) == match Expand(b) case None => None case Some(r) => Some(Expand(a).value + r)
    decreases |a|
  {
    if a == "" {
      assert a + b == b;
      if Expand(b).Some? {
        assert "" + Expand(b).value == Expand(b).value;
      }
    } else if a[0] != '%' {
      assert (a + b)[1..] == a[1..] + b;
      ExpandAppend(a[1..], b);
      if Expand(b).Some? {
        var r, t := Expand(a[1..]).value, Expand(b).value;
        assert [a[0]] + (r + t) == ([a[0]] + r) + t;
      }
    } else {
      assert (a + b)[2..] == a[2..] + b;
      ExpandAppend(a[2..], b);
      if Expand(b).Some? {
        var r, t := Expand(a[2..]).value, Expand(b).value;
        assert "%" + (r + t) == ("%" + r) + t;
      }
    }
  }

  lemma {:induction false} ReplaceAppend(a: string, b: string, c: char, with: string)
    ensures ReplaceChar(a + b, c, with) == ReplaceChar(a, c, with) + ReplaceChar(b, c, with)
  {
    if a == "" {
      assert a + b == b;
    } else {
      assert (a + b)[1..] == a[1..] + b;
      ReplaceAppend(a[1..], b, c, with);
    }
  }

  lemma {:induction false} ExpandOne(c: char)
    ensures Expand(ReplaceChar(ReplaceChar([c], '%', "%%"), '\'', "'\"'\"'"))
            == Some(ReplaceChar([c], '\'', "'\"'\"'"))
  {
    assert [c][1..] == "";
    if c == '%' {
      var s := "%%";
      assert ReplaceChar([c], '%', "%%") == s;
      assert s[1..] == "%" && s[1..][1..] == "" && s[2..] == "";
      assert ReplaceChar("%", '\'', "'\"'\"'") == "%";
      assert ReplaceChar(s, '\'', "'\"'\"'") == s;
      assert Expand(s) == Some("%");
    } else {
      assert ReplaceChar([c], '%', "%%") == [c];
      if c == '\'' {
        var dance := "'\"'\"'";
        assert dance + "" == dance;
        Literal(dance);
      } else {
        Literal([c]);
      }
    }
  }

  lemma {:induction false} Literal(s: string)
    requires '%' !in s
    ensures Expand(s) == Some(s)
  {
    if s == "" {
    } else {
      assert s[0] in s && [s[0]] + s[1..] == s;
      Literal(s[1..]);
    }
  }

  lemma {:induction false} ExpandQuotes(arg: string)
    ensures Expand(ReplaceChar(ReplaceChar(arg, '%', "%%"), '\'', "'\"'\"'"))
            == Some(ReplaceChar(arg, '\'', "'\"'\"'"))
  {
    hide ReplaceChar, Expand;
    if arg == "" {
      assert ReplaceChar("", '%', "%%") == "" && ReplaceChar("", '\'', "'\"'\"'") == "" by { NothingReplaced(); }
      Literal("");
    } else {
      var head, tail := [arg[0]], arg[1..];
      assert arg == head + tail;
      ReplaceAppend(head, tail, '%', "%%");
      ReplaceAppend(head, tail, '\'', "'\"'\"'");
      var h, t := ReplaceChar(head, '%', "%%"), ReplaceChar(tail, '%', "%%");
      ReplaceAppend(h, t, '\'', "'\"'\"'");
      ExpandOne(arg[0]);
      ExpandQuotes(tail);
      ExpandAppend(ReplaceChar(h, '\'', "'\"'\"'"), ReplaceChar(t, '\'', "'\"'\"'"));
    }
  }

  lemma {:induction false} NothingReplaced()
    ensures ReplaceChar("", '%', "%%") == "" && ReplaceChar("", '\'', "'\"'\"'") == ""
  {
  }

  lemma {:induction false} ExpandQuoteUnix(arg: string, rest: string)
    requires Expand(rest).Some?
    ensures Expand(QuoteUnix(arg) + rest) == Some(Quoted(arg) + Expand(rest).value)
  {
    hide ReplaceChar, Expand;
    var inner := ReplaceChar(ReplaceChar(arg, '%', "%%"), '\'', "'\"'\"'");
    ExpandQuotes(arg);
    Literal("'");
    ExpandAppend("'", inner);
    ExpandAppend("'" + inner, "'");
    ExpandAppend(QuoteUnix(arg), rest);
  }

  lemma {:induction false} ExpandLine(args: seq<string>)
    ensures Expand(JoinWords(QuoteAllUnix(args))) == Some(JoinWords(QuotedAll(args)))
    decreases |args|
  {
    hide ReplaceChar, Expand, QuoteUnix, Quoted;
    if args == [] {
      Literal("");
    } else if |args| == 1 {
      ExpandQuoteUnix(args[0], "") by { Literal(""); }
      Literal("");
      assert QuoteUnix(args[0]) + "" == QuoteUnix(args[0]) && Quoted(args[0]) + "" == Quoted(args[0]);
      assert QuoteAllUnix(args) == [QuoteUnix(args[0])] && QuotedAll(args) == [Quoted(args[0])] by { JustOne(args); }
    } else {
      var rest := JoinWords(QuoteAllUnix(args[1..]));
      var rest' := JoinWords(QuotedAll(args[1..]));
      ExpandLine(args[1..]);
      Literal(" ");
      ExpandAppend(" ", rest);
      ExpandQuoteUnix(args[0], " " + rest);
      LongLine(args);
      assert QuoteUnix(args[0]) + " " + rest == QuoteUnix(args[0]) + (" " + rest);
      assert Quoted(args[0]) + " " + rest' == Quoted(args[0]) + (" " + rest');
    }
  }

  lemma {:induction false} JustOne(args: seq<string>)
    requires |args| == 1
    ensures QuoteAllUnix(args) == [QuoteUnix(args[0])] && QuotedAll(args) == [Quoted(args[0])]
  {
    hide QuoteUnix, Quoted;
    assert args[1..] == [];
  }

  lemma {:induction false} LongLine(args: seq<string>)
    requires |args| > 1
    ensures JoinWords(QuoteAllUnix(args)) == QuoteUnix(args[0]) + " " + JoinWords(QuoteAllUnix(args[1..]))
    ensures JoinWords(QuotedAll(args)) == Quoted(args[0]) + " " + JoinWords(QuotedAll(args[1..]))
  {
    hide QuoteUnix, Quoted;
    var u, q := QuoteAllUnix(args), QuotedAll(args);
    assert u[1..] == QuoteAllUnix(args[1..]) && q[1..] == QuotedAll(args[1..]);
    assert |QuoteAllUnix(args[1..])| > 0 && |QuotedAll(args[1..])| > 0;
  }

  // ---- The shell gives back the arguments ----

  lemma {:induction false} ShellInQuotes(arg: string, word: string, rest: string)
    ensures Shell(ReplaceChar(arg, '\'', "'\"'\"'") + "'" + rest, Single, Some(word))
            == Shell(rest, Plain, Some(word + arg))
    decreases |arg|
  {
    var inner := ReplaceChar(arg, '\'', "'\"'\"'");
    var s := inner + "'" + rest;
    if arg == "" {
      assert s[1..] == rest && word + arg == word;
    } else {
      var tail := ReplaceChar(arg[1..], '\'', "'\"'\"'") + "'" + rest;
      ShellInQuotes(arg[1..], word + [arg[0]], rest);
      assert (word + [arg[0]]) + arg[1..] == word + arg;
      if arg[0] == '\'' {
        assert s == "'\"'\"'" + tail;
        QuoteDance(word, tail);
      } else {
        assert s == [arg[0]] + tail && s[1..] == tail;
      }
    }
  }

  /** Out of the quotes, a quoted quote, and back in. */
  lemma {:induction false} QuoteDance(word: string, tail: string)
    ensures Shell("'\"'\"'" + tail, Single, Some(word)) == Shell(tail, Single, Some(word + "'"))
  {
    var s := "'\"'\"'" + tail;
    assert s[1..] == "\"'\"'" + tail;
    assert s[1..][1..] == "'\"'" + tail;
    assert s[1..][1..][1..] == "\"'" + tail;
    assert s[1..][1..][1..][1..] == "'" + tail;
    assert s[1..][1..][1..][1..][1..] == tail;
    assert Shell("'" + tail, Plain, Some(word + "'")) == Shell(tail, Single, Some(word + "'"));
    assert Shell("\"'" + tail, Double, Some(word + "'")) == Shell("'" + tail, Plain, Some(word + "'"));
    assert Shell("'\"'" + tail, Double, Some(word)) == Shell("\"'" + tail, Double, Some(word + "'"));
    assert Shell("\"'\"'" + tail, Plain, Some(word)) == Shell("'\"'" + tail, Double, Some(word));
  }

  lemma {:induction false} ShellWord(arg: string, rest: string)
    ensures Shell(Quoted(arg) + rest, Plain, None) == Shell(rest, Plain, Some(arg))
  {
    hide ReplaceChar;
    var inner := ReplaceChar(arg, '\'', "'\"'\"'");
    assert (Quoted(arg) + rest)[1..] == inner + "'" + rest;
    ShellInQuotes(arg, "", rest);
    assert "" + arg == arg;
  }

  lemma {:induction false} ShellLine(args: seq<string>)
    ensures Shell(JoinWords(QuotedAll(args)), Plain, None) == Some(args)
    decreases |args|
  {
    hide ReplaceChar, Quoted;
    if |args| == 1 {
      JustOne(args);
      ShellWord(args[0], "");
      assert Quoted(args[0]) + "" == Quoted(args[0]);
      assert args == [args[0]];
    } else if |args| > 1 {
      var rest := JoinWords(QuotedAll(args[1..]));
      LongLine(args);
      assert Quoted(args[0]) + " " + rest == Quoted(args[0]) + (" " + rest);
      ShellWord(args[0], " " + rest);
      assert (" " + rest)[1..] == rest;
      ShellLine(args[1..]);
      assert args == [args[0]] + args[1..];
    }
  }

  /** Expanded and split, an accepted line gives back exactly the argument list. */
  lemma {:induction false} UnixLineIsReadBack(args: seq<string>)
    ensures JoinUnix(args).Ok? <==> forall a :: a in args ==> UnixSafe(a)
    ensures JoinUnix(args).Ok? ==>
              Expand(JoinUnix(args).value).Some?
              && Shell(Expand(JoinUnix(args).value).value, Plain, None) == Some(args)
  {
    ExpandLine(args);
    ShellLine(args);
  }

  // ---- Windows ----

  predicate WindowsSafe(arg: string) {
    '"' !in arg && '%' !in arg && '!' !in arg && '\r' !in arg && '\n' !in arg && '\0' !in arg
  }

  function Backslashes(n: nat): (r: string)
    ensures |r| == n
  {
    if n == 0 then "" else "\\" + Backslashes(n - 1)
  }

  /** How many backslashes end the argument. */
  function Trailing(arg: string): (n: nat)
    ensures n <= |arg|
  {
    if arg == "" || arg[|arg| - 1] != '\\' then 0 else 1 + Trailing(arg[..|arg| - 1])
  }

  function QuoteWindows(arg: string): string {
    "\"" + arg + Backslashes(Trailing(arg)) + "\""
  }

  function QuoteAllWindows(args: seq<string>): seq<string> {
    if args == [] then [] else [QuoteWindows(args[0])] + QuoteAllWindows(args[1..])
  }

  function JoinWindows(args: seq<string>): Result<string> {
    if exists a :: a in args && !WindowsSafe(a) then Err else Ok(JoinWords(QuoteAllWindows(args)))
  }

  /**
   The C runtime's splitting of a command line. `slashes` backslashes are pending: before a quote each pair is
   one backslash and an odd one makes the quote literal; elsewhere they stand for themselves. A doubled quote
   inside quotes is a literal quote.
   */
  function Crt(s: string, word: Option<string>, quoted: bool, slashes: nat): seq<string>
    decreases |s|
  {
    if s == "" then (if word.None? then [] else [word.value + Backslashes(slashes)])
    else if s[0] == '\\' then Crt(s[1..], Some(Started(word)), quoted, slashes + 1)
    else if s[0] == '"' then
      var w := Started(word) + Backslashes(slashes / 2);
      if slashes % 2 == 1 then Crt(s[1..], Some(w + "\""), quoted, 0)
      else if quoted && |s| > 1 && s[1] == '"' then Crt(s[2..], Some(w + "\""), quoted, 0)
      else Crt(s[1..], Some(w), !quoted, 0)
    else if (s[0] == ' ' || s[0] == '\t') && !quoted then
      (if word.None? then [] else [word.value + Backslashes(slashes)]) + Crt(s[1..], None, false, 0)
    else Crt(s[1..], Some(Started(word) + Backslashes(slashes) + [s[0]]), quoted, 0)
  }

  /** Backslashes pending after n of them and the argument. */
  function Pending(arg: string, n: nat): nat {
    if arg == "" then n else if arg[0] == '\\' then Pending(arg[1..], n + 1) else Pending(arg[1..], 0)
  }

  lemma {:induction false} PendingAppend(arg: string, c: char, n: nat)
    ensures Pending(arg + [c], n) == if c == '\\' then Pending(arg, n) + 1 else 0
    decreases |arg|
  {
    if arg == "" {
      assert [c][1..] == "" && arg + [c] == [c];
    } else {
      assert (arg + [c])[1..] == arg[1..] + [c];
      PendingAppend(arg[1..], c, if arg[0] == '\\' then n + 1 else 0);
    }
  }

  lemma {:induction false} PendingIsTrailing(arg: string)
    ensures Pending(arg, 0) == Trailing(arg)
  {
    if arg == "" {
    } else {
      var init := arg[..|arg| - 1];
      PendingAppend(init, arg[|arg| - 1], 0);
      assert init + [arg[|arg| - 1]] == arg;
      PendingIsTrailing(init);
    }
  }

  lemma {:induction false} CrtBackslashes(k: nat, word: string, rest: string, n: nat)
    ensures Crt(Backslashes(k) + rest, Some(word), true, n) == Crt(rest, Some(word), true, n + k)
  {
    if k == 0 {
      assert Backslashes(0) + rest == rest;
    } else {
      assert (Backslashes(k) + rest)[1..] == Backslashes(k - 1) + rest;
      CrtBackslashes(k - 1, word, rest, n + 1);
    }
  }

  lemma {:induction false} MoreBackslashes(n: nat)
    ensures Backslashes(n + 1) == Backslashes(n) + "\\"
  {
    if n == 0 {
    } else {
      MoreBackslashes(n - 1);
      assert "\\" + (Backslashes(n - 1) + "\\") == ("\\" + Backslashes(n - 1)) + "\\";
    }
  }

  lemma {:induction false} CrtQuoteEnds(word: string, n: nat, rest: string)
    requires rest == "" || rest[0] == ' '
    ensures Crt(Backslashes(n) + ("\"" + rest), Some(word), true, n) == Crt(rest, Some(word + Backslashes(n)), false, 0)
  {
    hide Backslashes;
    var s := "\"" + rest;
    CrtBackslashes(n, word, s, n);
    assert s[1..] == rest && (n + n) / 2 == n && (n + n) % 2 == 0;
  }

  /** Inside its quotes an argument is taken as it is, and its doubled last backslashes are halved. */
  lemma {:induction false} CrtInQuotes(arg: string, word: string, n: nat, rest: string)
    requires '"' !in arg && (rest == "" || rest[0] == ' ')
    ensures Crt(arg + (Backslashes(Pending(arg, n)) + ("\"" + rest)), Some(word), true, n)
            == Crt(rest, Some(word + Backslashes(n) + arg), false, 0)
    decreases |arg|
  {
    hide Backslashes;
    var end := Backslashes(Pending(arg, n)) + ("\"" + rest);
    if arg == "" {
      CrtQuoteEnds(word, n, rest);
      assert arg + end == end;
      assert word + Backslashes(n) + "" == word + Backslashes(n);
    } else {
      var tail := arg[1..];
      assert (arg + end)[1..] == tail + end;
      assert arg[0] in arg && arg == [arg[0]] + tail;
      if arg[0] == '\\' {
        CrtInQuotes(tail, word, n + 1, rest);
        MoreBackslashes(n);
        assert word + (Backslashes(n) + "\\") + tail == word + Backslashes(n) + arg;
      } else {
        var w := word + Backslashes(n) + [arg[0]];
        CrtInQuotes(tail, w, 0, rest);
        assert w + Backslashes(0) + tail == word + Backslashes(n) + arg;
      }
    }
  }

  lemma {:induction false} CrtQuoteOpens(rest: string)
    ensures Crt("\"" + rest, None, false, 0) == Crt(rest, Some(""), true, 0)
  {
    assert ("\"" + rest)[1..] == rest;
    assert "" + Backslashes(0) == "";
  }

  lemma {:induction false} CrtWord(arg: string, rest: string)
    requires '"' !in arg && (rest == "" || rest[0] == ' ')
    ensures Crt(QuoteWindows(arg) + rest, None, false, 0) == Crt(rest, Some(arg), false, 0)
  {
    hide Crt, Backslashes, Pending, Trailing;
    var end := Backslashes(Trailing(arg)) + ("\"" + rest);
    PendingIsTrailing(arg);
    CrtQuoteOpens(arg + end);
    CrtInQuotes(arg, "", 0, rest);
    assert QuoteWindows(arg) + rest == "\"" + (arg + end);
    assert "" + Backslashes(0) + arg == arg;
  }

  lemma {:induction false} CrtLine(args: seq<string>)
    requires forall a :: a in args ==> '"' !in a
    ensures Crt(JoinWords(QuoteAllWindows(args)), None, false, 0) == args
    decreases |args|
  {
    hide QuoteWindows;
    if args == [] {
    } else {
      var first, others := args[0], args[1..];
      assert first in args && args == [first] + others;
      var words := QuoteAllWindows(args);
      assert words[1..] == QuoteAllWindows(others);
      assert first + Backslashes(0) == first;
      CrtLine(others);
      if others == [] {
        CrtWord(first, "");
        assert QuoteWindows(first) + "" == QuoteWindows(first);
      } else {
        var rest := JoinWords(QuoteAllWindows(others));
        CrtWord(first, " " + rest);
        assert QuoteWindows(first) + " " + rest == QuoteWindows(first) + (" " + rest);
        assert (" " + rest)[1..] == rest;
        assert |QuoteAllWindows(others)| > 0;
      }
    }
  }

  /** The C runtime splits an accepted line back into exactly the argument list. */
  lemma {:induction false} WindowsLineIsReadBack(args: seq<string>)
    ensures JoinWindows(args).Ok? <==> forall a :: a in args ==> WindowsSafe(a)
    ensures JoinWindows(args).Ok? ==> Crt(JoinWindows(args).value, None, false, 0) == args
  {
    if JoinWindows(args).Ok? {
      CrtLine(args);
    }
  }
}
