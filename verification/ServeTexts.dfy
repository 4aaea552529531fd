/** How the parts of a serve specification are written, and that each is read as what it says. */
module ServeTexts {
  import opened Common
  import opened Endpoints
  import opened Texts
  import opened ServePorts

  /** A number in decimal. */
  function Decimal(n: nat): (s: string)
    ensures s != "" && forall c :: c in s ==> '0' <= c <= '9'
  {
    if n < 10 then [DigitOf(n)] else Decimal(n / 10) + [DigitOf(n % 10)]
  }

  function DigitOf(d: nat): (c: char)
    requires d < 10
    ensures '0' <= c <= '9' && (c - '0') as int == d
  {
    ['0', '1', '2', '3', '4', '5', '6', '7', '8', '9'][d]
  }

  /** One more digit multiplies by ten, and the digits of a number are read as it. */
  lemma {:induction false} DigitsOfDecimal(n: nat)
    ensures Digits(Decimal(n)) == n
    ensures forall s: string, d: nat :: d < 10 ==> Digits(s + [DigitOf(d)]) == 10 * Digits(s) + d
  {
    forall s: string, d: nat | d < 10
      ensures Digits(s + [DigitOf(d)]) == 10 * Digits(s) + d
    {
      OneDigit(s, DigitOf(d));
    }
    if n < 10 {
      OneDigit("", DigitOf(n));
      assert "" + [DigitOf(n)] == [DigitOf(n)];
    } else {
      DigitsOfDecimal(n / 10);
      OneDigit(Decimal(n / 10), DigitOf(n % 10));
    }
  }

  lemma {:induction false} OneDigit(s: string, c: char)
    requires '0' <= c <= '9'
    ensures Digits(s + [c]) == 10 * Digits(s) + (c - '0') as int
  {
    assert (s + [c])[..|s|] == s;
  }

  /** A port is read from its decimal digits, zero only where it is allowed; nothing above 65535 is, nor other text. */
  lemma {:induction false} PortIsRead(n: nat, zero: bool, text: string)
    ensures DecimalPort(Decimal(n), zero) == if n <= 65535 && (n > 0 || zero) then Ok(n) else Err
    ensures text == "" || (exists c :: c in text && !('0' <= c <= '9')) ==> DecimalPort(text, zero) == Err
  {
    DigitsOfDecimal(n);
  }

  lemma {:induction false} NoMark(n: nat)
    ensures ':' !in Decimal(n) && '-' !in Decimal(n) && ',' !in Decimal(n)
    ensures '0' <= Decimal(n)[0] <= '9'
  {
    assert Decimal(n)[0] in Decimal(n);
  }

  /** A number is that one port. */
  lemma {:induction false} PortAlone(n: nat)
    ensures ParsePart(Decimal(n)) == if n <= 65535 then Ok(Range(n, n)) else Err
  {
    NoMark(n);
    PortIsRead(n, true, "");
    NotAName(Decimal(n));
    assert Decimal(n)[..|Decimal(n)|] == Decimal(n);
  }

  lemma {:induction false} NotAName(s: string)
    requires s != "" && '0' <= s[0] <= '9'
    ensures s != "all" && s !in ["exec", "perf", "exit-node", "ssh", "no-auth-ssh", "files"]
  {
    assert "all"[0] == 'a' && "exec"[0] == 'e' && "perf"[0] == 'p' && "exit-node"[0] == 'e';
    assert "ssh"[0] == 's' && "no-auth-ssh"[0] == 'n' && "files"[0] == 'f';
  }

  /** The first of these marks in a text that starts with a number. */
  lemma {:induction false} NumberThen(n: nat, mark: char, rest: string)
    requires mark == ':' || mark == '-'
    ensures var s := Decimal(n) + [mark] + rest;
      && Find(s, mark) == |Decimal(n)| && s[..|Decimal(n)|] == Decimal(n) && s[|Decimal(n)| + 1..] == rest
      && mark in s && '0' <= s[0] <= '9'
  {
    NoMark(n);
    FindInFirst(Decimal(n), rest, mark);
    var s := Decimal(n) + [mark] + rest;
    assert s[|Decimal(n)|] == mark && s[0] == Decimal(n)[0];
  }

  /** Two numbers with a dash between them are the ports from the lower to the higher. */
  lemma {:induction false} PortRange(a: nat, b: nat)
    ensures ParsePart(Decimal(a) + "-" + Decimal(b))
         == if a > 65535 || b > 65535 then Err else Ok(Range(Min(a, b), if a <= b then b else a))
  {
    var s := Decimal(a) + ['-'] + Decimal(b);
    assert s == Decimal(a) + "-" + Decimal(b);
    NumberThen(a, '-', Decimal(b));
    NotAName(s);
    NoMark(a);
    NoMark(b);
    PortIsRead(a, true, "");
    PortIsRead(b, true, "");
    assert ':' !in s;
  }

  /** A number, a colon and a number map the port to one of this machine. */
  lemma {:induction false} PortMapped(a: nat, b: nat)
    ensures ParsePart(Decimal(a) + ":" + Decimal(b))
         == if 0 < a <= 65535 && b <= 65535 then Ok(Mapping(a, Target("localhost", b))) else Err
  {
    var s := Decimal(a) + [':'] + Decimal(b);
    assert s == Decimal(a) + ":" + Decimal(b);
    NumberThen(a, ':', Decimal(b));
    NotAName(s);
    PortIsRead(a, false, "");
    PortIsRead(b, true, "");
  }

  /** With a host before the second number, to a port of that host. */
  lemma {:induction false} HostMapped(a: nat, host: string, b: nat)
    requires host != "" && (':' !in host || (host[0] == '[' && host[|host| - 1] == ']'))
    ensures ParsePart(Decimal(a) + ":" + (host + ":" + Decimal(b)))
         == if 0 < a <= 65535 && 0 < b <= 65535 then Ok(Mapping(a, Target(host, b))) else Err
  {
    var target := host + ":" + Decimal(b);
    var s := Decimal(a) + [':'] + target;
    assert s == Decimal(a) + ":" + target;
    NumberThen(a, ':', target);
    NotAName(s);
    PortIsRead(a, false, "");
    TargetIsRead(host, b);
  }

  lemma {:induction false} LastColon(host: string, b: nat)
    ensures var target := host + ":" + Decimal(b);
      && FindLast(target, ':') == |host| && ':' in target
      && target[..|host|] == host && target[|host| + 1..] == Decimal(b)
  {
    var target := host + ":" + Decimal(b);
    NoMark(b);
    assert target[|host|] == ':';
    forall k | |host| < k < |target|
      ensures target[k] != ':'
    {
      assert target[k] == Decimal(b)[k - |host| - 1];
    }
  }

  lemma {:induction false} TargetIsRead(host: string, b: nat)
    requires host != "" && (':' !in host || (host[0] == '[' && host[|host| - 1] == ']'))
    ensures ParseTarget(host + ":" + Decimal(b)) == if 0 < b <= 65535 then Ok(Target(host, b)) else Err
  {
    hide FindLast;
    LastColon(host, b);
    PortIsRead(b, false, "");
  }

  /** A host with a colon must be in brackets, and cannot be missing. */
  lemma {:induction false} BadTargets(host: string, b: nat)
    requires host == "" || (':' in host && !(host[0] == '[' && host[|host| - 1] == ']'))
    ensures ParseTarget(host + ":" + Decimal(b)) == Err
  {
    hide FindLast;
    LastColon(host, b);
  }

  /** The words. */
  lemma {:induction false} WordsAreRead(word: string)
    ensures ParsePart("all") == Ok(All)
    ensures (word == "exec" || word == "perf" || word == "exit-node" || word == "ssh" || word == "no-auth-ssh"
             || word == "files") ==> ParsePart(word) == Ok(Service(word))
  {
    assert "exec"[0] != "all"[0] && "perf"[0] != "all"[0] && "exit-node"[0] != "all"[0] && "ssh"[0] != "all"[0];
    assert "no-auth-ssh"[0] != "all"[0] && "files"[0] != "all"[0];
  }

  /** Any other text that does not start with a digit is an error. */
  lemma {:induction false} OthersAreRefused(s: string)
    requires s != "all" && s !in ["exec", "perf", "exit-node", "ssh", "no-auth-ssh", "files"]
    requires s == "" || !('0' <= s[0] <= '9')
    ensures ParsePart(s) == Err
  {
    var i := if ':' in s then Find(s, ':') else Find(s, '-');
    assert i > 0 ==> s[..i][0] == s[0] && s[0] in s[..i];
    assert s[..i] == "" || exists c :: c in s[..i] && !('0' <= c <= '9');
    PortIsRead(0, true, s[..i]);
    PortIsRead(0, false, s[..i]);
  }

  /** The twenty-five characters that are trimmed. */
  const SPACES := "\t\n\U{B}\U{C}\r \U{85}\U{A0}\U{1680}\U{2000}\U{2001}\U{2002}\U{2003}\U{2004}\U{2005}"
                  + "\U{2006}\U{2007}\U{2008}\U{2009}\U{200A}\U{2028}\U{2029}\U{202F}\U{205F}\U{3000}"

  lemma {:induction false} SpacesExactly(c: char)
    ensures IsSpace(c) <==> c in SPACES
  {
    var s := SPACES;
    if IsSpace(c) {
      assert s[0] == '\t' && s[1] == '\n' && s[2] == '\U{B}' && s[3] == '\U{C}' && s[4] == '\r' && s[5] == ' ';
      assert s[6] == '\U{85}' && s[7] == '\U{A0}' && s[8] == '\U{1680}' && s[9] == '\U{2000}';
      assert s[10] == '\U{2001}' && s[11] == '\U{2002}' && s[12] == '\U{2003}' && s[13] == '\U{2004}';
      assert s[14] == '\U{2005}' && s[15] == '\U{2006}' && s[16] == '\U{2007}' && s[17] == '\U{2008}';
      assert s[18] == '\U{2009}' && s[19] == '\U{200A}' && s[20] == '\U{2028}' && s[21] == '\U{2029}';
      assert s[22] == '\U{202F}' && s[23] == '\U{205F}' && s[24] == '\U{3000}';
    }
  }

  /** Whatever spaces stand around a text are trimmed, and those inside it stay. */
  lemma {:induction false} TrimIsExact(before: string, text: string, after: string)
    requires forall c :: c in before || c in after ==> IsSpace(c)
    requires text == "" || (!IsSpace(text[0]) && !IsSpace(text[|text| - 1]))
    ensures Trim(before + text + after) == text
    decreases |before| + |after|
  {
    hide IsSpace;
    var s := before + text + after;
    if before != "" {
      assert s[0] == before[0] && before[0] in before && s[1..] == before[1..] + text + after;
      TrimIsExact(before[1..], text, after);
    } else if after != "" {
      var shorter := text + after[..|after| - 1];
      var last := after[|after| - 1];
      assert last in after && s == shorter + [last];
      assert "" + text + after[..|after| - 1] == shorter;
      TrimIsExact("", text, after[..|after| - 1]);
      OneMoreSpace(shorter, last);
    } else {
      assert s == text;
    }
  }

  lemma {:induction false} OneMoreSpace(s: string, c: char)
    requires IsSpace(c)
    ensures Trim(s + [c]) == Trim(s)
    decreases |s|
  {
    hide IsSpace;
    var longer := s + [c];
    if s == "" {
      assert longer[1..] == "";
    } else if IsSpace(s[0]) {
      assert longer[1..] == s[1..] + [c];
      OneMoreSpace(s[1..], c);
    } else {
      assert longer[..|longer| - 1] == s;
    }
  }
}
