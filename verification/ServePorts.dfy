/** The ports a serve specification names, their ranges, and the filter that admits them. */
module ServePorts {
  import opened Common
  import opened Endpoints
  import opened Texts

  // ---- From text to parts ----

  /** The characters with the Unicode property White_Space. */
  predicate IsSpace(c: char) {
    || '\t' <= c <= '\r' || c == ' ' || c == '\U{85}' || c == '\U{A0}' || c == '\U{1680}'
    || '\U{2000}' <= c <= '\U{200A}' || '\U{2028}' <= c <= '\U{2029}' || c == '\U{202F}'
    || c == '\U{205F}' || c == '\U{3000}'
  }

  function TrimStart(s: string): string {
    if s != "" && IsSpace(s[0]) then TrimStart(s[1..]) else s
  }

  function TrimEnd(s: string): string {
    if s != "" && IsSpace(s[|s| - 1]) then TrimEnd(s[..|s| - 1]) else s
  }

  function Trim(s: string): string {
    TrimEnd(TrimStart(s))
  }

  function SplitAt(s: string, c: char): (r: seq<string>)
    ensures |r| > 0
    decreases |s|
  {
    var i := Find(s, c);
    if i == |s| then [s] else [s[..i]] + SplitAt(s[i + 1..], c)
  }

  function TrimAll(parts: seq<string>): (r: seq<string>)
    ensures |r| == |parts| && forall i :: 0 <= i < |r| ==> r[i] == Trim(parts[i])
  {
    seq(|parts|, i requires 0 <= i < |parts| => Trim(parts[i]))
  }

  /** The parts of a specification that is not empty. */
  function Parts(value: string): (r: seq<string>)
    ensures |r| > 0
  {
    TrimAll(SplitAt(Trim(value), ','))
  }

  // ---- Reading the parts of a specification ----

  predicate IsDigit(c: char) {
    '0' <= c <= '9'
  }

  function Digits(s: string): nat {
    if s == "" || !IsDigit(s[|s| - 1]) then 0 else Digits(s[..|s| - 1]) * 10 + (s[|s| - 1] - '0') as nat
  }

  function DecimalPort(s: string, allowZero: bool): Result<Port> {
    if s == "" || (exists c :: c in s && !IsDigit(c)) then Err
    else if Digits(s) > 65535 || (Digits(s) == 0 && !allowZero) then Err
    else Ok(Digits(s))
  }

  /** A mapping's target; its text is the host, a colon and the port in decimal. */
  datatype Target = Target(host: string, port: Port)

  datatype Part = All | Service(name: string) | Mapping(port: Port, target: Target) | Range(lo: Port, hi: Port)

  function ParseTarget(s: string): Result<Target> {
    if s != "" && forall c :: c in s ==> IsDigit(c) then
      match DecimalPort(s, true)
      case Err => Err
      case Ok(p) => Ok(Target("localhost", p))
    else
      var i := FindLast(s, ':');
      if i == |s| then Err
      else
        var host := s[..i];
        if host == "" || (':' in host && !(host[0] == '[' && host[|host| - 1] == ']')) then Err
        else
          match DecimalPort(s[i + 1..], false)
          case Err => Err
          case Ok(p) => Ok(Target(host, p))
  }

  function ParsePart(s: string): Result<Part> {
    if s == "all" then Ok(All)
    else if s in ["exec", "perf", "exit-node", "ssh", "no-auth-ssh", "files"] then Ok(Service(s))
    else if ':' in s then
      var i := Find(s, ':');
      if i == |s| then Err
      else
        match DecimalPort(s[..i], false)
        case Err => Err
        case Ok(port) =>
          match ParseTarget(s[i + 1..])
          case Err => Err
          case Ok(target) => Ok(Mapping(port, target))
    else
      var i := Find(s, '-');
      match DecimalPort(s[..i], true)
      case Err => Err
      case Ok(a) =>
        match DecimalPort(if i == |s| then s else s[i + 1..], true)
        case Err => Err
        case Ok(b) => Ok(Range(Min(a, b), if a <= b then b else a))
  }

  /** Whether a part names the port. */
  predicate Names(part: Part, p: Port) {
    match part
    case All => p > 0
    case Service(_) => false
    case Mapping(port, _) => p == port
    case Range(lo, hi) => lo <= p <= hi
  }

  datatype ServeSpec = ServeSpec(ports: set<Port>, targets: map<Port, Target>, services: set<string>)

  predicate AllParse(parts: seq<string>) {
    forall s :: s in parts ==> ParsePart(s).Ok?
  }

  /** No port is mapped to two targets. */
  ghost predicate Consistent(parts: seq<string>)
    requires AllParse(parts)
  {
    forall i, j :: 0 <= i < j < |parts| && ParsePart(parts[i]).value.Mapping? && ParsePart(parts[j]).value.Mapping?
                   && ParsePart(parts[i]).value.port == ParsePart(parts[j]).value.port ==>
      ParsePart(parts[i]).value.target == ParsePart(parts[j]).value.target
  }

  /** What has been collected from the parts so far. */
  ghost predicate Collected(parts: seq<string>, spec: ServeSpec)
    requires AllParse(parts)
  {
    PortsOk(parts, spec.ports) && TargetsOk(parts, spec.targets) && ServicesOk(parts, spec.services)
  }

  predicate Between(lo: Port, p: Port, hi: Port) {
    lo <= p <= hi
  }

  function Span(lo: Port, hi: Port): set<Port> {
    set p: Port | Between(lo, p, hi)
  }

  /** The specification without its parts: nothing. */
  const NOTHING: ServeSpec := ServeSpec({}, map[], {})

  /**
   Reads the parts left to right. It succeeds exactly when every part can be read and no port has two targets;
   the ports are then those some part names.
   */
  method ParseServeSpec(parts: seq<string>) returns (r: Result<ServeSpec>)
    ensures r.Ok? <==> AllParse(parts) && Consistent(parts)
    ensures r.Ok? ==> Collected(parts, r.value)
  {
    hide ParsePart, Names, WithPart;
    var spec := NOTHING;
    for i := 0 to |parts|
      invariant AllParse(parts[..i]) && Collected(parts[..i], spec)
    {
      assert parts[i] in parts;
      var part := ParsePart(parts[i]);
      if part.Err? {
        return Err;
      }
      assert parts[..i + 1] == parts[..i] + [parts[i]];
      Conflicts(parts, i, spec);
      if part.value.Mapping? && part.value.port in spec.targets && spec.targets[part.value.port] != part.value.target {
        return Err;
      }
      CollectOne(parts[..i], parts[i], spec);
      spec := WithPart(spec, part.value);
    }
    assert parts[..|parts|] == parts;
    CollectedIsConsistent(parts, spec);
    r := Ok(spec);
  }

  function WithPart(spec: ServeSpec, part: Part): ServeSpec {
    match part
    case All => spec.(ports := spec.ports + Span(1, 65535))
    case Service(name) => spec.(services := spec.services + {name})
    case Mapping(port, target) => spec.(ports := spec.ports + {port}, targets := spec.targets[port := target])
    case Range(lo, hi) => spec.(ports := spec.ports + Span(lo, hi))
  }

  lemma {:induction false} Conflicts(parts: seq<string>, i: nat, spec: ServeSpec)
    requires i < |parts| && AllParse(parts[..i]) && Collected(parts[..i], spec) && ParsePart(parts[i]).Ok?
    ensures var part := ParsePart(parts[i]).value;
            part.Mapping? && part.port in spec.targets && spec.targets[part.port] != part.target ==>
              !(AllParse(parts) && Consistent(parts))
  {
    hide ParsePart, Names;
    var part := ParsePart(parts[i]).value;
    if part.Mapping? && part.port in spec.targets && spec.targets[part.port] != part.target {
      var k :| 0 <= k < i && ParsePart(parts[..i][k]).value == Mapping(part.port, spec.targets[part.port]);
      assert parts[..i][k] == parts[k];
    }
  }

  ghost predicate PortsOk(parts: seq<string>, ports: set<Port>)
    requires AllParse(parts)
  {
    forall p :: p in ports <==> exists i :: 0 <= i < |parts| && Names(ParsePart(parts[i]).value, p)
  }

  ghost predicate TargetsOk(parts: seq<string>, targets: map<Port, Target>)
    requires AllParse(parts)
  {
    && (forall p :: p in targets ==>
          exists i :: 0 <= i < |parts| && ParsePart(parts[i]).value == Mapping(p, targets[p]))
    && (forall i :: 0 <= i < |parts| && ParsePart(parts[i]).value.Mapping? ==>
          ParsePart(parts[i]).value.port in targets
          && targets[ParsePart(parts[i]).value.port] == ParsePart(parts[i]).value.target)
  }

  ghost predicate ServicesOk(parts: seq<string>, services: set<string>)
    requires AllParse(parts)
  {
    forall s :: s in services <==> exists i :: 0 <= i < |parts| && ParsePart(parts[i]).value == Service(s)
  }

  lemma {:induction false} OneMorePart(parts: seq<string>, s: string)
    requires AllParse(parts) && ParsePart(s).Ok?
    ensures AllParse(parts + [s]) && (parts + [s])[|parts|] == s
    ensures forall i :: 0 <= i < |parts| ==> (parts + [s])[i] == parts[i]
  {
    hide ParsePart;
  }

  lemma {:induction false} CollectPorts(parts: seq<string>, s: string, ports: set<Port>, more: set<Port>)
    requires AllParse(parts) && ParsePart(s).Ok? && PortsOk(parts, ports)
    requires forall p :: p in more <==> Names(ParsePart(s).value, p)
    ensures AllParse(parts + [s]) && PortsOk(parts + [s], ports + more)
  {
    hide ParsePart, Names;
    OneMorePart(parts, s);
    var all := parts + [s];
    forall p
      ensures p in ports + more <==> exists i :: 0 <= i < |all| && Names(ParsePart(all[i]).value, p)
    {
      if p in ports {
        var i :| 0 <= i < |parts| && Names(ParsePart(parts[i]).value, p);
        assert Names(ParsePart(all[i]).value, p);
      } else if p in more {
        assert Names(ParsePart(all[|parts|]).value, p);
      }
    }
  }

  lemma {:induction false} CollectTargets(parts: seq<string>, s: string, targets: map<Port, Target>)
    requires AllParse(parts) && ParsePart(s).Ok? && TargetsOk(parts, targets)
    requires var part := ParsePart(s).value;
             part.Mapping? && part.port in targets ==> targets[part.port] == part.target
    ensures AllParse(parts + [s])
    ensures var part := ParsePart(s).value;
            TargetsOk(parts + [s], if part.Mapping? then targets[part.port := part.target] else targets)
  {
    hide ParsePart;
    OneMorePart(parts, s);
    var all := parts + [s];
    var part := ParsePart(s).value;
    var targets' := if part.Mapping? then targets[part.port := part.target] else targets;
    forall p | p in targets'
      ensures exists i :: 0 <= i < |all| && ParsePart(all[i]).value == Mapping(p, targets'[p])
    {
      if part.Mapping? && part.port == p {
        assert ParsePart(all[|parts|]).value == Mapping(p, targets'[p]);
      } else {
        var i :| 0 <= i < |parts| && ParsePart(parts[i]).value == Mapping(p, targets[p]);
        assert ParsePart(all[i]).value == Mapping(p, targets'[p]);
      }
    }
  }

  lemma {:induction false} CollectServices(parts: seq<string>, s: string, services: set<string>)
    requires AllParse(parts) && ParsePart(s).Ok? && ServicesOk(parts, services)
    ensures AllParse(parts + [s])
    ensures var part := ParsePart(s).value;
            ServicesOk(parts + [s], if part.Service? then services + {part.name} else services)
  {
    hide ParsePart;
    OneMorePart(parts, s);
    var all := parts + [s];
    var part := ParsePart(s).value;
    forall n
      ensures n in (if part.Service? then services + {part.name} else services)
              <==> exists i :: 0 <= i < |all| && ParsePart(all[i]).value == Service(n)
    {
      if n in services {
        var i :| 0 <= i < |parts| && ParsePart(parts[i]).value == Service(n);
        assert ParsePart(all[i]).value == Service(n);
      } else if part == Service(n) {
        assert ParsePart(all[|parts|]).value == Service(n);
      }
    }
  }

  lemma {:induction false} CollectOne(parts: seq<string>, s: string, spec: ServeSpec)
    requires AllParse(parts) && Collected(parts, spec) && ParsePart(s).Ok?
    requires var part := ParsePart(s).value;
             part.Mapping? && part.port in spec.targets ==> spec.targets[part.port] == part.target
    ensures AllParse(parts + [s]) && Collected(parts + [s], WithPart(spec, ParsePart(s).value))
  {
    hide ParsePart, PortsOk, TargetsOk, ServicesOk;
    var part := ParsePart(s).value;
    var more := match part
      case All => Span(1, 65535)
      case Service(_) => {}
      case Mapping(port, _) => {port}
      case Range(lo, hi) => Span(lo, hi);
    CollectPorts(parts, s, spec.ports, more);
    CollectTargets(parts, s, spec.targets);
    CollectServices(parts, s, spec.services);
    assert spec.ports + {} == spec.ports;
  }

  /** While no conflict is met, the targets collected are the only ones. */
  lemma {:induction false} CollectedIsConsistent(parts: seq<string>, spec: ServeSpec)
    requires AllParse(parts) && Collected(parts, spec)
    ensures Consistent(parts)
  {
    hide ParsePart, PortsOk, ServicesOk;
  }

  /** Reads a whole specification; the empty one names nothing. */
  method ParseServe(value: string) returns (r: Result<ServeSpec>)
    ensures value == "" ==> r == Ok(NOTHING)
    ensures value != "" ==> (r.Ok? <==> AllParse(Parts(value)) && Consistent(Parts(value)))
    ensures value != "" && r.Ok? ==> Collected(Parts(value), r.value)
  {
    hide ParsePart, Parts;
    if value == "" {
      return Ok(NOTHING);
    }
    r := ParseServeSpec(Parts(value));
  }

  // ---- Parts written with commas are read back ----

  function JoinWith(parts: seq<string>, c: char): string
    requires parts != []
  {
    if |parts| == 1 then parts[0] else parts[0] + [c] + JoinWith(parts[1..], c)
  }

  predicate Without(s: string, c: char) {
    c !in s
  }

  lemma {:induction false} FindInFirst(s: string, rest: string, c: char)
    requires Without(s, c)
    ensures Find(s, c) == |s| && Find(s + [c] + rest, c) == |s|
  {
    var all := s + [c] + rest;
    assert all[|s|] == c;
    assert forall k :: 0 <= k < |s| ==> all[k] == s[k];
  }

  lemma {:induction false} SplitOfJoin(parts: seq<string>, c: char)
    requires parts != [] && forall p :: p in parts ==> Without(p, c)
    ensures SplitAt(JoinWith(parts, c), c) == parts
    decreases |parts|
  {
    hide Find;
    assert parts[0] in parts;
    if |parts| == 1 {
      FindInFirst(parts[0], "", c);
    } else {
      var rest := JoinWith(parts[1..], c);
      FindInFirst(parts[0], rest, c);
      SplitOfJoin(parts[1..], c);
      var all := JoinWith(parts, c);
      assert all[..|parts[0]|] == parts[0] && all[|parts[0]| + 1..] == rest;
    }
  }

  lemma {:induction false} TrimStartAppend(s: string, t: string)
    requires t != "" && !IsSpace(t[0])
    ensures TrimStart(s + t) == TrimStart(s) + t
    decreases |s|
  {
    hide IsSpace;
    if s == "" {
      assert s + t == t;
    } else {
      assert (s + t)[1..] == s[1..] + t;
      TrimStartAppend(s[1..], t);
    }
  }

  lemma {:induction false} TrimEndAppend(s: string, t: string)
    requires s != "" && !IsSpace(s[|s| - 1])
    ensures TrimEnd(s + t) == s + TrimEnd(t)
    decreases |t|
  {
    hide IsSpace;
    if t == "" {
      assert s + t == s;
    } else {
      assert (s + t)[..|s + t| - 1] == s + t[..|t| - 1];
      TrimEndAppend(s, t[..|t| - 1]);
    }
  }

  lemma {:induction false} TrimEndCons(s: string)
    requires s != ""
    ensures TrimEnd(s) == if TrimEnd(s[1..]) != "" || !IsSpace(s[0]) then [s[0]] + TrimEnd(s[1..]) else ""
    decreases |s|
  {
    hide IsSpace;
    if |s| == 1 {
      assert s[1..] == "" && s[..0] == "";
    } else if IsSpace(s[|s| - 1]) {
      var t := s[..|s| - 1];
      TrimEndCons(t);
      assert t[1..] == s[1..][..|s| - 2];
    } else {
      assert s == [s[0]] + s[1..];
    }
  }

  lemma {:induction false} TrimsCommute(s: string)
    ensures TrimStart(TrimEnd(s)) == TrimEnd(TrimStart(s))
    decreases |s|
  {
    hide IsSpace;
    if s == "" {
    } else {
      TrimEndCons(s);
      TrimsCommute(s[1..]);
      if TrimEnd(s) != "" {
        assert TrimEnd(s)[1..] == TrimEnd(s[1..]);
      }
    }
  }

  lemma {:induction false} TrimmedOnce(s: string)
    ensures TrimStart(TrimStart(s)) == TrimStart(s)
    decreases |s|
  {
    hide IsSpace;
    if s == "" || !IsSpace(s[0]) {
    } else {
      TrimmedOnce(s[1..]);
    }
  }

  lemma {:induction false} TrimmedAtEndOnce(s: string)
    ensures TrimEnd(TrimEnd(s)) == TrimEnd(s)
    decreases |s|
  {
    hide IsSpace;
    if s == "" || !IsSpace(s[|s| - 1]) {
    } else {
      TrimmedAtEndOnce(s[..|s| - 1]);
    }
  }

  /** Trimming one end first, or both, leaves the same to be trimmed. */
  lemma {:induction false} TrimTwice(s: string)
    ensures Trim(TrimStart(s)) == Trim(TrimEnd(s)) == Trim(Trim(s)) == Trim(s)
  {
    TrimmedOnce(s);
    TrimmedAtEndOnce(s);
    TrimmedAtEndOnce(TrimStart(s));
    TrimsCommute(s);
    TrimsCommute(TrimStart(s));
  }

  lemma {:induction false} TrimKeepsOut(s: string, c: char)
    requires Without(s, c)
    ensures Without(TrimStart(s), c) && Without(TrimEnd(s), c) && Without(Trim(s), c)
  {
    Inside(s);
    Inside(TrimStart(s));
  }

  lemma {:induction false} Inside(s: string)
    ensures (forall c :: c in TrimStart(s) ==> c in s) && forall c :: c in TrimEnd(s) ==> c in s
    decreases |s|
  {
    hide IsSpace;
    if s == "" {
    } else {
      Inside(s[1..]);
      Inside(s[..|s| - 1]);
    }
  }

  /** Trimming the end of a joined text trims the last of its parts. */
  lemma {:induction false} TrimEndOfJoin(parts: seq<string>)
    requires parts != []
    ensures var last := |parts| - 1;
      TrimEnd(JoinWith(parts, ',')) == JoinWith(parts[last := TrimEnd(parts[last])], ',')
    decreases |parts|
  {
    if |parts| == 1 {
    } else {
      var last := |parts| - 1;
      var front, rest := parts[0] + ",", JoinWith(parts[1..], ',');
      TrimEndAppend(front, rest);
      TrimEndOfJoin(parts[1..]);
      var trimmed := parts[last := TrimEnd(parts[last])];
      assert trimmed[1..] == parts[1..][last - 1 := TrimEnd(parts[last])];
      assert parts[1..][last - 1] == parts[last] && trimmed[0] == parts[0];
    }
  }

  lemma {:induction false} TrimStartOfJoin(parts: seq<string>)
    requires |parts| > 1
    ensures TrimStart(JoinWith(parts, ',')) == JoinWith(parts[0 := TrimStart(parts[0])], ',')
  {
    var rest := "," + JoinWith(parts[1..], ',');
    TrimStartAppend(parts[0], rest);
    var trimmed := parts[0 := TrimStart(parts[0])];
    assert trimmed[1..] == parts[1..];
    assert parts[0] + "," + JoinWith(parts[1..], ',') == parts[0] + rest;
    assert trimmed[0] + "," + JoinWith(parts[1..], ',') == trimmed[0] + rest;
  }

  /** The parts of any texts joined by commas are those texts, each trimmed. */
  lemma {:induction false} PartsOfJoined(parts: seq<string>)
    requires parts != [] && forall p :: p in parts ==> Without(p, ',')
    ensures Parts(JoinWith(parts, ',')) == TrimAll(parts)
  {
    hide IsSpace, Without, TrimStart, TrimEnd, Trim, SplitAt;
    var last := |parts| - 1;
    assert parts[0] in parts && parts[last] in parts;
    TrimKeepsOut(parts[0], ',');
    TrimKeepsOut(parts[last], ',');
    TrimTwice(parts[0]);
    TrimTwice(parts[last]);
    if last == 0 {
      assert Trim(JoinWith(parts, ',')) == JoinWith([Trim(parts[0])], ',');
      SplitOfJoin([Trim(parts[0])], ',');
    } else {
      var once := parts[0 := TrimStart(parts[0])];
      var twice := once[last := TrimEnd(parts[last])];
      TrimStartOfJoin(parts);
      TrimEndOfJoin(once);
      TrimIs(JoinWith(parts, ','));
      SplitOfJoin(twice, ',');
    }
  }

  lemma {:induction false} TrimIs(s: string)
    ensures Trim(s) == TrimEnd(TrimStart(s))
  {
  }

  // ---- Ranges ----

  type PortRange = r: (Port, Port) | r.0 <= r.1 witness (0, 0)

  predicate Within(r: PortRange, p: int) {
    r.0 <= p <= r.1
  }

  /** The runtime's filter: some range holds the port. */
  predicate Admits(ranges: seq<PortRange>, p: int) {
    exists i :: 0 <= i < |ranges| && Within(ranges[i], p)
  }

  /** Sorted, disjoint and not even adjacent. */
  predicate Apart(ranges: seq<PortRange>) {
    forall i, j :: 0 <= i < j < |ranges| ==> ranges[i].1 + 1 < ranges[j].0
  }

  lemma {:induction false} AdmitsMore(ranges: seq<PortRange>, r: PortRange, p: int)
    ensures Admits(ranges + [r], p) <==> Admits(ranges, p) || Within(r, p)
  {
    hide Within;
    var all := ranges + [r];
    assert forall i :: 0 <= i < |ranges| ==> all[i] == ranges[i];
    assert all[|ranges|] == r;
    if Admits(ranges, p) {
      var i :| 0 <= i < |ranges| && Within(ranges[i], p);
      assert Within(all[i], p);
    } else if Within(r, p) {
      assert Within(all[|ranges|], p);
    }
  }

  /** Walks the ports in ascending order, growing the last range while it can; 65535 has no successor. */
  method PortRanges(ports: set<Port>) returns (ranges: seq<PortRange>)
    ensures Apart(ranges)
    ensures forall p: Port :: p in ports <==> Admits(ranges, p)
  {
    ranges := [];
    for p := 0 to 65536
      invariant Apart(ranges) && (ranges != [] ==> ranges[|ranges| - 1].1 < p)
      invariant forall q :: Admits(ranges, q) <==> 0 <= q < p && q in ports
    {
      if p in ports {
        ghost var before := ranges;
        if ranges != [] && ranges[|ranges| - 1].1 + 1 == p {
          var last := ranges[|ranges| - 1];
          var init := ranges[..|ranges| - 1];
          assert ranges == init + [last];
          forall q ensures Admits(init + [(last.0, p)], q) <==> Admits(ranges, q) || q == p {
            AdmitsMore(init, last, q);
            AdmitsMore(init, (last.0, p), q);
          }
          ranges := init + [(last.0, p)];
        } else {
          forall q ensures Admits(ranges + [(p, p)], q) <==> Admits(ranges, q) || q == p {
            AdmitsMore(ranges, (p, p), q);
          }
          ranges := ranges + [(p, p)];
        }
      }
    }
  }

  /** Only one list of ranges kept apart admits a given set, so the loop's result is the only one possible. */
  lemma {:induction false} RangesAreCanonical(a: seq<PortRange>, b: seq<PortRange>)
    requires Apart(a) && Apart(b) && forall p: int :: Admits(a, p) <==> Admits(b, p)
    ensures a == b
    decreases |a|
  {
    hide Admits;
    NoneAdmits();
    if a == [] {
      if b != [] {
        FirstAdmits(b);
        assert false;
      }
    } else {
      SameFirst(a, b);
      forall p ensures Admits(a[1..], p) <==> Admits(b[1..], p) {
        RestAdmits(a, p);
        RestAdmits(b, p);
      }
      RangesAreCanonical(a[1..], b[1..]);
      assert a == [a[0]] + a[1..] && b == [b[0]] + b[1..];
    }
  }

  lemma {:induction false} NoneAdmits()
    ensures forall p :: !Admits([], p)
  {
  }

  lemma {:induction false} FirstAdmits(a: seq<PortRange>)
    requires a != [] && Apart(a)
    ensures Admits(a, a[0].0) && Admits(a, a[0].1)
    ensures !Admits(a, a[0].1 + 1)
    ensures forall p :: Admits(a, p) ==> a[0].0 <= p
    ensures forall p :: a[0].0 <= p <= a[0].1 ==> Admits(a, p)
  {
    assert Within(a[0], a[0].0) && Within(a[0], a[0].1);
    forall p | a[0].0 <= p <= a[0].1
      ensures Admits(a, p)
    {
      assert Within(a[0], p);
    }
  }

  lemma {:induction false} SameFirst(a: seq<PortRange>, b: seq<PortRange>)
    requires a != [] && Apart(a) && Apart(b)
    requires forall p: int :: Admits(a, p) <==> Admits(b, p)
    ensures b != [] && a[0] == b[0]
  {
    hide Admits;
    NoneAdmits();
    FirstAdmits(a);
    if b == [] {
      assert false;
    } else {
      FirstAdmits(b);
    }
  }

  lemma {:induction false} RestAdmits(a: seq<PortRange>, p: int)
    requires a != [] && Apart(a)
    ensures Admits(a[1..], p) <==> Admits(a, p) && p > a[0].1
  {
    if Admits(a[1..], p) {
      var i :| 0 <= i < |a[1..]| && Within(a[1..][i], p);
      assert Within(a[i + 1], p);
    }
    if Admits(a, p) && p > a[0].1 {
      var i :| 0 <= i < |a| && Within(a[i], p);
      assert Within(a[1..][i - 1], p);
    }
  }

  /** With no ranges configured, every port passes. */
  predicate FilterPasses(served: Option<seq<PortRange>>, p: Port) {
    served.None? || Admits(served.value, p)
  }

  /** From the parts of a specification to the runtime's filter: exactly the named ports pass. */
  method ServedPorts(parts: seq<string>) returns (r: Result<seq<PortRange>>)
    ensures r.Ok? <==> AllParse(parts) && Consistent(parts)
    ensures r.Ok? ==>
              forall p: Port :: FilterPasses(Some(r.value), p)
                                <==> exists i :: 0 <= i < |parts| && Names(ParsePart(parts[i]).value, p)
  {
    hide ParsePart, Names, Consistent, Admits;
    var spec := ParseServeSpec(parts);
    if spec.Err? {
      return Err;
    }
    var ranges := PortRanges(spec.value.ports);
    r := Ok(ranges);
  }
}
