/** The compact tailcat address: a CBOR map of one-letter fields, in base64url after "tc". */
module Address {
  import opened Common
  import opened Cbor
  import Base64Url

  const TEXT_LIMIT: nat := 0x10_0000 * 4 / 3 + 4

  type Key = b: Bytes | |b| == 32 witness [0, 0, 0, 0, 0, 0, 0, 0, 0, 0, 0, 0, 0, 0, 0, 0,
                                           0, 0, 0, 0, 0, 0, 0, 0, 0, 0, 0, 0, 0, 0, 0, 0]

  const ZERO_KEY: Key := [0, 0, 0, 0, 0, 0, 0, 0, 0, 0, 0, 0, 0, 0, 0, 0,
                          0, 0, 0, 0, 0, 0, 0, 0, 0, 0, 0, 0, 0, 0, 0, 0]

  /** Texts are UTF-8 octets. */
  datatype Node = Node(name: Bytes, regionId: int, hostName: Bytes, certName: Bytes, ipv4: Bytes, ipv6: Bytes,
                       stunPort: int, derpPort: int, insecure: bool, stunOnly: bool)

  datatype Region = Region(id: int, code: Bytes, name: Bytes, nodes: seq<Node>)

  datatype ConnInfo = ConnInfo(serverPublic: Key, serverDisco: Option<Key>, presharedKey: Option<Key>,
                               regions: seq<Region>, regionId: int)

  predicate IsInt32(i: int) {
    -0x8000_0000 <= i < 0x8000_0000
  }

  predicate IsInt64(i: int) {
    -0x8000_0000_0000_0000 <= i < 0x8000_0000_0000_0000
  }

  /** What the program's types already guarantee of a node or address. */
  predicate TypedNode(n: Node) {
    && Utf8(n.name) && Utf8(n.hostName) && Utf8(n.certName) && Utf8(n.ipv4) && Utf8(n.ipv6)
    && IsInt32(n.stunPort) && IsInt32(n.derpPort)
  }

  predicate Typed(ci: ConnInfo) {
    && IsInt64(ci.regionId)
    && forall r :: r in ci.regions ==> forall n :: n in r.nodes ==> TypedNode(n)
  }

  // ---- Fields ----

  type Letter = c: char | c < 128 as char witness 'a'

  function Named(c: Letter): Value {
    Text([c as int])
  }

  /** The last pair with the name wins. */
  function Lookup(fields: seq<Pair>, c: Letter): Option<Value> {
    if fields == [] then None
    else if fields[|fields| - 1].key == Named(c) then Some(fields[|fields| - 1].value)
    else Lookup(fields[..|fields| - 1], c)
  }

  lemma {:induction false} LookupIsLast(fields: seq<Pair>, c: Letter)
    ensures Lookup(fields, c).None? <==> forall p :: p in fields ==> p.key != Named(c)
    ensures forall i :: 0 <= i < |fields| && fields[i].key == Named(c)
                        && (forall j :: i < j < |fields| ==> fields[j].key != Named(c)) ==>
              Lookup(fields, c) == Some(fields[i].value)
    decreases |fields|
  {
    hide Named;
    if fields == [] {
    } else {
      var init := fields[..|fields| - 1];
      LookupIsLast(init, c);
      assert fields == init + [fields[|fields| - 1]];
    }
  }

  function Push(fields: seq<Pair>, c: Letter, v: Option<Value>): (r: seq<Pair>)
    ensures forall d :: Lookup(r, d) == if d == c && v.Some? then v else Lookup(fields, d)
    ensures (forall p :: p in fields ==> Sound(p.key) && Sound(p.value)) && (v.Some? ==> Sound(v.value)) ==>
              forall p :: p in r ==> Sound(p.key) && Sound(p.value)
  {
    match v
    case None => fields
    case Some(w) =>
      assert (fields + [Pair(Named(c), w)])[..|fields|] == fields;
      assert forall d :: Named(d) == Named(c) <==> d == c;
      assert Utf8([c as int]) by { assert [c as int][1..] == []; }
      fields + [Pair(Named(c), w)]
  }

  function OptText(t: Bytes): Option<Value> {
    if t == [] then None else Some(Text(t))
  }

  function OptInt(i: int): Option<Value> {
    if i == 0 then None else Some(Int(i))
  }

  function OptKey(k: Option<Key>): Option<Value> {
    if k.Some? && k.value != ZERO_KEY then Some(Octets(k.value)) else None
  }

  function OptArray(items: seq<Value>): Option<Value> {
    if items == [] then None else Some(Array(items))
  }

  // ---- Encoding ----

  function NodeFields(n: Node): seq<Pair> {
    var f := Push([], 'n', if n.hostName == [] then OptText(n.name) else None);
    var f := Push(f, 'h', OptText(n.hostName));
    var f := Push(f, 't', OptText(n.certName));
    var f := Push(f, '4', OptText(n.ipv4));
    var f := Push(f, '6', OptText(n.ipv6));
    var f := Push(f, 's', OptInt(n.stunPort));
    var f := Push(f, 'd', OptInt(n.derpPort));
    Push(f, 'x', if n.insecure then Some(Bool(true)) else None)
  }

  function NodeValues(nodes: seq<Node>): seq<Value> {
    if nodes == [] then []
    else
      var last := nodes[|nodes| - 1];
      NodeValues(nodes[..|nodes| - 1]) + (if last.stunOnly then [] else [Map(NodeFields(last))])
  }

  function RegionValue(r: Region): Value {
    Map(Push([], 'N', OptArray(NodeValues(r.nodes))))
  }

  function RegionValues(regions: seq<Region>): (r: seq<Value>)
    ensures |r| == |regions|
  {
    if regions == [] then []
    else RegionValues(regions[..|regions| - 1]) + [RegionValue(regions[|regions| - 1])]
  }

  function Fields(ci: ConnInfo): seq<Pair> {
    var f := Push([], 'p', Some(Octets(ci.serverPublic)));
    var f := Push(f, 'k', OptKey(ci.serverDisco));
    var f := Push(f, 'q', OptKey(ci.presharedKey));
    var f := Push(f, 'r', OptArray(RegionValues(ci.regions)));
    Push(f, 'i', OptInt(ci.regionId))
  }

  function EncodeText(ci: ConnInfo): string {
    "tc" + Base64Url.Encode(Encode(Map(Fields(ci))))
  }

  // ---- Decoding ----

  function ReadInt(fields: seq<Pair>, c: Letter): Result<int> {
    match Lookup(fields, c)
    case None => Ok(0)
    case Some(Null) => Ok(0)
    case Some(Int(i)) => if IsInt64(i) then Ok(i) else Err
    case Some(_) => Err
  }

  function ReadText(fields: seq<Pair>, c: Letter): Result<Bytes> {
    match Lookup(fields, c)
    case None => Ok([])
    case Some(Null) => Ok([])
    case Some(Text(t)) => Ok(t)
    case Some(_) => Err
  }

  function ReadBool(fields: seq<Pair>, c: Letter): Result<bool> {
    match Lookup(fields, c)
    case None => Ok(false)
    case Some(Null) => Ok(false)
    case Some(Bool(b)) => Ok(b)
    case Some(_) => Err
  }

  function ReadArray(fields: seq<Pair>, c: Letter): Result<seq<Value>> {
    match Lookup(fields, c)
    case None => Ok([])
    case Some(Null) => Ok([])
    case Some(Array(items)) => Ok(items)
    case Some(_) => Err
  }

  function ReadKey(fields: seq<Pair>, c: Letter): Result<Option<Key>> {
    match Lookup(fields, c)
    case None => Ok(None)
    case Some(Null) => Ok(None)
    case Some(Octets(b)) => if |b| == 32 then Ok(Some(b)) else Err
    case Some(_) => Err
  }

  function ParseNode(v: Value, regionId: int): Result<Node> {
    if !v.Map? then Err
    else
      var name := ReadText(v.pairs, 'n');
      var id := ReadInt(v.pairs, 'i');
      var host := ReadText(v.pairs, 'h');
      var cert := ReadText(v.pairs, 't');
      var ipv4 := ReadText(v.pairs, '4');
      var ipv6 := ReadText(v.pairs, '6');
      var stun := ReadInt(v.pairs, 's');
      var derp := ReadInt(v.pairs, 'd');
      var insecure := ReadBool(v.pairs, 'x');
      MakeNode(name, id, host, cert, ipv4, ipv6, stun, derp, insecure, regionId)
  }

  function MakeNode(name: Result<Bytes>, id: Result<int>, host: Result<Bytes>, cert: Result<Bytes>,
                    ipv4: Result<Bytes>, ipv6: Result<Bytes>, stun: Result<int>, derp: Result<int>,
                    insecure: Result<bool>, regionId: int): Result<Node>
  {
    if name.Err? || id.Err? || host.Err? || cert.Err? || ipv4.Err? || ipv6.Err? || insecure.Err? then Err
    else if stun.Err? || !IsInt32(stun.value) || derp.Err? || !IsInt32(derp.value) then Err
    else
      Ok(Node(if name.value == [] then host.value else name.value, if id.value == 0 then regionId else id.value,
              host.value, cert.value, ipv4.value, ipv6.value, stun.value, derp.value, insecure.value, false))
  }

  function ParseNodes(items: seq<Value>, regionId: int): Result<seq<Node>> {
    if items == [] then Ok([])
    else
      match ParseNodes(items[..|items| - 1], regionId)
      case Err => Err
      case Ok(nodes) =>
        match ParseNode(items[|items| - 1], regionId)
        case Err => Err
        case Ok(n) => Ok(nodes + [n])
  }

  function Digits(n: nat): Bytes {
    if n < 10 then [48 + n] else Digits(n / 10) + [48 + n % 10]
  }

  function Decimal(i: int): Bytes {
    if i < 0 then [45] + Digits(-i) else Digits(i)
  }

  /** The number that decimal digits spell. */
  function Spelled(b: Bytes): int {
    if b == [] then 0 else 10 * Spelled(b[..|b| - 1]) + b[|b| - 1] as int - 48
  }

  /** A number's digits spell it, with no zero in front. */
  lemma {:induction false} DigitsSpell(n: nat)
    ensures Spelled(Digits(n)) == n && Digits(n) != []
    ensures forall k :: 0 <= k < |Digits(n)| ==> 48 <= Digits(n)[k] <= 57
    ensures n > 0 ==> Digits(n)[0] != 48
  {
    var b := Digits(n);
    if n < 10 {
      assert b[..0] == [] && Spelled(b[..0]) == 0;
    } else {
      DigitsSpell(n / 10);
      assert b[..|b| - 1] == Digits(n / 10);
    }
  }

  /** So a region without a code is called by its number, a minus sign in front of a negative one. */
  lemma {:induction false} CodesSpellNumbers(i: int)
    ensures i >= 0 ==> Spelled(Decimal(i)) == i && Decimal(i)[0] != 45
    ensures i < 0 ==> Decimal(i)[0] == 45 && Spelled(Decimal(i)[1..]) == -i
  {
    DigitsSpell(if i < 0 then -i else i);
    if i < 0 {
      assert Decimal(i)[1..] == Digits(-i);
    }
  }

  function ParseRegion(v: Value, position: nat): Result<Region> {
    if !v.Map? then Err
    else
      var id := ReadInt(v.pairs, 'i');
      var code := ReadText(v.pairs, 'c');
      var name := ReadText(v.pairs, 'm');
      var items := ReadArray(v.pairs, 'N');
      if id.Err? || code.Err? || name.Err? || items.Err? then Err
      else
        var rid := if id.value == 0 then position + 1 else id.value;
        match ParseNodes(items.value, rid)
        case Err => Err
        case Ok(nodes) => Ok(Region(rid, if code.value == [] then Decimal(rid) else code.value, name.value, nodes))
  }

  function ParseRegions(items: seq<Value>): Result<seq<Region>> {
    if items == [] then Ok([])
    else
      match ParseRegions(items[..|items| - 1])
      case Err => Err
      case Ok(regions) =>
        match ParseRegion(items[|items| - 1], |items| - 1)
        case Err => Err
        case Ok(r) => Ok(regions + [r])
  }

  function ParseValue(v: Value): Result<ConnInfo> {
    if !v.Map? then Err
    else
      var public := ReadKey(v.pairs, 'p');
      var disco := ReadKey(v.pairs, 'k');
      var psk := ReadKey(v.pairs, 'q');
      var id := ReadInt(v.pairs, 'i');
      var items := ReadArray(v.pairs, 'r');
      if items.Err? then Err else MakeAddress(public, disco, psk, id, ParseRegions(items.value))
  }

  function MakeAddress(public: Result<Option<Key>>, disco: Result<Option<Key>>, psk: Result<Option<Key>>,
                       id: Result<int>, regions: Result<seq<Region>>): Result<ConnInfo>
  {
    if public.Err? || disco.Err? || psk.Err? || id.Err? || regions.Err? then Err
    else
      Ok(ConnInfo(if public.value.Some? then public.value.value else ZERO_KEY, disco.value,
                  if psk.value == Some(ZERO_KEY) then None else psk.value, regions.value, id.value))
  }

  function DecodeText(s: string): Result<Value> {
    if !("tc" <= s) || |s| - 2 > TEXT_LIMIT then Err
    else
      match Base64Url.Decode(s[2..])
      case None => Err
      case Some(bytes) =>
        match Decode(bytes)
        case None => Err
        case Some(d) => if d.rest == [] then Ok(d.value) else Err
  }

  function ParseText(s: string): Result<ConnInfo> {
    match DecodeText(s)
    case Err => Err
    case Ok(v) => ParseValue(v)
  }

  // ---- The normal form ----

  function NonZero(k: Option<Key>): Option<Key> {
    if k == Some(ZERO_KEY) then None else k
  }

  /** A node is named after its host, and belongs to the region it is listed in. */
  function NormalNode(n: Node, regionId: int): Node {
    n.(name := if n.hostName == [] then n.name else n.hostName, regionId := regionId)
  }

  function NormalNodes(nodes: seq<Node>, regionId: int): seq<Node> {
    if nodes == [] then []
    else
      var last := nodes[|nodes| - 1];
      NormalNodes(nodes[..|nodes| - 1], regionId) + (if last.stunOnly then [] else [NormalNode(last, regionId)])
  }

  function NormalRegion(r: Region, position: nat): Region {
    Region(position + 1, Decimal(position + 1), [], NormalNodes(r.nodes, position + 1))
  }

  function NormalRegions(regions: seq<Region>): (r: seq<Region>)
    ensures |r| == |regions|
    ensures forall i :: 0 <= i < |r| ==> r[i] == NormalRegion(regions[i], i)
  {
    if regions == [] then []
    else NormalRegions(regions[..|regions| - 1]) + [NormalRegion(regions[|regions| - 1], |regions| - 1)]
  }

  /** Zero keys and STUN-only nodes are dropped; regions are numbered and named by position. */
  function Normal(ci: ConnInfo): ConnInfo {
    ConnInfo(ci.serverPublic, NonZero(ci.serverDisco), NonZero(ci.presharedKey), NormalRegions(ci.regions), ci.regionId)
  }

  function NodeField(n: Node, c: Letter): Option<Value> {
    match c
    case 'n' => if n.hostName == [] then OptText(n.name) else None
    case 'h' => OptText(n.hostName)
    case 't' => OptText(n.certName)
    case '4' => OptText(n.ipv4)
    case '6' => OptText(n.ipv6)
    case 's' => OptInt(n.stunPort)
    case 'd' => OptInt(n.derpPort)
    case 'x' => if n.insecure then Some(Bool(true)) else None
    case _ => None
  }

  /** The fields written for a node, looked up by name: none shadows another. */
  lemma {:induction false} NodeLookup(n: Node, c: Letter)
    ensures Lookup(NodeFields(n), c) == NodeField(n, c)
  {
    hide Push, Lookup, OptText, OptInt;
    NoFields();
  }

  lemma {:induction false} Reads(fields: seq<Pair>, c: Letter, t: Bytes, i: int)
    requires IsInt64(i)
    ensures Lookup(fields, c) == OptText(t) ==> ReadText(fields, c) == Ok(t)
    ensures Lookup(fields, c) == OptInt(i) ==> ReadInt(fields, c) == Ok(i)
  {
    hide Lookup;
  }

  lemma {:induction false} NodeReads(n: Node)
    requires TypedNode(n)
    ensures var f := NodeFields(n);
            && ReadText(f, 'n') == Ok(if n.hostName == [] then n.name else [])
            && ReadInt(f, 'i') == Ok(0)
            && ReadText(f, 'h') == Ok(n.hostName) && ReadText(f, 't') == Ok(n.certName)
            && ReadText(f, '4') == Ok(n.ipv4) && ReadText(f, '6') == Ok(n.ipv6)
            && ReadInt(f, 's') == Ok(n.stunPort) && ReadInt(f, 'd') == Ok(n.derpPort)
            && ReadBool(f, 'x') == Ok(n.insecure)
  {
    hide NodeFields, Lookup, Utf8, ReadText, ReadInt;
    var f := NodeFields(n);
    NodeLookup(n, 'n');
    NodeLookup(n, 'i');
    NodeLookup(n, 'h');
    NodeLookup(n, 't');
    NodeLookup(n, '4');
    NodeLookup(n, '6');
    NodeLookup(n, 's');
    NodeLookup(n, 'd');
    NodeLookup(n, 'x');
    Reads(f, 'n', if n.hostName == [] then n.name else [], 0);
    Reads(f, 'i', [], 0);
    Reads(f, 'h', n.hostName, 0);
    Reads(f, 't', n.certName, 0);
    Reads(f, '4', n.ipv4, 0);
    Reads(f, '6', n.ipv6, 0);
    Reads(f, 's', [], n.stunPort);
    Reads(f, 'd', [], n.derpPort);
  }

  lemma {:induction false} NodeRoundTrip(n: Node, regionId: int)
    requires TypedNode(n) && !n.stunOnly && regionId != 0
    ensures ParseNode(Map(NodeFields(n)), regionId) == Ok(NormalNode(n, regionId))
  {
    hide NodeFields, ReadText, ReadInt, ReadBool, Utf8;
    NodeReads(n);
  }

  lemma {:induction false} NoFields()
    ensures forall c :: Lookup([], c) == None
  {
  }

  lemma {:induction false} NodesRoundTrip(nodes: seq<Node>, regionId: int)
    requires (forall n :: n in nodes ==> TypedNode(n)) && regionId != 0
    ensures ParseNodes(NodeValues(nodes), regionId) == Ok(NormalNodes(nodes, regionId))
    decreases |nodes|
  {
    hide ParseNode, NodeFields, NormalNode, TypedNode;
    if nodes == [] {
    } else {
      var last := nodes[|nodes| - 1];
      assert last in nodes;
      NodesRoundTrip(nodes[..|nodes| - 1], regionId);
      if !last.stunOnly {
        NodeRoundTrip(last, regionId);
        var values := NodeValues(nodes);
        assert values[..|values| - 1] == NodeValues(nodes[..|nodes| - 1]);
      } else {
        assert NodeValues(nodes) == NodeValues(nodes[..|nodes| - 1]);
        assert NormalNodes(nodes, regionId) == NormalNodes(nodes[..|nodes| - 1], regionId);
      }
    }
  }

  lemma {:induction false} RegionRoundTrip(r: Region, position: nat)
    requires forall n :: n in r.nodes ==> TypedNode(n)
    ensures ParseRegion(RegionValue(r), position) == Ok(NormalRegion(r, position))
  {
    hide Push, Lookup, ParseNodes, NodeValues, NormalNodes, TypedNode, Decimal;
    NoFields();
    NodesRoundTrip(r.nodes, position + 1);
    assert ParseNodes([], position + 1) == Ok([]) by { NoNodes(position + 1); }
  }

  lemma {:induction false} NoNodes(regionId: int)
    ensures ParseNodes([], regionId) == Ok([])
  {
  }

  lemma {:induction false} RegionsRoundTrip(regions: seq<Region>)
    requires forall r :: r in regions ==> forall n :: n in r.nodes ==> TypedNode(n)
    ensures ParseRegions(RegionValues(regions)) == Ok(NormalRegions(regions))
    decreases |regions|
  {
    hide ParseRegion, RegionValue, NormalRegion, TypedNode;
    if regions == [] {
    } else {
      var last := regions[|regions| - 1];
      assert last in regions;
      RegionsRoundTrip(regions[..|regions| - 1]);
      RegionRoundTrip(last, |regions| - 1);
      var values := RegionValues(regions);
      assert values[..|values| - 1] == RegionValues(regions[..|regions| - 1]);
    }
  }

  function AddressField(ci: ConnInfo, c: Letter): Option<Value> {
    match c
    case 'p' => Some(Octets(ci.serverPublic))
    case 'k' => OptKey(ci.serverDisco)
    case 'q' => OptKey(ci.presharedKey)
    case 'r' => OptArray(RegionValues(ci.regions))
    case 'i' => OptInt(ci.regionId)
    case _ => None
  }

  lemma {:induction false} AddressLookup(ci: ConnInfo, c: Letter)
    ensures Lookup(Fields(ci), c) == AddressField(ci, c)
  {
    hide Push, Lookup, OptKey, OptInt, OptArray, RegionValues;
    NoFields();
  }

  lemma {:induction false} AddressReads(ci: ConnInfo)
    requires IsInt64(ci.regionId)
    ensures var f := Fields(ci);
            && ReadKey(f, 'p') == Ok(Some(ci.serverPublic))
            && ReadKey(f, 'k') == Ok(NonZero(ci.serverDisco)) && ReadKey(f, 'q') == Ok(NonZero(ci.presharedKey))
            && ReadInt(f, 'i') == Ok(ci.regionId)
            && ReadArray(f, 'r') == Ok(RegionValues(ci.regions))
  {
    hide Fields, Lookup, RegionValues, ReadInt;
    AddressLookup(ci, 'p');
    AddressLookup(ci, 'k');
    AddressLookup(ci, 'q');
    AddressLookup(ci, 'r');
    AddressLookup(ci, 'i');
    Reads(Fields(ci), 'i', [], ci.regionId);
  }

  lemma {:induction false} ValueRoundTrip(ci: ConnInfo)
    requires Typed(ci)
    ensures ParseValue(Map(Fields(ci))) == Ok(Normal(ci))
  {
    hide Fields, Lookup, ParseRegions, RegionValues, NormalRegions, TypedNode, ReadKey, ReadInt, ReadArray;
    AddressReads(ci);
    RegionsRoundTrip(ci.regions);
  }

  // ---- Soundness of what is encoded ----

  lemma {:induction false} NodeIsSound(n: Node)
    requires TypedNode(n)
    ensures Sound(Map(NodeFields(n)))
  {
    hide Push, Lookup, Utf8;
  }

  lemma {:induction false} NodesAreSound(nodes: seq<Node>)
    requires forall n :: n in nodes ==> TypedNode(n)
    ensures forall v :: v in NodeValues(nodes) ==> Sound(v)
    decreases |nodes|
  {
    hide NodeFields, TypedNode, Sound;
    if nodes == [] {
    } else {
      var last := nodes[|nodes| - 1];
      assert last in nodes;
      NodesAreSound(nodes[..|nodes| - 1]);
      NodeIsSound(last);
    }
  }

  lemma {:induction false} RegionsAreSound(regions: seq<Region>)
    requires forall r :: r in regions ==> forall n :: n in r.nodes ==> TypedNode(n)
    ensures forall v :: v in RegionValues(regions) ==> Sound(v)
    decreases |regions|
  {
    hide NodeValues, TypedNode, Push, Lookup;
    if regions == [] {
    } else {
      var last := regions[|regions| - 1];
      assert last in regions;
      RegionsAreSound(regions[..|regions| - 1]);
      NodesAreSound(last.nodes);
      assert Sound(RegionValue(last));
    }
  }

  lemma {:induction false} AddressIsSound(ci: ConnInfo)
    requires Typed(ci)
    ensures Sound(Map(Fields(ci)))
  {
    hide RegionValues, TypedNode, Push, Lookup;
    RegionsAreSound(ci.regions);
  }

  // ---- The main results ----

  /** Parsing an encoded address gives its normal form, exactly when the text is within the size bound. */
  lemma {:induction false} ParseInvertsEncode(ci: ConnInfo)
    requires Typed(ci)
    ensures ParseText(EncodeText(ci))
            == if |EncodeText(ci)| - 2 <= TEXT_LIMIT then Ok(Normal(ci)) else Err
  {
    hide ParseValue, Fields, Sound, Encode, Decode, Typed;
    var v := Map(Fields(ci));
    var text := EncodeText(ci);
    assert text[2..] == Base64Url.Encode(Encode(v)) && "tc" <= text;
    if |text| - 2 <= TEXT_LIMIT {
      Base64Url.RoundTrip(Encode(v));
      AddressIsSound(ci);
      RoundTrip(v, []);
      assert Encode(v) + [] == Encode(v);
      ValueRoundTrip(ci);
    }
  }

  lemma {:induction false} NodeEncodesAlike(n: Node, regionId: int)
    ensures NodeFields(NormalNode(n, regionId)) == NodeFields(n)
    ensures NormalNode(n, regionId).stunOnly == n.stunOnly
  {
    hide Push, OptText, OptInt;
  }

  lemma {:induction false} NodesEncodeAlike(nodes: seq<Node>, regionId: int)
    ensures NodeValues(NormalNodes(nodes, regionId)) == NodeValues(nodes)
    decreases |nodes|
  {
    hide NodeFields, NormalNode;
    if nodes == [] {
    } else {
      var init, last := nodes[..|nodes| - 1], nodes[|nodes| - 1];
      NodesEncodeAlike(init, regionId);
      NodeEncodesAlike(last, regionId);
      var normal := NormalNodes(nodes, regionId);
      if !last.stunOnly {
        assert normal[..|normal| - 1] == NormalNodes(init, regionId);
      } else {
        assert normal == NormalNodes(init, regionId);
      }
    }
  }

  lemma {:induction false} RegionsEncodeAlike(regions: seq<Region>)
    ensures RegionValues(NormalRegions(regions)) == RegionValues(regions)
    decreases |regions|
  {
    hide NodeValues, NormalNodes, Decimal, Push, Lookup;
    if regions == [] {
    } else {
      RegionsEncodeAlike(regions[..|regions| - 1]);
      var normal := NormalRegions(regions);
      assert normal[..|normal| - 1] == NormalRegions(regions[..|regions| - 1]);
      NodesEncodeAlike(regions[|regions| - 1].nodes, |regions|);
    }
  }

  /** The normal form encodes to the same text, so re-encoding a parsed address gives the text back. */
  lemma {:induction false} ReencodingIsStable(ci: ConnInfo)
    requires Typed(ci)
    ensures EncodeText(Normal(ci)) == EncodeText(ci)
    ensures ParseText(EncodeText(ci)).Ok? ==> EncodeText(ParseText(EncodeText(ci)).value) == EncodeText(ci)
  {
    hide Push, Lookup, RegionValues, NormalRegions, Encode, ParseText;
    ParseInvertsEncode(ci);
    RegionsEncodeAlike(ci.regions);
  }

  // ---- The program's loops ----

  method EncodeNodes(nodes: seq<Node>) returns (values: seq<Value>)
    ensures values == NodeValues(nodes)
  {
    hide NodeFields, Push;
    values := [];
    for i := 0 to |nodes|
      invariant values == NodeValues(nodes[..i])
    {
      var n := nodes[i];
      assert nodes[..i + 1][..i] == nodes[..i];
      if !n.stunOnly {
        values := values + [Map(NodeFields(n))];
      }
    }
    assert nodes[..|nodes|] == nodes;
  }

  method EncodeAddr(ci: ConnInfo) returns (text: string)
    ensures text == EncodeText(ci)
  {
    hide NodeValues, Push, OptKey, Encode;
    var fields := Push([], 'p', Some(Octets(ci.serverPublic)));
    fields := Push(fields, 'k', OptKey(ci.serverDisco));
    fields := Push(fields, 'q', OptKey(ci.presharedKey));
    var regions: seq<Value> := [];
    for i := 0 to |ci.regions|
      invariant regions == RegionValues(ci.regions[..i])
    {
      assert ci.regions[..i + 1][..i] == ci.regions[..i];
      var nodes := EncodeNodes(ci.regions[i].nodes);
      regions := regions + [Map(Push([], 'N', OptArray(nodes)))];
    }
    assert ci.regions[..|ci.regions|] == ci.regions;
    fields := Push(fields, 'r', OptArray(regions));
    fields := Push(fields, 'i', OptInt(ci.regionId));
    text := "tc" + Base64Url.Encode(Encode(Map(fields)));
  }

  /** A prefix that fails makes the whole fail. */
  lemma {:induction false} BadNodes(items: seq<Value>, regionId: int, i: nat)
    requires i <= |items| && ParseNodes(items[..i], regionId).Err?
    ensures ParseNodes(items, regionId).Err?
    decreases |items| - i
  {
    hide ParseNode;
    if i < |items| {
      assert items[..i + 1][..i] == items[..i];
      BadNodes(items, regionId, i + 1);
    } else {
      assert items[..i] == items;
    }
  }

  lemma {:induction false} BadRegions(items: seq<Value>, i: nat)
    requires i <= |items| && ParseRegions(items[..i]).Err?
    ensures ParseRegions(items).Err?
    decreases |items| - i
  {
    hide ParseRegion;
    if i < |items| {
      assert items[..i + 1][..i] == items[..i];
      BadRegions(items, i + 1);
    } else {
      assert items[..i] == items;
    }
  }

  method ReadNodes(items: seq<Value>, regionId: int) returns (r: Result<seq<Node>>)
    ensures r == ParseNodes(items, regionId)
  {
    hide ParseNode;
    var nodes: seq<Node> := [];
    for i := 0 to |items|
      invariant ParseNodes(items[..i], regionId) == Ok(nodes)
    {
      assert items[..i + 1][..i] == items[..i];
      var n := ParseNode(items[i], regionId);
      if n.Err? {
        BadNodes(items, regionId, i + 1);
        return Err;
      }
      nodes := nodes + [n.value];
    }
    assert items[..|items|] == items;
    r := Ok(nodes);
  }

  method ReadRegion(v: Value, position: nat) returns (r: Result<Region>)
    ensures r == ParseRegion(v, position)
  {
    hide ReadInt, ReadText, ReadArray, ParseNodes;
    if !v.Map? {
      return Err;
    }
    var id := ReadInt(v.pairs, 'i');
    var code := ReadText(v.pairs, 'c');
    var name := ReadText(v.pairs, 'm');
    var items := ReadArray(v.pairs, 'N');
    if id.Err? || code.Err? || name.Err? || items.Err? {
      return Err;
    }
    var rid := if id.value == 0 then position + 1 else id.value;
    var nodes := ReadNodes(items.value, rid);
    if nodes.Err? {
      return Err;
    }
    r := Ok(Region(rid, if code.value == [] then Decimal(rid) else code.value, name.value, nodes.value));
  }

  method ParseAddr(text: string) returns (r: Result<ConnInfo>)
    ensures r == ParseText(text)
  {
    hide DecodeText, ReadKey, ReadInt, ReadArray, ParseRegion;
    var decoded := DecodeText(text);
    if decoded.Err? || !decoded.value.Map? {
      return Err;
    }
    var fields := decoded.value.pairs;
    var items := ReadArray(fields, 'r');
    if items.Err? {
      return Err;
    }
    var regions: seq<Region> := [];
    for i := 0 to |items.value|
      invariant ParseRegions(items.value[..i]) == Ok(regions)
    {
      assert items.value[..i + 1][..i] == items.value[..i];
      var region := ReadRegion(items.value[i], i);
      if region.Err? {
        BadRegions(items.value, i + 1);
        return Err;
      }
      regions := regions + [region.value];
    }
    assert items.value[..|items.value|] == items.value;
    r := MakeAddress(ReadKey(fields, 'p'), ReadKey(fields, 'k'), ReadKey(fields, 'q'), ReadInt(fields, 'i'),
                     Ok(regions));
  }

  /** What the two loops are for: a server's printed address is read back as its normal form. */
  method PrintAndRead(ci: ConnInfo) returns (text: string, r: Result<ConnInfo>)
    requires Typed(ci)
    ensures text == EncodeText(ci)
    ensures |text| - 2 <= TEXT_LIMIT ==> r == Ok(Normal(ci)) && EncodeText(Normal(ci)) == text
    ensures |text| - 2 > TEXT_LIMIT ==> r == Err
  {
    hide Typed, Normal, ParseText;
    text := EncodeAddr(ci);
    r := ParseAddr(text);
    ParseInvertsEncode(ci);
    if |text| - 2 <= TEXT_LIMIT {
      ReencodingIsStable(ci);
    }
  }
}
