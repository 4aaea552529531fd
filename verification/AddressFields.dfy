/** Which field of an address says what, and which values are refused. */
module AddressFields {
  import opened Common
  import opened Cbor
  import opened Address
  import Base64Url

  // A field that is missing or null stands for nothing; one of the wrong type is refused.

  predicate Missing(f: Option<Value>) {
    f.None? || f.value.Null?
  }

  predicate SaysText(f: Option<Value>, t: Bytes) {
    if Missing(f) then t == [] else f.value == Text(t)
  }

  predicate SaysInt(f: Option<Value>, i: int) {
    if Missing(f) then i == 0
    else f.value == Int(i) && -9_223_372_036_854_775_808 <= i <= 9_223_372_036_854_775_807
  }

  predicate SaysBool(f: Option<Value>, b: bool) {
    if Missing(f) then !b else f.value == Bool(b)
  }

  predicate SaysArray(f: Option<Value>, items: seq<Value>) {
    if Missing(f) then items == [] else f.value == Array(items)
  }

  predicate SaysKey(f: Option<Value>, k: Option<Key>) {
    if Missing(f) then k.None? else k.Some? && f.value == Octets(k.value)
  }

  lemma {:induction false} ReadsExactly(p: seq<Pair>, c: Letter, t: Bytes, i: int, b: bool, items: seq<Value>,
                                        k: Option<Key>)
    ensures ReadText(p, c) == Ok(t) <==> SaysText(Lookup(p, c), t)
    ensures ReadInt(p, c) == Ok(i) <==> SaysInt(Lookup(p, c), i)
    ensures ReadBool(p, c) == Ok(b) <==> SaysBool(Lookup(p, c), b)
    ensures ReadArray(p, c) == Ok(items) <==> SaysArray(Lookup(p, c), items)
    ensures ReadKey(p, c) == Ok(k) <==> SaysKey(Lookup(p, c), k)
  {
    hide Lookup;
  }

  /**
   A node is read exactly when its fields say what it holds: "h" its host, "n" its name or the host's, "i" its region
   or the enclosing one, "t" its certificate's name, "4" and "6" its addresses, "s" and "d" its two ports within
   32 bits, and "x" whether it is insecure.
   */
  lemma {:induction false} NodeIsRead(p: seq<Pair>, regionId: int, n: Node)
    ensures ParseNode(Map(p), regionId) == Ok(n) <==>
      && !n.stunOnly && SaysText(Lookup(p, 'h'), n.hostName)
      && ((SaysText(Lookup(p, 'n'), n.name) && n.name != []) || (SaysText(Lookup(p, 'n'), []) && n.name == n.hostName))
      && ((SaysInt(Lookup(p, 'i'), n.regionId) && n.regionId != 0)
          || (SaysInt(Lookup(p, 'i'), 0) && n.regionId == regionId))
      && SaysText(Lookup(p, 't'), n.certName) && SaysText(Lookup(p, '4'), n.ipv4) && SaysText(Lookup(p, '6'), n.ipv6)
      && SaysInt(Lookup(p, 's'), n.stunPort) && -0x8000_0000 <= n.stunPort <= 0x7fff_ffff
      && SaysInt(Lookup(p, 'd'), n.derpPort) && -0x8000_0000 <= n.derpPort <= 0x7fff_ffff
      && SaysBool(Lookup(p, 'x'), n.insecure)
  {
    hide Lookup, ReadText, ReadInt, ReadBool, SaysText, SaysInt, SaysBool;
    ReadsExactly(p, 'h', n.hostName, 0, false, [], None);
    ReadsExactly(p, 'n', n.name, 0, false, [], None);
    ReadsExactly(p, 'n', [], 0, false, [], None);
    ReadsExactly(p, 'i', [], n.regionId, false, [], None);
    ReadsExactly(p, 'i', [], 0, false, [], None);
    ReadsExactly(p, 't', n.certName, 0, false, [], None);
    ReadsExactly(p, '4', n.ipv4, 0, false, [], None);
    ReadsExactly(p, '6', n.ipv6, 0, false, [], None);
    ReadsExactly(p, 's', [], n.stunPort, false, [], None);
    ReadsExactly(p, 'd', [], n.derpPort, false, [], None);
    ReadsExactly(p, 'x', [], 0, n.insecure, [], None);
  }

  /**
   A region is read exactly when "i" says its number, or it takes its position's, counted from one; "c" its code, or
   the number stands for it; "m" its name, and "N" its nodes, all of which can be read.
   */
  lemma {:induction false} RegionIsRead(p: seq<Pair>, position: nat, items: seq<Value>, code: Bytes, r: Region)
    requires SaysArray(Lookup(p, 'N'), items) && SaysText(Lookup(p, 'c'), code)
    ensures ParseRegion(Map(p), position) == Ok(r) <==>
      && ((SaysInt(Lookup(p, 'i'), r.id) && r.id != 0) || (SaysInt(Lookup(p, 'i'), 0) && r.id == position + 1))
      && r.code == (if code == [] then Decimal(r.id) else code)
      && SaysText(Lookup(p, 'm'), r.name) && AreNodes(items, r.id, r.nodes)
  {
    hide Lookup, ReadText, ReadInt, ReadArray, SaysText, SaysInt, SaysArray, AreNodes, Decimal, ParseNodes;
    ReadsExactly(p, 'N', [], 0, false, items, None);
    ReadsExactly(p, 'c', code, 0, false, [], None);
    ReadsExactly(p, 'i', [], r.id, false, [], None);
    ReadsExactly(p, 'i', [], 0, false, [], None);
    ReadsExactly(p, 'm', r.name, 0, false, [], None);
    NodesAreRead(items, r.id, r.nodes);
  }

  /** A region whose nodes or code are of the wrong type is refused, and so is one that is no map. */
  lemma {:induction false} RegionRefused(v: Value, position: nat)
    ensures v.Map? && (forall items :: !SaysArray(Lookup(v.pairs, 'N'), items)) ==> ParseRegion(v, position).Err?
    ensures v.Map? && (forall code :: !SaysText(Lookup(v.pairs, 'c'), code)) ==> ParseRegion(v, position).Err?
    ensures !v.Map? ==> ParseRegion(v, position).Err? && ParseNode(v, position).Err? && ParseValue(v).Err?
  {
    hide Lookup, ParseNodes, Decimal;
    if v.Map? {
      if ReadArray(v.pairs, 'N').Ok? {
        ReadsExactly(v.pairs, 'N', [], 0, false, ReadArray(v.pairs, 'N').value, None);
      }
      if ReadText(v.pairs, 'c').Ok? {
        ReadsExactly(v.pairs, 'c', ReadText(v.pairs, 'c').value, 0, false, [], None);
      }
    }
  }

  ghost predicate AreNodes(items: seq<Value>, regionId: int, nodes: seq<Node>) {
    |items| == |nodes| && forall i :: 0 <= i < |items| ==> ParseNode(items[i], regionId) == Ok(nodes[i])
  }

  /** A list is read item by item, and refused for one bad item. */
  lemma {:induction false} NodesAreRead(items: seq<Value>, regionId: int, nodes: seq<Node>)
    ensures ParseNodes(items, regionId) == Ok(nodes) <==> AreNodes(items, regionId, nodes)
    decreases |items|
  {
    hide ParseNode;
    if items == [] {
    } else if nodes == [] {
    } else {
      var init, first := items[..|items| - 1], nodes[..|nodes| - 1];
      NodesAreRead(init, regionId, first);
      assert nodes == first + [nodes[|nodes| - 1]];
      assert forall i :: 0 <= i < |init| ==> init[i] == items[i];
      assert forall i :: 0 <= i < |first| ==> first[i] == nodes[i];
      match ParseNodes(init, regionId)
      case Err =>
      case Ok(read) =>
        NodesAreRead(init, regionId, read);
        match ParseNode(items[|items| - 1], regionId)
        case Err =>
        case Ok(n) =>
          if read + [n] == nodes {
            assert read == (read + [n])[..|read|];
          }
    }
  }

  ghost predicate AreRegions(items: seq<Value>, regions: seq<Region>) {
    |items| == |regions| && forall i :: 0 <= i < |items| ==> ParseRegion(items[i], i) == Ok(regions[i])
  }

  lemma {:induction false} RegionsAreRead(items: seq<Value>, regions: seq<Region>)
    ensures ParseRegions(items) == Ok(regions) <==> AreRegions(items, regions)
    decreases |items|
  {
    hide ParseRegion;
    if items == [] {
    } else if regions == [] {
    } else {
      var init, first := items[..|items| - 1], regions[..|regions| - 1];
      RegionsAreRead(init, first);
      assert regions == first + [regions[|regions| - 1]];
      assert forall i :: 0 <= i < |init| ==> init[i] == items[i];
      assert forall i :: 0 <= i < |first| ==> first[i] == regions[i];
      match ParseRegions(init)
      case Err =>
      case Ok(read) =>
        RegionsAreRead(init, read);
        match ParseRegion(items[|items| - 1], |items| - 1)
        case Err =>
        case Ok(r) =>
          if read + [r] == regions {
            assert read == (read + [r])[..|read|];
          }
    }
  }

  /**
   An address is read exactly when "p" says the server's key, all zeros if it is missing, "k" its discovery key, "q"
   the shared key, where all zeros stand for none, "i" the home region and "r" the regions, each at its position.
   */
  lemma {:induction false} AddressIsRead(p: seq<Pair>, items: seq<Value>, public: Option<Key>, psk: Option<Key>,
                                         ci: ConnInfo)
    requires SaysArray(Lookup(p, 'r'), items) && SaysKey(Lookup(p, 'p'), public) && SaysKey(Lookup(p, 'q'), psk)
    ensures ParseValue(Map(p)) == Ok(ci) <==>
      && ci.serverPublic == (if public.Some? then public.value else ZERO_KEY)
      && SaysKey(Lookup(p, 'k'), ci.serverDisco)
      && ci.presharedKey == (if psk == Some(ZERO_KEY) then None else psk)
      && SaysInt(Lookup(p, 'i'), ci.regionId) && AreRegions(items, ci.regions)
  {
    hide Lookup, ReadKey, ReadInt, ReadArray, SaysKey, SaysInt, SaysArray, AreRegions, ParseRegions;
    ReadsExactly(p, 'r', [], 0, false, items, None);
    ReadsExactly(p, 'p', [], 0, false, [], public);
    ReadsExactly(p, 'q', [], 0, false, [], psk);
    ReadsExactly(p, 'k', [], 0, false, [], ci.serverDisco);
    ReadsExactly(p, 'i', [], ci.regionId, false, [], None);
    RegionsAreRead(items, ci.regions);
  }

  /** A key or a list of regions of the wrong type is refused. */
  lemma {:induction false} AddressRefused(p: seq<Pair>)
    ensures (forall items :: !SaysArray(Lookup(p, 'r'), items)) ==> ParseValue(Map(p)).Err?
    ensures (forall k :: !SaysKey(Lookup(p, 'p'), k)) ==> ParseValue(Map(p)).Err?
    ensures (forall k :: !SaysKey(Lookup(p, 'q'), k)) ==> ParseValue(Map(p)).Err?
  {
    hide Lookup, ParseRegions;
    if ReadArray(p, 'r').Ok? {
      ReadsExactly(p, 'r', [], 0, false, ReadArray(p, 'r').value, None);
    }
    if ReadKey(p, 'p').Ok? {
      ReadsExactly(p, 'p', [], 0, false, [], ReadKey(p, 'p').value);
    }
    if ReadKey(p, 'q').Ok? {
      ReadsExactly(p, 'q', [], 0, false, [], ReadKey(p, 'q').value);
    }
  }

  /** The text is "tc" and up to 1398105 characters that spell one value and nothing after it. */
  lemma {:induction false} TextIsRead(s: string)
    ensures ParseText(s)
         == if 2 <= |s| <= 1_398_107 && s[0] == 't' && s[1] == 'c' && Base64Url.Decode(s[2..]).Some?
               && Decode(Base64Url.Decode(s[2..]).value).Some?
               && Decode(Base64Url.Decode(s[2..]).value).value.rest == []
            then ParseValue(Decode(Base64Url.Decode(s[2..]).value).value.value)
            else Err
  {
    hide Decode, ParseValue;
    if 2 <= |s| {
      assert "tc" <= s <==> s[0] == 't' && s[1] == 'c';
    }
  }

  /** An address has no field for what is empty, zero or absent; a node's name is left out when it has a host. */
  lemma {:induction false} EmptyIsLeftOut(ci: ConnInfo, r: Region, n: Node)
    ensures Lookup(Fields(ci), 'p').Some?
    ensures Lookup(Fields(ci), 'k').Some? <==> ci.serverDisco.Some? && ci.serverDisco.value != ZERO_KEY
    ensures Lookup(Fields(ci), 'q').Some? <==> ci.presharedKey.Some? && ci.presharedKey.value != ZERO_KEY
    ensures Lookup(Fields(ci), 'r').Some? <==> ci.regions != []
    ensures Lookup(Fields(ci), 'i').Some? <==> ci.regionId != 0
    ensures Lookup(RegionValue(r).pairs, 'N').Some? <==> NodeValues(r.nodes) != []
    ensures Lookup(NodeFields(n), 'n').Some? <==> n.name != [] && n.hostName == []
    ensures Lookup(NodeFields(n), 'h').Some? <==> n.hostName != []
    ensures Lookup(NodeFields(n), 't').Some? <==> n.certName != []
    ensures Lookup(NodeFields(n), '4').Some? <==> n.ipv4 != []
    ensures Lookup(NodeFields(n), '6').Some? <==> n.ipv6 != []
    ensures Lookup(NodeFields(n), 's').Some? <==> n.stunPort != 0
    ensures Lookup(NodeFields(n), 'd').Some? <==> n.derpPort != 0
    ensures Lookup(NodeFields(n), 'x').Some? <==> n.insecure
  {
    hide Fields, NodeFields, Lookup, NodeValues, RegionValues;
    forall c: Letter
      ensures Lookup(Fields(ci), c) == AddressField(ci, c) && Lookup(NodeFields(n), c) == NodeField(n, c)
    {
      AddressLookup(ci, c);
      NodeLookup(n, c);
    }
    NoFields();
  }
}
