/** The OVF environment document (DMTF DSP0243, clause 11): the element
    tree a parsed `ovf-env.xml` yields, the extraction of its
    `PropertySection` into key/value pairs (`find_child`, `get_properties`),
    the sorting of those pairs into metadata, config and user-data
    (`read_ovf_environment`) and the seed-directory lookup (`get_ovf_env`). */
module OvfEnv {
  import opened Common
  import opened Paths

  const EnvNsUri := "http://schemas.dmtf.org/ovf/environment/1"

  /** An attribute name qualified by its namespace URI. */
  datatype QName = QName(namespaceUri: string, localName: string)

  /** A node of the parsed document: an element, or any other node (text,
      comment), which has no local name and no children. */
  datatype Node =
    | Element(localName: string, attrs: map<QName, string>, children: seq<Node>)
    | Text(data: string)

  predicate Named(n: Node, name: string) {
    n.Element? && n.localName == name
  }

  /** The exceptions that end `get_properties`: the three `XmlError`s, the
      failed attribute lookup at a `Property` lacking a namespaced `key` or
      `value`, and a document the XML parser rejects. */
  datatype XmlError =
    | NoEnvironmentNode
    | NoChildNodes
    | NoPropertySections
    | MissingAttribute(name: string)
    | Malformed

  /** The external collaborators of `read_ovf_environment`: the XML parser,
      `str.encode`, `base64.b64decode` and the YAML loader. Each returns
      `None` where the library would raise. */
  datatype Codecs = Codecs(
    parseXml: string -> Option<Node>,
    encode: string -> Bytes,
    b64decode: Bytes -> Option<Bytes>,
    loadYaml: Bytes -> Option<Value>)

  // ---------------------------------------------------------------------
  // find_child

  /** The children carrying the given local name, in document order. */
  function ChildrenNamed(cs: seq<Node>, name: string): seq<Node> {
    if cs == [] then []
    else ChildrenNamed(cs[..|cs| - 1], name) +
         (if Named(cs[|cs| - 1], name) then [cs[|cs| - 1]] else [])
  }

  /** `find_child(node, lambda n: n.localName == name)`. */
  method FindChild(node: Node, name: string) returns (r: seq<Node>)
    ensures r == if node.Element? then ChildrenNamed(node.children, name) else []
  {
    r := [];
    if node.Text? || node.children == [] {
      return;
    }
    var cs := node.children;
    for i := 0 to |cs|
      invariant r == ChildrenNamed(cs[..i], name)
    {
      assert cs[..i + 1][..i] == cs[..i];
      if Named(cs[i], name) {
        r := r + [cs[i]];
      }
    }
    assert cs[..|cs|] == cs;
  }

  /** The filter keeps exactly the children with that name. */
  lemma {:induction false} ChildrenNamedMembers(cs: seq<Node>, name: string)
    ensures forall x :: x in ChildrenNamed(cs, name) <==> x in cs && Named(x, name)
  {
    if cs != [] {
      ChildrenNamedMembers(cs[..|cs| - 1], name);
      assert cs == cs[..|cs| - 1] + [cs[|cs| - 1]];
    }
  }

  /** The first child found is the first child with that name. */
  lemma {:induction false} FirstChildNamed(cs: seq<Node>, name: string, i: nat)
    requires i < |cs| && Named(cs[i], name)
    requires forall j :: 0 <= j < i ==> !Named(cs[j], name)
    ensures ChildrenNamed(cs, name) != [] && ChildrenNamed(cs, name)[0] == cs[i]
  {
    if i == |cs| - 1 {
      NoneNamed(cs[..i], name);
    } else {
      assert cs[..|cs| - 1][i] == cs[i];
      FirstChildNamed(cs[..|cs| - 1], name, i);
    }
  }

  lemma {:induction false} NoneNamed(cs: seq<Node>, name: string)
    requires forall j :: 0 <= j < |cs| ==> !Named(cs[j], name)
    ensures ChildrenNamed(cs, name) == []
  {
    if cs != [] {
      NoneNamed(cs[..|cs| - 1], name);
    }
  }

  // ---------------------------------------------------------------------
  // The property dictionary: a Python dict, kept as pairs in insertion order

  type Prop = (string, string)

  function KeysOf(ps: seq<Prop>): seq<string> {
    if ps == [] then [] else KeysOf(ps[..|ps| - 1]) + [ps[|ps| - 1].0]
  }

  predicate UniqueKeys(ps: seq<Prop>) {
    forall i, j :: 0 <= i < j < |ps| ==> ps[i].0 != ps[j].0
  }

  /** `props[k] = v`: an existing key keeps its place and takes the new
      value, a new key goes at the end. */
  function Put(ps: seq<Prop>, k: string, v: string): seq<Prop> {
    if ps == [] then [(k, v)]
    else if ps[0].0 == k then [(k, v)] + ps[1..]
    else [ps[0]] + Put(ps[1..], k, v)
  }

  /** `props.get(k)`. */
  function Lookup(ps: seq<Prop>, k: string): Option<string> {
    if ps == [] then None
    else if ps[0].0 == k then Some(ps[0].1)
    else Lookup(ps[1..], k)
  }

  /** The dictionary built by assigning the pairs one after another. */
  function DictOf(pairs: seq<Prop>): seq<Prop> {
    if pairs == [] then []
    else Put(DictOf(pairs[..|pairs| - 1]), pairs[|pairs| - 1].0, pairs[|pairs| - 1].1)
  }

  /** Reference for "a later duplicate overwrites an earlier one": the value
      of the last pair with that key. */
  function LastValue(pairs: seq<Prop>, k: string): Option<string> {
    if pairs == [] then None
    else if pairs[|pairs| - 1].0 == k then Some(pairs[|pairs| - 1].1)
    else LastValue(pairs[..|pairs| - 1], k)
  }

  /** Reference for dictionary key order: each key once, where it first
      occurs. */
  function FirstOccurrences(ks: seq<string>): seq<string> {
    if ks == [] then []
    else
      var d := FirstOccurrences(ks[..|ks| - 1]);
      if ks[|ks| - 1] in d then d else d + [ks[|ks| - 1]]
  }

  /** One assignment: the lookup of the assigned key gives the new value and
      every other key is untouched. */
  lemma {:induction false} PutLookup(ps: seq<Prop>, k: string, v: string)
    ensures Lookup(Put(ps, k, v), k) == Some(v)
    ensures forall k' :: k' != k ==> Lookup(Put(ps, k, v), k') == Lookup(ps, k')
  {
    if ps != [] {
      PutLookup(ps[1..], k, v);
    }
  }

  /** One assignment adds the key at the end when it is new and keeps the key
      order otherwise. */
  lemma {:induction false} PutKeys(ps: seq<Prop>, k: string, v: string)
    ensures KeysOf(Put(ps, k, v)) == if k in KeysOf(ps) then KeysOf(ps) else KeysOf(ps) + [k]
  {
    if ps != [] {
      PutKeys(ps[1..], k, v);
      KeysOfCons(ps[0], ps[1..]);
      assert ps == [ps[0]] + ps[1..];
      if ps[0].0 != k {
        KeysOfCons(ps[0], Put(ps[1..], k, v));
      } else {
        KeysOfCons((k, v), ps[1..]);
      }
    }
  }

  /** One assignment keeps the keys unique. */
  lemma PutUnique(ps: seq<Prop>, k: string, v: string)
    requires UniqueKeys(ps)
    ensures UniqueKeys(Put(ps, k, v))
  {
    var r := Put(ps, k, v);
    PutKeys(ps, k, v);
    KeysMembership(ps);
    KeysMembership(r);
    if k in KeysOf(ps) {
      forall i, j | 0 <= i < j < |r| ensures r[i].0 != r[j].0 {
        assert r[i].0 == KeysOf(ps)[i] == ps[i].0;
        assert r[j].0 == KeysOf(ps)[j] == ps[j].0;
      }
    } else {
      forall i, j | 0 <= i < j < |r| ensures r[i].0 != r[j].0 {
        assert r[i].0 == KeysOf(r)[i];
        assert r[j].0 == KeysOf(r)[j];
        if j == |ps| {
          assert KeysOf(r)[i] == KeysOf(ps)[i];
        } else {
          assert r[i].0 == ps[i].0 && r[j].0 == ps[j].0;
        }
      }
    }
  }

  lemma {:induction false} KeysOfCons(p: Prop, ps: seq<Prop>)
    ensures KeysOf([p] + ps) == [p.0] + KeysOf(ps)
  {
    if ps != [] {
      assert ([p] + ps)[..|ps|] == [p] + ps[..|ps| - 1];
      KeysOfCons(p, ps[..|ps| - 1]);
    }
  }

  /** The key sequence lists the keys of the pairs, position by position. */
  lemma {:induction false} KeysMembership(ps: seq<Prop>)
    ensures |KeysOf(ps)| == |ps|
    ensures forall i :: 0 <= i < |ps| ==> KeysOf(ps)[i] == ps[i].0
  {
    if ps != [] {
      KeysMembership(ps[..|ps| - 1]);
    }
  }

  /** The dictionary built from the pairs has each key once, in the order of
      its first occurrence, and maps it to the value of its last occurrence. */
  lemma {:induction false} DictOfSpec(pairs: seq<Prop>)
    ensures UniqueKeys(DictOf(pairs))
    ensures KeysOf(DictOf(pairs)) == FirstOccurrences(KeysOf(pairs))
    ensures forall k :: Lookup(DictOf(pairs), k) == LastValue(pairs, k)
  {
    if pairs != [] {
      var init := pairs[..|pairs| - 1];
      var p := pairs[|pairs| - 1];
      DictOfSpec(init);
      PutLookup(DictOf(init), p.0, p.1);
      PutKeys(DictOf(init), p.0, p.1);
      PutUnique(DictOf(init), p.0, p.1);
      assert KeysOf(pairs) == KeysOf(init) + [p.0];
      assert KeysOf(pairs)[..|KeysOf(pairs)| - 1] == KeysOf(init);
    }
  }

  // ---------------------------------------------------------------------
  // get_properties

  /** The namespaced `key` and `value` attributes of one `Property`. */
  function PropertyOf(elem: Node): Result<Prop, XmlError> {
    if elem.Text? || QName(EnvNsUri, "key") !in elem.attrs then Failure(MissingAttribute("key"))
    else if QName(EnvNsUri, "value") !in elem.attrs then Failure(MissingAttribute("value"))
    else Success((elem.attrs[QName(EnvNsUri, "key")], elem.attrs[QName(EnvNsUri, "value")]))
  }

  /** The pairs of the `Property` elements in document order, or the error of
      the first one lacking an attribute. */
  function PairsOf(elems: seq<Node>): Result<seq<Prop>, XmlError> {
    if elems == [] then Success([])
    else
      match PairsOf(elems[..|elems| - 1])
      case Failure(e) => Failure(e)
      case Success(ps) =>
        match PropertyOf(elems[|elems| - 1])
        case Failure(e) => Failure(e)
        case Success(p) => Success(ps + [p])
  }

  /** The `Property` children of the first `PropertySection` child of the
      root, when the root is a non-empty `Environment` with such a child. */
  function PropertyElements(root: Node): Result<seq<Node>, XmlError> {
    if !Named(root, "Environment") then Failure(NoEnvironmentNode)
    else if root.children == [] then Failure(NoChildNodes)
    else
      var sections := ChildrenNamed(root.children, "PropertySection");
      if sections == [] then Failure(NoPropertySections)
      else Success(if sections[0].Element? then ChildrenNamed(sections[0].children, "Property") else [])
  }

  /** What `get_properties` returns for a parsed document. */
  function PropertiesOf(root: Node): Result<seq<Prop>, XmlError> {
    match PropertyElements(root)
    case Failure(e) => Failure(e)
    case Success(elems) =>
      match PairsOf(elems)
      case Failure(e) => Failure(e)
      case Success(pairs) => Success(DictOf(pairs))
  }

  /** `get_properties`, from the parsed document on. */
  method GetProperties(root: Node) returns (r: Result<seq<Prop>, XmlError>)
    ensures r == PropertiesOf(root)
  {
    if !Named(root, "Environment") {
      return Failure(NoEnvironmentNode);
    }
    if root.children == [] {
      return Failure(NoChildNodes);
    }
    var sections := FindChild(root, "PropertySection");
    if sections == [] {
      return Failure(NoPropertySections);
    }
    var elems := FindChild(sections[0], "Property");
    var props: seq<Prop> := [];
    for i := 0 to |elems|
      invariant PairsOf(elems[..i]).Success?
      invariant props == DictOf(PairsOf(elems[..i]).value)
    {
      assert elems[..i + 1][..i] == elems[..i];
      var elem := elems[i];
      if elem.Text? || QName(EnvNsUri, "key") !in elem.attrs {
        PairsOfFailsAt(elems, i + 1);
        return Failure(MissingAttribute("key"));
      }
      if QName(EnvNsUri, "value") !in elem.attrs {
        PairsOfFailsAt(elems, i + 1);
        return Failure(MissingAttribute("value"));
      }
      var key := elem.attrs[QName(EnvNsUri, "key")];
      var val := elem.attrs[QName(EnvNsUri, "value")];
      props := Put(props, key, val);
    }
    assert elems[..|elems|] == elems;
    return Success(props);
  }

  /** Once a prefix fails, the whole sequence fails with the same error. */
  lemma {:induction false} PairsOfFailsAt(elems: seq<Node>, n: nat)
    requires n <= |elems| && PairsOf(elems[..n]).Failure?
    ensures PairsOf(elems) == PairsOf(elems[..n])
    decreases |elems| - n
  {
    if n < |elems| {
      assert elems[..n + 1][..n] == elems[..n];
      PairsOfFailsAt(elems, n + 1);
    } else {
      assert elems[..n] == elems;
    }
  }

  /** The pairs fail exactly when some `Property` lacks an attribute. */
  lemma {:induction false} PairsOfFailure(elems: seq<Node>)
    ensures PairsOf(elems).Failure? <==> exists i :: 0 <= i < |elems| && PropertyOf(elems[i]).Failure?
    ensures PairsOf(elems).Success? ==>
      (|PairsOf(elems).value| == |elems| &&
       forall i :: 0 <= i < |elems| ==> PairsOf(elems).value[i] == PropertyOf(elems[i]).value)
  {
    if elems != [] {
      var init := elems[..|elems| - 1];
      PairsOfFailure(init);
      if PairsOf(init).Failure? {
        var i :| 0 <= i < |init| && PropertyOf(init[i]).Failure?;
        assert elems[i] == init[i];
      } else {
        forall i | 0 <= i < |init| ensures PropertyOf(elems[i]).Success? {
          assert elems[i] == init[i];
        }
      }
    }
  }

  /** `get_properties` raises unless the root is an `Environment` element
      with children, at least one of them a `PropertySection`, and every
      `Property` of the first section carries a namespaced key and value. */
  lemma PropertiesFailure(root: Node)
    ensures PropertiesOf(root).Success? <==>
      && Named(root, "Environment")
      && root.children != []
      && (exists i :: 0 <= i < |root.children| && Named(root.children[i], "PropertySection"))
      && PropertyElements(root).Success?
      && forall e :: e in PropertyElements(root).value ==> PropertyOf(e).Success?
  {
    if Named(root, "Environment") && root.children != [] {
      var cs := root.children;
      ChildrenNamedMembers(cs, "PropertySection");
      var sections := ChildrenNamed(cs, "PropertySection");
      if sections != [] {
        assert sections[0] in sections;
        var elems := PropertyElements(root).value;
        PairsOfFailure(elems);
        if PairsOf(elems).Failure? {
          var i :| 0 <= i < |elems| && PropertyOf(elems[i]).Failure?;
          assert elems[i] in elems;
        }
      } else {
        forall i | 0 <= i < |cs| ensures !Named(cs[i], "PropertySection") {
          assert cs[i] in cs;
        }
      }
    }
  }

  /** On success the properties come from the first `PropertySection`: keys
      appear once, in the order of their first `Property`, each with the
      value of its last `Property`. */
  lemma PropertiesContent(root: Node)
    requires PropertiesOf(root).Success?
    ensures UniqueKeys(PropertiesOf(root).value)
    ensures KeysOf(PropertiesOf(root).value) == FirstOccurrences(KeysOf(PairsOf(PropertyElements(root).value).value))
    ensures forall k :: Lookup(PropertiesOf(root).value, k) == LastValue(PairsOf(PropertyElements(root).value).value, k)
  {
    DictOfSpec(PairsOf(PropertyElements(root).value).value);
  }

  // ---------------------------------------------------------------------
  // read_ovf_environment

  const MdProps: set<string> := {"seedfrom", "local-hostname", "public-keys", "instance-id"}
  const CfgProps: set<string> := {"password"}

  /** The metadata, user-data and config of one OVF environment. */
  datatype OvfData = OvfData(md: map<string, Value>, ud: Value, cfg: map<string, Value>)

  /** `safeload_yaml_or_dict`: empty data is an empty dictionary. */
  function LoadYamlOrDict(data: Bytes, codecs: Codecs): Option<Value> {
    if data == [] then Some(Dict(map[])) else codecs.loadYaml(data)
  }

  /** The `network` entry of a base64-encoded YAML `network-config`, or
      `None` when decoding, loading or the dictionary lookup raises. */
  function DecodeNetworkConfig(val: string, codecs: Codecs): Option<Value> {
    match codecs.b64decode(codecs.encode(val))
    case None => None
    case Some(raw) =>
      match LoadYamlOrDict(raw, codecs)
      case Some(Dict(m)) => Some(if "network" in m then m["network"] else Null)
      case _ => None
  }

  /** A `user-data` value: base64-decoded when that succeeds, else its raw
      bytes. */
  function DecodeUserData(val: string, codecs: Codecs): Value {
    match codecs.b64decode(codecs.encode(val))
    case Some(b) => Blob(b)
    case None => Blob(codecs.encode(val))
  }

  /** `hostname` is stored as `local-hostname`. */
  function Alias(key: string): string {
    if key == "hostname" then "local-hostname" else key
  }

  /** One iteration of the sorting loop. */
  function Sort(d: OvfData, p: Prop, readNetwork: bool, codecs: Codecs): OvfData {
    var key := Alias(p.0);
    if key in MdProps then d.(md := d.md[key := Str(p.1)])
    else if key in CfgProps then d.(cfg := d.cfg[key := Str(p.1)])
    else if key == "network-config" && readNetwork then
      match DecodeNetworkConfig(p.1, codecs)
      case None => d
      case Some(net) => d.(md := d.md[key := net])
    else if key == "user-data" then d.(ud := DecodeUserData(p.1, codecs))
    else d
  }

  /** The result of sorting the properties in dictionary order. */
  function SortAll(props: seq<Prop>, readNetwork: bool, codecs: Codecs): OvfData {
    if props == [] then OvfData(map[], Null, map[])
    else Sort(SortAll(props[..|props| - 1], readNetwork, codecs), props[|props| - 1], readNetwork, codecs)
  }

  /** What `read_ovf_environment(contents, read_network)` returns or raises. */
  function OvfEnvironmentOf(contents: string, readNetwork: bool, codecs: Codecs): Result<OvfData, XmlError> {
    match codecs.parseXml(contents)
    case None => Failure(Malformed)
    case Some(root) =>
      match PropertiesOf(root)
      case Failure(e) => Failure(e)
      case Success(props) => Success(SortAll(props, readNetwork, codecs))
  }

  /** `read_ovf_environment`. */
  method ReadOvfEnvironment(contents: string, readNetwork: bool, codecs: Codecs)
    returns (r: Result<OvfData, XmlError>)
    ensures r == OvfEnvironmentOf(contents, readNetwork, codecs)
  {
    var root := codecs.parseXml(contents);
    if root.None? {
      return Failure(Malformed);
    }
    var got := GetProperties(root.value);
    if got.Failure? {
      return Failure(got.error);
    }
    var props := got.value;
    var md: map<string, Value> := map[];
    var cfg: map<string, Value> := map[];
    var ud: Value := Null;
    for i := 0 to |props|
      invariant SortAll(props[..i], readNetwork, codecs) == OvfData(md, ud, cfg)
    {
      assert props[..i + 1][..i] == props[..i];
      var (prop, val) := props[i];
      if prop == "hostname" {
        prop := "local-hostname";
      }
      if prop in MdProps {
        md := md[prop := Str(val)];
      } else if prop in CfgProps {
        cfg := cfg[prop := Str(val)];
      } else if prop == "network-config" && readNetwork {
        var net := DecodeNetworkConfig(val, codecs);
        if net.Some? {
          md := md[prop := net.value];
        }
      } else if prop == "user-data" {
        ud := DecodeUserData(val, codecs);
      }
    }
    assert props[..|props|] == props;
    return Success(OvfData(md, ud, cfg));
  }

  /** The keys that may reach the metadata. */
  function MdKeys(readNetwork: bool): set<string> {
    MdProps + if readNetwork then {"network-config"} else {}
  }

  /** Metadata only ever holds the four identity keys, plus `network-config`
      when network reading is on; config only ever holds `password`. */
  lemma {:induction false} SortAllKeys(props: seq<Prop>, readNetwork: bool, codecs: Codecs)
    ensures SortAll(props, readNetwork, codecs).md.Keys <= MdKeys(readNetwork)
    ensures SortAll(props, readNetwork, codecs).cfg.Keys <= CfgProps
  {
    if props != [] {
      SortAllKeys(props[..|props| - 1], readNetwork, codecs);
    }
  }

  /** Reference: the value of the last property whose key is in `keys`. */
  function LastValueAmong(props: seq<Prop>, keys: set<string>): Option<string> {
    if props == [] then None
    else if props[|props| - 1].0 in keys then Some(props[|props| - 1].1)
    else LastValueAmong(props[..|props| - 1], keys)
  }

  /** The property names that land on a metadata or config key. */
  function Sources(key: string): set<string> {
    if key == "local-hostname" then {"hostname", "local-hostname"} else {key}
  }

  /** Each identity key of the metadata, and `password` in the config, holds
      the value of the last property stored under it (`hostname` counting as
      `local-hostname`), and is present exactly when such a property is. */
  lemma SortAllValues(props: seq<Prop>, readNetwork: bool, codecs: Codecs)
    ensures forall k :: k in MdProps ==>
      var v := LastValueAmong(props, Sources(k));
      (k in SortAll(props, readNetwork, codecs).md <==> v.Some?) &&
      (v.Some? ==> SortAll(props, readNetwork, codecs).md[k] == Str(v.value))
    ensures
      var v := LastValueAmong(props, {"password"});
      ("password" in SortAll(props, readNetwork, codecs).cfg <==> v.Some?) &&
      (v.Some? ==> SortAll(props, readNetwork, codecs).cfg["password"] == Str(v.value))
  {
    forall k | k in MdProps
      ensures var v := LastValueAmong(props, Sources(k));
        (k in SortAll(props, readNetwork, codecs).md <==> v.Some?) &&
        (v.Some? ==> SortAll(props, readNetwork, codecs).md[k] == Str(v.value))
    {
      SortAllMdValue(props, readNetwork, codecs, k);
    }
    SortAllPassword(props, readNetwork, codecs);
  }

  /** A property lands on an identity key exactly when its name is one of
      that key's sources. */
  lemma AliasSources(name: string, k: string)
    requires k in MdProps
    ensures Alias(name) == k <==> name in Sources(k)
  {
  }

  /** An identity key is set exactly when some property lands on it, and
      then to the last such value. */
  lemma {:induction false} SortAllMdValue(props: seq<Prop>, readNetwork: bool, codecs: Codecs, k: string)
    requires k in MdProps
    ensures var v := LastValueAmong(props, Sources(k));
      (k in SortAll(props, readNetwork, codecs).md <==> v.Some?) &&
      (v.Some? ==> SortAll(props, readNetwork, codecs).md[k] == Str(v.value))
  {
    if props != [] {
      SortAllMdValue(props[..|props| - 1], readNetwork, codecs, k);
      AliasSources(props[|props| - 1].0, k);
    }
  }

  /** `password` is set exactly when some property has that name, and then
      to the last one. */
  lemma {:induction false} SortAllPassword(props: seq<Prop>, readNetwork: bool, codecs: Codecs)
    ensures var v := LastValueAmong(props, {"password"});
      ("password" in SortAll(props, readNetwork, codecs).cfg <==> v.Some?) &&
      (v.Some? ==> SortAll(props, readNetwork, codecs).cfg["password"] == Str(v.value))
  {
    if props != [] {
      SortAllPassword(props[..|props| - 1], readNetwork, codecs);
    }
  }

  /** Reference: the decoded value of the last `network-config` property that
      decodes. */
  function LastNetworkConfig(props: seq<Prop>, codecs: Codecs): Option<Value> {
    if props == [] then None
    else
      var p := props[|props| - 1];
      if p.0 == "network-config" && DecodeNetworkConfig(p.1, codecs).Some? then DecodeNetworkConfig(p.1, codecs)
      else LastNetworkConfig(props[..|props| - 1], codecs)
  }

  /** `network-config` reaches the metadata only when network reading is on,
      and then as the last decodable `network-config` property; a property
      that fails to decode is ignored. */
  lemma {:induction false} SortAllNetwork(props: seq<Prop>, readNetwork: bool, codecs: Codecs)
    ensures !readNetwork ==> "network-config" !in SortAll(props, readNetwork, codecs).md
    ensures readNetwork ==>
      var n := LastNetworkConfig(props, codecs);
      ("network-config" in SortAll(props, readNetwork, codecs).md <==> n.Some?) &&
      (n.Some? ==> SortAll(props, readNetwork, codecs).md["network-config"] == n.value)
  {
    if props != [] {
      SortAllNetwork(props[..|props| - 1], readNetwork, codecs);
    }
  }

  /** User-data is `None` unless a `user-data` property exists, and then it
      is the decoding of the last one. */
  lemma {:induction false} SortAllUserData(props: seq<Prop>, readNetwork: bool, codecs: Codecs)
    ensures var v := LastValueAmong(props, {"user-data"});
      SortAll(props, readNetwork, codecs).ud == if v.Some? then DecodeUserData(v.value, codecs) else Null
  {
    if props != [] {
      SortAllUserData(props[..|props| - 1], readNetwork, codecs);
    }
  }

  /** A base64-encoded YAML document with a `network` entry, given as the
      only `network-config` property, comes back as that entry. */
  lemma NetworkConfigRoundTrip(props: seq<Prop>, i: nat, codecs: Codecs, raw: Bytes, doc: map<string, Value>)
    requires i < |props| && props[i].0 == "network-config"
    requires forall j :: 0 <= j < |props| && j != i ==> props[j].0 != "network-config"
    requires codecs.b64decode(codecs.encode(props[i].1)) == Some(raw)
    requires raw != [] && codecs.loadYaml(raw) == Some(Dict(doc)) && "network" in doc
    ensures "network-config" in SortAll(props, true, codecs).md
    ensures SortAll(props, true, codecs).md["network-config"] == doc["network"]
  {
    SortAllNetwork(props, true, codecs);
    OnlyNetworkConfig(props, i, codecs);
  }

  lemma {:induction false} OnlyNetworkConfig(props: seq<Prop>, i: nat, codecs: Codecs)
    requires i < |props| && props[i].0 == "network-config"
    requires forall j :: 0 <= j < |props| && j != i ==> props[j].0 != "network-config"
    requires DecodeNetworkConfig(props[i].1, codecs).Some?
    ensures LastNetworkConfig(props, codecs) == DecodeNetworkConfig(props[i].1, codecs)
  {
    if i < |props| - 1 {
      OnlyNetworkConfig(props[..|props| - 1], i, codecs);
    }
  }

  // ---------------------------------------------------------------------
  // get_ovf_env

  const EnvNames: seq<string> := ["ovf-env.xml", "ovf_env.xml", "OVF_ENV.XML", "OVF-ENV.XML"]

  /** What the filesystem says about one path: no regular file, a file that
      cannot be loaded, or its contents. */
  datatype FileState = Absent | Unreadable | Readable(contents: string)

  /** The first of `names` from index `i` on whose file in `dirname`
      exists and loads, with its contents. */
  function FirstFile(dirname: string, names: seq<string>, files: string -> FileState, i: nat): Option<(string, string)>
    decreases |names| - i
  {
    if i >= |names| then None
    else
      match files(PathJoin(dirname, names[i]))
      case Readable(contents) => Some((names[i], contents))
      case _ => FirstFile(dirname, names, files, i + 1)
  }

  /** The environment file `get_ovf_env` picks, with its contents. */
  function FirstEnvFile(dirname: string, files: string -> FileState): Option<(string, string)> {
    FirstFile(dirname, EnvNames, files, 0)
  }

  /** The file chosen from index `i` on is the first readable one from
      there; none is chosen when no file from there is readable. */
  lemma {:induction false} FirstFileSpec(dirname: string, names: seq<string>, files: string -> FileState, i: nat)
    requires i <= |names|
    ensures var r := FirstFile(dirname, names, files, i);
      r.Some? ==>
        exists k :: (i <= k < |names| &&
          r.value.0 == names[k] &&
          files(PathJoin(dirname, names[k])) == Readable(r.value.1) &&
          forall j :: i <= j < k ==> !files(PathJoin(dirname, names[j])).Readable?)
    ensures FirstFile(dirname, names, files, i).None? ==>
      forall k :: i <= k < |names| ==> !files(PathJoin(dirname, names[k])).Readable?
    decreases |names| - i
  {
    if i < |names| {
      var here := files(PathJoin(dirname, names[i]));
      var r := FirstFile(dirname, names, files, i);
      if here.Readable? {
        assert r == Some((names[i], here.contents));
        assert i <= i < |names| && r.value.0 == names[i] &&
               files(PathJoin(dirname, names[i])) == Readable(r.value.1);
      } else {
        assert r == FirstFile(dirname, names, files, i + 1);
        FirstFileSpec(dirname, names, files, i + 1);
        if r.Some? {
          var k :| i + 1 <= k < |names| &&
            r.value.0 == names[k] &&
            files(PathJoin(dirname, names[k])) == Readable(r.value.1) &&
            forall j :: i + 1 <= j < k ==> !files(PathJoin(dirname, names[j])).Readable?;
          assert forall j :: i <= j < k ==> !files(PathJoin(dirname, names[j])).Readable?;
        }
      }
    }
  }

  /** `get_ovf_env(dirname)`: the first candidate name whose file exists and
      loads, with its contents; a file that exists but fails to load is
      skipped. */
  method GetOvfEnv(dirname: string, files: string -> FileState) returns (r: Option<(string, string)>)
    ensures r == FirstEnvFile(dirname, files)
    ensures r.Some? ==>
      exists i :: (0 <= i < |EnvNames| &&
        r.value.0 == EnvNames[i] &&
        files(PathJoin(dirname, EnvNames[i])) == Readable(r.value.1) &&
        forall j :: 0 <= j < i ==> !files(PathJoin(dirname, EnvNames[j])).Readable?)
    ensures r.None? ==> forall i :: 0 <= i < |EnvNames| ==> !files(PathJoin(dirname, EnvNames[i])).Readable?
  {
    FirstFileSpec(dirname, EnvNames, files, 0);
    for i := 0 to |EnvNames|
      invariant forall j :: 0 <= j < i ==> !files(PathJoin(dirname, EnvNames[j])).Readable?
      invariant FirstEnvFile(dirname, files) == FirstFile(dirname, EnvNames, files, i)
    {
      var fullName := PathJoin(dirname, EnvNames[i]);
      match files(fullName)
      case Readable(contents) =>
        return Some((EnvNames[i], contents));
      case _ =>
    }
    return None;
  }
}
