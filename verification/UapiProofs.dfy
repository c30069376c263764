/** What the INI translation means: the text it writes reads back as the configuration, and that
    configuration is what the sections of the INI say. */
module UapiProofs {

  import opened Text
  import opened Uapi

  // ---------------------------------------------------------------- reading the protocol

  /** The text as a device reads it: line by line, each split at its first '='. */
  function Unwritten(text: string): Option<seq<Setting>>
    decreases |text|
  {
    if text == "" then Some([]) else
    var i := IndexOf(text, '\n');
    if i == |text| then None else
    var line := text[..i];
    var j := IndexOf(line, '=');
    if j == |line| then None else
    match Unwritten(text[i + 1..])
    case None => None
    case Some(rest) => Some([(line[..j], line[j + 1..])] + rest)
  }

  function TakePeer(p: Peer, key: string, val: string): Option<Peer> {
    if key == "preshared_key" then Some(p.(psk := val))
    else if key == "endpoint" then Some(p.(endpoint := val))
    else if key == "persistent_keepalive_interval" then Some(p.(keepalive := val))
    else if key == "replace_allowed_ips" then Some(p.(allowed := []))
    else if key == "allowed_ip" then Some(p.(allowed := p.allowed + [val]))
    else None
  }

  /** One setting: before the first peer it is the device's, after a `public_key` that peer's. */
  function Take(d: Draft, key: string, val: string): Option<Draft> {
    if key == "replace_peers" then Some(d.(peers := []))
    else if key == "public_key" then Some(d.(peers := d.peers + [NEW_PEER.(pub := val)]))
    else if d.peers == [] then
      if key == "private_key" then Some(d.(priv := val))
      else if key == "listen_port" then Some(d.(listen := val))
      else Some(d.(extras := d.extras + [(key, val)]))
    else
      match TakePeer(d.peers[|d.peers| - 1], key, val)
      case None => None
      case Some(p) => Some(d.(peers := d.peers[|d.peers| - 1 := p]))
  }

  function Load(d: Draft, settings: seq<Setting>): Option<Draft> {
    if settings == [] then Some(d) else
    match Load(d, settings[..|settings| - 1])
    case None => None
    case Some(e) => Take(e, settings[|settings| - 1].0, settings[|settings| - 1].1)
  }

  function ReadBack(text: string): Option<Draft> {
    match Unwritten(text)
    case None => None
    case Some(settings) => Load(EMPTY, settings)
  }

  // ---------------------------------------------------------------- lines come back

  predicate OneLine(s: string) {
    '\n' !in s
  }

  predicate CleanSetting(x: Setting) {
    OneLine(x.0) && '=' !in x.0 && OneLine(x.1)
  }

  predicate Clean(settings: seq<Setting>) {
    forall k :: 0 <= k < |settings| ==> CleanSetting(settings[k])
  }

  lemma {:induction false} FirstOf(s: string, c: char, rest: string)
    requires c !in s
    ensures IndexOf(s + [c] + rest, c) == |s|
  {
    if s != "" {
      FirstOf(s[1..], c, rest);
      assert (s + [c] + rest)[1..] == s[1..] + [c] + rest;
    }
  }

  lemma UnwrittenLine(key: string, val: string, rest: string)
    requires CleanSetting((key, val)) && Unwritten(rest).Some?
    ensures Unwritten(LineOf(key, val) + rest) == Some([(key, val)] + Unwritten(rest).value)
  {
    var line := key + "=" + val;
    assert LineOf(key, val) + rest == line + ['\n'] + rest;
    FirstOf(line, '\n', rest);
    assert line == key + ['='] + val;
    FirstOf(key, '=', val);
    var text := line + ['\n'] + rest;
    assert text[..|line|] == line && text[|line| + 1..] == rest;
    assert line[..|key|] == key && line[|key| + 1..] == val;
  }

  lemma {:induction false} LinesComeBack(settings: seq<Setting>)
    requires Clean(settings)
    ensures Unwritten(Written(settings)) == Some(settings)
  {
    if settings != [] {
      var x := settings[0];
      assert settings == [x] + settings[1..];
      WrittenConcat([x], settings[1..]);
      WrittenOne(x.0, x.1);
      LinesComeBack(settings[1..]);
      UnwrittenLine(x.0, x.1, Written(settings[1..]));
    }
  }

  // ---------------------------------------------------------------- settings come back

  lemma {:induction false} LoadConcat(d: Draft, a: seq<Setting>, b: seq<Setting>)
    requires Load(d, a).Some?
    ensures Load(d, a + b) == Load(Load(d, a).value, b)
  {
    if b == [] {
      assert a + b == a;
    } else {
      LoadConcat(d, a, b[..|b| - 1]);
      assert (a + b)[..|a + b| - 1] == a + b[..|b| - 1];
    }
  }

  lemma LoadOne(d: Draft, key: string, val: string)
    ensures Load(d, [(key, val)]) == Take(d, key, val)
  {
    assert [(key, val)][..0] == [];
  }

  predicate ExtraName(name: string) {
    OneLine(name) && '=' !in name
    && name != "replace_peers" && name != "public_key" && name != "private_key" && name != "listen_port"
  }

  lemma {:induction false} LoadExtras(d: Draft, extras: seq<Setting>)
    requires d.peers == [] && forall k :: 0 <= k < |extras| ==> ExtraName(extras[k].0)
    ensures Load(d, extras) == Some(d.(extras := d.extras + extras))
  {
    if extras == [] {
      assert d.extras + extras == d.extras;
    } else {
      var front := extras[..|extras| - 1];
      LoadExtras(d, front);
      assert d.extras + front + [extras[|extras| - 1]] == d.extras + extras;
    }
  }

  lemma LoadDevice(d: Draft)
    requires forall k :: 0 <= k < |d.extras| ==> ExtraName(d.extras[k].0)
    ensures Load(EMPTY, DeviceHead(d) + d.extras) == Some(Draft(d.priv, d.listen, d.extras, []))
  {
    var first, second := [("replace_peers", "true")], [("private_key", d.priv)];
    var listen := SettingIf("listen_port", d.listen);
    LoadOne(EMPTY, "replace_peers", "true");
    LoadConcat(EMPTY, first, second);
    LoadOne(EMPTY, "private_key", d.priv);
    LoadConcat(EMPTY, first + second, listen);
    LoadOne(EMPTY.(priv := d.priv), "listen_port", d.listen);
    assert DeviceHead(d) == first + second + listen;
    LoadConcat(EMPTY, DeviceHead(d), d.extras);
    LoadExtras(Draft(d.priv, d.listen, [], []), d.extras);
    assert [] + d.extras == d.extras;
  }

  function WithLast(d: Draft, p: Peer): Draft {
    d.(peers := d.peers + [p])
  }

  /** A setting of the last peer, left out when it is empty. */
  lemma LoadPeerField(d: Draft, p: Peer, key: string, val: string, q: Peer)
    requires val != "" ==> key != "replace_peers" && key != "public_key" && TakePeer(p, key, val) == Some(q)
    requires val == "" ==> p == q
    ensures Load(WithLast(d, p), SettingIf(key, val)) == Some(WithLast(d, q))
  {
    if val != "" {
      LoadOne(WithLast(d, p), key, val);
      assert WithLast(d, p).peers[|d.peers|] == p;
      assert (d.peers + [p])[|d.peers| := q] == d.peers + [q];
    }
  }

  lemma LoadPeerHead(d: Draft, p: Peer)
    ensures Load(d, PeerHead(p)) == Some(WithLast(d, p.(allowed := [])))
  {
    var p0 := NEW_PEER.(pub := p.pub);
    var p1 := p0.(psk := p.psk);
    var p2 := p1.(endpoint := p.endpoint);
    var p3 := p2.(keepalive := p.keepalive);
    var a := [("public_key", p.pub)];
    var b := SettingIf("preshared_key", p.psk);
    var c := SettingIf("endpoint", p.endpoint);
    var e := SettingIf("persistent_keepalive_interval", p.keepalive);
    var f := SettingIf("replace_allowed_ips", "true");
    LoadOne(d, "public_key", p.pub);
    LoadPeerField(d, p0, "preshared_key", p.psk, p1);
    LoadConcat(d, a, b);
    LoadPeerField(d, p1, "endpoint", p.endpoint, p2);
    LoadConcat(d, a + b, c);
    LoadPeerField(d, p2, "persistent_keepalive_interval", p.keepalive, p3);
    LoadConcat(d, a + b + c, e);
    LoadPeerField(d, p3, "replace_allowed_ips", "true", p3);
    LoadConcat(d, a + b + c + e, f);
    assert PeerHead(p) == a + b + c + e + f;
  }

  lemma {:induction false} LoadAllowed(d: Draft, p: Peer, ips: seq<string>)
    requires p.allowed == []
    ensures Load(WithLast(d, p), AllowedSettings(ips)) == Some(WithLast(d, p.(allowed := ips)))
  {
    if ips == [] {
      assert p.(allowed := ips) == p;
    } else {
      var front, ip := ips[..|ips| - 1], ips[|ips| - 1];
      LoadAllowed(d, p, front);
      LoadConcat(WithLast(d, p), AllowedSettings(front), [("allowed_ip", ip)]);
      LoadOne(WithLast(d, p.(allowed := front)), "allowed_ip", ip);
      assert front + [ip] == ips;
      var q := p.(allowed := front);
      assert WithLast(d, q).peers[|d.peers|] == q;
      assert (d.peers + [q])[|d.peers| := p.(allowed := ips)] == d.peers + [p.(allowed := ips)];
    }
  }

  lemma LoadPeer(d: Draft, p: Peer)
    ensures Load(d, PeerSettings(p)) == Some(WithLast(d, p))
  {
    LoadPeerHead(d, p);
    LoadConcat(d, PeerHead(p), AllowedSettings(p.allowed));
    LoadAllowed(d, p.(allowed := []), p.allowed);
  }

  function FlatSettings(parts: seq<seq<Setting>>): seq<Setting> {
    if parts == [] then [] else FlatSettings(parts[..|parts| - 1]) + parts[|parts| - 1]
  }

  /** The settings add one peer to whatever was read before them. */
  ghost predicate AddsPeer(part: seq<Setting>, p: Peer) {
    forall d :: Load(d, part) == Some(WithLast(d, p))
  }

  lemma {:induction false} PeersAreFlat(ps: seq<Peer>) returns (parts: seq<seq<Setting>>)
    ensures |parts| == |ps| && forall k :: 0 <= k < |ps| ==> parts[k] == PeerSettings(ps[k])
    ensures PeersSettings(ps) == FlatSettings(parts)
  {
    if ps == [] {
      parts := [];
    } else {
      var front := PeersAreFlat(ps[..|ps| - 1]);
      parts := front + [PeerSettings(ps[|ps| - 1])];
      assert parts[..|front|] == front;
    }
  }

  lemma {:induction false} LoadFlat(d: Draft, parts: seq<seq<Setting>>, ps: seq<Peer>)
    requires |parts| == |ps| && forall k :: 0 <= k < |ps| ==> AddsPeer(parts[k], ps[k])
    ensures Load(d, FlatSettings(parts)) == Some(d.(peers := d.peers + ps))
  {
    if ps == [] {
      assert d.peers + ps == d.peers;
    } else {
      var n := |ps| - 1;
      LoadFlat(d, parts[..n], ps[..n]);
      LoadOneMore(d, FlatSettings(parts[..n]), parts[n], ps[..n], ps[n]);
      assert ps[..n] + [ps[n]] == ps;
    }
  }

  lemma LoadOneMore(d: Draft, settings: seq<Setting>, more: seq<Setting>, front: seq<Peer>, p: Peer)
    requires Load(d, settings) == Some(d.(peers := d.peers + front)) && AddsPeer(more, p)
    ensures Load(d, settings + more) == Some(d.(peers := d.peers + (front + [p])))
  {
    LoadConcat(d, settings, more);
    assert d.peers + front + [p] == d.peers + (front + [p]);
  }

  lemma LoadPeers(d: Draft, ps: seq<Peer>)
    ensures Load(d, PeersSettings(ps)) == Some(d.(peers := d.peers + ps))
  {
    var parts := PeersAreFlat(ps);
    forall k | 0 <= k < |ps| ensures AddsPeer(parts[k], ps[k]) {
      forall e ensures Load(e, parts[k]) == Some(WithLast(e, ps[k])) {
        LoadPeer(e, ps[k]);
      }
    }
    LoadFlat(d, parts, ps);
  }

  lemma SettingsComeBack(d: Draft)
    requires forall k :: 0 <= k < |d.extras| ==> ExtraName(d.extras[k].0)
    ensures Load(EMPTY, Settings(d)) == Some(d)
  {
    LoadDevice(d);
    LoadConcat(EMPTY, DeviceHead(d) + d.extras, PeersSettings(d.peers));
    LoadPeers(Draft(d.priv, d.listen, d.extras, []), d.peers);
    assert [] + d.peers == d.peers;
  }

  // ---------------------------------------------------------------- nothing in a value makes a line

  /** The device keys translate to names that are no keyword of the device head or of a peer. */
  predicate SoundTables(dx: Dialect) {
    && (forall key :: key in dx.plain ==> ExtraName(key))
    && (forall key :: key in dx.extended ==> ExtraName(dx.extended[key]))
  }

  predicate CleanExtra(x: Setting) {
    ExtraName(x.0) && OneLine(x.1)
  }

  predicate CleanPeer(p: Peer) {
    && OneLine(p.pub) && OneLine(p.psk) && OneLine(p.endpoint) && OneLine(p.keepalive)
    && forall k :: 0 <= k < |p.allowed| ==> OneLine(p.allowed[k])
  }

  predicate CleanDraft(d: Draft) {
    && OneLine(d.priv) && OneLine(d.listen)
    && (forall k :: 0 <= k < |d.extras| ==> CleanExtra(d.extras[k]))
    && (forall k :: 0 <= k < |d.peers| ==> CleanPeer(d.peers[k]))
  }

  lemma NoControlIsOneLine(s: string)
    requires !HasControl(s)
    ensures OneLine(s)
  {
    assert IsControl('\n');
  }

  lemma {:induction false} SplitStays(s: string, sep: char, k: nat)
    requires OneLine(s) && k < |Split(s, sep)|
    ensures OneLine(Split(s, sep)[k])
    decreases |s|
  {
    var i := IndexOf(s, sep);
    if i < |s| && k > 0 {
      SplitStays(s[i + 1..], sep, k - 1);
    }
  }

  lemma {:induction false} FilledStays(parts: seq<string>)
    requires forall k :: 0 <= k < |parts| ==> OneLine(parts[k])
    ensures forall k :: 0 <= k < |Filled(parts)| ==> OneLine(Filled(parts)[k])
  {
    if parts != [] {
      FilledStays(parts[..|parts| - 1]);
    }
  }

  lemma AddressesStay(val: string)
    requires OneLine(val)
    ensures forall k :: 0 <= k < |AddressesIn(val)| ==> OneLine(AddressesIn(val)[k])
  {
    forall k | 0 <= k < |Split(val, ',')| ensures OneLine(Split(val, ',')[k]) {
      SplitStays(val, ',', k);
    }
    FilledStays(Split(val, ','));
  }

  lemma DeviceValueIsOneLine(dx: Dialect, key: string, val: string)
    requires OneLine(val) && DeviceValue(dx, key, val).Some?
    ensures OneLine(DeviceValue(dx, key, val).value)
  {
    assert OneLine("true") && OneLine("false");
  }

  lemma SetDeviceStaysClean(dx: Dialect, d: Draft, key: string, val: string)
    requires SoundTables(dx) && CleanDraft(d) && OneLine(val) && SetDevice(dx, d, key, val).Ok?
    ensures CleanDraft(SetDevice(dx, d, key, val).value)
  {
    if DeviceValue(dx, key, val).Some? {
      DeviceValueIsOneLine(dx, key, val);
    }
  }

  lemma SetPeerStaysClean(dx: Dialect, p: Peer, key: string, val: string)
    requires CleanPeer(p) && OneLine(val) && SetPeer(dx, p, key, val).Ok?
    ensures CleanPeer(SetPeer(dx, p, key, val).value)
  {
    AddressesStay(val);
  }

  lemma {:induction false} FoldStaysClean(dx: Dialect, lines: seq<string>)
    requires SoundTables(dx) && FoldLines(dx, lines).Ok?
    ensures CleanDraft(FoldLines(dx, lines).value.draft)
  {
    if lines != [] {
      var front := lines[..|lines| - 1];
      FoldStaysClean(dx, front);
      var f := FoldLines(dx, front).value;
      match ReadLine(dx, lines[|lines| - 1])
      case Skipped =>
      case Header(_) =>
      case Item(key, val) => PutStaysClean(dx, f.kind, f.draft, key, val);
    }
  }

  lemma PutStaysClean(dx: Dialect, kind: Kind, d: Draft, key: string, val: string)
    requires SoundTables(dx) && CleanDraft(d) && Put(dx, kind, d, key, val).Ok?
    ensures CleanDraft(Put(dx, kind, d, key, val).value)
  {
    NoControlIsOneLine(val);
    match kind
    case Interface => SetDeviceStaysClean(dx, d, key, val);
    case PeerSection =>
      if d.peers != [] {
        SetPeerStaysClean(dx, d.peers[|d.peers| - 1], key, val);
      }
    case Other =>
  }

  predicate CleanKey(key: string) {
    OneLine(key) && '=' !in key
  }

  lemma CleanIf(key: string, val: string)
    requires CleanKey(key) && OneLine(val)
    ensures Clean(SettingIf(key, val)) && Clean([(key, val)])
  {
  }

  lemma {:induction false} CleanAllowed(ips: seq<string>)
    requires forall k :: 0 <= k < |ips| ==> OneLine(ips[k])
    ensures Clean(AllowedSettings(ips))
  {
    if ips != [] {
      CleanAllowed(ips[..|ips| - 1]);
      CleanConcat(AllowedSettings(ips[..|ips| - 1]), [("allowed_ip", ips[|ips| - 1])]);
    }
  }

  lemma CleanConcat(a: seq<Setting>, b: seq<Setting>)
    requires Clean(a) && Clean(b)
    ensures Clean(a + b)
  {
  }

  lemma CleanFive(a: seq<Setting>, b: seq<Setting>, c: seq<Setting>, d: seq<Setting>, e: seq<Setting>)
    requires Clean(a) && Clean(b) && Clean(c) && Clean(d) && Clean(e)
    ensures Clean(a + b + c + d + e)
  {
  }

  lemma CleanFields(p: Peer, a: string, b: string, c: string, d: string, e: string, on: string)
    requires CleanPeer(p) && CleanKey(a) && CleanKey(b) && CleanKey(c) && CleanKey(d) && CleanKey(e) && OneLine(on)
    ensures Clean([(a, p.pub)] + SettingIf(b, p.psk) + SettingIf(c, p.endpoint) + SettingIf(d, p.keepalive) + [(e, on)])
  {
    CleanIf(a, p.pub);
    CleanIf(b, p.psk);
    CleanIf(c, p.endpoint);
    CleanIf(d, p.keepalive);
    CleanIf(e, on);
    CleanFive([(a, p.pub)], SettingIf(b, p.psk), SettingIf(c, p.endpoint), SettingIf(d, p.keepalive), [(e, on)]);
  }

  lemma PeerKeywords()
    ensures CleanKey("public_key") && CleanKey("preshared_key") && CleanKey("endpoint")
  {
  }

  lemma LongKeyword()
    ensures CleanKey("persistent_keepalive_interval")
  {
  }

  lemma ReplaceKeyword()
    ensures CleanKey("replace_allowed_ips") && OneLine("true")
  {
  }

  lemma CleanPeerHead(p: Peer)
    requires CleanPeer(p)
    ensures Clean(PeerHead(p))
  {
    PeerKeywords();
    LongKeyword();
    ReplaceKeyword();
    CleanFields(
      p, "public_key", "preshared_key", "endpoint", "persistent_keepalive_interval", "replace_allowed_ips", "true");
  }

  lemma CleanPeerSettings(p: Peer)
    requires CleanPeer(p)
    ensures Clean(PeerSettings(p))
  {
    CleanPeerHead(p);
    CleanAllowed(p.allowed);
    CleanConcat(PeerHead(p), AllowedSettings(p.allowed));
  }

  lemma {:induction false} CleanPeers(ps: seq<Peer>)
    requires forall k :: 0 <= k < |ps| ==> CleanPeer(ps[k])
    ensures Clean(PeersSettings(ps))
  {
    if ps != [] {
      CleanPeers(ps[..|ps| - 1]);
      CleanPeerSettings(ps[|ps| - 1]);
      CleanConcat(PeersSettings(ps[..|ps| - 1]), PeerSettings(ps[|ps| - 1]));
    }
  }

  lemma CleanSettings(d: Draft)
    requires CleanDraft(d)
    ensures Clean(Settings(d))
  {
    var head := [("replace_peers", "true"), ("private_key", d.priv)];
    CleanConcat(head, SettingIf("listen_port", d.listen));
    CleanConcat(DeviceHead(d), d.extras);
    CleanPeers(d.peers);
    CleanConcat(DeviceHead(d) + d.extras, PeersSettings(d.peers));
  }

  /** Whenever the translation succeeds, its text read line by line is exactly the folded
      configuration: no value made, broke or moved a line. */
  lemma {:induction false} TextReadsBack(dx: Dialect, cfg: string)
    requires SoundTables(dx) && Parsed(dx, cfg).Ok?
    ensures FoldLines(dx, Split(cfg, '\n')).Ok?
    ensures ReadBack(Parsed(dx, cfg).value) == Some(FoldLines(dx, Split(cfg, '\n')).value.draft)
  {
    var d := FoldLines(dx, Split(cfg, '\n')).value.draft;
    FoldStaysClean(dx, Split(cfg, '\n'));
    CleanSettings(d);
    LinesComeBack(Settings(d));
    SettingsComeBack(d);
  }

  // ---------------------------------------------------------------- what the sections say

  /** A header and the items up to the next one; a first section without a header stands for what
      comes before any. */
  datatype Section = Section(kind: Kind, items: seq<Setting>)

  function Sections(dx: Dialect, lines: seq<string>): (all: seq<Section>)
    ensures all != []
  {
    if lines == [] then [Section(Other, [])] else
    var before := Sections(dx, lines[..|lines| - 1]);
    match ReadLine(dx, lines[|lines| - 1])
    case Skipped => before
    case Header(kind) => before + [Section(kind, [])]
    case Item(key, val) =>
      before[|before| - 1 := before[|before| - 1].(items := before[|before| - 1].items + [(key, val)])]
  }

  datatype Field = PrivateKey | ListenPort | PublicKey | PresharedKey | Endpoint | Keepalive

  /** What an item gives a field, if anything. */
  function Gives(dx: Dialect, field: Field, key: string, val: string): Option<string> {
    match field
    case PrivateKey => if key == "privatekey" then KeyHex(dx, val) else None
    case ListenPort => if key == "listenport" then Some(val) else None
    case PublicKey => if key == "publickey" then KeyHex(dx, val) else None
    case PresharedKey => if key == "presharedkey" then KeyHex(dx, val) else None
    case Endpoint => if key == "endpoint" then Some(val) else None
    case Keepalive =>
      if (key == "persistentkeepalive" || key == "persistent_keepalive") && !IsOff(val) then Some(val) else None
  }

  /** The last value given. */
  function Last(dx: Dialect, field: Field, items: seq<Setting>): string {
    if items == [] then "" else
    match Gives(dx, field, items[|items| - 1].0, items[|items| - 1].1)
    case Some(v) => v
    case None => Last(dx, field, items[..|items| - 1])
  }

  function GivesExtra(dx: Dialect, key: string, val: string): seq<Setting> {
    if key == "privatekey" || key == "listenport" then []
    else if key in dx.extended then
      match ExtendedValue(dx, key, val)
      case None => []
      case Some(v) => [(dx.extended[key], v)]
    else if key in dx.plain then [(key, val)]
    else []
  }

  function Extras(dx: Dialect, items: seq<Setting>): seq<Setting> {
    if items == [] then [] else
    Extras(dx, items[..|items| - 1]) + GivesExtra(dx, items[|items| - 1].0, items[|items| - 1].1)
  }

  function Allowed(items: seq<Setting>): seq<string> {
    if items == [] then [] else
    Allowed(items[..|items| - 1])
    + if items[|items| - 1].0 == "allowedips" then AddressesIn(items[|items| - 1].1) else []
  }

  function PeerOf(dx: Dialect, items: seq<Setting>): Peer {
    Peer(Last(dx, PublicKey, items), Last(dx, PresharedKey, items), Last(dx, Endpoint, items),
      Last(dx, Keepalive, items), Allowed(items))
  }

  /** The items of every [Interface] section, in order. */
  function InterfaceItems(all: seq<Section>): seq<Setting> {
    if all == [] then [] else
    InterfaceItems(all[..|all| - 1]) + if all[|all| - 1].kind == Interface then all[|all| - 1].items else []
  }

  /** One peer for each [Peer] section, from its own items. */
  function PeersOf(dx: Dialect, all: seq<Section>): seq<Peer> {
    if all == [] then [] else
    PeersOf(dx, all[..|all| - 1])
    + if all[|all| - 1].kind == PeerSection then [PeerOf(dx, all[|all| - 1].items)] else []
  }

  function Said(dx: Dialect, all: seq<Section>): Draft {
    var device := InterfaceItems(all);
    Draft(Last(dx, PrivateKey, device), Last(dx, ListenPort, device), Extras(dx, device), PeersOf(dx, all))
  }

  /** An item that stops the translation: a control character anywhere, a key that is not 32 bytes,
      an AWG 1.5 setting, or a device value out of its form. */
  predicate Faulty(dx: Dialect, kind: Kind, key: string, val: string) {
    || HasControl(val)
    || (kind == Interface && key == "privatekey" && KeyHex(dx, val).None?)
    || (kind == Interface && key != "privatekey" && key != "listenport"
        && (key in dx.refused || (key in dx.extended && ExtendedValue(dx, key, val).None?)))
    || (kind == PeerSection && (key == "publickey" || key == "presharedkey") && KeyHex(dx, val).None?)
  }

  predicate FaultyIn(dx: Dialect, all: seq<Section>, i: nat, k: nat) {
    i < |all| && k < |all[i].items| && Faulty(dx, all[i].kind, all[i].items[k].0, all[i].items[k].1)
  }

  predicate Faultless(dx: Dialect, all: seq<Section>) {
    forall i, k :: 0 <= i < |all| && 0 <= k < |all[i].items| ==> !FaultyIn(dx, all, i, k)
  }

  function WithItem(all: seq<Section>, key: string, val: string): seq<Section>
    requires all != []
  {
    all[|all| - 1 := all[|all| - 1].(items := all[|all| - 1].items + [(key, val)])]
  }

  lemma SaidHeader(dx: Dialect, all: seq<Section>, kind: Kind)
    requires all != []
    ensures Said(dx, all + [Section(kind, [])]) ==
      if kind == PeerSection then Said(dx, all).(peers := Said(dx, all).peers + [NEW_PEER]) else Said(dx, all)
  {
    var next := all + [Section(kind, [])];
    assert next[..|next| - 1] == all;
    assert InterfaceItems(next) == InterfaceItems(all);
  }

  lemma FaultyItemFails(dx: Dialect, kind: Kind, d: Draft, key: string, val: string)
    requires kind == PeerSection ==> d.peers != []
    ensures Put(dx, kind, d, key, val).Fail? <==> Faulty(dx, kind, key, val)
  {
  }

  lemma LastOf(dx: Dialect, field: Field, items: seq<Setting>, key: string, val: string)
    ensures Last(dx, field, items + [(key, val)]) ==
      match Gives(dx, field, key, val)
      case Some(v) => v
      case None => Last(dx, field, items)
  {
    assert (items + [(key, val)])[..|items|] == items;
  }

  lemma DeviceSays(dx: Dialect, d: Draft, items: seq<Setting>, key: string, val: string)
    requires !Faulty(dx, Interface, key, val)
    requires d.priv == Last(dx, PrivateKey, items) && d.listen == Last(dx, ListenPort, items)
    requires d.extras == Extras(dx, items)
    ensures var next := items + [(key, val)];
      SetDevice(dx, d, key, val) ==
      Ok(Draft(Last(dx, PrivateKey, next), Last(dx, ListenPort, next), Extras(dx, next), d.peers))
  {
    LastOf(dx, PrivateKey, items, key, val);
    LastOf(dx, ListenPort, items, key, val);
    assert (items + [(key, val)])[..|items|] == items;
    assert d.extras + [] == d.extras;
  }

  lemma PeerSays(dx: Dialect, items: seq<Setting>, key: string, val: string)
    requires !Faulty(dx, PeerSection, key, val)
    ensures SetPeer(dx, PeerOf(dx, items), key, val) == Ok(PeerOf(dx, items + [(key, val)]))
  {
    LastOf(dx, PublicKey, items, key, val);
    LastOf(dx, PresharedKey, items, key, val);
    LastOf(dx, Endpoint, items, key, val);
    LastOf(dx, Keepalive, items, key, val);
    assert (items + [(key, val)])[..|items|] == items;
    assert Allowed(items) + [] == Allowed(items);
  }

  lemma SaidDeviceItem(dx: Dialect, all: seq<Section>, key: string, val: string)
    requires all != [] && all[|all| - 1].kind == Interface && !Faulty(dx, Interface, key, val)
    ensures SetDevice(dx, Said(dx, all), key, val) == Ok(Said(dx, WithItem(all, key, val)))
  {
    var next := WithItem(all, key, val);
    var front := all[..|all| - 1];
    assert next[..|next| - 1] == front;
    var device := InterfaceItems(all);
    assert InterfaceItems(next) == device + [(key, val)];
    assert PeersOf(dx, next) == PeersOf(dx, all);
    DeviceSays(dx, Said(dx, all), device, key, val);
  }

  lemma SaidPeerItem(dx: Dialect, all: seq<Section>, key: string, val: string)
    requires all != [] && all[|all| - 1].kind == PeerSection && !Faulty(dx, PeerSection, key, val)
    ensures Put(dx, PeerSection, Said(dx, all), key, val) == Ok(Said(dx, WithItem(all, key, val)))
  {
    var next := WithItem(all, key, val);
    var front := all[..|all| - 1];
    assert next[..|next| - 1] == front;
    var items := all[|all| - 1].items;
    PeerSays(dx, items, key, val);
    assert InterfaceItems(next) == InterfaceItems(all);
    PutInPeer(dx, Said(dx, all), PeersOf(dx, front), PeerOf(dx, items), PeerOf(dx, items + [(key, val)]), key, val);
  }

  lemma PutInPeer(dx: Dialect, d: Draft, ps: seq<Peer>, p: Peer, q: Peer, key: string, val: string)
    requires d.peers == ps + [p] && !HasControl(val) && SetPeer(dx, p, key, val) == Ok(q)
    ensures Put(dx, PeerSection, d, key, val) == Ok(d.(peers := ps + [q]))
  {
    assert d.peers[|d.peers| - 1] == p;
    assert (ps + [p])[|ps| := q] == ps + [q];
  }

  lemma SaidOtherItem(dx: Dialect, all: seq<Section>, key: string, val: string)
    requires all != [] && all[|all| - 1].kind == Other
    ensures Said(dx, WithItem(all, key, val)) == Said(dx, all)
  {
    var next := WithItem(all, key, val);
    assert next[..|next| - 1] == all[..|all| - 1];
  }

  lemma FaultlessWithItem(dx: Dialect, all: seq<Section>, key: string, val: string)
    requires all != []
    ensures Faultless(dx, WithItem(all, key, val)) <==> Faultless(dx, all) && !Faulty(dx, all[|all| - 1].kind, key, val)
  {
    var next := WithItem(all, key, val);
    var n := |all| - 1;
    var m := |all[n].items|;
    assert next[n].items[m] == (key, val);
    assert FaultyIn(dx, next, n, m) <==> Faulty(dx, all[n].kind, key, val);
    forall i, k | 0 <= i < |all| && 0 <= k < |all[i].items|
      ensures FaultyIn(dx, next, i, k) <==> FaultyIn(dx, all, i, k)
    {
      assert next[i].items[k] == all[i].items[k];
    }
  }

  lemma FaultlessWithHeader(dx: Dialect, all: seq<Section>, kind: Kind)
    ensures Faultless(dx, all + [Section(kind, [])]) <==> Faultless(dx, all)
  {
    var next := all + [Section(kind, [])];
    forall i, k | 0 <= i < |all| && 0 <= k < |all[i].items|
      ensures FaultyIn(dx, next, i, k) <==> FaultyIn(dx, all, i, k)
    {
      assert next[i] == all[i];
    }
  }

  lemma ItemFollowsSections(dx: Dialect, all: seq<Section>, key: string, val: string)
    requires all != []
    ensures Put(dx, all[|all| - 1].kind, Said(dx, all), key, val).Ok? <==> !Faulty(dx, all[|all| - 1].kind, key, val)
    ensures !Faulty(dx, all[|all| - 1].kind, key, val) ==>
      Put(dx, all[|all| - 1].kind, Said(dx, all), key, val) == Ok(Said(dx, WithItem(all, key, val)))
  {
    FaultyItemFails(dx, all[|all| - 1].kind, Said(dx, all), key, val);
    if !Faulty(dx, all[|all| - 1].kind, key, val) {
      match all[|all| - 1].kind
      case Interface => SaidDeviceItem(dx, all, key, val);
      case PeerSection => SaidPeerItem(dx, all, key, val);
      case Other => SaidOtherItem(dx, all, key, val);
    }
  }

  /** The single pass over the lines is what the sections say: it fails exactly when some item is at
      fault, and otherwise each device field is the last one given, and each [Peer] header makes one
      peer, in order, from its own items alone. */
  lemma {:induction false} PassFollowsSections(dx: Dialect, lines: seq<string>)
    ensures FoldLines(dx, lines).Ok? <==> Faultless(dx, Sections(dx, lines))
    ensures FoldLines(dx, lines).Ok? ==>
      var all := Sections(dx, lines);
      FoldLines(dx, lines).value == Fold(all[|all| - 1].kind, Said(dx, all))
  {
    if lines == [] {
      var none := [Section(Other, [])];
      assert none[..0] == [];
      assert InterfaceItems(none) == [] && PeersOf(dx, none) == [];
    } else {
      var front := lines[..|lines| - 1];
      PassFollowsSections(dx, front);
      var all := Sections(dx, front);
      match ReadLine(dx, lines[|lines| - 1])
      case Skipped =>
      case Header(kind) =>
        SaidHeader(dx, all, kind);
        FaultlessWithHeader(dx, all, kind);
      case Item(key, val) =>
        ItemFollowsSections(dx, all, key, val);
        FaultlessWithItem(dx, all, key, val);
    }
  }

  function PeerHeaders(dx: Dialect, lines: seq<string>): nat {
    if lines == [] then 0 else
    PeerHeaders(dx, lines[..|lines| - 1]) + if ReadLine(dx, lines[|lines| - 1]) == Header(PeerSection) then 1 else 0
  }

  lemma {:induction false} OnePeerPerHeader(dx: Dialect, lines: seq<string>)
    ensures |PeersOf(dx, Sections(dx, lines))| == PeerHeaders(dx, lines)
  {
    if lines != [] {
      var all := Sections(dx, lines[..|lines| - 1]);
      OnePeerPerHeader(dx, lines[..|lines| - 1]);
      match ReadLine(dx, lines[|lines| - 1])
      case Skipped =>
      case Header(kind) => assert (all + [Section(kind, [])])[..|all|] == all;
      case Item(key, val) => assert WithItem(all, key, val)[..|all| - 1] == all[..|all| - 1];
    }
  }

  /** The translation as a whole: exactly when no item is at fault, there is a private key and at
      least one [Peer], and every peer has its public key, it writes a text, and the text reads back
      as what the sections say. */
  lemma {:induction false} TranslationIsExact(dx: Dialect, cfg: string)
    requires SoundTables(dx)
    ensures var all := Sections(dx, Split(cfg, '\n')); var said := Said(dx, all);
      && (Parsed(dx, cfg).Ok? <==>
        && Faultless(dx, all) && said.priv != "" && said.peers != []
        && forall k :: 0 <= k < |said.peers| ==> said.peers[k].pub != "")
      && (Parsed(dx, cfg).Ok? ==> ReadBack(Parsed(dx, cfg).value) == Some(said))
      && |said.peers| == PeerHeaders(dx, Split(cfg, '\n'))
  {
    PassFollowsSections(dx, Split(cfg, '\n'));
    OnePeerPerHeader(dx, Split(cfg, '\n'));
    if Parsed(dx, cfg).Ok? {
      TextReadsBack(dx, cfg);
    }
  }

  // ---------------------------------------------------------------- which error

  /** What is reported of an item at fault. */
  function FaultOf(dx: Dialect, kind: Kind, key: string, val: string): Error {
    if HasControl(val) then ControlCharacter(kind, key)
    else if kind == PeerSection then BadKey(if key == "publickey" then "peer.public_key" else "peer.preshared_key")
    else if key == "privatekey" then BadKey("interface.private_key")
    else if key in dx.refused then Unsupported(key)
    else BadValue(if key in dx.extended then dx.extended[key] else key)
  }

  lemma ItemReportsItsFault(dx: Dialect, kind: Kind, d: Draft, key: string, val: string)
    requires kind == PeerSection ==> d.peers != []
    requires Faulty(dx, kind, key, val)
    ensures Put(dx, kind, d, key, val) == Fail(FaultOf(dx, kind, key, val))
  {
  }

  /** The first fault among the items of a section, and among the sections. */
  function FaultIn(dx: Dialect, kind: Kind, items: seq<Setting>): Option<Error> {
    if items == [] then None else
    var before, item := FaultIn(dx, kind, items[..|items| - 1]), items[|items| - 1];
    if before.None? && Faulty(dx, kind, item.0, item.1) then Some(FaultOf(dx, kind, item.0, item.1)) else before
  }

  function FirstFault(dx: Dialect, all: seq<Section>): Option<Error> {
    if all == [] then None else
    var before := FirstFault(dx, all[..|all| - 1]);
    if before.None? then FaultIn(dx, all[|all| - 1].kind, all[|all| - 1].items) else before
  }

  lemma FirstFaultWithHeader(dx: Dialect, all: seq<Section>, kind: Kind)
    ensures FirstFault(dx, all + [Section(kind, [])]) == FirstFault(dx, all)
  {
    assert (all + [Section(kind, [])])[..|all|] == all;
  }

  lemma FirstFaultWithItem(dx: Dialect, all: seq<Section>, key: string, val: string)
    requires all != []
    ensures FirstFault(dx, WithItem(all, key, val)) ==
      var kind := all[|all| - 1].kind;
      if FirstFault(dx, all).None? && Faulty(dx, kind, key, val) then Some(FaultOf(dx, kind, key, val))
      else FirstFault(dx, all)
  {
    var next, last := WithItem(all, key, val), all[|all| - 1];
    assert next[..|next| - 1] == all[..|all| - 1];
    assert (last.items + [(key, val)])[..|last.items|] == last.items;
  }

  /** The pass stops at the first item at fault and reports it. */
  lemma {:induction false} PassReportsTheFirstFault(dx: Dialect, lines: seq<string>)
    ensures FirstFault(dx, Sections(dx, lines))
         == if FoldLines(dx, lines).Fail? then Some(FoldLines(dx, lines).error) else None
  {
    if lines == [] {
      assert [Section(Other, [])][..0] == [];
    } else {
      var front := lines[..|lines| - 1];
      var all := Sections(dx, front);
      PassReportsTheFirstFault(dx, front);
      match ReadLine(dx, lines[|lines| - 1])
      case Skipped =>
      case Header(kind) => FirstFaultWithHeader(dx, all, kind);
      case Item(key, val) =>
        FirstFaultWithItem(dx, all, key, val);
        if FoldLines(dx, front).Ok? {
          ItemFault(dx, front, key, val);
        }
    }
  }

  lemma ItemFault(dx: Dialect, lines: seq<string>, key: string, val: string)
    requires FoldLines(dx, lines).Ok?
    ensures
      var all, f := Sections(dx, lines), FoldLines(dx, lines).value;
      var put := Put(dx, f.kind, f.draft, key, val);
      && (put.Fail? <==> Faulty(dx, all[|all| - 1].kind, key, val))
      && (put.Fail? ==> put.error == FaultOf(dx, all[|all| - 1].kind, key, val))
  {
    PassFollowsSections(dx, lines);
    var all := Sections(dx, lines);
    ItemFollowsSections(dx, all, key, val);
    if Faulty(dx, all[|all| - 1].kind, key, val) {
      PeerSectionHasAPeer(dx, all);
      ItemReportsItsFault(dx, all[|all| - 1].kind, Said(dx, all), key, val);
    }
  }

  lemma PeerSectionHasAPeer(dx: Dialect, all: seq<Section>)
    requires all != []
    ensures all[|all| - 1].kind == PeerSection ==> Said(dx, all).peers != []
  {
  }

  /** Why a translation fails: the first item at fault, else no private key, else no peer, else the first
      peer without its public key. */
  function Refusal(dx: Dialect, all: seq<Section>): Option<Error> {
    var said := Said(dx, all);
    if FirstFault(dx, all).Some? then FirstFault(dx, all)
    else if said.priv == "" then Some(MissingPrivateKey)
    else if said.peers == [] then Some(NoPeers)
    else if KeyMissing(said.peers) < |said.peers| then Some(MissingPublicKey(KeyMissing(said.peers)))
    else None
  }

  /** The translation fails exactly when there is something to refuse, and says what. */
  lemma {:induction false} RefusalIsExact(dx: Dialect, cfg: string)
    ensures Refusal(dx, Sections(dx, Split(cfg, '\n')))
         == if Parsed(dx, cfg).Fail? then Some(Parsed(dx, cfg).error) else None
  {
    var lines := Split(cfg, '\n');
    PassReportsTheFirstFault(dx, lines);
    PassFollowsSections(dx, lines);
  }
}
