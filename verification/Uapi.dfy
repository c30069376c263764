/** The INI of an AmneziaWG configuration turned into the lines of the WireGuard configuration
    protocol (internal/awgconfig/awgconfig.go). */
module Uapi {

  import opened Text

  type Byte = x: int | 0 <= x < 256

  /** Lowercasing, key decoding (hex or base64, whatever its length) and the tables of device keys:
      the ones spelled alike in the protocol, the ones AWG 3.x spells otherwise, and the ones refused. */
  datatype Dialect = Dialect(
    lower: char -> char,
    decode: string -> Option<seq<Byte>>,
    plain: set<string>,
    extended: map<string, string>,
    refused: set<string>)

  datatype Kind = Interface | PeerSection | Other

  datatype Error =
    | ControlCharacter(kind: Kind, key: string)
    | BadKey(field: string)
    | Unsupported(key: string)
    | BadValue(name: string)
    | MissingPrivateKey
    | NoPeers
    | MissingPublicKey(i: nat)

  datatype Outcome<+T> = Ok(value: T) | Fail(error: Error)

  datatype Peer = Peer(pub: string, psk: string, endpoint: string, keepalive: string, allowed: seq<string>)

  const NEW_PEER := Peer("", "", "", "", [])

  /** What the configuration asks for: the device fields, its other settings in order, and the peers. */
  datatype Draft = Draft(priv: string, listen: string, extras: seq<(string, string)>, peers: seq<Peer>)

  const EMPTY := Draft("", "", [], [])

  // ---------------------------------------------------------------- values

  /** `hasControl`: a control character of Unicode other than tab. */
  predicate IsControl(c: char) {
    c != '\t' && (c < ' ' || '\U{7F}' <= c <= '\U{9F}')
  }

  predicate HasControl(s: string) {
    exists i :: 0 <= i < |s| && IsControl(s[i])
  }

  predicate IsHex(c: char) {
    '0' <= c <= '9' || 'a' <= c <= 'f'
  }

  function HexDigit(d: nat): (c: char)
    requires d < 16
    ensures IsHex(c)
  {
    if d < 10 then '0' + d as char else 'a' + (d - 10) as char
  }

  function Hex(b: seq<Byte>): (s: string)
    ensures |s| == 2 * |b|
    ensures forall c :: c in s ==> IsHex(c)
  {
    if b == [] then "" else Hex(b[..|b| - 1]) + [HexDigit(b[|b| - 1] / 16), HexDigit(b[|b| - 1] % 16)]
  }

  /** `normalizeKeyToHex`: 32 bytes, or refused. */
  function KeyHex(dx: Dialect, s: string): (r: Option<string>)
    ensures r.Some? ==> |r.value| == 64 && forall c :: c in r.value ==> IsHex(c)
  {
    match dx.decode(TrimSpace(s))
    case None => None
    case Some(b) => if |b| == 32 then Some(Hex(b)) else None
  }

  /** `strconv.ParseUint(s, 10, 32)`. */
  function ParseUint32(s: string): Option<int> {
    if s != "" && (forall i :: 0 <= i < |s| ==> '0' <= s[i] <= '9') && Value(s) < 0x1_0000_0000
    then Some(Value(s)) else None
  }

  function ParseBool(dx: Dialect, v: string): Option<bool> {
    var word := MapChars(TrimSpace(v), dx.lower);
    if word == "on" || word == "true" then Some(true)
    else if word == "off" || word == "false" then Some(false)
    else match ParseUint32(TrimSpace(v))
      case None => None
      case Some(n) => Some(n != 0)
  }

  predicate InRange(v: string) {
    var i := IndexOf(v, '-');
    if i == |v| then ParseUint32(v).Some?
    else
      && ParseUint32(v[..i]).Some? && ParseUint32(v[i + 1..]).Some?
      && ParseUint32(v[..i]).value <= ParseUint32(v[i + 1..]).value
  }

  function ExtendedValue(dx: Dialect, key: string, val: string): Option<string> {
    if key == "headerprotectionkey" then KeyHex(dx, val)
    else if key == "randomtrailers" || key == "disablecookies" then
      match ParseBool(dx, val)
      case None => None
      case Some(b) => Some(if b then "true" else "false")
    else if InRange(val) then Some(val) else None
  }

  function DeviceValue(dx: Dialect, key: string, val: string): Option<string> {
    if key in dx.extended then ExtendedValue(dx, key, val) else Some(val)
  }

  function DeviceKey(dx: Dialect, key: string): Option<string> {
    if key in dx.extended then Some(dx.extended[key]) else if key in dx.plain then Some(key) else None
  }

  /** `strings.EqualFold(val, "off")`. */
  predicate IsOff(val: string) {
    && |val| == 3 && (val[0] == 'o' || val[0] == 'O')
    && (val[1] == 'f' || val[1] == 'F') && (val[2] == 'f' || val[2] == 'F')
  }

  function Filled(parts: seq<string>): seq<string> {
    if parts == [] then [] else
    Filled(parts[..|parts| - 1]) + if TrimSpace(parts[|parts| - 1]) != "" then [TrimSpace(parts[|parts| - 1])] else []
  }

  function AddressesIn(val: string): seq<string> {
    Filled(Split(val, ','))
  }

  // ---------------------------------------------------------------- one line

  datatype Line = Skipped | Header(kind: Kind) | Item(key: string, val: string)

  predicate IsBracket(c: char) {
    c == '[' || c == ']' || c == ' ' || c == '\t'
  }

  function KindOf(dx: Dialect, line: string): Kind {
    var name := MapChars(TrimWith(line, IsBracket), dx.lower);
    if name == "interface" then Interface else if name == "peer" then PeerSection else Other
  }

  function ReadLine(dx: Dialect, raw: string): Line {
    var line := TrimSpace(raw);
    if line == "" || line[0] == '#' || line[0] == ';' then Skipped
    else if line[0] == '[' && line[|line| - 1] == ']' then Header(KindOf(dx, line))
    else
      var i := IndexOf(line, '=');
      if i == |line| then Skipped
      else Item(MapChars(TrimSpace(line[..i]), dx.lower), TrimSpace(line[i + 1..]))
  }

  predicate IsKeepalive(key: string) {
    key == "persistentkeepalive" || key == "persistent_keepalive"
  }

  function SetDevice(dx: Dialect, d: Draft, key: string, val: string): Outcome<Draft> {
    if key == "privatekey" then
      match KeyHex(dx, val)
      case None => Fail(BadKey("interface.private_key"))
      case Some(h) => Ok(d.(priv := h))
    else if key == "listenport" then Ok(d.(listen := val))
    else if key in dx.refused then Fail(Unsupported(key))
    else match DeviceKey(dx, key)
      case None => Ok(d)
      case Some(name) =>
        match DeviceValue(dx, key, val)
        case None => Fail(BadValue(name))
        case Some(v) => Ok(d.(extras := d.extras + [(name, v)]))
  }

  function SetPeer(dx: Dialect, p: Peer, key: string, val: string): Outcome<Peer> {
    if key == "publickey" then
      match KeyHex(dx, val)
      case None => Fail(BadKey("peer.public_key"))
      case Some(h) => Ok(p.(pub := h))
    else if key == "presharedkey" then
      match KeyHex(dx, val)
      case None => Fail(BadKey("peer.preshared_key"))
      case Some(h) => Ok(p.(psk := h))
    else if key == "endpoint" then Ok(p.(endpoint := val))
    else if IsKeepalive(key) then Ok(if IsOff(val) then p else p.(keepalive := val))
    else if key == "allowedips" then Ok(p.(allowed := p.allowed + AddressesIn(val)))
    else Ok(p)
  }

  function Put(dx: Dialect, kind: Kind, d: Draft, key: string, val: string): Outcome<Draft> {
    if HasControl(val) then Fail(ControlCharacter(kind, key)) else
    match kind
    case Interface => SetDevice(dx, d, key, val)
    case PeerSection =>
      if d.peers == [] then Ok(d) else
      (match SetPeer(dx, d.peers[|d.peers| - 1], key, val)
       case Fail(e) => Fail(e)
       case Ok(p) => Ok(d.(peers := d.peers[|d.peers| - 1 := p])))
    case Other => Ok(d)
  }

  datatype Fold = Fold(kind: Kind, draft: Draft)

  function Next(dx: Dialect, f: Fold, line: Line): Outcome<Fold> {
    match line
    case Skipped => Ok(f)
    case Header(kind) =>
      Ok(Fold(kind, if kind == PeerSection then f.draft.(peers := f.draft.peers + [NEW_PEER]) else f.draft))
    case Item(key, val) =>
      match Put(dx, f.kind, f.draft, key, val)
      case Fail(e) => Fail(e)
      case Ok(d) => Ok(Fold(f.kind, d))
  }

  /** The lines folded from the first on; the first fault stops it. */
  function FoldLines(dx: Dialect, lines: seq<string>): Outcome<Fold> {
    if lines == [] then Ok(Fold(Other, EMPTY)) else
    match FoldLines(dx, lines[..|lines| - 1])
    case Fail(e) => Fail(e)
    case Ok(f) => Next(dx, f, ReadLine(dx, lines[|lines| - 1]))
  }

  // ---------------------------------------------------------------- the protocol's lines

  type Setting = (string, string)

  function SettingIf(key: string, val: string): seq<Setting> {
    if val == "" then [] else [(key, val)]
  }

  function AllowedSettings(ips: seq<string>): seq<Setting> {
    if ips == [] then [] else AllowedSettings(ips[..|ips| - 1]) + [("allowed_ip", ips[|ips| - 1])]
  }

  function PeerHead(p: Peer): seq<Setting> {
    [("public_key", p.pub)] + SettingIf("preshared_key", p.psk) + SettingIf("endpoint", p.endpoint)
    + SettingIf("persistent_keepalive_interval", p.keepalive) + [("replace_allowed_ips", "true")]
  }

  function PeerSettings(p: Peer): seq<Setting> {
    PeerHead(p) + AllowedSettings(p.allowed)
  }

  function PeersSettings(ps: seq<Peer>): seq<Setting> {
    if ps == [] then [] else PeersSettings(ps[..|ps| - 1]) + PeerSettings(ps[|ps| - 1])
  }

  function DeviceHead(d: Draft): seq<Setting> {
    [("replace_peers", "true"), ("private_key", d.priv)] + SettingIf("listen_port", d.listen)
  }

  function Settings(d: Draft): seq<Setting> {
    DeviceHead(d) + d.extras + PeersSettings(d.peers)
  }

  function Written(settings: seq<Setting>): string {
    if settings == [] then "" else
    Written(settings[..|settings| - 1]) + settings[|settings| - 1].0 + "=" + settings[|settings| - 1].1 + "\n"
  }

  function KeyMissing(ps: seq<Peer>): (i: nat)
    ensures i <= |ps|
    ensures i < |ps| ==> ps[i].pub == ""
    ensures forall k :: 0 <= k < i ==> ps[k].pub != ""
  {
    if ps == [] || ps[0].pub == "" then 0 else 1 + KeyMissing(ps[1..])
  }

  function Finish(d: Draft): Outcome<string> {
    if d.priv == "" then Fail(MissingPrivateKey)
    else if d.peers == [] then Fail(NoPeers)
    else if KeyMissing(d.peers) < |d.peers| then Fail(MissingPublicKey(KeyMissing(d.peers)))
    else Ok(Written(Settings(d)))
  }

  /** `ParseToUAPI`. */
  function Parsed(dx: Dialect, cfg: string): Outcome<string> {
    match FoldLines(dx, Split(cfg, '\n'))
    case Fail(e) => Fail(e)
    case Ok(f) => Finish(f.draft)
  }

  // ---------------------------------------------------------------- the loops

  method ListAddresses(val: string) returns (ips: seq<string>)
    ensures ips == AddressesIn(val)
  {
    var parts := Split(val, ',');
    ips := [];
    for i := 0 to |parts|
      invariant ips == Filled(parts[..i])
    {
      assert parts[..i + 1][..i] == parts[..i];
      var ip := TrimSpace(parts[i]);
      if ip != "" {
        ips := ips + [ip];
      }
    }
    assert parts[..|parts|] == parts;
  }

  method ApplyPeerItem(dx: Dialect, p: Peer, key: string, val: string) returns (r: Outcome<Peer>)
    ensures r == SetPeer(dx, p, key, val)
  {
    if key == "publickey" {
      var hex := KeyHex(dx, val);
      if hex.None? {
        return Fail(BadKey("peer.public_key"));
      }
      return Ok(p.(pub := hex.value));
    } else if key == "presharedkey" {
      var hex := KeyHex(dx, val);
      if hex.None? {
        return Fail(BadKey("peer.preshared_key"));
      }
      return Ok(p.(psk := hex.value));
    } else if key == "endpoint" {
      return Ok(p.(endpoint := val));
    } else if IsKeepalive(key) {
      if !IsOff(val) {
        return Ok(p.(keepalive := val));
      }
    } else if key == "allowedips" {
      var ips := ListAddresses(val);
      return Ok(p.(allowed := p.allowed + ips));
    }
    r := Ok(p);
  }

  method ApplyDeviceItem(dx: Dialect, d: Draft, key: string, val: string) returns (r: Outcome<Draft>)
    ensures r == SetDevice(dx, d, key, val)
  {
    if key == "privatekey" {
      var hex := KeyHex(dx, val);
      if hex.None? {
        return Fail(BadKey("interface.private_key"));
      }
      return Ok(d.(priv := hex.value));
    }
    if key == "listenport" {
      return Ok(d.(listen := val));
    }
    if key in dx.refused {
      return Fail(Unsupported(key));
    }
    var name := DeviceKey(dx, key);
    if name.Some? {
      var v := DeviceValue(dx, key, val);
      if v.None? {
        return Fail(BadValue(name.value));
      }
      return Ok(d.(extras := d.extras + [(name.value, v.value)]));
    }
    r := Ok(d);
  }

  method ApplyItem(dx: Dialect, section: Kind, draft: Draft, current: Option<nat>, key: string, val: string)
    returns (r: Outcome<Draft>)
    requires CurrentIs(section, draft, current)
    ensures r == Put(dx, section, draft, key, val)
  {
    if HasControl(val) {
      return Fail(ControlCharacter(section, key));
    }
    match section {
      case Interface =>
        r := ApplyDeviceItem(dx, draft, key, val);
      case PeerSection =>
        var put := ApplyPeerItem(dx, draft.peers[current.value], key, val);
        if put.Fail? {
          return Fail(put.error);
        }
        r := Ok(draft.(peers := draft.peers[current.value := put.value]));
      case Other =>
        r := Ok(draft);
    }
  }

  /** What the lines before `i` have come to. */
  ghost predicate FoldedTo(dx: Dialect, lines: seq<string>, i: nat, o: Outcome<Fold>)
    requires i <= |lines|
  {
    FoldLines(dx, lines[..i]) == o
  }

  /** The current peer as the source keeps it: none, or the last one. */
  predicate CurrentIs(section: Kind, draft: Draft, current: Option<nat>) {
    if section == PeerSection then draft.peers != [] && current == Some(|draft.peers| - 1) else current == None
  }

  method ApplyLine(dx: Dialect, section: Kind, draft: Draft, current: Option<nat>, line: Line)
    returns (r: Outcome<Fold>, current': Option<nat>)
    requires CurrentIs(section, draft, current)
    ensures r == Next(dx, Fold(section, draft), line)
    ensures r.Ok? ==> CurrentIs(r.value.kind, r.value.draft, current')
  {
    current' := current;
    match line {
      case Skipped =>
        r := Ok(Fold(section, draft));
      case Header(kind) =>
        if kind == PeerSection {
          var peers := draft.peers + [NEW_PEER];
          return Ok(Fold(kind, draft.(peers := peers))), Some(|peers| - 1);
        }
        return Ok(Fold(kind, draft)), None;
      case Item(key, val) =>
        var put := ApplyItem(dx, section, draft, current, key, val);
        if put.Fail? {
          return Fail(put.error), current;
        }
        r := Ok(Fold(section, put.value));
        ItemKeepsPeers(dx, section, draft, key, val);
    }
  }

  lemma ItemKeepsPeers(dx: Dialect, section: Kind, draft: Draft, key: string, val: string)
    requires Put(dx, section, draft, key, val).Ok?
    ensures |Put(dx, section, draft, key, val).value.peers| == |draft.peers|
  {
  }

  method NextLine(dx: Dialect, lines: seq<string>, i: nat, section: Kind, draft: Draft, current: Option<nat>)
    returns (r: Outcome<Fold>, current': Option<nat>)
    requires i < |lines| && FoldedTo(dx, lines, i, Ok(Fold(section, draft))) && CurrentIs(section, draft, current)
    ensures FoldedTo(dx, lines, i + 1, r)
    ensures r.Ok? ==> CurrentIs(r.value.kind, r.value.draft, current')
  {
    FoldNext(dx, lines, i, Fold(section, draft));
    r, current' := ApplyLine(dx, section, draft, current, ReadLine(dx, lines[i]));
  }

  /** The line loop. */
  method ReadConfig(dx: Dialect, lines: seq<string>) returns (r: Outcome<Draft>)
    ensures r == match FoldLines(dx, lines)
                 case Fail(e) => Fail(e)
                 case Ok(f) => Ok(f.draft)
  {
    var section, draft := Other, EMPTY;
    var current: Option<nat> := None;
    for i := 0 to |lines|
      invariant FoldedTo(dx, lines, i, Ok(Fold(section, draft)))
      invariant CurrentIs(section, draft, current)
    {
      var next;
      next, current := NextLine(dx, lines, i, section, draft, current);
      if next.Fail? {
        FoldStops(dx, lines, i + 1);
        return Fail(next.error);
      }
      section, draft := next.value.kind, next.value.draft;
    }
    assert lines[..|lines|] == lines;
    r := Ok(draft);
  }

  lemma FoldNext(dx: Dialect, lines: seq<string>, i: nat, f: Fold)
    requires i < |lines| && FoldLines(dx, lines[..i]) == Ok(f)
    ensures FoldLines(dx, lines[..i + 1]) == Next(dx, f, ReadLine(dx, lines[i]))
  {
    assert lines[..i + 1][..i] == lines[..i];
  }

  lemma {:induction false} FoldStops(dx: Dialect, lines: seq<string>, i: nat)
    requires i <= |lines|
    ensures FoldLines(dx, lines[..i]).Fail? ==> FoldLines(dx, lines) == FoldLines(dx, lines[..i])
  {
    if i == |lines| {
      assert lines[..i] == lines;
    } else {
      var front := lines[..|lines| - 1];
      FoldStops(dx, front, i);
      assert front[..i] == lines[..i];
    }
  }

  lemma {:induction false} WrittenConcat(a: seq<Setting>, b: seq<Setting>)
    ensures Written(a + b) == Written(a) + Written(b)
  {
    if b == [] {
      assert a + b == a;
    } else {
      var front := b[..|b| - 1];
      assert (a + b)[..|a + b| - 1] == a + front;
      WrittenConcat(a, front);
    }
  }

  function LineOf(key: string, val: string): string {
    key + "=" + val + "\n"
  }

  lemma WrittenOne(key: string, val: string)
    ensures Written([(key, val)]) == LineOf(key, val)
  {
    assert [(key, val)][..0] == [];
  }

  method WriteIf(key: string, val: string) returns (text: string)
    ensures text == Written(SettingIf(key, val))
  {
    text := "";
    if val != "" {
      WrittenOne(key, val);
      text := LineOf(key, val);
    }
  }

  method WriteSettings(settings: seq<Setting>) returns (text: string)
    ensures text == Written(settings)
  {
    text := "";
    for i := 0 to |settings|
      invariant text == Written(settings[..i])
    {
      assert settings[..i + 1][..i] == settings[..i];
      text := text + LineOf(settings[i].0, settings[i].1);
    }
    assert settings[..|settings|] == settings;
  }

  method WriteAllowed(ips: seq<string>) returns (text: string)
    ensures text == Written(AllowedSettings(ips))
  {
    text := "";
    for i := 0 to |ips|
      invariant text == Written(AllowedSettings(ips[..i]))
    {
      assert ips[..i + 1][..i] == ips[..i];
      WrittenConcat(AllowedSettings(ips[..i]), [("allowed_ip", ips[i])]);
      WrittenOne("allowed_ip", ips[i]);
      text := text + LineOf("allowed_ip", ips[i]);
    }
    assert ips[..|ips|] == ips;
  }

  lemma WrittenFive(a: seq<Setting>, b: seq<Setting>, c: seq<Setting>, d: seq<Setting>, e: seq<Setting>)
    ensures Written(a + b + c + d + e) == Written(a) + Written(b) + Written(c) + Written(d) + Written(e)
  {
    WrittenConcat(a, b);
    WrittenConcat(a + b, c);
    WrittenConcat(a + b + c, d);
    WrittenConcat(a + b + c + d, e);
  }

  method WritePeer(p: Peer) returns (text: string)
    ensures text == Written(PeerSettings(p))
  {
    var psk := WriteIf("preshared_key", p.psk);
    var endpoint := WriteIf("endpoint", p.endpoint);
    var keepalive := WriteIf("persistent_keepalive_interval", p.keepalive);
    var allowed := WriteAllowed(p.allowed);
    WrittenFive([("public_key", p.pub)], SettingIf("preshared_key", p.psk), SettingIf("endpoint", p.endpoint),
      SettingIf("persistent_keepalive_interval", p.keepalive), [("replace_allowed_ips", "true")]);
    WrittenOne("public_key", p.pub);
    WrittenOne("replace_allowed_ips", "true");
    WrittenConcat(PeerHead(p), AllowedSettings(p.allowed));
    text := LineOf("public_key", p.pub) + psk + endpoint + keepalive + LineOf("replace_allowed_ips", "true") + allowed;
  }

  ghost predicate WrittenUpTo(ps: seq<Peer>, i: nat, text: string)
    requires i <= |ps|
  {
    text == Written(PeersSettings(ps[..i]))
  }

  method WritePeers(ps: seq<Peer>) returns (r: Outcome<string>)
    ensures r == if KeyMissing(ps) < |ps| then Fail(MissingPublicKey(KeyMissing(ps)))
                 else Ok(Written(PeersSettings(ps)))
  {
    var text := "";
    for i := 0 to |ps|
      invariant WrittenUpTo(ps, i, text)
      invariant forall k :: 0 <= k < i ==> ps[k].pub != ""
    {
      if ps[i].pub == "" {
        return Fail(MissingPublicKey(i));
      }
      text := WriteNext(ps, i, text);
    }
    assert ps[..|ps|] == ps;
    r := Ok(text);
  }

  method WriteNext(ps: seq<Peer>, i: nat, text: string) returns (more: string)
    requires i < |ps| && WrittenUpTo(ps, i, text)
    ensures WrittenUpTo(ps, i + 1, more)
  {
    var one := WritePeer(ps[i]);
    WrittenPeers(ps, i);
    more := text + one;
  }

  lemma WrittenPeers(ps: seq<Peer>, i: nat)
    requires i < |ps|
    ensures Written(PeersSettings(ps[..i + 1])) == Written(PeersSettings(ps[..i])) + Written(PeerSettings(ps[i]))
  {
    assert ps[..i + 1][..i] == ps[..i];
    WrittenConcat(PeersSettings(ps[..i]), PeerSettings(ps[i]));
  }

  method WriteDevice(d: Draft) returns (text: string)
    ensures text == Written(DeviceHead(d) + d.extras)
  {
    var listen := WriteIf("listen_port", d.listen);
    var extras := WriteSettings(d.extras);
    WrittenFive(
      [("replace_peers", "true")], [("private_key", d.priv)], SettingIf("listen_port", d.listen), d.extras, []);
    assert DeviceHead(d) + d.extras
        == [("replace_peers", "true")] + [("private_key", d.priv)] + SettingIf("listen_port", d.listen) + d.extras + [];
    WrittenOne("replace_peers", "true");
    WrittenOne("private_key", d.priv);
    text := LineOf("replace_peers", "true") + LineOf("private_key", d.priv) + listen + extras;
  }

  method ParseToUAPI(dx: Dialect, cfg: string) returns (r: Outcome<string>)
    ensures r == Parsed(dx, cfg)
  {
    var read := ReadConfig(dx, Split(cfg, '\n'));
    if read.Fail? {
      return Fail(read.error);
    }
    var d := read.value;
    if d.priv == "" {
      return Fail(MissingPrivateKey);
    }
    var device := WriteDevice(d);
    if |d.peers| == 0 {
      return Fail(NoPeers);
    }
    var peers := WritePeers(d.peers);
    if peers.Fail? {
      return Fail(peers.error);
    }
    WrittenConcat(DeviceHead(d) + d.extras, PeersSettings(d.peers));
    r := Ok(device + peers.value);
  }
}
