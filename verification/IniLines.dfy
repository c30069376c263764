/** What the lines and values of an INI are read as, said of their spelling. */
module IniLines {

  import opened Text
  import opened Uapi

  // ---------------------------------------------------------------- keys

  function Nibble(c: char): (d: nat)
    requires IsHex(c)
    ensures d < 16
  {
    if c <= '9' then c as int - '0' as int else c as int - 'a' as int + 10
  }

  /** The bytes pairs of hex digits stand for, the high digit first. */
  function Unhex(s: string): (b: seq<Byte>)
    requires |s| % 2 == 0 && forall c :: c in s ==> IsHex(c)
  {
    if s == "" then [] else [16 * Nibble(s[0]) + Nibble(s[1])] + Unhex(s[2..])
  }

  lemma {:induction false} UnhexLast(s: string, high: char, low: char)
    requires |s| % 2 == 0 && (forall c :: c in s ==> IsHex(c)) && IsHex(high) && IsHex(low)
    ensures Unhex(s + [high, low]) == Unhex(s) + [16 * Nibble(high) + Nibble(low)]
  {
    if s == "" {
      assert s + [high, low] == [high, low] && [high, low][2..] == "";
    } else {
      assert (s + [high, low])[2..] == s[2..] + [high, low];
      UnhexLast(s[2..], high, low);
    }
  }

  /** Hex is read back as the bytes it was written from. */
  lemma {:induction false} HexReadsBack(b: seq<Byte>)
    ensures Unhex(Hex(b)) == b
  {
    if b != [] {
      var last := b[|b| - 1];
      HexReadsBack(b[..|b| - 1]);
      UnhexLast(Hex(b[..|b| - 1]), HexDigit(last / 16), HexDigit(last % 16));
    }
  }

  /** A key is written as the hex of the 32 bytes it stands for, and refused when it stands for none or
      for more or fewer. */
  lemma KeyIsItsBytes(dx: Dialect, before: string, s: string, after: string)
    requires Only(before, IsSpace) && Trimmed(s, IsSpace) && Only(after, IsSpace)
    ensures KeyHex(dx, before + s + after).Some? <==> dx.decode(s).Some? && |dx.decode(s).value| == 32
    ensures KeyHex(dx, before + s + after).Some? ==> Unhex(KeyHex(dx, before + s + after).value) == dx.decode(s).value
  {
    TrimTakesTheEnds(before, s, after, IsSpace);
    if dx.decode(s).Some? {
      HexReadsBack(dx.decode(s).value);
    }
  }

  // ---------------------------------------------------------------- lines

  /** The parts of a setting's line, spaces between and around them. */
  function SettingLine(key: string, gap: string, more: string, val: string): string {
    key + gap + "=" + more + val
  }

  lemma SettingLineIsTrimmed(key: string, gap: string, more: string, val: string)
    requires key != "" && Trimmed(key, IsSpace) && Trimmed(val, IsSpace) && (val == "" ==> more == "")
    ensures var line := SettingLine(key, gap, more, val); Trimmed(line, IsSpace) && line != "" && line[0] == key[0]
  {
    var line := SettingLine(key, gap, more, val);
    assert line[|line| - 1] == if val == "" then '=' else val[|val| - 1];
  }

  /** A setting: the key in lower case and the value, up to the first equals sign and after it. */
  lemma SettingIsRead(
      dx: Dialect, before: string, key: string, gap: string, more: string, val: string, after: string)
    requires Only(before, IsSpace) && Only(gap, IsSpace) && Only(more, IsSpace) && Only(after, IsSpace)
    requires key != "" && Trimmed(key, IsSpace) && '=' !in key && key[0] !in {'#', ';', '['}
    requires Trimmed(val, IsSpace) && (val == "" ==> more == "")
    ensures ReadLine(dx, before + SettingLine(key, gap, more, val) + after) == Item(MapChars(key, dx.lower), val)
  {
    var line := SettingLine(key, gap, more, val);
    SettingLineIsTrimmed(key, gap, more, val);
    TrimTakesTheEnds(before, line, after, IsSpace);
    SettingLineSplits(key, gap, more, val);
    SettingIsReadAt(dx, before + line + after, line, |key + gap|, key, val);
  }

  lemma SettingLineSplits(key: string, gap: string, more: string, val: string)
    requires Trimmed(key, IsSpace) && Only(gap, IsSpace) && Only(more, IsSpace) && Trimmed(val, IsSpace) && '=' !in key
    ensures
      var line, i := SettingLine(key, gap, more, val), |key + gap|;
      i == IndexOf(line, '=') < |line| && TrimSpace(line[..i]) == key && TrimSpace(line[i + 1..]) == val
  {
    assert '=' !in gap;
    SplitsAt(key + gap, '=', more + val);
    assert SettingLine(key, gap, more, val) == (key + gap) + ['='] + (more + val);
    TrimTakesTheEnds("", key, gap, IsSpace);
    assert "" + key + gap == key + gap;
    TrimTakesTheEnds(more, val, "", IsSpace);
    assert more + val + "" == more + val;
  }

  lemma SettingIsReadAt(dx: Dialect, raw: string, line: string, i: nat, key: string, val: string)
    requires line == TrimSpace(raw) && line != "" && line[0] !in {'#', ';', '['}
    requires i == IndexOf(line, '=') < |line| && TrimSpace(line[..i]) == key && TrimSpace(line[i + 1..]) == val
    ensures ReadLine(dx, raw) == Item(MapChars(key, dx.lower), val)
  {
  }

  predicate AroundAName(c: char) {
    c in {'[', ']', ' ', '\t'}
  }

  /** A header names a section between brackets, in any case, blanks and brackets around it. */
  lemma HeaderIsRead(dx: Dialect, before: string, left: string, name: string, right: string, after: string)
    requires Only(before, IsSpace) && Only(after, IsSpace)
    requires Only(left, AroundAName) && Trimmed(name, AroundAName) && Only(right, AroundAName)
    requires left != "" && left[0] == '[' && right != "" && right[|right| - 1] == ']'
    ensures
      var word := MapChars(name, dx.lower);
      ReadLine(dx, before + (left + name + right) + after)
      == Header(if word == "interface" then Interface else if word == "peer" then PeerSection else Other)
  {
    var line := left + name + right;
    assert line[0] == '[' && line[|line| - 1] == ']';
    TrimTakesTheEnds(before, line, after, IsSpace);
    TrimTakesTheEnds(left, name, right, AroundAName);
    SameTrim(line, IsBracket, AroundAName);
  }

  /** Blank lines, comments and lines without an equals sign that are no header say nothing. */
  lemma NothingIsRead(dx: Dialect, before: string, line: string, after: string)
    requires Only(before, IsSpace) && Trimmed(line, IsSpace) && Only(after, IsSpace)
    requires line == "" || line[0] in {'#', ';'} || ('=' !in line && !(line[0] == '[' && line[|line| - 1] == ']'))
    ensures ReadLine(dx, before + line + after) == Skipped
  {
    TrimTakesTheEnds(before, line, after, IsSpace);
  }

  /** A value with a control character other than a tab is refused in every section. */
  lemma ControlIsRefused(dx: Dialect, kind: Kind, d: Draft, key: string, val: string, i: nat)
    requires i < |val| && val[i] != '\t' && (val[i] as int < 32 || 127 <= val[i] as int < 160)
    ensures Put(dx, kind, d, key, val) == Fail(ControlCharacter(kind, key))
  {
    assert IsControl(val[i]);
  }

  // ---------------------------------------------------------------- lists

  lemma SplitFirst(a: string, sep: char, rest: string)
    requires sep !in a
    ensures Split(a + [sep] + rest, sep) == [a] + Split(rest, sep)
    ensures Split(a, sep) == [a]
  {
    SplitsAt(a, sep, rest);
  }

  lemma {:induction false} FilledConcat(a: seq<string>, b: seq<string>)
    ensures Filled(a + b) == Filled(a) + Filled(b)
  {
    if b == [] {
      assert a + b == a;
    } else {
      assert (a + b)[..|a + b| - 1] == a + b[..|b| - 1];
      FilledConcat(a, b[..|b| - 1]);
    }
  }

  /** A list of addresses is read part by part: each without the spaces around it, a blank one not at
      all. */
  lemma AddressesByCommas(before: string, a: string, after: string, rest: string)
    requires Only(before, IsSpace) && Trimmed(a, IsSpace) && Only(after, IsSpace) && ',' !in a
    ensures AddressesIn(before + a + after) == if a == "" then [] else [a]
    ensures AddressesIn(before + a + after + "," + rest) == AddressesIn(before + a + after) + AddressesIn(rest)
  {
    var part := before + a + after;
    TrimTakesTheEnds(before, a, after, IsSpace);
    assert ',' !in part;
    SplitFirst(part, ',', rest);
    FilledConcat([part], Split(rest, ','));
    assert [part][..0] == [];
  }

  // ---------------------------------------------------------------- numbers

  /** A number is read as itself where it fits 32 bits. */
  lemma NumberIsRead(n: nat)
    ensures ParseUint32(Decimal(n)) == if n < 0x1_0000_0000 then Some(n) else None
  {
    DecimalReadsBack(n);
  }

  /** A number, or two of them in order with a dash between, all within 32 bits. */
  lemma RangeIsRead(lo: nat, hi: nat)
    ensures InRange(Decimal(lo)) <==> lo < 0x1_0000_0000
    ensures InRange(Decimal(lo) + "-" + Decimal(hi)) <==> lo <= hi < 0x1_0000_0000
  {
    NumberIsRead(lo);
    NumberIsRead(hi);
    assert '-' !in Decimal(lo);
    SplitsAt(Decimal(lo), '-', Decimal(hi));
  }

  /** Switches: on or true, off or false, in any case, and every number but zero is on. */
  lemma SwitchIsRead(dx: Dialect, before: string, word: string, after: string, n: nat)
    requires Only(before, IsSpace) && Trimmed(word, IsSpace) && Only(after, IsSpace)
    ensures MapChars(word, dx.lower) in {"on", "true"} ==> ParseBool(dx, before + word + after) == Some(true)
    ensures MapChars(word, dx.lower) in {"off", "false"} ==> ParseBool(dx, before + word + after) == Some(false)
    ensures MapChars(word, dx.lower) !in {"on", "true", "off", "false"} && word == Decimal(n) ==>
      ParseBool(dx, before + word + after) == if n < 0x1_0000_0000 then Some(n != 0) else None
  {
    TrimTakesTheEnds(before, word, after, IsSpace);
    NumberIsRead(n);
  }

  function AsciiLower(c: char): char {
    if 'A' <= c <= 'Z' then c - 'A' + 'a' else c
  }

  /** The word that turns the keepalive off, in any case. */
  lemma OffInAnyCase(val: string)
    ensures IsOff(val) <==> MapChars(val, AsciiLower) == "off"
  {
    var low := MapChars(val, AsciiLower);
    if low == "off" {
      assert |val| == 3 && low[0] == 'o' && low[1] == 'f' && low[2] == 'f';
    }
  }

  /** What an extended key makes of its value: the hex of a key, a switch spelled out, or a range as it
      is. */
  lemma ExtendedIsRead(dx: Dialect, key: string, val: string)
    requires key in dx.extended
    ensures key == "headerprotectionkey" ==> DeviceValue(dx, key, val) == KeyHex(dx, val)
    ensures key in {"randomtrailers", "disablecookies"} ==>
      && (ParseBool(dx, val) == Some(true) <==> DeviceValue(dx, key, val) == Some("true"))
      && (ParseBool(dx, val) == Some(false) <==> DeviceValue(dx, key, val) == Some("false"))
      && (ParseBool(dx, val) == None <==> DeviceValue(dx, key, val) == None)
    ensures key !in {"headerprotectionkey", "randomtrailers", "disablecookies"} ==>
      DeviceValue(dx, key, val) == if InRange(val) then Some(val) else None
  {
    assert "true" != "false";
  }
}
