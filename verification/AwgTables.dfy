/** The device keys of AmneziaWG (internal/awgconfig/awgconfig.go). */
module AwgTables {

  import opened Text
  import opened Uapi
  import opened UapiProofs

  const PLAIN: set<string> :=
    {"jc", "jmin", "jmax", "s1", "s2", "s3", "s4", "h1", "h2", "h3", "h4", "i1", "i2", "i3", "i4", "i5"}

  const EXTENDED: map<string, string> := map[
    "headerprotectionkey" := "header_protection_key",
    "contentpaddingaddition" := "content_padding_addition",
    "rekeyaftertime" := "rekey_after_time",
    "rekeytimeout" := "rekey_timeout",
    "rejectaftertime" := "reject_after_time",
    "keepalivetimeout" := "keepalive_timeout",
    "maxhandshakeattempts" := "max_handshake_attempts",
    "randomtrailers" := "random_trailers",
    "disablecookies" := "disable_cookies"]

  const REFUSED: set<string> := {"j1", "j2", "j3", "itime"}

  lemma PlainNames(key: string)
    requires key in PLAIN
    ensures CleanKey(key) && |key| < 10
  {
    assert CleanKey("jc") && CleanKey("jmin") && CleanKey("jmax");
    assert CleanKey("s1") && CleanKey("s2") && CleanKey("s3") && CleanKey("s4");
    assert CleanKey("h1") && CleanKey("h2") && CleanKey("h3") && CleanKey("h4");
    assert CleanKey("i1") && CleanKey("i2") && CleanKey("i3") && CleanKey("i4") && CleanKey("i5");
  }

  predicate ExtendedName(name: string) {
    CleanKey(name) && |name| > 11 && name != "replace_peers"
  }

  lemma HeaderNames()
    ensures ExtendedName("header_protection_key") && ExtendedName("content_padding_addition")
  {
  }

  lemma TimerNames()
    ensures ExtendedName("rekey_after_time") && ExtendedName("rekey_timeout")
    ensures ExtendedName("reject_after_time") && ExtendedName("keepalive_timeout")
  {
  }

  lemma OtherNames()
    ensures ExtendedName("max_handshake_attempts") && ExtendedName("random_trailers") && ExtendedName("disable_cookies")
  {
  }

  lemma ExtendedNames(key: string)
    requires key in EXTENDED
    ensures ExtendedName(EXTENDED[key])
  {
    HeaderNames();
    TimerNames();
    OtherNames();
  }

  /** The tables translate no key to a keyword of the protocol. */
  lemma TablesAreSound(lower: char -> char, decode: string -> Option<seq<Byte>>)
    ensures SoundTables(Dialect(lower, decode, PLAIN, EXTENDED, REFUSED))
  {
    forall key | key in PLAIN ensures ExtraName(key) {
      PlainNames(key);
    }
    forall key | key in EXTENDED ensures ExtraName(EXTENDED[key]) {
      ExtendedNames(key);
    }
  }
}
