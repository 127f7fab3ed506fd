/** The station's configuration string for the supplicant. */
module WpaConfig {
  import opened Text
  import opened WpaNames

  const CFG_STR_LEN: nat := 384

  type octet = n: int | 0 <= n < 256
  type Mac = s: seq<octet> | |s| == 6 witness [0, 0, 0, 0, 0, 0]

  /** passphrase is the C string and keyLen the separate length field. */
  datatype StaCfg = StaCfg(ssid: string, passphrase: string, keyLen: nat, akm: set<nat>,
                           pairwise: set<nat>, group: set<nat>, mfpr: bool, bssid: Mac)

  // ---------------------------------------------------------------- what the string says

  const NONE: nat := 0
  const PSK_SHA256: nat := 7
  const SAE: nat := 9
  const OWE: nat := 17
  const Supported: set<nat> := {NONE, PSK, PSK_SHA256, SAE, OWE}
  const TkipCcmp: set<nat> := {1, 2}

  /** The suites asked for, or a choice by the key's length; unsupported ones are removed. */
  function Akm(c: StaCfg): set<nat> {
    if c.akm == {} then (if c.keyLen < 8 then {NONE} else {PSK, PSK_SHA256, SAE})
    else if c.akm == {PRE_RSN} then {NONE}
    else c.akm * Supported
  }

  predicate RsnOnly(c: StaCfg) { c.akm != {} && PRE_RSN !in c.akm }

  predicate HasCiphers(c: StaCfg) { Akm(c) * {PSK, SAE, OWE} != {} }

  function Choose(wanted: set<nat>, supported: set<nat>): set<nat> {
    if wanted == {} then supported else wanted * supported
  }

  function CipherField(name: string, ciphers: set<nat>): string {
    if ciphers == TkipCcmp then "" else name + Listed(CipherTable(), ciphers, 0) + ";"
  }

  function Head(c: StaCfg): string {
    "ssid \"" + c.ssid + "\";" + (if RsnOnly(c) then "proto RSN;" else "")
    + ("key_mgmt" + Listed(AkmTable(), Akm(c), 0) + ";")
  }

  function Ciphers(c: StaCfg, supported: set<nat>): string {
    if HasCiphers(c)
    then CipherField("pairwise", Choose(c.pairwise, supported)) + CipherField("group", Choose(c.group, supported))
    else ""
  }

  function Key(c: StaCfg): string {
    if NONE in Akm(c) && c.keyLen in {5, 13, 16} then "wep_key0 \"" + c.passphrase + "\";auth_alg OPEN SHARED;"
    else if Akm(c) * {PSK, SAE} != {} then "psk \"" + c.passphrase + "\";"
    else ""
  }

  function Keys(c: StaCfg): string {
    if c.keyLen > 0 || OWE in Akm(c)
    then Key(c) + (if c.mfpr then "ieee80211w 2;" else "ieee80211w 1;")
    else ""
  }

  function HexDigit(n: nat): char
    requires n < 16
  {
    if n < 10 then '0' + n as char else 'a' + (n - 10) as char
  }

  function Hex(b: octet): string { [HexDigit(b / 16), HexDigit(b % 16)] }

  function Bssid(m: Mac): string {
    if m[0] == 0 && m[1] == 0 && m[2] == 0 then ""
    else
      "bssid " + Hex(m[0]) + ":" + Hex(m[1]) + ":" + Hex(m[2]) + ":"
      + Hex(m[3]) + ":" + Hex(m[4]) + ":" + Hex(m[5]) + ";"
  }

  function Tail(c: StaCfg): string { Bssid(c.bssid) + "scan_ssid 1;" }

  function ConfigText(c: StaCfg, supported: set<nat>): string {
    Head(c) + Ciphers(c, supported) + Keys(c) + Tail(c)
  }

  /** Some suite is left, and some cipher of each kind where ciphers matter. */
  predicate Usable(c: StaCfg, supported: set<nat>) {
    && Akm(c) != {}
    && (HasCiphers(c) ==> Choose(c.pairwise, supported) != {} && Choose(c.group, supported) != {})
  }

  // ---------------------------------------------------------------- writing it

  /** cfg_str, ptr as an index into it, and the space cfg_str_len says is left. */
  class Writer {
    const buf: array<char>
    var ptr: nat
    var left: nat

    predicate Valid() reads this { buf.Length == CFG_STR_LEN + 1 && ptr + left == CFG_STR_LEN }

    ghost function Written(): string
      requires Valid()
      reads this, buf
    {
      buf[..ptr]
    }

    constructor ()
      ensures Valid() && fresh(buf) && Written() == ""
    {
      buf := new char[CFG_STR_LEN + 1](_ => NUL);
      ptr, left := 0, CFG_STR_LEN;
    }

    /** A checked memcpy. */
    method Copy(s: string) returns (ok: bool)
      requires Valid()
      modifies this, buf
      ensures Valid() && ok == (old(ptr) + |s| <= CFG_STR_LEN)
      ensures Written() == old(Written()) + (if ok then s else "")
    {
      ok := left >= |s|;
      if ok {
        CopyTo(buf, ptr, s);
        ptr, left := ptr + |s|, left - |s|;
      }
    }

    /** snprintf, which needs room for a NUL. */
    method Print(s: string) returns (ok: bool)
      requires Valid()
      modifies this, buf
      ensures Valid() && ok == (old(ptr) + |s| < CFG_STR_LEN)
      ensures Written() == old(Written()) + (if ok then s else "")
    {
      ok := |s| < left;
      if left > 0 {
        CopyTo(buf, ptr, (if ok then s else s[..left - 1]) + [NUL]);
      }
      if ok {
        ptr, left := ptr + |s|, left - |s|;
      }
    }

    /** A keyword and the names of its flags. */
    method Names(keyword: string, table: seq<string>, flags: set<nat>) returns (ok: bool)
      requires Valid()
      modifies this, buf
      ensures Valid()
      ensures ok == (old(ptr) + |keyword + Listed(table, flags, 0) + ";"| < CFG_STR_LEN)
      ensures ok ==> Written() == old(Written()) + (keyword + Listed(table, flags, 0) + ";")
    {
      hide Listed;
      ghost var t := Written();
      ok := Copy(keyword);
      if ok {
        ghost var b := buf[..];
        var p := ptr;
        var res := PrintNames(table, flags, buf, p, left);
        ok := res >= 0;
        if ok {
          ptr, left := ptr + res, left - res;
          ghost var s := Listed(table, flags, 0) + ";";
          assert buf[p..p + res] == s by {
            assert buf[p..p + res] == (s + [NUL])[..res];
          }
          assert buf[..ptr] == buf[..p] + buf[p..ptr];
        }
      }
    }

    /** The SSID and the key-management suites. */
    method WriteHead(c: StaCfg) returns (ok: bool)
      requires Valid() && ptr == 0
      modifies this, buf
      ensures Valid() && ok == (|Head(c)| < CFG_STR_LEN)
      ensures ok ==> Written() == Head(c)
    {
      hide Listed, AkmTable, Akm;
      ok := Copy("ssid \"" + c.ssid + "\";");
      if ok && RsnOnly(c) {
        ok := Print("proto RSN;");
      }
      if ok {
        ok := Names("key_mgmt", AkmTable(), Akm(c));
      }
    }

    method WriteCipher(name: string, ciphers: set<nat>) returns (ok: bool)
      requires Valid() && left > 0
      modifies this, buf
      ensures Valid() && ok == (old(ptr) + |CipherField(name, ciphers)| < CFG_STR_LEN)
      ensures ok ==> Written() == old(Written()) + CipherField(name, ciphers)
    {
      hide Listed, CipherTable;
      ok := true;
      if ciphers != TkipCcmp {
        ok := Names(name, CipherTable(), ciphers);
      }
    }

    method WriteCiphers(c: StaCfg, supported: set<nat>) returns (ok: bool)
      requires Valid() && left > 0 && HasCiphers(c)
      modifies this, buf
      ensures Valid() && ok == (old(ptr) + |Ciphers(c, supported)| < CFG_STR_LEN)
      ensures ok ==> Written() == old(Written()) + Ciphers(c, supported)
    {
      hide CipherField, HasCiphers, Choose;
      ok := WriteCipher("pairwise", Choose(c.pairwise, supported));
      if ok {
        ok := WriteCipher("group", Choose(c.group, supported));
      }
    }

    method WriteKey(c: StaCfg) returns (ok: bool)
      requires Valid() && left > 0
      modifies this, buf
      ensures Valid() && ok == (old(ptr) + |Key(c)| < CFG_STR_LEN)
      ensures ok ==> Written() == old(Written()) + Key(c)
    {
      hide Akm;
      ok := true;
      if NONE in Akm(c) && (c.keyLen == 5 || c.keyLen == 13 || c.keyLen == 16) {
        ok := Print("wep_key0 \"" + c.passphrase + "\";auth_alg OPEN SHARED;");
      } else if Akm(c) * {PSK, SAE} != {} {
        ok := Print("psk \"" + c.passphrase + "\";");
      }
    }

    method WriteKeys(c: StaCfg) returns (ok: bool)
      requires Valid() && left > 0
      modifies this, buf
      ensures Valid() && ok == (old(ptr) + |Keys(c)| < CFG_STR_LEN)
      ensures ok ==> Written() == old(Written()) + Keys(c)
    {
      hide Akm, Key;
      ok := true;
      if c.keyLen > 0 || OWE in Akm(c) {
        ok := WriteKey(c);
        if ok {
          ok := Print(if c.mfpr then "ieee80211w 2;" else "ieee80211w 1;");
        }
      }
    }

    method WriteTail(c: StaCfg) returns (ok: bool)
      requires Valid() && left > 0
      modifies this, buf
      ensures Valid() && ok == (old(ptr) + |Tail(c)| < CFG_STR_LEN)
      ensures ok ==> Written() == old(Written()) + Tail(c)
    {
      assert c.bssid[0] == 0 && c.bssid[1] == 0 && c.bssid[2] == 0 ==> Bssid(c.bssid) == "";
      hide Bssid;
      ok := true;
      if c.bssid[0] != 0 || c.bssid[1] != 0 || c.bssid[2] != 0 {
        ok := Print(Bssid(c.bssid));
      }
      if ok {
        ok := Print("scan_ssid 1;");
      }
    }
  }

  /** wifi_wpa_sta_cfg up to the call that creates the network: the string is complete and
      terminated exactly when the configuration is usable and its text is shorter than 384
      characters; otherwise the result is an error. */
  method WpaStaCfg(c: StaCfg, supported: set<nat>) returns (ok: bool, str: array<char>)
    ensures str.Length == 385
    ensures ok <==> Usable(c, supported) && |ConfigText(c, supported)| < 384
    ensures ok ==> NUL in str[..] && str[..|ConfigText(c, supported)| + 1] == ConfigText(c, supported) + [NUL]
  {
    hide Head, Keys, Tail, Akm, HasCiphers, Choose;
    var w := new Writer();
    str := w.buf;
    if Akm(c) == {} {
      return false, str;
    }
    ok := w.WriteHead(c);
    if !ok { return; }
    if HasCiphers(c) {
      if Choose(c.pairwise, supported) == {} || Choose(c.group, supported) == {} {
        return false, str;
      }
      ok := w.WriteCiphers(c, supported);
      if !ok { return; }
    }
    ok := w.WriteKeys(c);
    if !ok { return; }
    ok := w.WriteTail(c);
    if !ok { return; }
    str[w.ptr] := NUL;
  }

  lemma {:induction false} AkmSupported(c: StaCfg)
    ensures Akm(c) <= Supported
  {
  }

  lemma {:induction false} SupportedFlags(a: set<nat>)
    requires a <= Supported && PSK_SHA256 !in a
    ensures AllRecognised(a, 0)
    ensures a != {} ==> Flags(a, 0) != {}
    ensures Flags(a, 0) == a + (if PSK in a then {PRE_RSN} else {})
  {
    forall j | j in a ensures Recognised(j) && j < 21 {
      assert j in Supported;
    }
  }

  lemma {:induction false} UnreadFlags(a: set<nat>)
    requires PSK_SHA256 in a
    ensures !AllRecognised(a, 0)
  {
    assert !Recognised(PSK_SHA256);
  }

  lemma {:induction false} SuitesRead(a: set<nat>)
    requires a <= Supported && a != {}
    ensures Parse(Listed(AkmTable(), a, 0)) ==
            if PSK_SHA256 in a then Bad else Good(a + (if PSK in a then {PRE_RSN} else {}))
  {
    hide Parse, Listed, AkmTable;
    ParsePrinted(a);
    if PSK_SHA256 in a {
      UnreadFlags(a);
    } else {
      SupportedFlags(a);
    }
    hide Flags, AllRecognised;
  }

  /** What reading the key_mgmt list of a configuration back gives: an error if it names
      WPA-PSK-SHA256, which the parser does not know, and otherwise the configured suites, with PRE_RSN
      exactly when PSK is among them. */
  lemma {:induction false} ConfiguredSuites(c: StaCfg)
    requires Akm(c) != {}
    ensures Parse(Listed(AkmTable(), Akm(c), 0)) ==
            if PSK_SHA256 in Akm(c) then Bad else Good(Akm(c) + (if PSK in Akm(c) then {PRE_RSN} else {}))
  {
    AkmSupported(c);
    SuitesRead(Akm(c));
    hide Akm, Parse, Listed;
  }

  /** With no suites asked for and a key of at least 8 characters, the list cannot be read back. */
  lemma {:induction false} DefaultSuitesUnread(c: StaCfg)
    requires c.akm == {} && c.keyLen >= 8
    ensures Parse(Listed(AkmTable(), Akm(c), 0)) == Bad
  {
    assert PSK_SHA256 in Akm(c);
    ConfiguredSuites(c);
    hide Parse, Listed;
  }
}
