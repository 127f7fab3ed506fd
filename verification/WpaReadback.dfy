/** What the configuration string means: it is split into fields at the ';' outside quotes, and each field
    into a keyword and a value, without looking at how it was written. */
module WpaReadback {
  import opened Text
  import opened WpaNames
  import opened WpaConfig

  // ---------------------------------------------------------------- the reader

  /** The fields of a text; `cur` is the part of the current one that has been read. */
  function Split(s: string, quoted: bool, cur: string): seq<string> {
    if s == "" then (if cur == "" then [] else [cur])
    else if s[0] == ';' && !quoted then [cur] + Split(s[1..], false, "")
    else Split(s[1..], if s[0] == '\"' then !quoted else quoted, cur + [s[0]])
  }

  function Fields(s: string): seq<string> { Split(s, false, "") }

  /** A field's value stands after its first space. */
  function Keyword(f: string): string { Until(f, ' ') }

  function FieldValue(f: string): string { if |Keyword(f)| < |f| then f[|Keyword(f)| + 1..] else "" }

  /** The values given for a keyword, in order. */
  function Values(fs: seq<string>, keyword: string): seq<string> {
    if fs == [] then []
    else (if Keyword(fs[0]) == keyword then [FieldValue(fs[0])] else []) + Values(fs[1..], keyword)
  }

  function CipherOf(name: string): int {
    if name == "WEP40" then 0
    else if name == "TKIP" then 1
    else if name == "CCMP" then 2
    else if name == "WEP104" then 3
    else if name == "WPI_SMS4" then 4
    else if name == "AES-128-CMAC" then 5
    else if name == "GCMP" then 6
    else if name == "GCMP-256" then 7
    else if name == "CCMP-256" then 8
    else if name == "BIP-GMAC-128" then 9
    else if name == "BIP-GMAC-256" then 10
    else if name == "BIP-CMAC-256" then 11
    else -1
  }

  function SuiteOf(name: string): int {
    if name == "NONE" then 0
    else if name == "WPA-EAP" then 2
    else if name == "WPA-PSK" then 3
    else if name == "FT_EAP" then 4
    else if name == "FT-PSK" then 5
    else if name == "WPA-EAP-SHA256" then 6
    else if name == "WPA-PSK-SHA256" then 7
    else if name == "TDLS" then 8
    else if name == "SAE" then 9
    else if name == "FT-SAE" then 10
    else if name == "WPA-EAP-SUITE-B" then 11
    else if name == "WPA-EAP-SUITE-B-192" then 12
    else if name == "FILS-SHA256" then 13
    else if name == "FILS-SHA384" then 14
    else if name == "FT-FILS-SHA256" then 15
    else if name == "FT-FILS-SHA384" then 16
    else if name == "OWE" then 17
    else if name == "WAPI-CERT" then 18
    else if name == "WAPI-PSK" then 19
    else if name == "DPP" then 20
    else -1
  }

  /** Exactly the ciphers of a set are named, and nothing else. */
  predicate NamesCiphers(value: string, ciphers: set<nat>) {
    && (forall w :: w in Words(value) ==> CipherOf(w) >= 0 && CipherOf(w) in ciphers)
    && (forall n :: n in ciphers && n < 12 ==> exists w :: w in Words(value) && CipherOf(w) == n)
  }

  predicate NamesSuites(value: string, suites: set<nat>) {
    && (forall w :: w in Words(value) ==> SuiteOf(w) >= 0 && SuiteOf(w) in suites)
    && (forall n :: n in suites ==> exists w :: w in Words(value) && SuiteOf(w) == n)
  }

  function HexValue(c: char): int {
    if '0' <= c <= '9' then (c - '0') as int else if 'a' <= c <= 'f' then 10 + (c - 'a') as int else -1
  }

  /** Bytes of two hexadecimal digits each, with colons between them. */
  function ReadBytes(v: string): seq<int> {
    if |v| < 2 then []
    else [16 * HexValue(v[0]) + HexValue(v[1])] + (if |v| > 2 && v[2] == ':' then ReadBytes(v[3..]) else [])
  }

  // ---------------------------------------------------------------- splitting what was joined

  /** Text without quotes, and without ';' unless it stands in quotes. */
  predicate Inert(p: string, quoted: bool) {
    forall i :: 0 <= i < |p| ==> p[i] != '\"' && (p[i] == ';' ==> quoted)
  }

  lemma {:induction false} SplitInert(p: string, rest: string, quoted: bool, cur: string)
    requires Inert(p, quoted)
    ensures Split(p + rest, quoted, cur) == Split(rest, quoted, cur + p)
    decreases |p|
  {
    var s := p + rest;
    if p == "" {
      assert s == rest && cur + p == cur;
    } else {
      assert s[0] == p[0] && s[1..] == p[1..] + rest;
      SplitInert(p[1..], rest, quoted, cur + [p[0]]);
      assert cur + [p[0]] + p[1..] == cur + p;
    }
  }

  /** One field: plain text, or plain text and a quoted part. */
  ghost predicate OneField(f: string) {
    Inert(f, false) || exists a, q :: f == a + "\"" + q + "\"" && Inert(a, false) && Inert(q, true)
  }

  lemma {:induction false} SplitChar(c: char, rest: string, quoted: bool, cur: string)
    ensures c == ';' && !quoted ==> Split([c] + rest, quoted, cur) == [cur] + Split(rest, false, "")
    ensures c == '\"' ==> Split([c] + rest, quoted, cur) == Split(rest, !quoted, cur + [c])
  {
    assert ([c] + rest)[1..] == rest;
  }

  lemma {:induction false} FieldSplit(f: string, rest: string)
    requires OneField(f)
    ensures Fields(f + ";" + rest) == [f] + Fields(rest)
  {
    hide Split;
    var tail := ";" + rest;
    assert f + ";" + rest == f + tail && tail == [';'] + rest;
    SplitChar(';', rest, false, f);
    if Inert(f, false) {
      SplitInert(f, tail, false, "");
      assert "" + f == f;
    } else {
      var a, q :| f == a + "\"" + q + "\"" && Inert(a, false) && Inert(q, true);
      QuotedSplit(a, q, tail);
    }
  }

  lemma {:induction false} QuotedSplit(a: string, q: string, tail: string)
    requires Inert(a, false) && Inert(q, true)
    ensures Split(a + "\"" + q + "\"" + tail, false, "") == Split(tail, false, a + "\"" + q + "\"")
  {
    hide Split, Inert;
    var r1 := ['\"'] + tail;
    var r2 := ['\"'] + (q + r1);
    assert a + "\"" + q + "\"" + tail == a + r2;
    SplitInert(a, r2, false, "");
    assert "" + a == a;
    SplitChar('\"', q + r1, false, a);
    SplitInert(q, r1, true, a + ['\"']);
    SplitChar('\"', tail, true, a + ['\"'] + q);
  }

  /** The fields written one after another, each followed by a ';'. */
  function Joined(fs: seq<string>): string { if fs == [] then "" else fs[0] + ";" + Joined(fs[1..]) }

  lemma {:induction false} JoinedFields(fs: seq<string>)
    requires forall i :: 0 <= i < |fs| ==> OneField(fs[i])
    ensures Fields(Joined(fs)) == fs
  {
    if fs != [] {
      FieldSplit(fs[0], Joined(fs[1..]));
      JoinedFields(fs[1..]);
    }
  }

  lemma {:induction false} JoinedAppend(a: seq<string>, b: seq<string>)
    ensures Joined(a + b) == Joined(a) + Joined(b)
  {
    if a == [] {
      assert a + b == b;
    } else {
      JoinedAppend(a[1..], b);
      assert (a + b)[0] == a[0] && (a + b)[1..] == a[1..] + b;
      assert a[0] + ";" + (Joined(a[1..]) + Joined(b)) == a[0] + ";" + Joined(a[1..]) + Joined(b);
    }
  }

  lemma {:induction false} ValuesAppend(a: seq<string>, b: seq<string>, keyword: string)
    ensures Values(a + b, keyword) == Values(a, keyword) + Values(b, keyword)
  {
    if a == [] {
      assert a + b == b;
    } else {
      ValuesAppend(a[1..], b, keyword);
      assert (a + b)[0] == a[0] && (a + b)[1..] == a[1..] + b;
    }
  }

  // ---------------------------------------------------------------- the fields of a configuration

  function ListField(name: string, table: seq<string>, flags: set<nat>): string { name + Listed(table, flags, 0) }

  function HeadFields(c: StaCfg): seq<string> {
    ["ssid \"" + c.ssid + "\""] + (if RsnOnly(c) then ["proto RSN"] else [])
    + [ListField("key_mgmt", AkmTable(), Akm(c))]
  }

  function CipherFields(name: string, ciphers: set<nat>): seq<string> {
    if ciphers == TkipCcmp then [] else [ListField(name, CipherTable(), ciphers)]
  }

  function CiphersFields(c: StaCfg, supported: set<nat>): seq<string> {
    if HasCiphers(c)
    then CipherFields("pairwise", Choose(c.pairwise, supported)) + CipherFields("group", Choose(c.group, supported))
    else []
  }

  function KeyFields(c: StaCfg): seq<string> {
    if NONE in Akm(c) && c.keyLen in {5, 13, 16} then ["wep_key0 \"" + c.passphrase + "\"", "auth_alg OPEN SHARED"]
    else if Akm(c) * {PSK, SAE} != {} then ["psk \"" + c.passphrase + "\""]
    else []
  }

  function KeysFields(c: StaCfg): seq<string> {
    if c.keyLen > 0 || OWE in Akm(c)
    then KeyFields(c) + [if c.mfpr then "ieee80211w 2" else "ieee80211w 1"]
    else []
  }

  function MacText(m: Mac): string {
    Hex(m[0]) + ":" + Hex(m[1]) + ":" + Hex(m[2]) + ":" + Hex(m[3]) + ":" + Hex(m[4]) + ":" + Hex(m[5])
  }

  function TailFields(c: StaCfg): seq<string> {
    (if Bssid(c.bssid) == "" then [] else ["bssid " + MacText(c.bssid)]) + ["scan_ssid 1"]
  }

  function AllFields(c: StaCfg, supported: set<nat>): seq<string> {
    HeadFields(c) + CiphersFields(c, supported) + KeysFields(c) + TailFields(c)
  }

  // What is written is these fields.

  lemma {:induction false} JoinedOne(f: string)
    ensures Joined([f]) == f + ";" && Joined([]) == ""
  {
    assert [f][1..] == [];
    assert f + ";" + "" == f + ";";
  }

  lemma {:induction false} HeadJoined(c: StaCfg)
    ensures Joined(HeadFields(c)) == Head(c)
  {
    hide Joined, Listed, AkmTable, Akm;
    var f, g := "ssid \"" + c.ssid + "\"", ListField("key_mgmt", AkmTable(), Akm(c));
    JoinedOne(f);
    JoinedOne("proto RSN");
    JoinedOne(g);
    JoinedAppend([f], if RsnOnly(c) then ["proto RSN"] else []);
    JoinedAppend([f] + (if RsnOnly(c) then ["proto RSN"] else []), [g]);
    assert "ssid \"" + c.ssid + "\"" + ";" == "ssid \"" + c.ssid + "\";";
  }

  lemma {:induction false} CiphersJoined(c: StaCfg, supported: set<nat>)
    ensures Joined(CiphersFields(c, supported)) == Ciphers(c, supported)
  {
    hide Joined, Listed, CipherTable, HasCiphers, Choose;
    var p, g := Choose(c.pairwise, supported), Choose(c.group, supported);
    JoinedOne(ListField("pairwise", CipherTable(), p));
    JoinedOne(ListField("group", CipherTable(), g));
    JoinedAppend(CipherFields("pairwise", p), CipherFields("group", g));
  }

  lemma {:induction false} KeyJoined(c: StaCfg)
    ensures Joined(KeyFields(c)) == Key(c)
  {
    hide Joined, Akm;
    var w, p := "wep_key0 \"" + c.passphrase + "\"", "psk \"" + c.passphrase + "\"";
    JoinedOne(w);
    JoinedOne("auth_alg OPEN SHARED");
    JoinedOne(p);
    JoinedAppend([w], ["auth_alg OPEN SHARED"]);
    assert [w, "auth_alg OPEN SHARED"] == [w] + ["auth_alg OPEN SHARED"];
    assert w + ";" + ("auth_alg OPEN SHARED" + ";") == "wep_key0 \"" + c.passphrase + "\";auth_alg OPEN SHARED;";
    assert p + ";" == "psk \"" + c.passphrase + "\";";
  }

  lemma {:induction false} KeysJoined(c: StaCfg)
    ensures Joined(KeysFields(c)) == Keys(c)
  {
    hide Joined, Akm, KeyFields, Key;
    var m := if c.mfpr then "ieee80211w 2" else "ieee80211w 1";
    KeyJoined(c);
    JoinedOne(m);
    JoinedAppend(KeyFields(c), [m]);
    assert m + ";" == if c.mfpr then "ieee80211w 2;" else "ieee80211w 1;";
  }

  lemma {:induction false} TailJoined(c: StaCfg)
    ensures Joined(TailFields(c)) == Tail(c)
  {
    hide Joined, Bssid, MacText;
    var b := "bssid " + MacText(c.bssid);
    BssidText(c.bssid);
    JoinedOne(b);
    JoinedOne("scan_ssid 1");
    JoinedAppend(if Bssid(c.bssid) == "" then [] else [b], ["scan_ssid 1"]);
  }

  lemma {:induction false} BssidText(m: Mac)
    ensures Bssid(m) == if m[0] == 0 && m[1] == 0 && m[2] == 0 then "" else "bssid " + MacText(m) + ";"
    ensures Bssid(m) == "" <==> m[0] == 0 && m[1] == 0 && m[2] == 0
  {
    hide Hex;
    var a := "bssid " + Hex(m[0]) + ":" + Hex(m[1]) + ":" + Hex(m[2]) + ":" + Hex(m[3]) + ":" + Hex(m[4]) + ":";
    assert a + Hex(m[5]) == "bssid " + MacText(m);
    assert (a + Hex(m[5]) + ";")[0] == 'b';
  }

  lemma {:induction false} TextJoined(c: StaCfg, supported: set<nat>)
    ensures ConfigText(c, supported) == Joined(AllFields(c, supported))
  {
    hide Joined, Head, Ciphers, Keys, Tail, HeadFields, CiphersFields, KeysFields, TailFields;
    var h, p, k, t := HeadFields(c), CiphersFields(c, supported), KeysFields(c), TailFields(c);
    HeadJoined(c);
    CiphersJoined(c, supported);
    KeysJoined(c);
    TailJoined(c);
    JoinedAppend(h, p);
    JoinedAppend(h + p, k);
    JoinedAppend(h + p + k, t);
  }

  // Each of them is one field.

  lemma {:induction false} InertList(table: seq<string>, flags: set<nat>, i: nat)
    requires i <= |table| && forall k :: 0 <= k < |table| ==> Inert(table[k], false)
    ensures Inert(Listed(table, flags, i), false)
    decreases |table| - i
  {
    if i < |table| {
      InertList(table, flags, i + 1);
      InertJoin(" ", table[i]);
      InertJoin(" " + table[i], Listed(table, flags, i + 1));
    }
  }

  lemma {:induction false} InertJoin(a: string, b: string)
    ensures Inert(a, false) && Inert(b, false) ==> Inert(a + b, false)
    ensures Inert(" ", false)
  {
  }

  lemma {:induction false} AkmInertLow(i: nat)
    requires i < 11
    ensures Inert(AkmTable()[i], false)
  {
  }

  lemma {:induction false} AkmInertHigh(i: nat)
    requires 11 <= i < 21
    ensures Inert(AkmTable()[i], false)
  {
  }

  lemma {:induction false} CipherInert(i: nat)
    requires i < 12
    ensures Inert(CipherTable()[i], false)
  {
  }

  lemma {:induction false} ListIsField(name: string, flags: set<nat>)
    requires Inert(name, false)
    ensures OneField(ListField(name, AkmTable(), flags)) && OneField(ListField(name, CipherTable(), flags))
  {
    hide AkmTable, CipherTable, Inert;
    forall k | 0 <= k < |AkmTable()| ensures Inert(AkmTable()[k], false) {
      if k < 11 {
        AkmInertLow(k);
      } else {
        AkmInertHigh(k);
      }
    }
    forall k | 0 <= k < |CipherTable()| ensures Inert(CipherTable()[k], false) {
      CipherInert(k);
    }
    InertList(AkmTable(), flags, 0);
    InertList(CipherTable(), flags, 0);
    InertJoin(name, Listed(AkmTable(), flags, 0));
    InertJoin(name, Listed(CipherTable(), flags, 0));
  }

  lemma {:induction false} QuotedIsField(a: string, q: string)
    requires Inert(a, false) && '\"' !in q
    ensures OneField(a + "\"" + q + "\"")
  {
    assert Inert(q, true);
  }

  lemma {:induction false} NamesInert()
    ensures Inert("proto RSN", false) && Inert("key_mgmt", false) && Inert("pairwise", false) && Inert("group", false)
    ensures Inert("wep_key0 ", false) && Inert("psk ", false) && Inert("ssid ", false)
  {
  }

  lemma {:induction false} ValuesInert()
    ensures Inert("auth_alg OPEN SHARED", false) && Inert("scan_ssid 1", false)
    ensures Inert("ieee80211w 1", false) && Inert("ieee80211w 2", false)
  {
  }

  lemma {:induction false} MacInert(m: Mac)
    ensures Inert("bssid " + MacText(m), false)
  {
    hide Hex;
    forall b: octet ensures Inert(Hex(b), false) { HexInert(b); }
    InertJoin("bssid ", MacText(m));
    InertJoin(Hex(m[0]) + ":" + Hex(m[1]) + ":" + Hex(m[2]) + ":", Hex(m[3]) + ":" + Hex(m[4]) + ":" + Hex(m[5]));
    assert MacText(m) == Hex(m[0]) + ":" + Hex(m[1]) + ":" + Hex(m[2]) + ":"
                         + (Hex(m[3]) + ":" + Hex(m[4]) + ":" + Hex(m[5]));
  }

  lemma {:induction false} HexInert(b: octet)
    ensures |Hex(b)| == 2 && Inert(Hex(b), false)
    ensures HexValue(Hex(b)[0]) == b / 16 && HexValue(Hex(b)[1]) == b % 16
  {
  }

  lemma {:induction false} HeadFieldsAre(c: StaCfg)
    requires '\"' !in c.ssid
    ensures forall f :: f in HeadFields(c) ==> OneField(f)
  {
    hide Inert, OneField, ListField, AkmTable, Akm;
    NamesInert();
    QuotedIsField("ssid ", c.ssid);
    assert "ssid " + "\"" + c.ssid + "\"" == "ssid \"" + c.ssid + "\"";
    PlainIsField("proto RSN");
    ListIsField("key_mgmt", Akm(c));
  }

  lemma {:induction false} PlainIsField(f: string)
    ensures Inert(f, false) ==> OneField(f)
  {
  }

  lemma {:induction false} CiphersFieldsAre(c: StaCfg, supported: set<nat>)
    ensures forall f :: f in CiphersFields(c, supported) ==> OneField(f)
  {
    hide Inert, OneField, ListField, CipherTable, HasCiphers, Choose;
    NamesInert();
    ListIsField("pairwise", Choose(c.pairwise, supported));
    ListIsField("group", Choose(c.group, supported));
  }

  lemma {:induction false} KeysFieldsAre(c: StaCfg)
    requires '\"' !in c.passphrase
    ensures forall f :: f in KeysFields(c) ==> OneField(f)
  {
    hide Inert, OneField, Akm;
    NamesInert();
    ValuesInert();
    QuotedIsField("wep_key0 ", c.passphrase);
    QuotedIsField("psk ", c.passphrase);
    assert "wep_key0 " + "\"" + c.passphrase + "\"" == "wep_key0 \"" + c.passphrase + "\"";
    assert "psk " + "\"" + c.passphrase + "\"" == "psk \"" + c.passphrase + "\"";
    PlainIsField("auth_alg OPEN SHARED");
    PlainIsField("ieee80211w 1");
    PlainIsField("ieee80211w 2");
  }

  lemma {:induction false} TailFieldsAre(c: StaCfg)
    ensures forall f :: f in TailFields(c) ==> OneField(f)
  {
    hide Inert, OneField, Bssid, MacText;
    ValuesInert();
    MacInert(c.bssid);
    PlainIsField("bssid " + MacText(c.bssid));
    PlainIsField("scan_ssid 1");
  }

  /** Splitting the text gives the fields that were written. */
  lemma {:induction false} TextFields(c: StaCfg, supported: set<nat>)
    requires '\"' !in c.ssid && '\"' !in c.passphrase
    ensures Fields(ConfigText(c, supported)) == AllFields(c, supported)
  {
    hide OneField, Joined, HeadFields, CiphersFields, KeysFields, TailFields, ConfigText, Fields;
    TextJoined(c, supported);
    HeadFieldsAre(c);
    CiphersFieldsAre(c, supported);
    KeysFieldsAre(c);
    TailFieldsAre(c);
    var fs := AllFields(c, supported);
    forall i | 0 <= i < |fs| ensures OneField(fs[i]) {
      assert fs[i] in fs;
    }
    JoinedFields(fs);
  }

  // ---------------------------------------------------------------- the values

  predicate Says(f: string, keyword: string, value: string) { Keyword(f) == keyword && FieldValue(f) == value }

  lemma {:induction false} SaysValue(keyword: string, value: string)
    requires ' ' !in keyword
    ensures Says(keyword + " " + value, keyword, value)
  {
    UntilSplit(keyword, ' ', value);
    var f := keyword + " " + value;
    assert f[|keyword| + 1..] == value;
  }

  lemma {:induction false} SaysNothing(keyword: string)
    requires ' ' !in keyword
    ensures Says(keyword, keyword, "")
  {
  }

  lemma {:induction false} OneValue(f: string, keyword: string, value: string, wanted: string)
    requires Says(f, keyword, value)
    ensures Values([f], wanted) == if keyword == wanted then [value] else []
  {
    assert [f][1..] == [];
  }

  function ListValue(table: seq<string>, flags: set<nat>): string {
    var l := Listed(table, flags, 0);
    if l == "" then "" else l[1..]
  }

  lemma {:induction false} SaysList(name: string, table: seq<string>, flags: set<nat>)
    requires ' ' !in name
    ensures Says(ListField(name, table, flags), name, ListValue(table, flags))
  {
    var l := Listed(table, flags, 0);
    if l == "" {
      assert name + l == name;
      SaysNothing(name);
    } else {
      ListedStart(table, flags, 0);
      assert name + l == name + " " + l[1..];
      SaysValue(name, l[1..]);
    }
  }

  lemma {:induction false} HeadValues(c: StaCfg, k: string)
    ensures Values(HeadFields(c), k) ==
            (if k == "ssid" then ["\"" + c.ssid + "\""] else [])
            + (if k == "proto" && RsnOnly(c) then ["RSN"] else [])
            + (if k == "key_mgmt" then [ListValue(AkmTable(), Akm(c))] else [])
  {
    hide Values, Says, ListField, ListValue, AkmTable, Akm;
    var f, g := "ssid \"" + c.ssid + "\"", ListField("key_mgmt", AkmTable(), Akm(c));
    SaysValue("ssid", "\"" + c.ssid + "\"");
    assert "ssid" + " " + ("\"" + c.ssid + "\"") == f;
    OneValue(f, "ssid", "\"" + c.ssid + "\"", k);
    SaysValue("proto", "RSN");
    assert "proto" + " " + "RSN" == "proto RSN";
    OneValue("proto RSN", "proto", "RSN", k);
    SaysList("key_mgmt", AkmTable(), Akm(c));
    OneValue(g, "key_mgmt", ListValue(AkmTable(), Akm(c)), k);
    ValuesAppend([f], if RsnOnly(c) then ["proto RSN"] else [], k);
    ValuesAppend([f] + (if RsnOnly(c) then ["proto RSN"] else []), [g], k);
    NoValues(k);
  }

  lemma {:induction false} NoValues(k: string)
    ensures Values([], k) == []
  {
  }

  lemma {:induction false} CipherValues(name: string, ciphers: set<nat>, k: string)
    requires ' ' !in name
    ensures Values(CipherFields(name, ciphers), k) ==
            if k == name && ciphers != {1, 2} then [ListValue(CipherTable(), ciphers)] else []
  {
    hide Says, ListField, ListValue, CipherTable;
    SaysList(name, CipherTable(), ciphers);
    OneValue(ListField(name, CipherTable(), ciphers), name, ListValue(CipherTable(), ciphers), k);
    NoValues(k);
    hide Values;
  }

  lemma {:induction false} CiphersValues(c: StaCfg, supported: set<nat>, k: string)
    ensures var p, g := Choose(c.pairwise, supported), Choose(c.group, supported);
            Values(CiphersFields(c, supported), k) ==
            (if HasCiphers(c) && k == "pairwise" && p != {1, 2} then [ListValue(CipherTable(), p)] else [])
            + (if HasCiphers(c) && k == "group" && g != {1, 2} then [ListValue(CipherTable(), g)] else [])
  {
    hide Values, ListValue, CipherTable, CipherFields, HasCiphers, Choose;
    var p, g := Choose(c.pairwise, supported), Choose(c.group, supported);
    CipherValues("pairwise", p, k);
    CipherValues("group", g, k);
    ValuesAppend(CipherFields("pairwise", p), CipherFields("group", g), k);
    NoValues(k);
  }

  predicate IsWep(c: StaCfg) { 0 in Akm(c) && (c.keyLen == 5 || c.keyLen == 13 || c.keyLen == 16) }

  predicate HasKeys(c: StaCfg) { c.keyLen > 0 || 17 in Akm(c) }

  predicate HasPsk(c: StaCfg) { 3 in Akm(c) || 9 in Akm(c) }

  lemma {:induction false} KeyValues(c: StaCfg, k: string)
    ensures Values(KeyFields(c), k) ==
            (if k == "wep_key0" && IsWep(c) then ["\"" + c.passphrase + "\""] else [])
            + (if k == "auth_alg" && IsWep(c) then ["OPEN SHARED"] else [])
            + (if k == "psk" && HasPsk(c) && !IsWep(c) then ["\"" + c.passphrase + "\""] else [])
  {
    hide Values, Says, Akm;
    var w, p, q := "wep_key0 \"" + c.passphrase + "\"", "psk \"" + c.passphrase + "\"", "\"" + c.passphrase + "\"";
    SaysValue("wep_key0", q);
    assert "wep_key0" + " " + q == w;
    OneValue(w, "wep_key0", q, k);
    SaysValue("psk", q);
    assert "psk" + " " + q == p;
    OneValue(p, "psk", q, k);
    SaysValue("auth_alg", "OPEN SHARED");
    assert "auth_alg" + " " + "OPEN SHARED" == "auth_alg OPEN SHARED";
    OneValue("auth_alg OPEN SHARED", "auth_alg", "OPEN SHARED", k);
    ValuesAppend([w], ["auth_alg OPEN SHARED"], k);
    assert [w, "auth_alg OPEN SHARED"] == [w] + ["auth_alg OPEN SHARED"];
    NoValues(k);
    assert HasPsk(c) <==> Akm(c) * {PSK, SAE} != {} by {
      assert 3 in Akm(c) ==> 3 in Akm(c) * {PSK, SAE};
      assert 9 in Akm(c) ==> 9 in Akm(c) * {PSK, SAE};
    }
  }

  lemma {:induction false} KeysValues(c: StaCfg, k: string)
    ensures Values(KeysFields(c), k) ==
            (if HasKeys(c) then Values(KeyFields(c), k) else [])
            + (if k == "ieee80211w" && HasKeys(c) then [if c.mfpr then "2" else "1"] else [])
  {
    hide Values, Says, Akm, KeyFields;
    SaysValue("ieee80211w", "1");
    SaysValue("ieee80211w", "2");
    assert "ieee80211w" + " " + "1" == "ieee80211w 1" && "ieee80211w" + " " + "2" == "ieee80211w 2";
    OneValue("ieee80211w 1", "ieee80211w", "1", k);
    OneValue("ieee80211w 2", "ieee80211w", "2", k);
    ValuesAppend(KeyFields(c), [if c.mfpr then "ieee80211w 2" else "ieee80211w 1"], k);
    NoValues(k);
  }

  lemma {:induction false} TailValues(c: StaCfg, k: string)
    ensures Values(TailFields(c), k) ==
            (if k == "bssid" && (c.bssid[0] != 0 || c.bssid[1] != 0 || c.bssid[2] != 0) then [MacText(c.bssid)] else [])
            + (if k == "scan_ssid" then ["1"] else [])
  {
    hide Values, Says, MacText, Hex, Bssid;
    BssidText(c.bssid);
    var b := "bssid " + MacText(c.bssid);
    SaysValue("bssid", MacText(c.bssid));
    assert "bssid" + " " + MacText(c.bssid) == b;
    OneValue(b, "bssid", MacText(c.bssid), k);
    SaysValue("scan_ssid", "1");
    assert "scan_ssid" + " " + "1" == "scan_ssid 1";
    OneValue("scan_ssid 1", "scan_ssid", "1", k);
    ValuesAppend(if Bssid(c.bssid) == "" then [] else [b], ["scan_ssid 1"], k);
    NoValues(k);
  }

  lemma {:induction false} AllValues(c: StaCfg, supported: set<nat>, k: string)
    ensures Values(AllFields(c, supported), k) ==
            Values(HeadFields(c), k) + Values(CiphersFields(c, supported), k)
            + Values(KeysFields(c), k) + Values(TailFields(c), k)
  {
    hide Values, HeadFields, CiphersFields, KeysFields, TailFields;
    var h, p, q, t := HeadFields(c), CiphersFields(c, supported), KeysFields(c), TailFields(c);
    ValuesAppend(h, p, k);
    ValuesAppend(h + p, q, k);
    ValuesAppend(h + p + q, t, k);
  }

  // ---------------------------------------------------------------- the lists of names

  lemma {:induction false} ListValueWords(table: seq<string>, flags: set<nat>)
    requires forall k :: 0 <= k < |table| ==> Plain(table[k])
    ensures Words(ListValue(table, flags)) == Chosen(table, flags, 0)
  {
    ListedWords(table, flags, 0);
    if Listed(table, flags, 0) != "" {
      ListedStart(table, flags, 0);
    }
  }

  lemma {:induction false} ChosenAre(table: seq<string>, flags: set<nat>, i: nat)
    requires i <= |table|
    ensures forall w :: w in Chosen(table, flags, i) <==>
                        exists k: nat :: i <= k < |table| && Named(table, flags, k) && table[k] == w
    decreases |table| - i
  {
    if i < |table| {
      ChosenAre(table, flags, i + 1);
    }
  }

  lemma {:induction false} CipherNamed(n: nat)
    requires n < 12
    ensures CipherOf(CipherTable()[n]) == n && Plain(CipherTable()[n]) && CipherTable()[n] != ""
  {
  }

  lemma {:induction false} CiphersNamed(ciphers: set<nat>)
    ensures NamesCiphers(ListValue(CipherTable(), ciphers), ciphers)
  {
    var t := CipherTable();
    hide CipherTable, CipherOf, Plain, Words, ListValue;
    forall k: nat | k < 12 ensures CipherOf(t[k]) == k && Plain(t[k]) && t[k] != "" { CipherNamed(k); }
    ListValueWords(t, ciphers);
    ChosenAre(t, ciphers, 0);
    hide Chosen;
    forall n | n in ciphers && n < 12 ensures exists w :: w in Words(ListValue(t, ciphers)) && CipherOf(w) == n {
      assert Named(t, ciphers, n) && t[n] in Chosen(t, ciphers, 0);
    }
  }

  lemma {:induction false} SuiteNamedLow(n: nat)
    requires n < 11 && n != 1
    ensures SuiteOf(AkmTable()[n]) == n && AkmTable()[n] != ""
  {
  }

  lemma {:induction false} SuiteNamedHigh(n: nat)
    requires 11 <= n < 21
    ensures SuiteOf(AkmTable()[n]) == n && AkmTable()[n] != ""
  {
  }

  lemma {:induction false} AkmPlain(n: nat)
    requires n < 21
    ensures Plain(AkmTable()[n])
  {
    if n < 11 {
      TablePlainLow(n);
    } else {
      TablePlainHigh(n);
    }
  }

  /** The suites that have a name: the one for WPA before RSN has none. */
  function WithNames(suites: set<nat>): set<nat> { set n | n in suites && n < 21 && n != 1 }

  /** Printed suite names say which suites were printed: all those that have one. */
  lemma {:induction false} SuitesNamed(suites: set<nat>)
    ensures NamesSuites(ListValue(AkmTable(), suites), WithNames(suites))
  {
    var t := AkmTable();
    AkmNames();
    hide AkmTable, SuiteOf, Plain, Words, ListValue;
    ListValueWords(t, suites);
    ChosenAre(t, suites, 0);
    hide Chosen;
    forall n | n in WithNames(suites) ensures exists w :: w in Words(ListValue(t, suites)) && SuiteOf(w) == n {
      assert Named(t, suites, n) && t[n] in Chosen(t, suites, 0);
    }
  }

  lemma {:induction false} AkmNames()
    ensures AkmTable()[1] == ""
    ensures forall k: nat :: k < 21 ==> Plain(AkmTable()[k])
    ensures forall k: nat :: k < 21 && k != 1 ==> SuiteOf(AkmTable()[k]) == k && AkmTable()[k] != ""
  {
    MeaningOf(1);
    hide AkmTable, SuiteOf, Plain, Meaning, Recognised;
    forall k: nat | k < 21 ensures Plain(AkmTable()[k]) { AkmPlain(k); }
    forall k: nat | k < 21 && k != 1 ensures SuiteOf(AkmTable()[k]) == k && AkmTable()[k] != "" {
      if k < 11 {
        SuiteNamedLow(k);
      } else {
        SuiteNamedHigh(k);
      }
    }
  }

  lemma {:induction false} AllNamed(suites: set<nat>)
    requires suites <= Supported
    ensures WithNames(suites) == suites
  {
  }

  lemma {:induction false} BytesRead(b: octet, rest: string)
    ensures ReadBytes(Hex(b) + ":" + rest) == [b] + ReadBytes(rest)
    ensures ReadBytes(Hex(b)) == [b]
  {
    HexInert(b);
    hide HexValue, Hex, Inert;
    var v := Hex(b) + ":" + rest;
    assert v[0] == Hex(b)[0] && v[1] == Hex(b)[1] && v[2] == ':' && v[3..] == rest;
  }

  lemma {:induction false} MacNested(a: string, b: string, c: string, d: string, e: string, f: string)
    ensures a + ":" + b + ":" + c + ":" + d + ":" + e + ":" + f ==
            a + ":" + (b + ":" + (c + ":" + (d + ":" + (e + ":" + f))))
  {
    assert d + ":" + e + ":" + f == d + ":" + (e + ":" + f);
    var t := d + ":" + e + ":" + f;
    assert a + ":" + b + ":" + c + ":" + d + ":" + e + ":" + f == a + ":" + b + ":" + c + ":" + t;
    assert b + ":" + c + ":" + t == b + ":" + (c + ":" + t);
    assert a + ":" + b + ":" + c + ":" + t == a + ":" + (b + ":" + c + ":" + t);
  }

  lemma {:induction false} MacRead(m: Mac)
    ensures ReadBytes(MacText(m)) == m
  {
    MacNested(Hex(m[0]), Hex(m[1]), Hex(m[2]), Hex(m[3]), Hex(m[4]), Hex(m[5]));
    hide Hex, ReadBytes;
    var low := Hex(m[4]) + ":" + Hex(m[5]);
    BytesRead(m[5], "");
    BytesRead(m[4], Hex(m[5]));
    BytesRead(m[3], low);
    BytesRead(m[2], Hex(m[3]) + ":" + low);
    BytesRead(m[1], Hex(m[2]) + ":" + (Hex(m[3]) + ":" + low));
    BytesRead(m[0], Hex(m[1]) + ":" + (Hex(m[2]) + ":" + (Hex(m[3]) + ":" + low)));
    MacList(m);
  }

  lemma {:induction false} MacList(m: Mac)
    ensures [m[0]] + ([m[1]] + ([m[2]] + ([m[3]] + ([m[4]] + [m[5]])))) == m
  {
  }

  // ---------------------------------------------------------------- the main results

  /** The suites a configuration stands for: those asked for that are supported, NONE for a WEP access
      point, and without a wish NONE for a key too short for WPA or else the pre-shared-key suites. */
  lemma {:induction false} SuitesMeant(c: StaCfg, a: nat)
    ensures a in Akm(c) <==>
              || (c.akm == {} && c.keyLen < 8 && a == 0)
              || (c.akm == {} && c.keyLen >= 8 && (a == 3 || a == 7 || a == 9))
              || (c.akm == {1} && a == 0)
              || (c.akm != {} && c.akm != {1} && a in c.akm && (a == 0 || a == 3 || a == 7 || a == 9 || a == 17))
  {
  }

  lemma {:induction false} CiphersMatter(c: StaCfg)
    ensures HasCiphers(c) <==> 3 in Akm(c) || 9 in Akm(c) || 17 in Akm(c)
  {
    hide Akm;
    assert 3 in Akm(c) ==> 3 in Akm(c) * {PSK, SAE, OWE};
    assert 9 in Akm(c) ==> 9 in Akm(c) * {PSK, SAE, OWE};
    assert 17 in Akm(c) ==> 17 in Akm(c) * {PSK, SAE, OWE};
  }

  lemma {:induction false} KeywordsDiffer()
    ensures "proto" != "group" && "proto" != "bssid" && "group" != "bssid"
    ensures "key_mgmt" != "pairwise" && "key_mgmt" != "wep_key0" && "key_mgmt" != "auth_alg"
    ensures "pairwise" != "wep_key0" && "pairwise" != "auth_alg" && "wep_key0" != "auth_alg"
  {
    assert "proto"[0] == 'p' && "group"[0] == 'g' && "bssid"[0] == 'b';
    assert "key_mgmt"[0] == 'k' && "pairwise"[0] == 'p' && "wep_key0"[0] == 'w' && "auth_alg"[0] == 'a';
  }

  /** The values of a keyword in the text of a configuration. */
  function Told(c: StaCfg, supported: set<nat>, keyword: string): seq<string> {
    Values(Fields(ConfigText(c, supported)), keyword)
  }

  lemma {:induction false} ToldParts(c: StaCfg, supported: set<nat>, k: string)
    requires '\"' !in c.ssid && '\"' !in c.passphrase
    ensures Told(c, supported, k) ==
            Values(HeadFields(c), k) + Values(CiphersFields(c, supported), k)
            + Values(KeysFields(c), k) + Values(TailFields(c), k)
  {
    hide Values, HeadFields, CiphersFields, KeysFields, TailFields, AllFields, Fields, ConfigText;
    TextFields(c, supported);
    AllValues(c, supported, k);
  }

  /** Where the keywords of the network itself can come from. */
  lemma {:induction false} NetworkParts(c: StaCfg, supported: set<nat>, k: string)
    requires '\"' !in c.ssid && '\"' !in c.passphrase
    requires k == "ssid" || k == "proto" || k == "key_mgmt" || k == "bssid" || k == "scan_ssid"
    ensures Told(c, supported, k) ==
            (if k == "ssid" then ["\"" + c.ssid + "\""] else [])
            + (if k == "proto" && RsnOnly(c) then ["RSN"] else [])
            + (if k == "key_mgmt" then [ListValue(AkmTable(), Akm(c))] else [])
            + (if k == "bssid" && (c.bssid[0] != 0 || c.bssid[1] != 0 || c.bssid[2] != 0)
               then [MacText(c.bssid)] else [])
            + (if k == "scan_ssid" then ["1"] else [])
  {
    hide Told, HeadFields, CiphersFields, KeysFields, TailFields, Values, ListValue, KeyFields, Choose, MacText;
    hide AkmTable, CipherTable, HasCiphers, IsWep, HasKeys, HasPsk, Akm, RsnOnly;
    KeywordsDiffer();
    ToldParts(c, supported, k);
    HeadValues(c, k);
    TailValues(c, k);
    NoCiphersFor(c, supported, k);
    NoKeysFor(c, k);
  }

  lemma {:induction false} NoCiphersFor(c: StaCfg, supported: set<nat>, k: string)
    requires k != "pairwise" && k != "group"
    ensures Values(CiphersFields(c, supported), k) == []
  {
    CiphersValues(c, supported, k);
  }

  lemma {:induction false} NoKeysFor(c: StaCfg, k: string)
    requires k != "wep_key0" && k != "auth_alg" && k != "psk" && k != "ieee80211w"
    ensures Values(KeysFields(c), k) == []
  {
    hide Values, KeysFields;
    KeysValues(c, k);
    KeyValues(c, k);
  }

  /** The network: the SSID as given, "proto RSN" exactly when suites are asked for and WPA1 is not among
      them, the suites themselves, and the access point's six bytes unless the first three are zero. */
  lemma {:induction false} NetworkReadsBack(c: StaCfg, supported: set<nat>)
    requires '\"' !in c.ssid && '\"' !in c.passphrase
    ensures Told(c, supported, "ssid") == ["\"" + c.ssid + "\""]
    ensures Told(c, supported, "proto") == if c.akm != {} && 1 !in c.akm then ["RSN"] else []
    ensures var v := Told(c, supported, "key_mgmt"); |v| == 1 && NamesSuites(v[0], Akm(c))
    ensures var v := Told(c, supported, "bssid");
            if c.bssid[0] == 0 && c.bssid[1] == 0 && c.bssid[2] == 0 then v == []
            else |v| == 1 && ReadBytes(v[0]) == c.bssid
    ensures Told(c, supported, "scan_ssid") == ["1"]
  {
    hide Told, ListValue, MacText, AkmTable, NamesSuites, Akm, ReadBytes;
    KeywordsDiffer();
    AkmSupported(c);
    SuitesNamed(Akm(c));
    AllNamed(Akm(c));
    MacRead(c.bssid);
    NetworkParts(c, supported, "ssid");
    NetworkParts(c, supported, "proto");
    NetworkParts(c, supported, "key_mgmt");
    NetworkParts(c, supported, "bssid");
    NetworkParts(c, supported, "scan_ssid");
  }

  /** The ciphers: where a suite needs them, the chosen ones that have a name, unless they are TKIP and
      CCMP, which the reader assumes. */
  lemma {:induction false} CiphersReadBack(c: StaCfg, supported: set<nat>)
    requires '\"' !in c.ssid && '\"' !in c.passphrase
    ensures var needed := 3 in Akm(c) || 9 in Akm(c) || 17 in Akm(c);
            var p := if c.pairwise == {} then supported else c.pairwise * supported;
            var g := if c.group == {} then supported else c.group * supported;
            var v, u := Told(c, supported, "pairwise"), Told(c, supported, "group");
            && (if needed && p != {1, 2} then |v| == 1 && NamesCiphers(v[0], p) else v == [])
            && (if needed && g != {1, 2} then |u| == 1 && NamesCiphers(u[0], g) else u == [])
  {
    hide Told, HeadFields, CiphersFields, KeysFields, TailFields, Values, ListValue, Akm, HasCiphers, NamesCiphers;
    hide CipherTable, AkmTable, MacText;
    KeywordsDiffer();
    CiphersMatter(c);
    CiphersNamed(Choose(c.pairwise, supported));
    CiphersNamed(Choose(c.group, supported));
    ToldParts(c, supported, "pairwise");
    ToldParts(c, supported, "group");
    OnlyCiphersFor(c, "pairwise");
    OnlyCiphersFor(c, "group");
    CiphersValues(c, supported, "pairwise");
    CiphersValues(c, supported, "group");
  }

  lemma {:induction false} OnlyCiphersFor(c: StaCfg, k: string)
    requires k == "pairwise" || k == "group"
    ensures Values(HeadFields(c), k) == Values(KeysFields(c), k) == Values(TailFields(c), k) == []
  {
    hide Values, HeadFields, KeysFields, TailFields, ListValue, Akm;
    KeywordsDiffer();
    HeadValues(c, k);
    NoKeysFor(c, k);
    TailValues(c, k);
  }

  lemma {:induction false} OnlyKeysFor(c: StaCfg, supported: set<nat>, k: string)
    requires k == "wep_key0" || k == "auth_alg" || k == "psk" || k == "ieee80211w"
    ensures Values(HeadFields(c), k) == Values(CiphersFields(c, supported), k) == Values(TailFields(c), k) == []
  {
    hide Values, HeadFields, CiphersFields, TailFields, ListValue, Akm;
    KeywordsDiffer();
    HeadValues(c, k);
    NoCiphersFor(c, supported, k);
    TailValues(c, k);
  }

  lemma {:induction false} KeyParts(c: StaCfg, supported: set<nat>, k: string)
    requires '\"' !in c.ssid && '\"' !in c.passphrase
    requires k == "wep_key0" || k == "auth_alg" || k == "psk" || k == "ieee80211w"
    ensures Told(c, supported, k) ==
            if !HasKeys(c) then []
            else if k == "ieee80211w" then [if c.mfpr then "2" else "1"]
            else if k == "auth_alg" then (if IsWep(c) then ["OPEN SHARED"] else [])
            else if (if k == "psk" then HasPsk(c) && !IsWep(c) else IsWep(c)) then ["\"" + c.passphrase + "\""]
            else []
  {
    hide Told, HeadFields, CiphersFields, KeysFields, TailFields, Values, HasKeys, IsWep, HasPsk, KeyFields;
    KeywordsDiffer();
    ToldParts(c, supported, k);
    OnlyKeysFor(c, supported, k);
    KeysValues(c, k);
    KeyValues(c, k);
  }

  /** The key: a WEP key exactly when NONE is a suite and the key has a WEP length, otherwise a
      pre-shared key exactly when a suite uses one; management frames are protected if possible (1),
      and always (2) exactly when that is required; neither without a key, except that OWE needs none. */
  lemma {:induction false} KeysReadBack(c: StaCfg, supported: set<nat>)
    requires '\"' !in c.ssid && '\"' !in c.passphrase
    ensures var keyed := c.keyLen > 0 || 17 in Akm(c);
            var wep := 0 in Akm(c) && (c.keyLen == 5 || c.keyLen == 13 || c.keyLen == 16);
            && Told(c, supported, "wep_key0") == (if keyed && wep then ["\"" + c.passphrase + "\""] else [])
            && Told(c, supported, "auth_alg") == (if keyed && wep then ["OPEN SHARED"] else [])
            && Told(c, supported, "psk") ==
               (if keyed && !wep && (3 in Akm(c) || 9 in Akm(c)) then ["\"" + c.passphrase + "\""] else [])
            && Told(c, supported, "ieee80211w") == (if keyed then [if c.mfpr then "2" else "1"] else [])
  {
    hide Told, Akm;
    KeywordsDiffer();
    KeyParts(c, supported, "wep_key0");
    KeyParts(c, supported, "auth_alg");
    KeyParts(c, supported, "psk");
    KeyParts(c, supported, "ieee80211w");
  }

  /** Nothing else is said. */
  lemma {:induction false} NothingElse(c: StaCfg, supported: set<nat>, k: string)
    requires '\"' !in c.ssid && '\"' !in c.passphrase
    requires k != "ssid" && k != "proto" && k != "key_mgmt" && k != "bssid" && k != "scan_ssid"
    requires k != "pairwise" && k != "group"
    requires k != "wep_key0" && k != "auth_alg" && k != "psk" && k != "ieee80211w"
    ensures Told(c, supported, k) == []
  {
    hide Told, HeadFields, CiphersFields, KeysFields, TailFields, Values, ListValue, Akm;
    ToldParts(c, supported, k);
    HeadValues(c, k);
    NoCiphersFor(c, supported, k);
    NoKeysFor(c, k);
    TailValues(c, k);
  }

  /** A configuration is refused when no supported suite is asked for, or when a suite needs ciphers and
      none of one kind is left. */
  lemma {:induction false} UsableMeans(c: StaCfg, supported: set<nat>)
    ensures Usable(c, supported) <==>
              && Akm(c) != {}
              && (3 in Akm(c) || 9 in Akm(c) || 17 in Akm(c) ==>
                    && (if c.pairwise == {} then supported else c.pairwise * supported) != {}
                    && (if c.group == {} then supported else c.group * supported) != {})
  {
    hide Akm, HasCiphers;
    CiphersMatter(c);
  }
}
