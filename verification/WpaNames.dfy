/** Names of key-management and cipher suites: the printers, and the parser that reads them back.
    A flag word is the set of its one bits. */
module WpaNames {
  import opened Text

  const PRE_RSN: nat := 1
  const PSK: nat := 3

  /** wpa_akm_str; "" stands for the missing name. */
  function AkmTable(): (t: seq<string>)
    ensures |t| == 21
  {
    ["NONE", "", "WPA-EAP", "WPA-PSK", "FT_EAP", "FT-PSK", "WPA-EAP-SHA256", "WPA-PSK-SHA256", "TDLS", "SAE",
     "FT-SAE", "WPA-EAP-SUITE-B", "WPA-EAP-SUITE-B-192", "FILS-SHA256", "FILS-SHA384", "FT-FILS-SHA256",
     "FT-FILS-SHA384", "OWE", "WAPI-CERT", "WAPI-PSK", "DPP"]
  }

  /** wpa_cipher_str. */
  function CipherTable(): (t: seq<string>)
    ensures |t| == 12
  {
    ["WEP40", "TKIP", "CCMP", "WEP104", "WPI_SMS4", "AES-128-CMAC", "GCMP", "GCMP-256", "CCMP-256",
     "BIP-GMAC-128", "BIP-GMAC-256", "BIP-CMAC-256"]
  }

  // ---------------------------------------------------------------- printing

  predicate Named(table: seq<string>, flags: set<nat>, i: nat)
    requires i < |table|
  {
    i in flags && table[i] != ""
  }

  /** The names of the flags from i on, each after a space. */
  function Listed(table: seq<string>, flags: set<nat>, i: nat): string
    requires i <= |table|
    decreases |table| - i
  {
    if i == |table| then ""
    else (if Named(table, flags, i) then " " + table[i] else "") + Listed(table, flags, i + 1)
  }

  /** b' differs from b only between lo and hi, and shows t at lo. */
  ghost predicate Shows(b: string, b': string, lo: nat, hi: nat, t: string) {
    && lo + |t| <= hi <= |b| == |b'|
    && b'[..lo] == b[..lo] && b'[lo..lo + |t|] == t && b'[hi..] == b[hi..]
  }

  lemma {:induction false} ShowsMore(b: string, b': string, b'': string, lo: nat, hi: nat, t: string, s: string)
    requires Shows(b, b', lo, hi, t) && lo + |t| + |s| <= hi
    requires b'' == b'[..lo + |t|] + s + b'[lo + |t| + |s|..]
    ensures Shows(b, b'', lo, hi, t + s)
  {
    var p := lo + |t|;
    assert b''[..lo] == b'[..lo];
    assert b''[lo..p + |s|] == b'[lo..p] + s;
    assert b''[hi..] == b'[hi..];
  }

  lemma {:induction false} ShowsNone(b: string, b': string, lo: nat, hi: nat, t: string)
    requires Shows(b, b', lo, hi, t)
    ensures Shows(b, b', lo, hi, "")
  {
  }

  method Append(buf: array<char>, ghost b: string, lo: nat, hi: nat, ghost done: string, p: nat, s: string)
    requires Shows(b, buf[..], lo, hi, done) && p == lo + |done| && p + |s| <= hi <= buf.Length
    modifies buf
    ensures Shows(b, buf[..], lo, hi, done + s)
  {
    ghost var b' := buf[..];
    CopyTo(buf, p, s);
    ShowsMore(b, b', buf[..], lo, hi, done, s);
  }

  /** `done` is what the printer has written before it comes to flag i. */
  ghost predicate Midlist(table: seq<string>, flags: set<nat>, i: nat, done: string) {
    i <= |table| && done + Listed(table, flags, i) == Listed(table, flags, 0)
  }

  lemma {:induction false} MidlistStep(table: seq<string>, flags: set<nat>, i: nat, done: string)
    requires i < |table| && Midlist(table, flags, i, done)
    ensures !Named(table, flags, i) ==> Midlist(table, flags, i + 1, done)
    ensures Named(table, flags, i) ==>
              Midlist(table, flags, i + 1, done + (" " + table[i]))
              && |done| + 1 + |table[i]| <= |Listed(table, flags, 0)|
  {
    var rest := Listed(table, flags, i + 1);
    if Named(table, flags, i) {
      assert Listed(table, flags, i) == " " + table[i] + rest;
      assert done + (" " + table[i] + rest) == done + (" " + table[i]) + rest;
    } else {
      assert Listed(table, flags, i) == rest;
    }
    hide Listed;
  }

  lemma {:induction false} MidlistEnd(table: seq<string>, flags: set<nat>, done: string)
    requires Midlist(table, flags, |table|, done)
    ensures done == Listed(table, flags, 0)
  {
  }

  /** wifi_wpa_akm_name and wifi_wpa_cipher_name: on success the result is the number of characters
      before the NUL, and there was room for one more. */
  method PrintNames(table: seq<string>, flags: set<nat>, buf: array<char>, at: nat, len: nat) returns (r: int)
    requires at + len <= buf.Length
    modifies buf
    ensures r == if |Listed(table, flags, 0)| + 2 <= len then |Listed(table, flags, 0)| + 1 else -1
    ensures r >= 0 ==> Shows(old(buf[..]), buf[..], at, at + len, Listed(table, flags, 0) + ";" + [NUL])
    ensures r < 0 ==> Shows(old(buf[..]), buf[..], at, at + len, "")
  {
    ghost var b := buf[..];
    assert Shows(b, b, at, at + len, "");
    assert Midlist(table, flags, 0, "");
    hide Shows, Listed, Midlist;
    if len < 2 {
      return -1;
    }
    var left, written, p := len - 2, 1, at;
    ghost var done := "";
    var i := 0;
    while i < |table|
      invariant 0 <= i <= |table|
      invariant Midlist(table, flags, i, done)
      invariant p == at + |done| && written == |done| + 1 && left == len - 2 - |done| >= 0
      invariant Shows(b, buf[..], at, at + len, done)
    {
      MidlistStep(table, flags, i, done);
      if i in flags && table[i] != "" {
        if left < |table[i]| + 1 {
          ShowsNone(b, buf[..], at, at + len, done);
          return -1;
        }
        var s := " " + table[i];
        Append(buf, b, at, at + len, done, p, s);
        done := done + s;
        p, left, written := p + |s|, left - |s|, written + |s|;
      }
      i := i + 1;
    }
    MidlistEnd(table, flags, done);
    Append(buf, b, at, at + len, done, p, ";" + [NUL]);
    assert done + (";" + [NUL]) == done + ";" + [NUL];
    return written;
  }

  // ---------------------------------------------------------------- parsing

  predicate Blank(c: char) { c == ' ' || c == '\t' }

  function WordLen(s: string): (n: nat)
    ensures n <= |s| && (forall i :: 0 <= i < n ==> !Blank(s[i])) && (n < |s| ==> Blank(s[n]))
  {
    if s == "" || Blank(s[0]) then 0 else 1 + WordLen(s[1..])
  }

  function Words(s: string): seq<string>
    decreases |s|
  {
    if s == "" then []
    else if Blank(s[0]) then Words(s[1..])
    else [s[..WordLen(s)]] + Words(s[WordLen(s)..])
  }

  /** The flags a word sets; none for an unknown word. */
  function Meaning(w: string): set<nat> {
    if w == "WPA-PSK" then {PSK, PRE_RSN}
    else if w == "NONE" then {0}
    else if w == "SAE" then {9}
    else if w == "WPA-EAP" then {2}
    else if w == "WPA-EAP-SHA256" then {6}
    else if w == "WPA-EAP-SUITE-B" then {11}
    else if w == "WPA-EAP-SUITE-B-192" then {12}
    else if w == "OWE" then {17}
    else {}
  }

  function Meanings(ws: seq<string>): set<nat> {
    if ws == [] then {} else Meanings(ws[..|ws| - 1]) + Meaning(ws[|ws| - 1])
  }

  predicate Known(ws: seq<string>) { forall i :: 0 <= i < |ws| ==> Meaning(ws[i]) != {} }

  /** Bad is the value -1. */
  datatype Parsed = Good(flags: set<nat>) | Bad

  function Parse(s: string): Parsed {
    var ws := Words(s);
    if Known(ws) && Meanings(ws) != {} then Good(Meanings(ws)) else Bad
  }

  // ---------------------------------------------------------------- round trip

  predicate Plain(w: string) { forall i :: 0 <= i < |w| ==> !Blank(w[i]) }

  lemma {:induction false} WordLenIs(s: string, n: nat)
    requires n <= |s| && (forall i :: 0 <= i < n ==> !Blank(s[i])) && (n < |s| ==> Blank(s[n]))
    ensures WordLen(s) == n
  {
    if n > 0 {
      WordLenIs(s[1..], n - 1);
    }
  }

  lemma {:induction false} WordFirst(w: string, rest: string)
    requires w != "" && Plain(w) && (rest != "" ==> Blank(rest[0]))
    ensures Words(" " + w + rest) == [w] + Words(rest)
  {
    var t := w + rest;
    assert (" " + w + rest)[1..] == t;
    assert t[0] == w[0];
    WordLenIs(t, |w|);
    assert t[..|w|] == w && t[|w|..] == rest;
  }

  /** The names Listed prints. */
  function Chosen(table: seq<string>, flags: set<nat>, i: nat): seq<string>
    requires i <= |table|
    decreases |table| - i
  {
    if i == |table| then []
    else (if Named(table, flags, i) then [table[i]] else []) + Chosen(table, flags, i + 1)
  }

  lemma {:induction false} ListedStart(table: seq<string>, flags: set<nat>, i: nat)
    requires i <= |table| && Listed(table, flags, i) != ""
    ensures Listed(table, flags, i)[0] == ' '
    decreases |table| - i
  {
    if !Named(table, flags, i) {
      ListedStart(table, flags, i + 1);
    }
  }

  /** Splitting a printed list gives back the names. */
  lemma {:induction false} ListedWords(table: seq<string>, flags: set<nat>, i: nat)
    requires i <= |table| && forall k :: 0 <= k < |table| ==> Plain(table[k])
    ensures Words(Listed(table, flags, i)) == Chosen(table, flags, i)
    decreases |table| - i
  {
    if i < |table| {
      ListedWords(table, flags, i + 1);
      var rest := Listed(table, flags, i + 1);
      if Named(table, flags, i) {
        if rest != "" {
          ListedStart(table, flags, i + 1);
        }
        WordFirst(table[i], rest);
        assert Listed(table, flags, i) == " " + table[i] + rest;
      } else {
        assert Listed(table, flags, i) == rest;
        assert Chosen(table, flags, i) == Chosen(table, flags, i + 1);
      }
    }
  }

  predicate Recognised(i: nat) { i in {0, 2, PSK, 6, 9, 11, 12, 17} }

  lemma {:induction false} MeaningOf(i: nat)
    requires i < 21
    ensures AkmTable()[i] == "" <==> i == PRE_RSN
    ensures Meaning(AkmTable()[i]) == if !Recognised(i) then {} else if i == PSK then {PSK, PRE_RSN} else {i}
  {
  }

  lemma {:induction false} TablePlainLow(i: nat)
    requires i < 11
    ensures Plain(AkmTable()[i])
  {
  }

  lemma {:induction false} TablePlainHigh(i: nat)
    requires 11 <= i < 21
    ensures Plain(AkmTable()[i])
  {
  }

  lemma {:induction false} MeaningsFirst(w: string, ws: seq<string>)
    ensures Meanings([w] + ws) == Meaning(w) + Meanings(ws)
  {
    hide Meaning;
    var n := |ws|;
    if n == 0 {
      assert [w] + ws == [w] && [w][..0] == [];
    } else {
      assert ([w] + ws)[..n] == [w] + ws[..n - 1];
      MeaningsFirst(w, ws[..n - 1]);
    }
  }

  /** What the printed names of the flags from i on mean. */
  function Flags(flags: set<nat>, i: nat): set<nat> {
    (set j | j in flags && i <= j < 21 && Recognised(j)) + (if i <= PSK && PSK in flags then {PRE_RSN} else {})
  }

  /** The flags suite i adds when its name is read. */
  function Added(flags: set<nat>, i: nat): set<nat> {
    if i !in flags || !Recognised(i) then {} else if i == PSK then {PSK, PRE_RSN} else {i}
  }

  lemma {:induction false} FlagsStep(flags: set<nat>, i: nat)
    requires i < 21
    ensures Flags(flags, i) == Added(flags, i) + Flags(flags, i + 1)
  {
  }

  lemma {:induction false} ChosenStep(flags: set<nat>, i: nat)
    requires i < 21
    ensures var ws := Chosen(AkmTable(), flags, i + 1);
            && Meanings(Chosen(AkmTable(), flags, i)) == Added(flags, i) + Meanings(ws)
            && (Known(Chosen(AkmTable(), flags, i)) <==>
                (i in flags && i != PRE_RSN ==> Recognised(i)) && Known(ws))
  {
    MeaningOf(i);
    var ws, w := Chosen(AkmTable(), flags, i + 1), AkmTable()[i];
    if Named(AkmTable(), flags, i) {
      assert Chosen(AkmTable(), flags, i) == [w] + ws;
      MeaningsFirst(w, ws);
      KnownFirst(w, ws);
    } else {
      assert Chosen(AkmTable(), flags, i) == ws;
    }
    hide AkmTable, Meaning, Meanings, Chosen, Known;
  }

  lemma {:induction false} KnownFirst(w: string, ws: seq<string>)
    ensures Known([w] + ws) <==> Meaning(w) != {} && Known(ws)
  {
    hide Meaning;
    if Known([w] + ws) {
      assert ([w] + ws)[0] == w;
      assert forall i :: 0 <= i < |ws| ==> ws[i] == ([w] + ws)[i + 1];
    }
  }

  predicate AllRecognised(flags: set<nat>, i: nat) {
    forall j :: j in flags && i <= j < 21 && j != PRE_RSN ==> Recognised(j)
  }

  lemma {:induction false} ChosenMeaning(flags: set<nat>, i: nat)
    requires i <= 21
    ensures Meanings(Chosen(AkmTable(), flags, i)) == Flags(flags, i)
    ensures Known(Chosen(AkmTable(), flags, i)) <==> AllRecognised(flags, i)
    decreases 21 - i
  {
    hide AkmTable, Meaning, Meanings, Known, Added, Recognised;
    if i < 21 {
      ChosenStep(flags, i);
      FlagsStep(flags, i);
      ChosenMeaning(flags, i + 1);
      hide Flags;
    } else {
      NoWords();
    }
  }

  lemma {:induction false} NoWords()
    ensures Meanings([]) == {} && Known([])
  {
  }

  /** Reading printed suite names back: an error if nothing or an unrecognised suite was printed, and
      otherwise the suites printed, with PRE_RSN exactly when PSK is among them. */
  lemma {:induction false} ParsePrinted(flags: set<nat>)
    ensures Parse(Listed(AkmTable(), flags, 0)) ==
            if AllRecognised(flags, 0) && Flags(flags, 0) != {} then Good(Flags(flags, 0)) else Bad
  {
    hide AkmTable, Words, Meanings, Known, Flags, AllRecognised;
    forall k | 0 <= k < |AkmTable()| ensures Plain(AkmTable()[k]) {
      if k < 11 {
        TablePlainLow(k);
      } else {
        TablePlainHigh(k);
      }
    }
    ListedWords(AkmTable(), flags, 0);
    ChosenMeaning(flags, 0);
  }

  /** The round trip is exact for these flag words and no others. */
  lemma {:induction false} NamesRoundTrip(flags: set<nat>)
    ensures Parse(Listed(AkmTable(), flags, 0)) == Good(flags) <==>
            && (forall j :: j in flags ==> Recognised(j) || j == PRE_RSN)
            && flags != {} && (PRE_RSN in flags <==> PSK in flags)
  {
    ParsePrinted(flags);
    hide Parse, Listed;
    var f := Flags(flags, 0);
    assert forall j :: j in f ==> Recognised(j) || j == PRE_RSN;
    assert PRE_RSN in f <==> PSK in flags;
    if (forall j :: j in flags ==> Recognised(j) || j == PRE_RSN) && (PRE_RSN in flags <==> PSK in flags) {
      assert forall j :: Recognised(j) ==> j < 21;
      assert f == flags;
    }
  }

  /** The words of a text that starts with a word. */
  lemma {:induction false} WordsStep(s: string, n: nat)
    requires 0 < n <= |s| && (forall i :: 0 <= i < n ==> !Blank(s[i])) && (n < |s| ==> Blank(s[n]))
    ensures Words(s) == [s[..n]] + (if n < |s| then Words(s[n + 1..]) else [])
  {
    WordLenIs(s, n);
    if n < |s| {
      assert s[n..][1..] == s[n + 1..];
    }
  }

  lemma {:induction false} BlanksSkipped(s: string, k: nat)
    requires k <= |s| && forall i :: 0 <= i < k ==> Blank(s[i])
    ensures Words(s) == Words(s[k..])
  {
    if k > 0 {
      BlanksSkipped(s[1..], k - 1);
      assert s[1..][k - 1..] == s[k..];
    } else {
      assert s[0..] == s;
    }
  }

  lemma {:induction false} WordRead(done: seq<string>, w: string)
    ensures Meanings(done + [w]) == Meanings(done) + Meaning(w)
    ensures Known(done + [w]) <==> Known(done) && Meaning(w) != {}
  {
    hide Meaning;
    assert (done + [w])[..|done|] == done;
    if Known(done + [w]) {
      assert (done + [w])[|done|] == w;
      assert forall i :: 0 <= i < |done| ==> done[i] == (done + [w])[i];
    }
  }

  /** One word at or after `start`: skip blanks, then find its end. */
  method NextWord(buf: array<char>, start: nat, n: nat) returns (first: nat, end: nat)
    requires start <= n < buf.Length
    ensures start <= first <= end <= n && (first == end <==> first == n)
    ensures Words(buf[start..n]) ==
            if first == n then [] else [buf[first..end]] + (if end < n then Words(buf[end + 1..n]) else [])
  {
    hide Words, WordLen;
    ghost var s := buf[start..n];
    first := start;
    while first < n && Blank(buf[first])
      invariant start <= first <= n
      invariant forall i :: 0 <= i < first - start ==> Blank(s[i])
    {
      first := first + 1;
    }
    end := first;
    while end < n && !Blank(buf[end])
      invariant first <= end <= n && (end == first ==> first == n || !Blank(buf[first]))
      invariant forall i :: first <= i < end ==> !Blank(buf[i])
    {
      end := end + 1;
    }
    BlanksSkipped(s, first - start);
    assert s[first - start..] == buf[first..n];
    if first < n {
      ghost var word := buf[first..n];
      assert forall i :: 0 <= i < |word| ==> word[i] == buf[first + i];
      WordsStep(word, end - first);
      assert buf[first..n][..end - first] == buf[first..end];
      if end < n {
        assert buf[first..n][end - first + 1..] == buf[end + 1..n];
      }
    } else {
      EmptyWords();
      assert buf[first..n] == "";
    }
  }

  lemma {:induction false} EmptyWords()
    ensures Words("") == []
  {
  }

  /** wifi_wpa_parse_key_mgmt, which ends each word with a NUL in place. */
  method ParseKeyMgmt(buf: array<char>) returns (r: Parsed)
    requires NUL in buf[..]
    modifies buf
    ensures r == Parse(CStr(old(buf[..]), 0))
  {
    hide Words, Meaning, Meanings, Known;
    var n := StrLen(buf);
    ghost var all := Words(buf[..n]);
    ghost var done: seq<string>, rest := [], all;
    var val: set<nat>, errors: nat, start: nat := {}, 0, 0;
    NoWords();
    EmptyWords();
    assert buf[0..n] == buf[..n];
    hide CStr;
    while start < n
      invariant start <= n && all == done + rest && rest == Words(buf[start..n])
      invariant val == Meanings(done) && (errors == 0 <==> Known(done))
    {
      var first, end := NextWord(buf, start, n);
      if first == n {
        break;
      }
      var word := buf[first..end];
      rest := if end < n then Words(buf[end + 1..n]) else [];
      ghost var tail := buf[end..n];
      buf[end] := NUL;
      assert end < n ==> buf[end + 1..n] == tail[1..];
      WordRead(done, word);
      done := done + [word];
      if Meaning(word) != {} {
        val := val + Meaning(word);
      } else {
        errors := errors + 1;
      }
      if end == n {
        start := n;
        break;
      }
      start := end + 1;
    }
    assert start == n ==> buf[start..n] == "";
    assert all == done;
    if val == {} {
      errors := errors + 1;
    }
    r := if errors != 0 then Bad else Good(val);
  }
}
