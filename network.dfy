/**
 * The network settings page: the Wi-Fi signal quality scale, the scan list
 * (sorted by signal, one entry per network name), the prefix length written
 * for a static address, and the hostname check. Running the system commands
 * and reading their output are not modelled: the parsed scan cells are the input.
 */
module Network {
  import opened Common
  import opened SettingsStore

  // ---------------------------------------------------------------------
  // Signal quality
  // ---------------------------------------------------------------------

  /** `min(100, max(0, 2 * (dbm + 100)))`; a cell with no signal level scores 0. */
  function Quality(dbm: Option<int>): (q: int)
    ensures 0 <= q <= 100
  {
    if dbm.None? then 0
    else
      var raw := 2 * (dbm.value + 100);
      if raw < 0 then 0 else if raw > 100 then 100 else raw
  }

  /** The scale: -100 dBm or less is 0 %, -50 dBm or more is 100 %, linear in between; stronger is never worse. */
  lemma QualityScale(dbm: int, stronger: int)
    requires dbm <= stronger
    ensures dbm <= -100 ==> Quality(Some(dbm)) == 0
    ensures dbm >= -50 ==> Quality(Some(dbm)) == 100
    ensures -100 <= dbm <= -50 ==> Quality(Some(dbm)) == 2 * (dbm + 100)
    ensures Quality(Some(dbm)) <= Quality(Some(stronger))
  {
  }

  // ---------------------------------------------------------------------
  // The scan list
  // ---------------------------------------------------------------------

  /** One `Cell` of the scan output: its ESSID, if any, and its signal level in dBm, if any. */
  datatype Cell = Cell(essid: Option<string>, dbm: Option<int>)

  datatype Net = Net(ssid: string, signal: int)

  /** The cells with a non-empty ESSID, in scan order, with their quality. */
  function Scanned(cells: seq<Cell>): (r: seq<Net>)
    ensures forall n :: n in r ==> n.ssid != "" && 0 <= n.signal <= 100
  {
    if cells == [] then []
    else
      var c := cells[0];
      (if Filled(c.essid) then [Net(c.essid.value, Quality(c.dbm))] else []) + Scanned(cells[1..])
  }

  /** Signals never increase along the list. */
  ghost predicate Descending(s: seq<Net>)
  {
    forall i, j :: 0 <= i < j < |s| ==> s[i].signal >= s[j].signal
  }

  /** Insert `n` after every entry at least as strong: ties keep their order. */
  function InsertBySignal(n: Net, s: seq<Net>): seq<Net>
  {
    if s == [] then [n]
    else if n.signal > s[0].signal then [n] + s
    else [s[0]] + InsertBySignal(n, s[1..])
  }

  /** `networks.sort(key=signal, reverse=True)`: a stable sort, strongest first. */
  function SortBySignal(s: seq<Net>): seq<Net>
  {
    if s == [] then [] else InsertBySignal(s[|s| - 1], SortBySignal(s[..|s| - 1]))
  }

  lemma {:induction false} InsertMultiset(n: Net, s: seq<Net>)
    ensures multiset(InsertBySignal(n, s)) == multiset(s) + multiset{n}
  {
    if s != [] && n.signal <= s[0].signal {
      InsertMultiset(n, s[1..]);
      assert s == [s[0]] + s[1..];
    }
  }

  lemma {:induction false} InsertMembers(n: Net, s: seq<Net>, x: Net)
    requires x in InsertBySignal(n, s)
    ensures x == n || x in s
  {
    if s != [] && n.signal <= s[0].signal && x != s[0] {
      InsertMembers(n, s[1..], x);
    }
  }

  lemma {:induction false} InsertDescending(n: Net, s: seq<Net>)
    requires Descending(s)
    ensures Descending(InsertBySignal(n, s))
  {
    if s != [] && n.signal <= s[0].signal {
      var rest := InsertBySignal(n, s[1..]);
      assert Descending(s[1..]);
      InsertDescending(n, s[1..]);
      var r := [s[0]] + rest;
      forall i, j | 0 <= i < j < |r|
        ensures r[i].signal >= r[j].signal
      {
        if i == 0 {
          var x := rest[j - 1];
          InsertMembers(n, s[1..], x);
          if x != n {
            var k :| 0 <= k < |s[1..]| && s[1..][k] == x;
            assert s[k + 1] == x;
          }
        } else {
          assert r[i] == rest[i - 1] && r[j] == rest[j - 1];
        }
      }
    }
  }

  /** The sort keeps every entry, and as many times. */
  lemma {:induction false} SortPermutes(s: seq<Net>)
    ensures multiset(SortBySignal(s)) == multiset(s)
  {
    if s != [] {
      var init := s[..|s| - 1];
      SortPermutes(init);
      InsertMultiset(s[|s| - 1], SortBySignal(init));
      assert s == init + [s[|s| - 1]];
    }
  }

  /** The sort puts the strongest first. */
  lemma {:induction false} SortDescending(s: seq<Net>)
    ensures Descending(SortBySignal(s))
  {
    if s != [] {
      SortDescending(s[..|s| - 1]);
      InsertDescending(s[|s| - 1], SortBySignal(s[..|s| - 1]));
    }
  }

  // ---------------------------------------------------------------------
  // Removing repeated names
  // ---------------------------------------------------------------------

  /** The names in a list. */
  function Ssids(s: seq<Net>): set<string>
  {
    set n | n in s :: n.ssid
  }

  lemma SsidsAppend(s: seq<Net>, n: Net)
    ensures Ssids(s + [n]) == Ssids(s) + {n.ssid}
  {
    assert forall m :: m in s + [n] <==> m in s || m == n;
  }

  /** The first entry for each name, in list order. */
  function Deduped(s: seq<Net>): seq<Net>
  {
    if s == [] then []
    else
      var u := Deduped(s[..|s| - 1]);
      if s[|s| - 1].ssid in Ssids(u) then u else u + [s[|s| - 1]]
  }

  /** Every name in the list is kept. */
  lemma {:induction false} DedupedSsids(s: seq<Net>)
    ensures Ssids(Deduped(s)) == Ssids(s)
  {
    if s != [] {
      var init, last := s[..|s| - 1], s[|s| - 1];
      assert s == init + [last];
      DedupedSsids(init);
      SsidsAppend(init, last);
      SsidsAppend(Deduped(init), last);
    }
  }

  /** Every kept entry comes from the list. */
  lemma {:induction false} DedupedMembers(s: seq<Net>, n: Net)
    requires n in Deduped(s)
    ensures n in s
  {
    var init := s[..|s| - 1];
    if n in Deduped(init) {
      DedupedMembers(init, n);
      assert init <= s;
    }
  }

  /** No name appears twice. */
  ghost predicate DistinctNames(s: seq<Net>)
  {
    forall i, j :: 0 <= i < j < |s| ==> s[i].ssid != s[j].ssid
  }

  /** No name is kept twice. */
  lemma {:induction false} DedupedDistinct(s: seq<Net>)
    ensures DistinctNames(Deduped(s))
  {
    if s != [] {
      var init, last := s[..|s| - 1], s[|s| - 1];
      DedupedDistinct(init);
      var u := Deduped(init);
      assert Deduped(s) == if last.ssid in Ssids(u) then u else u + [last];
      if last.ssid !in Ssids(u) {
        var r := u + [last];
        forall i, j | 0 <= i < j < |r|
          ensures r[i].ssid != r[j].ssid
        {
          assert r[i] == u[i];
          if j == |r| - 1 {
            assert r[j] == last;
            assert u[i] in u;
            assert u[i].ssid in Ssids(u);
          } else {
            assert r[j] == u[j];
          }
        }
      }
    }
  }

  /** Dropping entries keeps a descending list descending. */
  lemma {:induction false} DedupedDescending(s: seq<Net>)
    requires Descending(s)
    ensures Descending(Deduped(s))
  {
    if s != [] {
      var init, last := s[..|s| - 1], s[|s| - 1];
      assert Descending(init);
      DedupedDescending(init);
      var u := Deduped(init);
      if last.ssid !in Ssids(u) {
        var r := u + [last];
        assert Deduped(s) == r;
        forall i, j | 0 <= i < j < |r|
          ensures r[i].signal >= r[j].signal
        {
          assert r[i] == u[i];
          if j == |r| - 1 {
            DedupedMembers(init, u[i]);
            var k :| 0 <= k < |init| && init[k] == u[i];
            assert s[k] == u[i];
          } else {
            assert r[j] == u[j];
          }
        }
      }
    }
  }

  /** In a descending list, the entry kept for a name is its strongest. */
  lemma {:induction false} DedupedKeepsStrongest(s: seq<Net>, kept: Net, other: Net)
    requires Descending(s) && kept in Deduped(s) && other in s && other.ssid == kept.ssid
    ensures kept.signal >= other.signal
  {
    var init, last := s[..|s| - 1], s[|s| - 1];
    var u := Deduped(init);
    assert s == init + [last];
    assert Descending(init);
    if kept in u {
      DedupedMembers(init, kept);
      if other in init {
        DedupedKeepsStrongest(init, kept, other);
      } else {
        var k :| 0 <= k < |init| && init[k] == kept;
        assert s[k] == kept && s[|s| - 1] == other;
      }
    } else {
      DedupedSsids(init);
      assert kept == last && kept.ssid !in Ssids(init);
      assert forall m :: m in init ==> m.ssid in Ssids(init);
      assert other !in init;
    }
  }

  /** The dedupe loop, with its `seen_ssids` set. */
  method DedupeNetworks(networks: seq<Net>) returns (unique: seq<Net>)
    ensures unique == Deduped(networks)
  {
    unique := [];
    var seen: set<string> := {};
    var i := 0;
    while i < |networks|
      invariant 0 <= i <= |networks|
      invariant unique == Deduped(networks[..i])
      invariant seen == Ssids(unique)
    {
      var network := networks[i];
      assert networks[..i + 1] == networks[..i] + [network];
      if network.ssid !in seen {
        SsidsAppend(unique, network);
        unique := unique + [network];
        seen := seen + {network.ssid};
      }
      i := i + 1;
    }
    assert networks[..i] == networks;
  }

  /** The list shown when not on a Raspberry Pi. */
  const MOCK_NETWORKS := [Net("Home Network", 90), Net("Neighbor Network", 65), Net("Guest Network", 45)]

  /** `_scan_wifi_networks`: the scanned cells (or the fixed list off the Pi), strongest first, one entry per name. */
  function ScanResult(onPi: bool, cells: seq<Cell>): seq<Net>
  {
    Deduped(SortBySignal(if onPi then Scanned(cells) else MOCK_NETWORKS))
  }

  /** Sorting and then dropping repeated names: strongest first, each name once, every name kept at its strongest, nothing added. */
  lemma SortedDedupedRules(s: seq<Net>)
    ensures var r := Deduped(SortBySignal(s));
      && Descending(r)
      && DistinctNames(r)
      && Ssids(r) == Ssids(s)
      && (forall n :: n in r ==> n in s)
      && (forall n, m :: n in r && m in s && m.ssid == n.ssid ==> n.signal >= m.signal)
  {
    var sorted := SortBySignal(s);
    var r := Deduped(sorted);
    SortDescending(s);
    SortPermutes(s);
    DedupedDescending(sorted);
    DedupedDistinct(sorted);
    DedupedSsids(sorted);
    assert forall n :: n in sorted <==> n in s by {
      forall n
        ensures n in sorted <==> n in s
      {
        assert n in sorted <==> n in multiset(sorted);
        assert n in s <==> n in multiset(s);
      }
    }
    forall n | n in r
      ensures n in s
    {
      DedupedMembers(sorted, n);
    }
    forall n, m | n in r && m in s && m.ssid == n.ssid
      ensures n.signal >= m.signal
    {
      DedupedKeepsStrongest(sorted, n, m);
    }
  }

  /** The scanned list as shown: strongest first, each name once, every scanned name at its strongest, and nothing that was not scanned. */
  lemma ScanListRules(cells: seq<Cell>)
    ensures var r := ScanResult(true, cells);
      && Descending(r)
      && DistinctNames(r)
      && Ssids(r) == Ssids(Scanned(cells))
      && (forall n :: n in r ==> n in Scanned(cells))
      && (forall n, m :: n in r && m in Scanned(cells) && m.ssid == n.ssid ==> n.signal >= m.signal)
  {
    SortedDedupedRules(Scanned(cells));
  }

  /** `_scan_wifi_networks` with the list sorted and then filtered by the loop. */
  method ScanWifiNetworks(onPi: bool, cells: seq<Cell>) returns (unique: seq<Net>)
    ensures unique == ScanResult(onPi, cells)
  {
    var networks := if onPi then Scanned(cells) else MOCK_NETWORKS;
    networks := SortBySignal(networks);
    unique := DedupeNetworks(networks);
  }

  // ---------------------------------------------------------------------
  // Prefix length of a subnet mask
  // ---------------------------------------------------------------------

  /** `bin(n).count('1')` for a natural number. */
  function PopCount(n: nat): nat
  {
    if n == 0 then 0 else n % 2 + PopCount(n / 2)
  }

  /** `int(x)` for each part, `None` where it raises. */
  function ParseAll(parts: seq<string>): (r: seq<Option<int>>)
    ensures |r| == |parts|
  {
    if parts == [] then [] else [ParseInt(parts[0])] + ParseAll(parts[1..])
  }

  function Magnitude(x: int): nat
  {
    if x < 0 then -x else x
  }

  /** `sum(bin(x).count('1') for x in ...)`; `bin` of a negative number shows its magnitude; `None` when some `int()` raised. */
  function OnesOf(xs: seq<Option<int>>): Option<nat>
  {
    if xs == [] then Some(0)
    else if xs[0].None? then None
    else
      var rest := OnesOf(xs[1..]);
      if rest.None? then None else Some(PopCount(Magnitude(xs[0].value)) + rest.value)
  }

  /** The prefix length written into `dhcpcd.conf` for a subnet mask. */
  function PrefixLength(mask: string): Option<nat>
  {
    OnesOf(ParseAll(Split(mask, '.')))
  }

  function Pow2(n: nat): (r: nat)
    ensures r >= 1
  {
    if n == 0 then 1 else 2 * Pow2(n - 1)
  }

  /** The `w`-bit number whose `b` highest bits are one and the others zero. */
  function LeadingOnes(b: nat, w: nat): nat
    requires b <= w
  {
    if w == 0 then 0
    else if b == w then 2 * LeadingOnes(b - 1, w - 1) + 1
    else 2 * LeadingOnes(b, w - 1)
  }

  /** It is `2^w - 2^(w-b)`: the `b` highest of `w` bits set. */
  lemma {:induction false} LeadingOnesValue(b: nat, w: nat)
    requires b <= w
    ensures LeadingOnes(b, w) == Pow2(w) - Pow2(w - b)
  {
    if w > 0 {
      if b == w {
        LeadingOnesValue(b - 1, w - 1);
      } else {
        LeadingOnesValue(b, w - 1);
      }
    }
  }

  lemma PopCountStep(x: nat, bit: nat)
    requires bit <= 1
    ensures PopCount(2 * x + bit) == PopCount(x) + bit
  {
    assert (2 * x + bit) % 2 == bit && (2 * x + bit) / 2 == x;
  }

  /** It has `b` one bits. */
  lemma {:induction false} LeadingOnesBits(b: nat, w: nat)
    requires b <= w
    ensures PopCount(LeadingOnes(b, w)) == b
  {
    if w > 0 {
      if b == w {
        LeadingOnesBits(b - 1, w - 1);
        PopCountStep(LeadingOnes(b - 1, w - 1), 1);
      } else {
        LeadingOnesBits(b, w - 1);
        PopCountStep(LeadingOnes(b, w - 1), 0);
      }
    }
  }

  /** How many of a `p`-bit prefix's ones fall in octet `i`. */
  function OnesInOctet(p: nat, i: nat): (b: nat)
    ensures b <= 8
  {
    if p <= 8 * i then 0 else if p - 8 * i >= 8 then 8 else p - 8 * i
  }

  /** Numbers as decimal texts. */
  function Texts(ns: seq<nat>): (r: seq<string>)
    ensures |r| == |ns| && forall i :: 0 <= i < |r| ==> r[i] == NatToString(ns[i])
  {
    if ns == [] then [] else [NatToString(ns[0])] + Texts(ns[1..])
  }

  /** The one bits of all the numbers together. */
  function Ones(ns: seq<nat>): nat
  {
    if ns == [] then 0 else PopCount(ns[0]) + Ones(ns[1..])
  }

  /** The octets of the contiguous mask with a `p`-bit prefix. */
  function MaskOctets(p: nat): seq<nat>
  {
    [LeadingOnes(OnesInOctet(p, 0), 8), LeadingOnes(OnesInOctet(p, 1), 8),
     LeadingOnes(OnesInOctet(p, 2), 8), LeadingOnes(OnesInOctet(p, 3), 8)]
  }

  /** The dotted text of the contiguous mask with a `p`-bit prefix. */
  function MaskText(p: nat): string
  {
    Join(Texts(MaskOctets(p)), '.')
  }

  lemma NoPointInNumber(n: nat)
    ensures '.' !in NatToString(n)
  {
  }

  /** Numbers as the results of a successful `int()`. */
  function AsInts(ns: seq<nat>): seq<Option<int>>
  {
    if ns == [] then [] else [Some(ns[0] as int)] + AsInts(ns[1..])
  }

  lemma ParseStep(parts: seq<string>, x: int)
    requires parts != [] && ParseInt(parts[0]) == Some(x)
    ensures ParseAll(parts) == [Some(x)] + ParseAll(parts[1..])
  {
  }

  /** Reading the texts of numbers back gives the numbers. */
  lemma {:induction false} ParseTexts(ns: seq<nat>)
    ensures ParseAll(Texts(ns)) == AsInts(ns)
  {
    if ns != [] {
      var t := Texts(ns);
      assert t[1..] == Texts(ns[1..]);
      ParseTexts(ns[1..]);
      ParseIntOfNat(ns[0]);
      ParseStep(t, ns[0]);
    }
  }

  lemma {:induction false} OnesOfInts(ns: seq<nat>)
    ensures OnesOf(AsInts(ns)) == Some(Ones(ns))
  {
    if ns != [] {
      OnesOfInts(ns[1..]);
      assert AsInts(ns)[1..] == AsInts(ns[1..]);
    }
  }

  /** The dotted text of some numbers splits back into their texts and counts their one bits. */
  lemma PrefixOfNumbers(ns: seq<nat>)
    requires |ns| >= 1
    ensures PrefixLength(Join(Texts(ns), '.')) == Some(Ones(ns))
  {
    var parts := Texts(ns);
    forall i | 0 <= i < |parts|
      ensures '.' !in parts[i]
    {
      NoPointInNumber(ns[i]);
    }
    SplitJoin(parts, '.');
    ParseTexts(ns);
    OnesOfInts(ns);
  }

  /** The four octets share out the `p` prefix bits. */
  lemma OctetShares(p: nat)
    requires p <= 32
    ensures OnesInOctet(p, 0) + OnesInOctet(p, 1) + OnesInOctet(p, 2) + OnesInOctet(p, 3) == p
  {
  }

  lemma OnesOfFour(a: nat, b: nat, c: nat, d: nat)
    ensures Ones([a, b, c, d]) == PopCount(a) + PopCount(b) + PopCount(c) + PopCount(d)
  {
    assert Ones([d]) == PopCount(d) by {
      assert [d][1..] == [];
    }
    assert Ones([c, d]) == PopCount(c) + Ones([d]) by {
      assert [c, d][1..] == [d];
    }
    assert Ones([b, c, d]) == PopCount(b) + Ones([c, d]) by {
      assert [b, c, d][1..] == [c, d];
    }
    assert [a, b, c, d][1..] == [b, c, d];
  }

  /** The prefix length of the dotted mask for a `p`-bit prefix is `p`. */
  lemma PrefixOfContiguousMask(p: nat)
    requires p <= 32
    ensures PrefixLength(MaskText(p)) == Some(p)
  {
    var b0, b1, b2, b3 := OnesInOctet(p, 0), OnesInOctet(p, 1), OnesInOctet(p, 2), OnesInOctet(p, 3);
    PrefixOfNumbers(MaskOctets(p));
    LeadingOnesBits(b0, 8);
    LeadingOnesBits(b1, 8);
    LeadingOnesBits(b2, 8);
    LeadingOnesBits(b3, 8);
    OnesOfFour(LeadingOnes(b0, 8), LeadingOnes(b1, 8), LeadingOnes(b2, 8), LeadingOnes(b3, 8));
    OctetShares(p);
  }

  /** A number below `2^width` has at most `width` one bits. */
  lemma {:induction false} OctetOnes(n: nat, width: nat)
    requires n < Pow2(width)
    ensures PopCount(n) <= width
  {
    if n > 0 {
      OctetOnes(n / 2, width - 1);
    }
  }

  /** Numbers below 256 have at most eight one bits each. */
  lemma {:induction false} OnesOfOctets(ns: seq<nat>)
    requires forall i :: 0 <= i < |ns| ==> ns[i] < 256
    ensures Ones(ns) <= 8 * |ns|
  {
    if ns != [] {
      assert Pow2(8) == 256;
      OctetOnes(ns[0], 8);
      OnesOfOctets(ns[1..]);
    }
  }

  /** A dotted text of octets has a prefix length of at most eight per octet: 32 for a four-octet mask. */
  lemma PrefixOfOctetsBounded(ns: seq<nat>)
    requires |ns| >= 1 && forall i :: 0 <= i < |ns| ==> ns[i] < 256
    ensures var r := PrefixLength(Join(Texts(ns), '.'));
      r.Some? && r.value <= 8 * |ns|
  {
    PrefixOfNumbers(ns);
    OnesOfOctets(ns);
  }

  // ---------------------------------------------------------------------
  // Hostname
  // ---------------------------------------------------------------------

  predicate HostChar(c: char)
  {
    IsAlpha(c) || IsDigit(c) || c == '-'
  }

  /** One or more letters, digits and hyphens, and nothing else. */
  predicate ValidHostname(h: string)
  {
    |h| >= 1 && forall i :: 0 <= i < |h| ==> HostChar(h[i])
  }

  /**
   * `hostname and re.match(r'^[a-zA-Z0-9-]+$', hostname)` as written: `$` also
   * matches just before a newline that ends the text, so one trailing newline
   * passes the check.
   */
  predicate HostnameAcceptedAsWritten(h: string)
  {
    ValidHostname(h) || (|h| >= 2 && h[|h| - 1] == '\n' && ValidHostname(h[..|h| - 1]))
  }

  /** Any valid hostname followed by a newline passes the check as written but is not a valid hostname. */
  lemma TrailingNewlinePasses(h: string)
    requires ValidHostname(h)
    ensures HostnameAcceptedAsWritten(h + "\n")
    ensures !ValidHostname(h + "\n")
  {
    assert (h + "\n")[..|h|] == h;
    assert !HostChar((h + "\n")[|h|]);
  }

  /** The corrected check accepts exactly the texts of letters, digits and hyphens, and only those pass as written too. */
  lemma CorrectedCheckIsStricter(h: string)
    ensures ValidHostname(h) ==> HostnameAcceptedAsWritten(h)
    ensures HostnameAcceptedAsWritten(h) && !ValidHostname(h) ==> h[|h| - 1] == '\n' && ValidHostname(h[..|h| - 1])
    ensures ValidHostname(h) ==> '\n' !in h && ' ' !in h && '.' !in h
  {
  }

  datatype HostnameReply = HostnameUpdated | SystemUpdateFailed | InvalidHostname

  /**
   * The hostname form: a valid name is saved to the settings first, then handed
   * to the system commands, whose success is `systemOk`.
   */
  method UpdateHostname(store: Store, hostname: Option<string>, systemOk: bool) returns (reply: HostnameReply)
    modifies store
    ensures hostname.Some? && ValidHostname(hostname.value) ==>
      store.values == old(store.values)["hostname" := Text(hostname.value)]
      && reply == (if systemOk then HostnameUpdated else SystemUpdateFailed)
    ensures !(hostname.Some? && ValidHostname(hostname.value)) ==> store.values == old(store.values) && reply == InvalidHostname
    ensures store.profiles == old(store.profiles) && store.incompatibilities == old(store.incompatibilities)
  {
    if hostname.Some? && ValidHostname(hostname.value) {
      store.Set("hostname", Text(hostname.value));
      reply := if systemOk then HostnameUpdated else SystemUpdateFailed;
    } else {
      reply := InvalidHostname;
    }
  }
}
