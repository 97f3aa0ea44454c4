/** The strings under which the cache protocol's entries and flights are kept.
    Server names are lower case, as every caller passes them. */
module CacheKeys {
  import C = CacheProtocol

  // ----------------------------------------------------------------- numbers

  function Digit(d: nat): char
    requires d < 10
  {
    ['0', '1', '2', '3', '4', '5', '6', '7', '8', '9'][d]
  }

  function Decimal(n: nat): string {
    if n < 10 then [Digit(n)] else Decimal(n / 10) + [Digit(n % 10)]
  }

  function Integer(n: int): string {
    if n < 0 then "-" + Decimal(-n) else Decimal(n)
  }

  predicate Plain(s: string) {
    ':' !in s
  }

  lemma {:induction false} DecimalIsDigits(n: nat)
    ensures |Decimal(n)| > 0 && forall i | 0 <= i < |Decimal(n)| :: '0' <= Decimal(n)[i] <= '9'
  {
    if n >= 10 { DecimalIsDigits(n / 10); }
  }

  lemma {:induction false} DecimalIsInjective(m: nat, n: nat)
    requires Decimal(m) == Decimal(n)
    ensures m == n
    decreases m + n
  {
    DecimalIsDigits(m / 10);
    DecimalIsDigits(n / 10);
    var a, b := Decimal(m), Decimal(n);
    if m >= 10 && n >= 10 {
      assert a[..|a| - 1] == Decimal(m / 10) && b[..|b| - 1] == Decimal(n / 10);
      DecimalIsInjective(m / 10, n / 10);
      assert a[|a| - 1] == Digit(m % 10) && b[|b| - 1] == Digit(n % 10);
    }
  }

  lemma SignShows(n: int)
    ensures |Integer(n)| > 0 && (Integer(n)[0] == '-' <==> n < 0)
  {
    if n >= 0 { DecimalIsDigits(n); }
  }

  lemma IntegerIsInjective(m: int, n: int)
    requires Integer(m) == Integer(n)
    ensures m == n
  {
    SignShows(m);
    SignShows(n);
    if m < 0 {
      assert Integer(m)[1..] == Decimal(-m) && Integer(n)[1..] == Decimal(-n);
      DecimalIsInjective(-m, -n);
    } else {
      DecimalIsInjective(m, n);
    }
  }

  lemma IntegerIsPlain(n: int)
    ensures Plain(Integer(n))
  {
    if n < 0 { DecimalIsDigits(-n); } else { DecimalIsDigits(n); }
  }

  // -------------------------------------------------------------------- strings

  /** A part without colons ends at the first colon. */
  lemma FirstPart(a: string, b: string, x: string, y: string)
    requires Plain(a) && Plain(b) && a + ":" + x == b + ":" + y
    ensures a == b && x == y
  {
    var l, r := a + ":" + x, b + ":" + y;
    assert l[|a|] == ':' && forall i | 0 <= i < |a| :: l[i] == a[i];
    assert r[|b|] == ':' && forall i | 0 <= i < |b| :: r[i] == b[i];
    assert |a| == |b|;
    assert l[..|a|] == a && r[..|b|] == b;
    assert l[|a| + 1..] == x && r[|b| + 1..] == y;
  }

  function BaseKey(server: string, event: int): string {
    "haruki:tracker" + ":" + server + ":" + Integer(event) + ":" + "api_cache"
  }

  function Under(server: string, event: int, tail: string): string {
    BaseKey(server, event) + ":" + tail
  }

  /** The part of a key after the fixed head, one colon-free part at a time. */
  lemma UnderSplits(server: string, event: int, tail: string)
    ensures Under(server, event, tail) == "haruki:tracker:" + (server + ":" + (Integer(event) + ":" + ("api_cache" + ":" + tail)))
  {
    assert "haruki:tracker:" == "haruki:tracker" + ":";
  }

  lemma SameHead(head: string, x: string, y: string)
    requires head + x == head + y
    ensures x == y
  {
    assert (head + x)[|head|..] == x && (head + y)[|head|..] == y;
  }

  lemma UnderIsInjective(server: string, event: int, tail: string, server2: string, event2: int, tail2: string)
    requires Plain(server) && Plain(server2) && Under(server, event, tail) == Under(server2, event2, tail2)
    ensures server == server2 && event == event2 && tail == tail2
  {
    hide Under, Integer;
    IntegerIsPlain(event);
    IntegerIsPlain(event2);
    UnderSplits(server, event, tail);
    UnderSplits(server2, event2, tail2);
    var api, api2 := "api_cache" + ":" + tail, "api_cache" + ":" + tail2;
    var rest, rest2 := Integer(event) + ":" + api, Integer(event2) + ":" + api2;
    SameHead("haruki:tracker:", server + ":" + rest, server2 + ":" + rest2);
    FirstPart(server, server2, rest, rest2);
    FirstPart(Integer(event), Integer(event2), api, api2);
    IntegerIsInjective(event, event2);
    SameHead("api_cache" + ":", tail, tail2);
  }

  // --------------------------------------------------------------- cache entries

  function Ending(f: C.Family): string {
    match f
    case Value => ""
    case Gzip => ":gz"
    case Negative => ":not_found"
  }

  function EntryTail(k: C.Key): string {
    ("v" + Integer(k.epoch)) + ":" + (k.suffix + Ending(k.family))
  }

  function EntryKey(server: string, event: int, k: C.Key): string {
    Under(server, event, EntryTail(k))
  }

  predicate EndsWith(s: string, e: string) {
    |e| <= |s| && s[|s| - |e|..] == e
  }

  /** What endpoints use as suffixes. */
  predicate SafeSuffix(s: string) {
    !EndsWith(s, ":gz") && !EndsWith(s, ":not_found")
  }

  /** Two entries share a string exactly if they are of one event and epoch and their
      suffixes with the family endings are one string. */
  lemma EntriesCollideIff(server: string, event: int, k: C.Key, server2: string, event2: int, k2: C.Key)
    requires Plain(server) && Plain(server2)
    ensures EntryKey(server, event, k) == EntryKey(server2, event2, k2)
       <==> server == server2 && event == event2 && k.epoch == k2.epoch && k.suffix + Ending(k.family) == k2.suffix + Ending(k2.family)
  {
    if EntryKey(server, event, k) == EntryKey(server2, event2, k2) {
      UnderIsInjective(server, event, EntryTail(k), server2, event2, EntryTail(k2));
      IntegerIsPlain(k.epoch);
      IntegerIsPlain(k2.epoch);
      var a, b := "v" + Integer(k.epoch), "v" + Integer(k2.epoch);
      FirstPart(a, b, k.suffix + Ending(k.family), k2.suffix + Ending(k2.family));
      assert a[1..] == Integer(k.epoch) && b[1..] == Integer(k2.epoch);
      IntegerIsInjective(k.epoch, k2.epoch);
    }
  }

  lemma EndingOf(s: string, e: string)
    ensures EndsWith(s + e, e)
  {
  }

  /** The key families are pairwise disjoint and every key is its own entry's, for
      suffixes that do not end in a family ending. */
  lemma EntriesAreDisjoint(server: string, event: int, k: C.Key, server2: string, event2: int, k2: C.Key)
    requires Plain(server) && Plain(server2) && SafeSuffix(k.suffix) && SafeSuffix(k2.suffix)
    requires EntryKey(server, event, k) == EntryKey(server2, event2, k2)
    ensures server == server2 && event == event2 && k == k2
  {
    EntriesCollideIff(server, event, k, server2, event2, k2);
    hide EntryKey;
    var t := k.suffix + Ending(k.family);
    EndingOf(k.suffix, Ending(k.family));
    EndingOf(k2.suffix, Ending(k2.family));
    assert k.suffix + "" == k.suffix && k2.suffix + "" == k2.suffix;
    if k.family == k2.family {
      assert t[..|k.suffix|] == k.suffix && t[..|k2.suffix|] == k2.suffix;
    }
  }

  /** Without that proviso they are not: the value of one suffix is the gzip entry
      of another. */
  lemma UnsafeSuffixCollides(server: string, event: int, epoch: nat)
    ensures EntryKey(server, event, C.Key(C.Value, epoch, "lines:gz")) == EntryKey(server, event, C.Key(C.Gzip, epoch, "lines"))
  {
    assert "lines:gz" + "" == "lines" + ":gz";
  }

  /** The read script builds the key that the readers and the write script use. */
  lemma ScriptKeyAgrees(server: string, event: int, epoch: nat, suffix: string)
    ensures BaseKey(server, event) + ":v" + Integer(epoch) + ":" + suffix == EntryKey(server, event, C.Key(C.Value, epoch, suffix))
    ensures BaseKey(server, event) + ":v" + Integer(epoch) + ":" + suffix + ":not_found" == EntryKey(server, event, C.Key(C.Negative, epoch, suffix))
  {
    hide Integer, BaseKey;
    assert ":v" == ":" + "v";
    var a := BaseKey(server, event) + ":v" + Integer(epoch) + ":" + suffix;
    var b := EntryKey(server, event, C.Key(C.Value, epoch, suffix));
    assert a == BaseKey(server, event) + (":" + (("v" + Integer(epoch)) + ":" + suffix));
    assert suffix + "" == suffix;
    assert a + ":not_found" == BaseKey(server, event) + (":" + (("v" + Integer(epoch)) + ":" + (suffix + ":not_found")));
  }

  datatype ControlKey = Epoch | Dirty | Control

  function ControlTail(c: ControlKey): string {
    match c
    case Epoch => "epoch"
    case Dirty => "dirty"
    case Control => "control"
  }

  /** No entry, under any suffix, is stored where the epoch, the dirty mark or the
      local control is, and these three are apart. */
  lemma ControlsAreApart(server: string, event: int, c: ControlKey, server2: string, event2: int, d: ControlKey, k: C.Key)
    requires Plain(server) && Plain(server2)
    ensures Under(server, event, ControlTail(c)) != EntryKey(server2, event2, k)
    ensures Under(server, event, ControlTail(c)) == Under(server2, event2, ControlTail(d)) ==> server == server2 && event == event2 && c == d
  {
    assert EntryTail(k)[0] == 'v';
    if Under(server, event, ControlTail(c)) == EntryKey(server2, event2, k) {
      UnderIsInjective(server, event, ControlTail(c), server2, event2, EntryTail(k));
    }
    if Under(server, event, ControlTail(c)) == Under(server2, event2, ControlTail(d)) {
      UnderIsInjective(server, event, ControlTail(c), server2, event2, ControlTail(d));
      assert ControlTail(c)[0] == ControlTail(d)[0];
    }
  }

  // --------------------------------------------------------------------- flights

  function FlightTag(k: C.FlightKey): string {
    match (k.mode, k.kind)
    case (Identity, DirtyFetch) => "dirty"
    case (Identity, Lookup) => "lookup"
    case (Encoded, DirtyFetch) => "gzip"
    case (Encoded, Lookup) => "gzip_lookup"
  }

  function FlightKey(server: string, event: int, k: C.FlightKey): string {
    Under(server, event, FlightTag(k) + ":" + (("v" + Integer(k.epoch)) + ":" + k.suffix))
  }

  /** Every flight has a string of its own, also under the epoch -1 of lookups that
      have yet to learn the epoch: a waiter joins the flight it means to. */
  lemma FlightsAreDisjoint(server: string, event: int, k: C.FlightKey, server2: string, event2: int, k2: C.FlightKey)
    requires Plain(server) && Plain(server2) && FlightKey(server, event, k) == FlightKey(server2, event2, k2)
    ensures server == server2 && event == event2 && k == k2
  {
    var x, y := ("v" + Integer(k.epoch)) + ":" + k.suffix, ("v" + Integer(k2.epoch)) + ":" + k2.suffix;
    UnderIsInjective(server, event, FlightTag(k) + ":" + x, server2, event2, FlightTag(k2) + ":" + y);
    FirstPart(FlightTag(k), FlightTag(k2), x, y);
    IntegerIsPlain(k.epoch);
    IntegerIsPlain(k2.epoch);
    var a, b := "v" + Integer(k.epoch), "v" + Integer(k2.epoch);
    FirstPart(a, b, k.suffix, k2.suffix);
    assert a[1..] == Integer(k.epoch) && b[1..] == Integer(k2.epoch);
    IntegerIsInjective(k.epoch, k2.epoch);
    TagsDiffer(k, k2);
  }

  lemma TagsDiffer(k: C.FlightKey, k2: C.FlightKey)
    requires FlightTag(k) == FlightTag(k2)
    ensures k.mode == k2.mode && k.kind == k2.kind
  {
    assert |FlightTag(k)| == |FlightTag(k2)|;
    if |FlightTag(k)| == 5 { assert FlightTag(k)[0] == 'd'; }
  }
}
