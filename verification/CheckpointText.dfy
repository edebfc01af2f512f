/**
 Checkpoints as text: the JSON object a Kafka job resumes from, the flat ids kept
 in `last_processed_id`, and the parser of both (`_parse_checkpoint`,
 control/app/services/replay_router.py).
 */
module CheckpointText {
  import opened Prelude

  // ---- Decimal numerals ----------------------------------------------------

  predicate IsDigit(c: char) {
    '0' <= c <= '9'
  }

  function Digit(n: nat): (c: char)
    requires n < 10
    ensures IsDigit(c) && DigitValue(c) == n
  {
    '0' + n as char
  }

  function DigitValue(c: char): (n: nat)
    requires IsDigit(c)
    ensures n < 10
  {
    (c - '0') as nat
  }

  function Decimal(n: nat): (s: string)
    ensures s != [] && forall c | c in s :: IsDigit(c)
  {
    if n < 10 then [Digit(n)] else Decimal(n / 10) + [Digit(n % 10)]
  }

  predicate AllDigits(s: string) {
    forall c | c in s :: IsDigit(c)
  }

  function Value(s: string): nat
    requires AllDigits(s)
  {
    if s == [] then 0 else 10 * Value(s[..|s| - 1]) + DigitValue(s[|s| - 1])
  }

  /** `int(s)` on a plain decimal numeral. */
  function ParseInt(s: string): Option<nat> {
    if s != [] && AllDigits(s) then Some(Value(s)) else None
  }

  lemma {:induction false} DecimalParses(n: nat)
    ensures ParseInt(Decimal(n)) == Some(n)
  {
    if n < 10 {
      var none: string := [];
      assert Decimal(n) == [Digit(n)] && Decimal(n)[..0] == none && Value(none) == 0;
    } else {
      DecimalParses(n / 10);
      assert Decimal(n)[..|Decimal(n)| - 1] == Decimal(n / 10);
    }
  }

  // ---- Scanning ------------------------------------------------------------

  /** The longest prefix of digits. */
  function DigitsOf(s: string): (d: string)
    ensures d <= s && AllDigits(d)
  {
    if s == [] || !IsDigit(s[0]) then [] else [s[0]] + DigitsOf(s[1..])
  }

  function SkipSpaces(s: string): (r: string)
    ensures |r| <= |s|
  {
    if s != [] && s[0] in " \t\n\r" then SkipSpaces(s[1..]) else s
  }

  lemma {:induction false} DigitsEnd(d: string, rest: string)
    requires AllDigits(d) && (rest == [] || !IsDigit(rest[0]))
    ensures DigitsOf(d + rest) == d
  {
    if d == [] {
      assert d + rest == rest;
    } else {
      assert (d + rest)[1..] == d[1..] + rest;
      DigitsEnd(d[1..], rest);
    }
  }

  /** `str.split(sep, 1)`. */
  function Split(s: string, sep: char): Option<(string, string)> {
    if s == [] then None
    else if s[0] == sep then Some(([], s[1..]))
    else
      var tail := Split(s[1..], sep);
      if tail.None? then None else Some(([s[0]] + tail.value.0, tail.value.1))
  }

  lemma {:induction false} SplitJoined(a: string, b: string, sep: char)
    requires sep !in a
    ensures Split(a + [sep] + b, sep) == Some((a, b))
  {
    var s := a + [sep] + b;
    if a == [] {
      assert s[1..] == b;
    } else {
      SplitJoined(a[1..], b, sep);
      assert s[1..] == a[1..] + [sep] + b;
      assert a[0] in a && a == [a[0]] + a[1..];
    }
  }

  // ---- Flat ids ------------------------------------------------------------

  /** The id of a Kafka event. */
  function KafkaText(partition: nat, offset: nat): string {
    Decimal(partition) + [':'] + Decimal(offset)
  }

  /** The id of a Redis stream entry. */
  function RedisText(ms: nat, sq: nat): string {
    Decimal(ms) + ['-'] + Decimal(sq)
  }

  function ParsePair(s: string, sep: char): Option<(nat, nat)> {
    var parts := Split(s, sep);
    if parts.None? then None
    else
      var a, b := ParseInt(parts.value.0), ParseInt(parts.value.1);
      if a.Some? && b.Some? then Some((a.value, b.value)) else None
  }

  /** The id XRANGE understands as the start of a range: "ms-seq", or "ms" alone. */
  function ParseStreamId(s: string): Option<(nat, nat)> {
    if '-' in s then ParsePair(s, '-')
    else
      var ms := ParseInt(s);
      if ms.Some? then Some((ms.value, 0)) else None
  }

  // ---- The JSON map --------------------------------------------------------

  /** `"partition": offset`, and the text after it. */
  function Item(partition: nat, offset: nat, rest: string): string {
    ['"'] + (Decimal(partition) + (['"'] + ([':'] + ([' '] + (Decimal(offset) + rest)))))
  }

  /** The items with their separators and the closing brace. */
  function Items(pairs: seq<(nat, nat)>): string
    requires pairs != []
  {
    Item(pairs[0].0, pairs[0].1, if |pairs| == 1 then ['}'] else [','] + ([' '] + Items(pairs[1..])))
  }

  /** `json.dumps` of the checkpoint column, in the order of its items. */
  function Dumps(pairs: seq<(nat, nat)>): string {
    if pairs == [] then "{}" else ['{'] + Items(pairs)
  }

  /** The map with the given items; a later item wins. */
  function MapOf(pairs: seq<(nat, nat)>): map<nat, nat> {
    if pairs == [] then map[]
    else MapOf(pairs[..|pairs| - 1])[pairs[|pairs| - 1].0 := pairs[|pairs| - 1].1]
  }

  /** The text after the character `c`, spaces before it aside. */
  function Expect(s: string, c: char): (r: Option<string>)
    ensures r.Some? ==> |r.value| < |s|
  {
    var t := SkipSpaces(s);
    if t != [] && t[0] == c then Some(t[1..]) else None
  }

  function Number(s: string): (r: Option<(nat, string)>)
    ensures r.Some? ==> |r.value.1| < |s|
  {
    var d := DigitsOf(s);
    if d == [] then None else Some((Value(d), s[|d|..]))
  }

  /** One `"key": value`, and the text after it. */
  function ParseEntry(s: string): (r: Option<((nat, nat), string)>)
    ensures r.Some? ==> |r.value.1| < |s|
  {
    var quoted := Expect(s, '"');
    if quoted.None? then None
    else
      var key := Number(quoted.value);
      if key.None? || key.value.1 == [] || key.value.1[0] != '"' then None
      else
        var colon := Expect(key.value.1[1..], ':');
        if colon.None? then None
        else
          var value := Number(SkipSpaces(colon.value));
          if value.None? then None else Some(((key.value.0, value.value.0), SkipSpaces(value.value.1)))
  }

  /** The items up to the closing brace, which must end the text. */
  function ParseEntries(s: string): Option<seq<(nat, nat)>>
    decreases |s|
  {
    var first := ParseEntry(s);
    if first.None? then None
    else
      var (pair, rest) := first.value;
      if rest != [] && rest[0] == '}' then (if SkipSpaces(rest[1..]) == [] then Some([pair]) else None)
      else if rest != [] && rest[0] == ',' then
        var others := ParseEntries(rest[1..]);
        if others.None? then None else Some([pair] + others.value)
      else None
  }

  function ParseObject(s: string): Option<map<nat, nat>> {
    var s0 := SkipSpaces(s);
    if s0 == [] || s0[0] != '{' then None
    else
      var s1 := SkipSpaces(s0[1..]);
      if s1 != [] && s1[0] == '}' then (if SkipSpaces(s1[1..]) == [] then Some(map[]) else None)
      else
        var pairs := ParseEntries(s0[1..]);
        if pairs.None? then None else Some(MapOf(pairs.value))
  }

  /** `_parse_checkpoint`: an object, else `partition:offset`, else an error. */
  function ParseCheckpoint(s: string): Option<map<nat, nat>> {
    var items := ParseObject(s);
    if items.Some? then items
    else
      var pair := ParsePair(s, ':');
      if pair.Some? then Some(map[pair.value.0 := pair.value.1]) else None
  }

  // ---- Round trips ---------------------------------------------------------

  lemma DecimalIsPlain(n: nat, c: char)
    requires !IsDigit(c)
    ensures c !in Decimal(n) && SkipSpaces(Decimal(n)) == Decimal(n)
  {
    assert Decimal(n)[0] in Decimal(n);
  }

  lemma ExpectHit(c: char, rest: string)
    requires c !in " \t\n\r"
    ensures Expect([c] + rest, c) == Some(rest) && Expect([' '] + ([c] + rest), c) == Some(rest)
  {
    assert ([c] + rest)[1..] == rest && ([' '] + ([c] + rest))[1..] == [c] + rest;
  }

  lemma NumberParses(n: nat, rest: string)
    requires rest == [] || !IsDigit(rest[0])
    ensures Number(Decimal(n) + rest) == Some((n, rest)) && SkipSpaces([' '] + (Decimal(n) + rest)) == Decimal(n) + rest
  {
    DecimalParses(n);
    DigitsEnd(Decimal(n), rest);
    var s := Decimal(n) + rest;
    assert ([' '] + s)[1..] == s && s[|Decimal(n)|..] == rest;
    assert s[0] == Decimal(n)[0] && Decimal(n)[0] in Decimal(n);
  }

  lemma SpaceEnds(s: string)
    requires s != [] && s[0] !in " \t\n\r"
    ensures SkipSpaces(s) == s
  {
  }

  lemma EntryParses(partition: nat, offset: nat, rest: string)
    requires rest != [] && rest[0] in ",}"
    ensures ParseEntry(Item(partition, offset, rest)) == Some(((partition, offset), rest))
    ensures ParseEntry([' '] + Item(partition, offset, rest)) == Some(((partition, offset), rest))
  {
    hide Expect, Number, SkipSpaces, Decimal;
    SpaceEnds(rest);
    var value := Decimal(offset) + rest;
    var colon := [':'] + ([' '] + value);
    var key := Decimal(partition) + (['"'] + colon);
    ExpectHit('"', key);
    NumberParses(partition, ['"'] + colon);
    assert (['"'] + colon)[1..] == colon;
    ExpectHit(':', [' '] + value);
    NumberParses(offset, rest);
  }

  lemma {:induction false} EntriesParse(pairs: seq<(nat, nat)>)
    requires pairs != []
    ensures ParseEntries(Items(pairs)) == Some(pairs) && ParseEntries([' '] + Items(pairs)) == Some(pairs)
  {
    hide ParseEntry, Item;
    var (k, v) := pairs[0];
    if |pairs| == 1 {
      EntryParses(k, v, ['}']);
      assert pairs == [(k, v)];
    } else {
      var tail := [' '] + Items(pairs[1..]);
      EntriesParse(pairs[1..]);
      EntryParses(k, v, [','] + tail);
      assert ([','] + tail)[1..] == tail;
      assert pairs == [(k, v)] + pairs[1..];
    }
  }

  lemma ItemsStart(pairs: seq<(nat, nat)>)
    requires pairs != []
    ensures Items(pairs) != [] && Items(pairs)[0] == '"'
  {
  }

  /** Parsing recovers exactly the map that was stored. */
  lemma MapRoundTrip(pairs: seq<(nat, nat)>)
    ensures ParseCheckpoint(Dumps(pairs)) == Some(MapOf(pairs))
  {
    if pairs != [] {
      var s := Dumps(pairs);
      hide ParseEntries, Items, SkipSpaces, ParsePair, MapOf;
      ItemsStart(pairs);
      SpaceEnds(s);
      assert s[1..] == Items(pairs);
      SpaceEnds(s[1..]);
      EntriesParse(pairs);
    }
  }

  /** ... and exactly the pair that a flat Kafka id names. */
  lemma KafkaIdRoundTrip(partition: nat, offset: nat)
    ensures ParseCheckpoint(KafkaText(partition, offset)) == Some(map[partition := offset])
  {
    var s := KafkaText(partition, offset);
    DecimalParses(partition);
    DecimalParses(offset);
    DecimalIsPlain(partition, ':');
    SplitJoined(Decimal(partition), Decimal(offset), ':');
    assert s[0] == Decimal(partition)[0] && Decimal(partition)[0] in Decimal(partition);
    assert SkipSpaces(s) == s;
  }

  lemma {:induction false} NoSeparator(s: string, sep: char)
    requires sep !in s
    ensures Split(s, sep) == None
  {
    if s != [] {
      NoSeparator(s[1..], sep);
    }
  }

  lemma RedisIdRoundTrip(ms: nat, sq: nat)
    ensures ParseStreamId(RedisText(ms, sq)) == Some((ms, sq))
  {
    DecimalParses(ms);
    DecimalParses(sq);
    DecimalIsPlain(ms, '-');
    SplitJoined(Decimal(ms), Decimal(sq), '-');
    assert RedisText(ms, sq)[|Decimal(ms)|] == '-';
  }

  /** An id of one source is never read as an id of the other: it is an error. */
  lemma NeverMisread(a: nat, b: nat)
    ensures ParseCheckpoint(RedisText(a, b)) == None
    ensures ParseStreamId(KafkaText(a, b)) == None
  {
    DecimalIsPlain(a, ':');
    DecimalIsPlain(b, ':');
    DecimalIsPlain(a, '-');
    DecimalIsPlain(b, '-');
    var redis, kafka := RedisText(a, b), KafkaText(a, b);
    assert redis[0] == Decimal(a)[0] && Decimal(a)[0] in Decimal(a);
    assert SkipSpaces(redis) == redis;
    NoSeparator(redis, ':');
    assert kafka[|Decimal(a)|] == ':';
  }

  lemma Digits(a: nat, b: nat)
    requires 0 < a < 10 && b < 10
    ensures Decimal(b) == [Digit(b)] && Decimal(10 * a + b) == [Digit(a), Digit(b)]
  {
  }

  /** The ids, spelled out ... */
  lemma IdSpellings()
    ensures KafkaText(3, 42) == "3:42" && RedisText(15, 7) == "15-7"
  {
    hide Decimal;
    Digits(4, 2);
    Digits(1, 3);
    Digits(1, 5);
    Digits(1, 7);
  }

  lemma ItemSpelling(p: nat, off: nat, rest: string)
    requires p < 10 && off < 10
    ensures Item(p, off, rest) == ['"', Digit(p), '"', ':', ' ', Digit(off)] + rest
  {
  }

  /** ... and the map. */
  lemma MapSpelling()
    ensures Dumps([(0, 7), (3, 5)]) == "{\"0\": 7, \"3\": 5}"
  {
    hide Item;
    var tail := [(3, 5)];
    ItemSpelling(3, 5, "}");
    assert [(0, 7), (3, 5)][1..] == tail;
    ItemSpelling(0, 7, [','] + ([' '] + Items(tail)));
  }
}
