/** The quote record and its `ticker|price|volume|timestamp` text form (src/stock_quote.rs). */
module StockQuotes {
  import opened Defs
  import opened Text
  import Decimal

  datatype StockQuote<+P> = StockQuote(ticker: string, price: P, volume: u32, timestamp: u64)

  /** How prices are written and read. The floating point text form itself stays abstract. */
  datatype PriceText<!P> = PriceText(show: P -> string, read: string -> Option<P>)

  /** A price whose printed form reads back to it and cannot be mistaken for a field separator. */
  ghost predicate PriceRoundTrips<P>(form: PriceText<P>, price: P) {
    form.read(form.show(price)) == Some(price) && '|' !in form.show(price)
  }

  function Fields<P>(q: StockQuote<P>, form: PriceText<P>): (fields: seq<string>)
    ensures |fields| == 4
  {
    [q.ticker, form.show(q.price), Decimal.Print(q.volume), Decimal.Print(q.timestamp)]
  }

  /** `Display::fmt`. */
  function ToString<P>(q: StockQuote<P>, form: PriceText<P>): string {
    q.ticker + "|" + form.show(q.price) + "|" + Decimal.Print(q.volume) + "|" + Decimal.Print(q.timestamp)
  }

  /** `StockQuote::from_string`. */
  function FromString<P>(s: string, form: PriceText<P>): Option<StockQuote<P>> {
    var parts := Split(s, '|');
    if |parts| == 4 then
      match form.read(parts[1])
      case None => None
      case Some(price) =>
        match Decimal.Parse(parts[2], U32_BOUND)
        case None => None
        case Some(volume) =>
          match Decimal.Parse(parts[3], U64_BOUND)
          case None => None
          case Some(timestamp) =>
            Decimal.ParseAccepts(parts[2], U32_BOUND, volume);
            Decimal.ParseAccepts(parts[3], U64_BOUND, timestamp);
            Some(StockQuote(parts[0], price, volume, timestamp))
    else None
  }

  lemma JoinFour(a: string, b: string, c: string, d: string, sep: char)
    ensures Join([a, b, c, d], sep) == a + [sep] + b + [sep] + c + [sep] + d
  {
    assert [a, b, c, d][1..] == [b, c, d] && [b, c, d][1..] == [c, d] && [c, d][1..] == [d];
    assert Join([c, d], sep) == c + [sep] + d;
    assert Join([b, c, d], sep) == b + [sep] + Join([c, d], sep);
    assert Join([a, b, c, d], sep) == a + [sep] + Join([b, c, d], sep);
  }

  lemma ToStringJoins<P>(q: StockQuote<P>, form: PriceText<P>)
    ensures ToString(q, form) == Join(Fields(q, form), '|')
  {
    JoinFour(q.ticker, form.show(q.price), Decimal.Print(q.volume), Decimal.Print(q.timestamp), '|');
  }

  /** The text is four separator-free fields of which the last three denote the quote's numbers. */
  ghost predicate Spells<P>(s: string, q: StockQuote<P>, form: PriceText<P>,
                            price: string, volume: string, timestamp: string) {
    && s == q.ticker + "|" + price + "|" + volume + "|" + timestamp
    && '|' !in q.ticker && '|' !in price && '|' !in volume && '|' !in timestamp
    && form.read(price) == Some(q.price)
    && Decimal.Denotes(volume, q.volume)
    && Decimal.Denotes(timestamp, q.timestamp)
  }

  /** Exactly which texts parse, and to what. */
  lemma ParserAccepts<P>(s: string, q: StockQuote<P>, form: PriceText<P>)
    ensures FromString(s, form) == Some(q) <==> exists p, v, t :: Spells(s, q, form, p, v, t)
  {
    var parts := Split(s, '|');
    if FromString(s, form) == Some(q) {
      Decimal.ParseAccepts(parts[2], U32_BOUND, q.volume);
      Decimal.ParseAccepts(parts[3], U64_BOUND, q.timestamp);
      JoinFour(parts[0], parts[1], parts[2], parts[3], '|');
      assert parts == [parts[0], parts[1], parts[2], parts[3]];
      assert Spells(s, q, form, parts[1], parts[2], parts[3]);
    }
    if exists p, v, t :: Spells(s, q, form, p, v, t) {
      var p, v, t :| Spells(s, q, form, p, v, t);
      JoinFour(q.ticker, p, v, t, '|');
      SplitJoin([q.ticker, p, v, t], '|');
      Decimal.ParseAccepts(v, U32_BOUND, q.volume);
      Decimal.ParseAccepts(t, U64_BOUND, q.timestamp);
    }
  }

  lemma ExampleVolume()
    ensures Decimal.Denotes("100", 100)
  {
    hide Decimal.Value, Decimal.Power;
    Decimal.OneMoreDigit("", '1');
    Decimal.TrailingZeros("1", "00");
    Decimal.SomePowers();
    assert "" + ['1'] == "1" && "1" + "00" == "100";
  }

  lemma ExampleTimestamp()
    ensures Decimal.Denotes("1700000000000", 1700000000000)
  {
    hide Decimal.Value, Decimal.Power;
    Decimal.OneMoreDigit("", '1');
    Decimal.OneMoreDigit("1", '7');
    Decimal.TrailingZeros("17", "00000000000");
    Decimal.SomePowers();
    assert "" + ['1'] == "1" && "1" + ['7'] == "17" && "17" + "00000000000" == "1700000000000";
  }

  /** The example of the documentation. */
  lemma DocumentedExample<P>(form: PriceText<P>, price: P)
    requires form.read("123.45") == Some(price)
    ensures FromString("AAPL|123.45|100|1700000000000", form) == Some(StockQuote("AAPL", price, 100, 1700000000000))
  {
    hide Decimal.Denotes, FromString;
    var q := StockQuote("AAPL", price, 100, 1700000000000);
    var s := "AAPL|123.45|100|1700000000000";
    ExampleVolume();
    ExampleTimestamp();
    assert s == "AAPL" + "|" + "123.45" + "|" + "100" + "|" + "1700000000000";
    assert Spells(s, q, form, "123.45", "100", "1700000000000");
    ParserAccepts(s, q, form);
  }

  lemma {:induction false} SeparatorsAreSplits(s: string, sep: char)
    ensures |Split(s, sep)| == multiset(s)[sep] + 1
  {
    if s != [] {
      assert s == [s[0]] + s[1..];
      SeparatorsAreSplits(s[1..], sep);
    }
  }

  lemma CountConcat(a: string, b: string, sep: char)
    ensures multiset(a + b)[sep] == multiset(a)[sep] + multiset(b)[sep]
  {
  }

  lemma {:induction false} JoinAddsSeparators(parts: seq<string>, sep: char)
    requires |parts| >= 1
    ensures multiset(Join(parts, sep))[sep] >= multiset(parts[0])[sep] + |parts| - 1
  {
    if |parts| > 1 {
      JoinAddsSeparators(parts[1..], sep);
      CountConcat(parts[0] + [sep], Join(parts[1..], sep), sep);
      CountConcat(parts[0], [sep], sep);
    }
  }

  /** A separator inside the ticker makes the printed text unreadable. */
  lemma SeparatorInTickerIsRejected<P>(q: StockQuote<P>, form: PriceText<P>)
    requires '|' in q.ticker
    ensures FromString(ToString(q, form), form) == None
  {
    ToStringJoins(q, form);
    JoinAddsSeparators(Fields(q, form), '|');
    SeparatorsAreSplits(ToString(q, form), '|');
  }

  lemma CleanTickerRoundTrips<P>(q: StockQuote<P>, form: PriceText<P>)
    requires PriceRoundTrips(form, q.price) && '|' !in q.ticker
    ensures FromString(ToString(q, form), form) == Some(q)
  {
    Decimal.PrintParse(q.volume, U32_BOUND);
    Decimal.PrintParse(q.timestamp, U64_BOUND);
    ToStringJoins(q, form);
    SplitJoin(Fields(q, form), '|');
  }

  /** A printed quote reads back as itself exactly when its ticker holds no separator;
      otherwise the printed text is rejected, never misread. */
  lemma TextRoundTrip<P>(q: StockQuote<P>, form: PriceText<P>)
    requires PriceRoundTrips(form, q.price)
    ensures FromString(ToString(q, form), form) == if '|' in q.ticker then None else Some(q)
  {
    if '|' in q.ticker {
      SeparatorInTickerIsRejected(q, form);
    } else {
      CleanTickerRoundTrips(q, form);
    }
  }

  /** Whatever text was accepted, printing the parsed quote and parsing again changes nothing. */
  lemma ReparseIsStable<P>(s: string, form: PriceText<P>)
    requires FromString(s, form).Some?
    requires PriceRoundTrips(form, FromString(s, form).value.price)
    ensures FromString(ToString(FromString(s, form).value, form), form) == FromString(s, form)
  {
    var q := FromString(s, form).value;
    ParserAccepts(s, q, form);
    TextRoundTrip(q, form);
  }

  /** Printing is injective on quotes with separator-free tickers. */
  lemma PrintingIsInjective<P>(a: StockQuote<P>, b: StockQuote<P>, form: PriceText<P>)
    requires PriceRoundTrips(form, a.price) && PriceRoundTrips(form, b.price)
    requires '|' !in a.ticker && '|' !in b.ticker
    requires ToString(a, form) == ToString(b, form)
    ensures a == b
  {
    TextRoundTrip(a, form);
    TextRoundTrip(b, form);
  }

  // ----- bytes -----

  type byte = x: nat | x < 256

  /** UTF-8 encoding of one scalar value. */
  function EncodeChar(c: char): (bytes: seq<byte>)
    ensures 1 <= |bytes| <= 4
  {
    var n := c as int;
    if n < 0x80 then [n]
    else if n < 0x800 then [0xC0 + n / 0x40, 0x80 + n % 0x40]
    else if n < 0x10000 then [0xE0 + n / 0x1000, 0x80 + n / 0x40 % 0x40, 0x80 + n % 0x40]
    else [0xF0 + n / 0x40000, 0x80 + n / 0x1000 % 0x40, 0x80 + n / 0x40 % 0x40, 0x80 + n % 0x40]
  }

  /** `str::as_bytes`. */
  function AsBytes(s: string): seq<byte> {
    if s == [] then [] else EncodeChar(s[0]) + AsBytes(s[1..])
  }

  /** A continuation byte of UTF-8 carries six bits. */
  predicate Continues(b: byte) {
    0x80 <= b < 0xC0
  }

  function Low(b: byte): nat
    requires Continues(b)
  {
    b as int - 0x80
  }

  /** The first code point of some bytes, and how many bytes it takes (section 3 of RFC 3629). */
  function DecodeFirst(bytes: seq<byte>): Option<(nat, nat)> {
    if bytes == [] then None
    else if bytes[0] < 0x80 then Some((bytes[0], 1))
    else if 0xC0 <= bytes[0] < 0xE0 && |bytes| >= 2 && Continues(bytes[1]) then
      Some(((bytes[0] as int - 0xC0) * 64 + Low(bytes[1]), 2))
    else if 0xE0 <= bytes[0] < 0xF0 && |bytes| >= 3 && Continues(bytes[1]) && Continues(bytes[2]) then
      Some((((bytes[0] as int - 0xE0) * 64 + Low(bytes[1])) * 64 + Low(bytes[2]), 3))
    else if 0xF0 <= bytes[0] < 0xF8 && |bytes| >= 4
            && Continues(bytes[1]) && Continues(bytes[2]) && Continues(bytes[3]) then
      Some(((((bytes[0] as int - 0xF0) * 64 + Low(bytes[1])) * 64 + Low(bytes[2])) * 64 + Low(bytes[3]), 4))
    else None
  }

  /** The code points of some bytes. */
  function Decode(bytes: seq<byte>): Option<seq<nat>> {
    if bytes == [] then Some([])
    else
      match DecodeFirst(bytes)
      case None => None
      case Some((code, n)) =>
        if n == 0 || n > |bytes| then None
        else
          match Decode(bytes[n..])
          case None => None
          case Some(rest) => Some([code] + rest)
  }

  function CodePoints(s: string): seq<nat> {
    seq(|s|, i requires 0 <= i < |s| => s[i] as nat)
  }

  lemma DecodeOne(c: char, rest: seq<byte>)
    ensures DecodeFirst(EncodeChar(c) + rest) == Some((c as nat, |EncodeChar(c)|))
  {
    var n := c as nat;
    var bytes := EncodeChar(c) + rest;
    assert n == n / 0x40 * 0x40 + n % 0x40;
    assert n / 0x40 == n / 0x1000 * 0x40 + n / 0x40 % 0x40;
    assert n / 0x1000 == n / 0x40000 * 0x40 + n / 0x1000 % 0x40;
  }

  /** The bytes of a text are its UTF-8 form: decoding them gives every code point back, in order. */
  lemma {:induction false} DecodeInverts(s: string)
    ensures Decode(AsBytes(s)) == Some(CodePoints(s))
  {
    if s == [] {
      assert CodePoints(s) == [];
    } else {
      hide EncodeChar, DecodeFirst;
      var bytes := AsBytes(s);
      DecodeOne(s[0], AsBytes(s[1..]));
      DecodeInverts(s[1..]);
      assert bytes[|EncodeChar(s[0])|..] == AsBytes(s[1..]);
      assert CodePoints(s) == [s[0] as nat] + CodePoints(s[1..]);
    }
  }

  /** ASCII text is its own bytes. */
  lemma {:induction false} AsciiIsItself(s: string)
    requires forall i | 0 <= i < |s| :: s[i] as int < 0x80
    ensures AsBytes(s) == CodePoints(s)
  {
    if s == [] {
      assert CodePoints(s) == [];
    } else {
      AsciiIsItself(s[1..]);
      assert CodePoints(s) == [s[0] as nat] + CodePoints(s[1..]);
    }
  }

  lemma {:induction false} AsBytesConcat(a: string, b: string)
    ensures AsBytes(a + b) == AsBytes(a) + AsBytes(b)
  {
    if a == [] {
      assert a + b == b;
    } else {
      assert (a + b)[1..] == a[1..] + b;
      AsBytesConcat(a[1..], b);
    }
  }

  lemma BytesOfJoin(front: string, field: string)
    ensures AsBytes(front + "|" + field) == AsBytes(front) + [124] + AsBytes(field)
  {
    AsBytesConcat(front + "|", field);
    AsBytesConcat(front, "|");
    assert "|"[1..] == "";
  }

  /** `StockQuote::to_bytes`: the second printer builds the bytes of the first one's text. */
  method ToBytes<P>(q: StockQuote<P>, form: PriceText<P>) returns (bytes: seq<byte>)
    ensures bytes == AsBytes(ToString(q, form))
  {
    bytes := [];
    bytes := bytes + AsBytes(q.ticker);
    assert bytes == AsBytes(q.ticker);
    bytes := AppendField(bytes, q.ticker, form.show(q.price));
    ghost var two := q.ticker + "|" + form.show(q.price);
    bytes := AppendField(bytes, two, Decimal.Print(q.volume));
    ghost var three := two + "|" + Decimal.Print(q.volume);
    bytes := AppendField(bytes, three, Decimal.Print(q.timestamp));
  }

  /** One separator push followed by one `extend_from_slice`. */
  method AppendField(front: seq<byte>, ghost text: string, field: string) returns (bytes: seq<byte>)
    requires front == AsBytes(text)
    ensures bytes == AsBytes(text + "|" + field)
  {
    bytes := front + [124];
    bytes := bytes + AsBytes(field);
    BytesOfJoin(text, field);
  }
}
