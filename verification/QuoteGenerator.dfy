/** The random walk over the quote table (src/quote_generator.rs). Sampling is an input. */
module QuoteGenerators {
  import opened Defs
  import opened StockQuotes

  type Quote = StockQuote<real>
  type Table = map<string, Quote>

  const VOLATILITY: real := 0.000082

  /** One quote's random input: a log-normal multiplier, a uniform fraction for the volume, and the
      wall clock, which is None when the system time lies before the epoch. */
  datatype Draw = Draw(multiplier: real, fraction: real, now: Option<u64>)

  type Sample = d: Draw | d.multiplier > 0.0 && 0.0 <= d.fraction < 1.0 witness Draw(1.0, 0.0, None)

  datatype GeneratorError = InvalidVolatility | TimeError

  /** `QuoteGenerator::new`: the volatility must lie in (0, 1]. */
  function NewGenerator(volatility: real): (r: Result<real, GeneratorError>)
    ensures r.Ok? <==> 0.0 < volatility <= 1.0
  {
    if volatility <= 0.0 || volatility > 1.0 then Err(InvalidVolatility) else Ok(volatility)
  }

  predicate Heavy(ticker: string) {
    ticker == "AAPL" || ticker == "MSFT" || ticker == "TSLA"
  }

  /** The volumes the generator can draw for a ticker. */
  predicate VolumeInRange(ticker: string, volume: int) {
    if Heavy(ticker) then 1000 <= volume < 6000 else 100 <= volume < 1100
  }

  function DrawnVolume(ticker: string, fraction: real): (volume: u32)
    requires 0.0 <= fraction < 1.0
    ensures VolumeInRange(ticker, volume)
  {
    if Heavy(ticker) then 1000 + (fraction * 5000.0).Floor else 100 + (fraction * 1000.0).Floor
  }

  /** `StockQuote::new`. */
  function NewQuote(ticker: string, fraction: real, now: u64): (q: Quote)
    requires 0.0 <= fraction < 1.0
    ensures QuoteOk(ticker, q)
    ensures 0.0 <= q.price < 1000.0 && q.price / 1000.0 == fraction && q.volume == 0 && q.timestamp == now
  {
    StockQuote(ticker, fraction * 1000.0, 0, now)
  }

  /** A table entry: filed under its own ticker, never priced below zero, and with a volume that is
      either the initial zero or one the generator draws for that ticker. */
  predicate QuoteOk(key: string, q: Quote) {
    q.ticker == key && q.price >= 0.0 && (q.volume == 0 || VolumeInRange(key, q.volume))
  }

  predicate TableOk(t: Table) {
    forall k | k in t :: QuoteOk(k, t[k])
  }

  /** `update_single_quote`: on a clock failure price and volume are already overwritten. */
  function Refresh(q: Quote, d: Sample): Quote {
    StockQuote(q.ticker, q.price * d.multiplier, DrawnVolume(q.ticker, d.fraction),
               if d.now.Some? then d.now.value else q.timestamp)
  }

  lemma RefreshKeepsOk(key: string, q: Quote, d: Sample)
    requires QuoteOk(key, q)
    ensures QuoteOk(key, Refresh(q, d))
  {
    assert q.price * d.multiplier >= 0.0;
  }

  /** What an update pass, finished or aborted, may have made of a table. */
  ghost predicate PartlyRefreshed(before: Table, after: Table, draws: string -> Sample, touched: set<string>) {
    && after.Keys == before.Keys
    && touched <= before.Keys
    && forall k | k in before :: after[k] == if k in touched then Refresh(before[k], draws(k)) else before[k]
  }

  /** No pass, however many quotes it reached, breaks the table invariant. */
  lemma PassKeepsTable(before: Table, after: Table, draws: string -> Sample, touched: set<string>)
    requires PartlyRefreshed(before, after, draws, touched) && TableOk(before)
    ensures TableOk(after)
  {
    forall k | k in after ensures QuoteOk(k, after[k]) {
      RefreshKeepsOk(k, before[k], draws(k));
    }
  }

  /** The quotes behind the reader/writer lock. */
  class QuoteTable {
    var quotes: Table

    constructor (quotes: Table)
      ensures this.quotes == quotes
    {
      this.quotes := quotes;
    }

    /** `update_single_quote`, in place on the entry filed under `key`. */
    method UpdateSingleQuote(key: string, d: Sample) returns (r: Result<(), GeneratorError>)
      requires key in quotes
      modifies this
      ensures quotes == old(quotes)[key := Refresh(old(quotes)[key], d)]
      ensures quotes[key].ticker == old(quotes)[key].ticker
      ensures quotes[key].price == old(quotes)[key].price * d.multiplier
      ensures quotes[key].volume == if old(quotes)[key].ticker in {"AAPL", "MSFT", "TSLA"}
                                    then 1000 + (d.fraction * 5000.0).Floor else 100 + (d.fraction * 1000.0).Floor
      ensures d.now.Some? ==> quotes[key].timestamp == d.now.value
      ensures d.now == None ==> quotes[key].timestamp == old(quotes)[key].timestamp
      ensures r.Ok? <==> d.now.Some?
    {
      var q := quotes[key];
      ghost var refreshed := Refresh(q, d);
      q := q.(price := q.price * d.multiplier);
      q := q.(volume := DrawnVolume(q.ticker, d.fraction));
      assert q.price == refreshed.price && q.volume == refreshed.volume;
      if d.now == None {
        quotes := quotes[key := q];
        return Err(TimeError);
      }
      q := q.(timestamp := d.now.value);
      assert q.timestamp == refreshed.timestamp;
      quotes := quotes[key := q];
      return Ok(());
    }

    /** `QuoteGenerator::update_quotes`: visits the entries in an arbitrary order; after a failure any
        number of the remaining entries may still be visited. */
    method UpdateQuotes(draws: string -> Sample) returns (r: Result<(), GeneratorError>, ghost touched: set<string>)
      modifies this
      ensures PartlyRefreshed(old(quotes), quotes, draws, touched)
      ensures r.Ok? ==> touched == quotes.Keys
      ensures r.Ok? <==> forall k | k in touched :: draws(k).now.Some?
      ensures forall k | k in quotes && k in touched ::
                && quotes[k].ticker == old(quotes)[k].ticker
                && quotes[k].price == old(quotes)[k].price * draws(k).multiplier
                && quotes[k].timestamp == if draws(k).now.Some? then draws(k).now.value else old(quotes)[k].timestamp
      ensures forall k | k in quotes && k !in touched :: quotes[k] == old(quotes)[k]
      ensures old(TableOk(quotes)) ==> TableOk(quotes)
    {
      var pending := quotes.Keys;
      touched := {};
      r := Ok(());
      var aborting := false;
      while pending != {} && !aborting
        invariant pending <= quotes.Keys && touched == quotes.Keys - pending
        invariant PartlyRefreshed(old(quotes), quotes, draws, touched)
        invariant r.Ok? <==> forall k | k in touched :: draws(k).now.Some?
        invariant aborting ==> r.Err?
        decreases pending
      {
        var key :| key in pending;
        var one := UpdateSingleQuote(key, draws(key));
        pending := pending - {key};
        touched := touched + {key};
        if one.Err? {
          r := one;
        }
        if r.Err? {
          aborting := *;
        }
      }
      if old(TableOk(quotes)) {
        PassKeepsTable(old(quotes), quotes, draws, touched);
      }
    }
  }
}
