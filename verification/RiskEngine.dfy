/** The risk engine's stream fold: per-instrument state, dropping of late quotes, and
    threshold alerts on price moves. */
module RiskEngine {
  import opened Basics

  type Time = int
  type Key = string

  datatype Market = US | JP

  datatype MarketQuote = MarketQuote(symbol: string, market: Market, bid: real, ask: real, bidSize: int, askSize: int,
                                     timestamp: Time) {
    predicate Valid() {
      0 < |symbol| <= 32 && 0.0 < bid <= ask && bidSize >= 0 && askSize >= 0
    }

    function MidPrice(): real {
      (bid + ask) / 2.0
    }
  }

  datatype Payload = Other | Quote(quote: MarketQuote)

  /** One event of the shared market stream. */
  datatype Event = Event(id: nat, correlation: nat, payload: Payload)

  datatype Severity = Warning | Critical

  datatype RiskAlert = RiskAlert(severity: Severity, market: Market, symbol: string, observed: real, threshold: real,
                                 occurredAt: Time)

  /** The outgoing event names the event that caused it. */
  datatype AlertEvent = AlertEvent(alert: RiskAlert, correlation: nat, causation: nat)

  function MarketName(m: Market): string {
    match m case US => "US" case JP => "JP"
  }

  function BuildKey(m: Market, symbol: string): Key {
    MarketName(m) + ":" + symbol
  }

  lemma KeyIsInjective(m: Market, s: string, n: Market, t: string)
    ensures BuildKey(m, s) == BuildKey(n, t) <==> m == n && s == t
  {
    var k, l := BuildKey(m, s), BuildKey(n, t);
    assert k[0] == MarketName(m)[0] && l[0] == MarketName(n)[0];
    assert k[3..] == s && l[3..] == t;
  }

  // ------------------------------------------------------------ the rule

  datatype PriceMoveRule = PriceMoveRule(warning: real, critical: real) {
    predicate Valid() {
      0.0 < warning < critical
    }

    /** Refuses quotes of different instruments; otherwise an alert or none. */
    function Evaluate(previous: MarketQuote, current: MarketQuote): Result<Option<RiskAlert>>
      requires previous.Valid()
    {
      if previous.market != current.market || previous.symbol != current.symbol then Err(Mismatch)
      else
        var change := (current.MidPrice() - previous.MidPrice()) / previous.MidPrice() * 100.0;
        var size := Abs(change);
        if size < warning then Ok(None)
        else if size >= critical then
          Ok(Some(RiskAlert(Critical, current.market, current.symbol, change, critical, current.timestamp)))
        else
          Ok(Some(RiskAlert(Warning, current.market, current.symbol, change, warning, current.timestamp)))
    }
  }

  function Abs(x: real): real {
    if x < 0.0 then -x else x
  }

  const DEFAULT_RULE := PriceMoveRule(2.0, 5.0)

  /** The middle between bid and ask moved, up or down, by at least `percent` of its previous
      value (both sides of the comparison are doubled). */
  predicate MovedBy(previous: MarketQuote, current: MarketQuote, percent: real) {
    var before, after := previous.bid + previous.ask, current.bid + current.ask;
    (after - before) * 100.0 >= percent * before || (before - after) * 100.0 >= percent * before
  }

  lemma ScaledMove(d: real, p: real, percent: real)
    requires p > 0.0
    ensures Abs(d / p * 100.0) >= percent <==> Abs(d) * 100.0 >= percent * p
  {
    var q := d / p;
    assert q * p == d;
    assert Abs(q) * p == Abs(d) by { if q >= 0.0 { assert q * p >= 0.0; } else { assert (-q) * p >= 0.0; } }
    Scaling(Abs(q) * 100.0, percent, p);
    assert Abs(q) * 100.0 * p == Abs(q) * p * 100.0;
  }

  lemma Scaling(x: real, y: real, p: real)
    requires p > 0.0
    ensures x >= y <==> x * p >= y * p
  {
    if x >= y { assert (x - y) * p >= 0.0; } else { assert (y - x) * p > 0.0; }
  }

  /** What an alert means: it is raised exactly for a move of at least the warning
      percentage, and is critical exactly from the critical percentage on; it tells the move
      in percent of the previous middle, the threshold it reached, and the instrument.
      Quotes of different instruments are refused. */
  lemma AlertMeansMove(rule: PriceMoveRule, previous: MarketQuote, current: MarketQuote)
    requires rule.Valid() && previous.Valid()
    ensures var r := rule.Evaluate(previous, current);
            && (r.Ok? <==> previous.market == current.market && previous.symbol == current.symbol)
            && (r.Err? ==> r.error == Mismatch)
            && (r.Ok? ==> (r.value.Some? <==> MovedBy(previous, current, rule.warning)))
            && (r.Ok? && r.value.Some? ==>
                  var alert, before, after := r.value.value, previous.bid + previous.ask, current.bid + current.ask;
                  && alert.severity == (if MovedBy(previous, current, rule.critical) then Critical else Warning)
                  && alert.threshold == (if alert.severity == Critical then rule.critical else rule.warning)
                  && alert.observed * before == (after - before) * 100.0
                  && alert.market == current.market && alert.symbol == current.symbol
                  && alert.occurredAt == current.timestamp)
  {
    var before, d := previous.MidPrice(), current.MidPrice() - previous.MidPrice();
    ScaledMove(d, before, rule.warning);
    ScaledMove(d, before, rule.critical);
    DoubledMove(previous, current, rule.warning);
    DoubledMove(previous, current, rule.critical);
    var q := d / before;
    assert q * before == d;
    assert q * 100.0 * (2.0 * before) == 2.0 * d * 100.0;
  }

  lemma DoubledMove(previous: MarketQuote, current: MarketQuote, percent: real)
    ensures MovedBy(previous, current, percent) <==>
            Abs(current.MidPrice() - previous.MidPrice()) * 100.0 >= percent * previous.MidPrice()
  {
    assert percent * (previous.bid + previous.ask) == 2.0 * (percent * previous.MidPrice());
  }

  /** The engine's own rule warns from 2 percent on, and is critical from 5 percent on. */
  lemma DefaultThresholds(previous: MarketQuote, current: MarketQuote)
    requires previous.Valid() && previous.market == current.market && previous.symbol == current.symbol
    ensures var r := DEFAULT_RULE.Evaluate(previous, current);
            && r.Ok?
            && (r.value.Some? <==> MovedBy(previous, current, 2.0))
            && (r.value.Some? ==> (r.value.value.severity == Critical <==> MovedBy(previous, current, 5.0)))
  {
    AlertMeansMove(DEFAULT_RULE, previous, current);
  }

  // ------------------------------------------------------------ one event

  type State = map<Key, MarketQuote>

  /** The instrument a usable quote event is about; None for anything else. */
  function KeyOf(e: Event): Option<Key> {
    if e.payload.Quote? && e.payload.quote.Valid()
    then Some(BuildKey(e.payload.quote.market, e.payload.quote.symbol))
    else None
  }

  /** Exactly the well-formed quotes are used, under "MARKET:SYMBOL". */
  lemma UsedQuotes(e: Event)
    ensures match e.payload
            case Other => KeyOf(e) == None
            case Quote(q) =>
              KeyOf(e) == if 1 <= |q.symbol| <= 32 && 0.0 < q.bid <= q.ask && q.bidSize >= 0 && q.askSize >= 0
                          then Some((match q.market case US => "US:" case JP => "JP:") + q.symbol) else None
  {
    assert "US" + ":" == "US:" && "JP" + ":" == "JP:";
  }

  /** Every stored quote is valid and stored under its own key. */
  predicate Keyed(s: State) {
    forall k :: k in s ==> s[k].Valid() && BuildKey(s[k].market, s[k].symbol) == k
  }

  predicate Advances(s: State, e: Event) {
    KeyOf(e).Some? && (KeyOf(e).value in s ==> s[KeyOf(e).value].timestamp < e.payload.quote.timestamp)
  }

  function StateAfter(s: State, e: Event): State {
    if Advances(s, e) then s[KeyOf(e).value := e.payload.quote] else s
  }

  function Fire(rule: PriceMoveRule, previous: MarketQuote, e: Event): Option<AlertEvent>
    requires previous.Valid() && e.payload.Quote?
  {
    match rule.Evaluate(previous, e.payload.quote)
    case Ok(Some(alert)) => Some(AlertEvent(alert, e.correlation, e.id))
    case _ => None
  }

  function OutputOf(rule: PriceMoveRule, s: State, e: Event): Option<AlertEvent>
    requires Keyed(s)
  {
    if Advances(s, e) && KeyOf(e).value in s then Fire(rule, s[KeyOf(e).value], e) else None
  }

  class InMemoryQuoteStateStore {
    var quotes: State

    constructor ()
      ensures quotes == map[]
    {
      quotes := map[];
    }

    method GetQuote(market: Market, symbol: string) returns (quote: Option<MarketQuote>)
      ensures quote == if BuildKey(market, symbol) in quotes then Some(quotes[BuildKey(market, symbol)]) else None
    {
      var key := BuildKey(market, symbol);
      if key in quotes { return Some(quotes[key]); }
      return None;
    }

    method SetQuote(quote: MarketQuote)
      modifies this
      ensures quotes == old(quotes)[BuildKey(quote.market, quote.symbol) := quote]
    {
      quotes := quotes[BuildKey(quote.market, quote.symbol) := quote];
    }
  }

  class RiskEngineService {
    const rule: PriceMoveRule
    const store: InMemoryQuoteStateStore

    constructor (store: InMemoryQuoteStateStore, rule: PriceMoveRule := DEFAULT_RULE)
      requires rule.Valid()
      ensures this.rule == rule && this.store == store
    {
      this.rule, this.store := rule, store;
    }

    /** Raises only for a malformed quote, and then the state is as it was. */
    method ProcessEvent(e: Event) returns (r: Result<Option<AlertEvent>>)
      requires Keyed(store.quotes)
      modifies store
      ensures Keyed(store.quotes) && store.quotes == StateAfter(old(store.quotes), e)
      ensures r.Err? <==> e.payload.Quote? && !e.payload.quote.Valid()
      ensures r.Err? ==> r.error == InvalidValue
      ensures r.Ok? ==> r.value == OutputOf(rule, old(store.quotes), e)
      ensures r.Ok? && r.value.Some? ==> r.value.value.causation == e.id && r.value.value.correlation == e.correlation
    {
      if !e.payload.Quote? { return Ok(None); }
      var current := e.payload.quote;
      if !current.Valid() { return Err(InvalidValue); }
      var previous := store.GetQuote(current.market, current.symbol);
      if previous.None? {
        store.SetQuote(current);
        return Ok(None);
      }
      if current.timestamp <= previous.value.timestamp { return Ok(None); }
      KeyIsInjective(previous.value.market, previous.value.symbol, current.market, current.symbol);
      // Quotes stored under one key belong to one instrument: the rule never refuses.
      var alert := rule.Evaluate(previous.value, current);
      store.SetQuote(current);
      if alert.value.None? { return Ok(None); }
      return Ok(Some(AlertEvent(alert.value.value, e.correlation, e.id)));
    }
  }

  // ------------------------------------------------------------ the whole stream

  function Last<T>(s: seq<T>): T
    requires s != []
  {
    s[|s| - 1]
  }

  function Front<T>(s: seq<T>): seq<T>
    requires s != []
  {
    s[..|s| - 1]
  }

  /** The engine's state after the stream. */
  function Final(stream: seq<Event>): (s: State)
    ensures Keyed(s)
  {
    if stream == [] then map[] else StateAfter(Final(Front(stream)), Last(stream))
  }

  function AsList(o: Option<AlertEvent>): seq<AlertEvent> {
    if o.Some? then [o.value] else []
  }

  /** The alerts the engine emits for events of instrument k, in order. */
  function Emitted(rule: PriceMoveRule, stream: seq<Event>, k: Key): seq<AlertEvent> {
    if stream == [] then []
    else
      Emitted(rule, Front(stream), k)
      + if KeyOf(Last(stream)) == Some(k) then AsList(OutputOf(rule, Final(Front(stream)), Last(stream))) else []
  }

  /** Event i is a quote of instrument k newer than every earlier quote of k. */
  predicate IsRecord(stream: seq<Event>, k: Key, i: nat) {
    && i < |stream| && KeyOf(stream[i]) == Some(k)
    && forall j :: 0 <= j < i && KeyOf(stream[j]) == Some(k) ==>
         stream[j].payload.quote.timestamp < stream[i].payload.quote.timestamp
  }

  type QuoteEvent = e: Event | KeyOf(e).Some? witness Event(0, 0, Quote(MarketQuote("A", US, 1.0, 1.0, 0, 0, 0)))

  /** The quotes of k that set a new highest timestamp. */
  function Records(stream: seq<Event>, k: Key): seq<QuoteEvent> {
    if stream == [] then []
    else if IsRecord(stream, k, |stream| - 1) then Records(Front(stream), k) + [Last(stream)]
    else Records(Front(stream), k)
  }

  /** The rule applied to neighbours, for a series of quotes of one instrument. */
  function NeighbourAlerts(rule: PriceMoveRule, records: seq<QuoteEvent>): seq<AlertEvent> {
    if |records| < 2 then []
    else NeighbourAlerts(rule, Front(records)) + AsList(Fire(rule, Last(Front(records)).payload.quote, Last(records)))
  }

  lemma {:induction false} RecordsIncrease(stream: seq<Event>, k: Key)
    ensures forall i, j :: 0 <= i < j < |Records(stream, k)| ==>
              Records(stream, k)[i].payload.quote.timestamp < Records(stream, k)[j].payload.quote.timestamp
    ensures forall r :: r in Records(stream, k) ==> r in stream && KeyOf(r) == Some(k)
  {
    if stream != [] {
      RecordsIncrease(Front(stream), k);
      assert forall e :: e in Front(stream) ==> e in stream;
      if IsRecord(stream, k, |stream| - 1) {
        forall r | r in Records(Front(stream), k)
          ensures r.payload.quote.timestamp < Last(stream).payload.quote.timestamp
        {
          var j :| 0 <= j < |stream| - 1 && stream[j] == r;
          assert KeyOf(stream[j]) == Some(k);
        }
      }
    }
  }

  /** The state holds, for each instrument seen, its newest quote: the last record. */
  lemma {:induction false} StateIsLastRecord(stream: seq<Event>, k: Key)
    ensures k in Final(stream) <==> Records(stream, k) != []
    ensures k in Final(stream) ==> Final(stream)[k] == Last(Records(stream, k)).payload.quote
    ensures forall i :: 0 <= i < |stream| && KeyOf(stream[i]) == Some(k) ==>
              k in Final(stream) && stream[i].payload.quote.timestamp <= Final(stream)[k].timestamp
    ensures stream != [] && KeyOf(Last(stream)) == Some(k) ==>
              (IsRecord(stream, k, |stream| - 1) <==> Advances(Final(Front(stream)), Last(stream)))
  {
    if stream != [] {
      var front, e := Front(stream), Last(stream);
      StateIsLastRecord(front, k);
      forall i | 0 <= i < |front| && KeyOf(stream[i]) == Some(k)
        ensures k in Final(front) && stream[i].payload.quote.timestamp <= Final(front)[k].timestamp
      {
        assert front[i] == stream[i];
      }
      if KeyOf(e) == Some(k) && k in Final(front) {
        RecordsIncrease(front, k);
        assert Last(Records(front, k)) in Records(front, k);
      }
    }
  }

  /** For every stream and instrument, the alerts are exactly the rule applied to
      neighbours in the instrument's series of newest quotes. */
  lemma {:induction false} AlertsAreNeighbourAlerts(rule: PriceMoveRule, stream: seq<Event>, k: Key)
    ensures Emitted(rule, stream, k) == NeighbourAlerts(rule, Records(stream, k))
  {
    hide Advances, StateAfter, Fire;
    if stream != [] {
      AlertsAreNeighbourAlerts(rule, Front(stream), k);
      StateIsLastRecord(Front(stream), k);
      StateIsLastRecord(stream, k);
      if IsRecord(stream, k, |stream| - 1) {
        assert Front(Records(stream, k)) == Records(Front(stream), k);
      }
    }
  }

  function Only(stream: seq<Event>, k: Key): (sub: seq<Event>)
    ensures forall e :: e in sub ==> KeyOf(e) == Some(k)
  {
    if stream == [] then []
    else Only(Front(stream), k) + if KeyOf(Last(stream)) == Some(k) then [Last(stream)] else []
  }

  predicate AgreeAt(s: State, t: State, k: Key) {
    (k in s <==> k in t) && (k in s ==> s[k] == t[k])
  }

  lemma StepAgrees(rule: PriceMoveRule, s: State, t: State, e: Event, k: Key)
    requires Keyed(s) && Keyed(t) && AgreeAt(s, t, k)
    ensures KeyOf(e) != Some(k) ==> AgreeAt(StateAfter(s, e), t, k)
    ensures KeyOf(e) == Some(k) ==>
              AgreeAt(StateAfter(s, e), StateAfter(t, e), k) && OutputOf(rule, s, e) == OutputOf(rule, t, e)
  {
    hide KeyOf, Fire;
  }

  /** Instruments do not affect each other: dropping every other event of the stream
      changes neither an instrument's state nor its alerts. */
  lemma {:induction false} InstrumentsAreIndependent(rule: PriceMoveRule, stream: seq<Event>, k: Key)
    ensures Emitted(rule, stream, k) == Emitted(rule, Only(stream, k), k)
    ensures AgreeAt(Final(stream), Final(Only(stream, k)), k)
  {
    hide OutputOf, StateAfter, KeyOf, AgreeAt;
    if stream != [] {
      var e, front := Last(stream), Front(stream);
      InstrumentsAreIndependent(rule, front, k);
      StepAgrees(rule, Final(front), Final(Only(front, k)), e, k);
      if KeyOf(e) == Some(k) {
        assert Only(stream, k) == Only(front, k) + [e];
        assert Front(Only(stream, k)) == Only(front, k) && Last(Only(stream, k)) == e;
      } else {
        assert Only(stream, k) == Only(front, k);
      }
    } else {
      EmptyAgrees(k);
    }
  }

  lemma EmptyAgrees(k: Key)
    ensures AgreeAt(Final([]), Final(Only([], k)), k)
  {}

  /** Redelivery, in any number and order, of events already processed leaves the state
      alone and emits nothing. */
  lemma {:induction false} RedeliveryIsSilent(rule: PriceMoveRule, stream: seq<Event>, again: seq<Event>, k: Key)
    requires forall e :: e in again ==> e in stream
    ensures Final(stream + again) == Final(stream)
    ensures Emitted(rule, stream + again, k) == Emitted(rule, stream, k)
  {
    hide Fire, Emitted;
    if again == [] {
      assert stream + again == stream;
    } else {
      var all := stream + again;
      assert Front(all) == stream + Front(again) && Last(all) == Last(again);
      RedeliveryIsSilent(rule, stream, Front(again), k);
      assert again[|again| - 1] in again;
      var i :| 0 <= i < |stream| && stream[i] == Last(again);
      if KeyOf(stream[i]).Some? {
        StateIsLastRecord(stream, KeyOf(stream[i]).value);
      }
      assert !Advances(Final(stream), Last(all));
      SilentStep(rule, all, k);
    }
  }

  lemma SilentStep(rule: PriceMoveRule, stream: seq<Event>, k: Key)
    requires stream != [] && !Advances(Final(Front(stream)), Last(stream))
    ensures Emitted(rule, stream, k) == Emitted(rule, Front(stream), k)
  {
    hide Advances;
  }
}
