/** Batch quotes: a fresh cache, then one provider request for the misses, then a stale
    cache, with any of them failing; against a per-symbol specification. */
module MarketBatch {
  import opened Basics

  type Symbol = string
  type Time = int

  datatype Quote = Quote(symbol: Symbol, price: real, change: real)

  // ------------------------------------------------------------ the snapshot cache

  datatype Key = Fresh(symbol: Symbol) | Stale(symbol: Symbol)

  /** `quote` is None when the stored text does not parse. */
  datatype Entry = Entry(quote: Option<Quote>, expiresAt: Time)

  type Entries = map<Key, Entry>

  datatype Command = Set(key: Key, entry: Entry)

  /** What reading a key gives: nothing once the entry has expired or does not parse. */
  function Lookup(entries: Entries, key: Key, now: Time): Option<Quote> {
    if key in entries && now < entries[key].expiresAt then entries[key].quote else None
  }

  /** An entry is read up to, not at, its expiry, and only if its text parses. */
  lemma ReadableBeforeExpiry(entries: Entries, key: Key, now: Time, quote: Quote)
    ensures Lookup(entries, key, now) == Some(quote) <==>
            key in entries && entries[key].expiresAt > now && entries[key].quote == Some(quote)
  {}

  function Executed(entries: Entries, commands: seq<Command>): Entries {
    if commands == [] then entries
    else
      var last := commands[|commands| - 1];
      Executed(entries, commands[..|commands| - 1])[last.key := last.entry]
  }

  /** Two commands a quote: the fresh entry, then the stale one. */
  function Writes(quotes: seq<Quote>, now: Time, freshTtl: int, staleTtl: int): (commands: seq<Command>)
    ensures |commands| == 2 * |quotes|
    ensures forall i :: 0 <= i < |quotes| ==>
              && commands[2 * i] == Set(Fresh(quotes[i].symbol), Entry(Some(quotes[i]), now + freshTtl))
              && commands[2 * i + 1] == Set(Stale(quotes[i].symbol), Entry(Some(quotes[i]), now + staleTtl))
  {
    if quotes == [] then []
    else
      var q := quotes[|quotes| - 1];
      Writes(quotes[..|quotes| - 1], now, freshTtl, staleTtl)
      + [Set(Fresh(q.symbol), Entry(Some(q), now + freshTtl)), Set(Stale(q.symbol), Entry(Some(q), now + staleTtl))]
  }

  class MarketSnapshotCache {
    var entries: Entries
    const freshTtl: int
    const staleTtl: int

    constructor (freshTtl: int, staleTtl: int)
      requires 0 < freshTtl < staleTtl
      ensures entries == map[] && this.freshTtl == freshTtl && this.staleTtl == staleTtl
    {
      this.entries, this.freshTtl, this.staleTtl := map[], freshTtl, staleTtl;
    }

    method GetFreshMany(symbols: seq<Symbol>, now: Time) returns (found: map<Symbol, Quote>)
      ensures forall s :: s in found <==> s in symbols && Lookup(entries, Fresh(s), now).Some?
      ensures forall s :: s in found ==> found[s] == Lookup(entries, Fresh(s), now).value
      ensures forall s :: s in found ==>
                Fresh(s) in entries && now < entries[Fresh(s)].expiresAt && entries[Fresh(s)].quote == Some(found[s])
    {
      found := map[];
      for i := 0 to |symbols|
        invariant forall s :: s in found <==> s in symbols[..i] && Lookup(entries, Fresh(s), now).Some?
        invariant forall s :: s in found ==> found[s] == Lookup(entries, Fresh(s), now).value
      {
        var quote := Lookup(entries, Fresh(symbols[i]), now);
        if quote.Some? { found := found[symbols[i] := quote.value]; }
      }
      assert symbols[..|symbols|] == symbols;
    }

    method GetStaleMany(symbols: seq<Symbol>, now: Time) returns (found: map<Symbol, Quote>)
      ensures forall s :: s in found <==> s in symbols && Lookup(entries, Stale(s), now).Some?
      ensures forall s :: s in found ==> found[s] == Lookup(entries, Stale(s), now).value
      ensures forall s :: s in found ==>
                Stale(s) in entries && now < entries[Stale(s)].expiresAt && entries[Stale(s)].quote == Some(found[s])
    {
      found := map[];
      for i := 0 to |symbols|
        invariant forall s :: s in found <==> s in symbols[..i] && Lookup(entries, Stale(s), now).Some?
        invariant forall s :: s in found ==> found[s] == Lookup(entries, Stale(s), now).value
      {
        var quote := Lookup(entries, Stale(symbols[i]), now);
        if quote.Some? { found := found[symbols[i] := quote.value]; }
      }
      assert symbols[..|symbols|] == symbols;
    }

    /** The pipeline is not a transaction: when it fails, only the first `reached` commands
        have been carried out. */
    method PutMany(quotes: seq<Quote>, now: Time, reached: nat) returns (completed: bool)
      modifies this
      ensures completed <==> reached >= 2 * |quotes|
      ensures var commands := Writes(quotes, now, freshTtl, staleTtl);
              entries == Executed(old(entries), if completed then commands else commands[..reached])
    {
      var pipeline: seq<Command> := [];
      for i := 0 to |quotes|
        invariant pipeline == Writes(quotes[..i], now, freshTtl, staleTtl)
      {
        pipeline := pipeline + [Set(Fresh(quotes[i].symbol), Entry(Some(quotes[i]), now + freshTtl)),
                                Set(Stale(quotes[i].symbol), Entry(Some(quotes[i]), now + staleTtl))];
        assert quotes[..i + 1][..i] == quotes[..i];
      }
      assert quotes[..|quotes|] == quotes;
      completed := reached >= |pipeline|;
      var n := if completed then |pipeline| else reached;
      for j := 0 to n
        invariant entries == Executed(old(entries), pipeline[..j])
      {
        entries := entries[pipeline[j].key := pipeline[j].entry];
        assert pipeline[..j + 1][..j] == pipeline[..j];
      }
      assert pipeline[..|pipeline|] == pipeline;
    }
  }

  /** A symbol's fresh entry has an equal stale entry that outlives it. */
  predicate Paired(entries: Entries, s: Symbol) {
    Fresh(s) in entries ==>
      Stale(s) in entries && entries[Stale(s)].quote == entries[Fresh(s)].quote
      && entries[Stale(s)].expiresAt > entries[Fresh(s)].expiresAt
  }

  predicate AllPaired(entries: Entries) {
    forall k :: k in entries ==> Paired(entries, k.symbol)
  }

  lemma {:induction false} ExecutedSplit(entries: Entries, a: seq<Command>, b: seq<Command>)
    ensures Executed(entries, a + b) == Executed(Executed(entries, a), b)
  {
    if b == [] {
      assert a + b == a;
    } else {
      ExecutedSplit(entries, a, b[..|b| - 1]);
      assert (a + b)[..|a + b| - 1] == a + b[..|b| - 1];
    }
  }

  lemma WriteAt(quotes: seq<Quote>, j: nat, now: Time, freshTtl: int, staleTtl: int)
    requires j < 2 * |quotes|
    ensures var q := quotes[j / 2];
            Writes(quotes, now, freshTtl, staleTtl)[j] ==
            if j % 2 == 0 then Set(Fresh(q.symbol), Entry(Some(q), now + freshTtl))
            else Set(Stale(q.symbol), Entry(Some(q), now + staleTtl))
  {
    hide Writes;
    var i := j / 2;
    assert j == 2 * i || j == 2 * i + 1;
  }

  lemma WritesPrefix(quotes: seq<Quote>, n: nat, now: Time, freshTtl: int, staleTtl: int)
    requires n <= |quotes|
    ensures Writes(quotes, now, freshTtl, staleTtl)[..2 * n] == Writes(quotes[..n], now, freshTtl, staleTtl)
  {
    var all, part := Writes(quotes, now, freshTtl, staleTtl), Writes(quotes[..n], now, freshTtl, staleTtl);
    forall j | 0 <= j < 2 * n ensures all[j] == part[j] {
      WriteAt(quotes, j, now, freshTtl, staleTtl);
      WriteAt(quotes[..n], j, now, freshTtl, staleTtl);
    }
  }

  /** q is stored under both keys, for both times to live. */
  predicate StoredTwice(entries: Entries, q: Quote, freshUntil: Time, staleUntil: Time) {
    && Fresh(q.symbol) in entries && entries[Fresh(q.symbol)] == Entry(Some(q), freshUntil)
    && Stale(q.symbol) in entries && entries[Stale(q.symbol)] == Entry(Some(q), staleUntil)
  }

  predicate LastOf(quotes: seq<Quote>, i: nat) {
    i < |quotes| && forall j :: i < j < |quotes| ==> quotes[j].symbol != quotes[i].symbol
  }

  /** The last quote's two writes, after all the others. */
  lemma LastTwoWrites(entries: Entries, quotes: seq<Quote>, now: Time, freshTtl: int, staleTtl: int)
    requires quotes != []
    ensures var q := quotes[|quotes| - 1];
            Executed(entries, Writes(quotes, now, freshTtl, staleTtl)) ==
            Executed(entries, Writes(quotes[..|quotes| - 1], now, freshTtl, staleTtl))
              [Fresh(q.symbol) := Entry(Some(q), now + freshTtl)][Stale(q.symbol) := Entry(Some(q), now + staleTtl)]
  {
    var front, q := quotes[..|quotes| - 1], quotes[|quotes| - 1];
    var two := [Set(Fresh(q.symbol), Entry(Some(q), now + freshTtl)),
                Set(Stale(q.symbol), Entry(Some(q), now + staleTtl))];
    assert Writes(quotes, now, freshTtl, staleTtl) == Writes(front, now, freshTtl, staleTtl) + two;
    hide Writes, Executed;
    ExecutedSplit(entries, Writes(front, now, freshTtl, staleTtl), two);
    TwoWrites(Executed(entries, Writes(front, now, freshTtl, staleTtl)), two);
  }

  /** Whatever the cache held before, a completed put leaves the last quote given for a
      symbol under both of its keys. */
  lemma {:induction false} LastQuoteIsStored(entries: Entries, quotes: seq<Quote>, i: nat,
                                             now: Time, freshTtl: int, staleTtl: int)
    requires LastOf(quotes, i)
    ensures StoredTwice(Executed(entries, Writes(quotes, now, freshTtl, staleTtl)), quotes[i], now + freshTtl,
                        now + staleTtl)
    decreases |quotes|
  {
    hide Writes, Executed;
    LastTwoWrites(entries, quotes, now, freshTtl, staleTtl);
    if i < |quotes| - 1 {
      LastQuoteIsStored(entries, quotes[..|quotes| - 1], i, now, freshTtl, staleTtl);
    }
  }

  /** Whatever the cache held before, a completed put leaves every symbol it writes with a
      fresh entry and an equal stale entry that outlives it. */
  lemma {:induction false} CompletedPutPairs(entries: Entries, quotes: seq<Quote>,
                                             now: Time, freshTtl: int, staleTtl: int, q: Quote)
    requires freshTtl < staleTtl && q in quotes
    ensures var after := Executed(entries, Writes(quotes, now, freshTtl, staleTtl));
            Fresh(q.symbol) in after && Paired(after, q.symbol)
    decreases |quotes|
  {
    hide Writes, Executed;
    LastTwoWrites(entries, quotes, now, freshTtl, staleTtl);
    if q.symbol != quotes[|quotes| - 1].symbol {
      CompletedPutPairs(entries, quotes[..|quotes| - 1], now, freshTtl, staleTtl, q);
    }
  }

  /** A put that stops after a whole number of quotes keeps every pair, and so does a
      completed one. */
  lemma {:induction false} WholeWritesKeepPairs(entries: Entries, quotes: seq<Quote>,
                                                now: Time, freshTtl: int, staleTtl: int)
    requires AllPaired(entries) && freshTtl < staleTtl
    ensures AllPaired(Executed(entries, Writes(quotes, now, freshTtl, staleTtl)))
  {
    if quotes != [] {
      var front, q := quotes[..|quotes| - 1], quotes[|quotes| - 1];
      WholeWritesKeepPairs(entries, front, now, freshTtl, staleTtl);
      var two := [Set(Fresh(q.symbol), Entry(Some(q), now + freshTtl)),
                  Set(Stale(q.symbol), Entry(Some(q), now + staleTtl))];
      ExecutedSplit(entries, Writes(front, now, freshTtl, staleTtl), two);
      TwoWrites(Executed(entries, Writes(front, now, freshTtl, staleTtl)), two);
    }
  }

  lemma OneWrite(entries: Entries, command: Command)
    ensures Executed(entries, [command]) == entries[command.key := command.entry]
  {
    assert [command][..0] == [];
  }

  lemma TwoWrites(entries: Entries, two: seq<Command>)
    requires |two| == 2
    ensures Executed(entries, two) == entries[two[0].key := two[0].entry][two[1].key := two[1].entry]
  {
    hide Executed;
    assert two == [two[0]] + [two[1]];
    ExecutedSplit(entries, [two[0]], [two[1]]);
    OneWrite(entries, two[0]);
    OneWrite(Executed(entries, [two[0]]), two[1]);
  }

  /** A put cut after `reached` commands leaves every pair intact exactly when it stopped
      between two quotes, or the cut quote's old stale entry already equals and outlives the
      new fresh one. */
  lemma CutWriteKeepsPairsIff(entries: Entries, quotes: seq<Quote>, now: Time, freshTtl: int, staleTtl: int,
                              reached: nat)
    requires AllPaired(entries) && freshTtl < staleTtl && reached < 2 * |quotes|
    ensures var commands := Writes(quotes, now, freshTtl, staleTtl);
            var before := Executed(entries, commands[..reached / 2 * 2]);
            var q := quotes[reached / 2];
            AllPaired(Executed(entries, commands[..reached])) <==>
              || reached % 2 == 0
              || (Stale(q.symbol) in before && before[Stale(q.symbol)].quote == Some(q)
                  && before[Stale(q.symbol)].expiresAt > now + freshTtl)
  {
    hide Writes, Executed, AllPaired;
    var n := reached / 2;
    var q := quotes[n];
    var commands := Writes(quotes, now, freshTtl, staleTtl);
    WritesPrefix(quotes, n, now, freshTtl, staleTtl);
    WholeWritesKeepPairs(entries, quotes[..n], now, freshTtl, staleTtl);
    var before := Executed(entries, commands[..2 * n]);
    if reached == 2 * n + 1 {
      var cut := commands[..reached];
      ExecutedSplit(entries, commands[..2 * n], [commands[2 * n]]);
      assert cut == commands[..2 * n] + [commands[2 * n]];
      OneWrite(before, commands[2 * n]);
      WriteAt(quotes, 2 * n, now, freshTtl, staleTtl);
      FreshAlone(before, q, now + freshTtl);
    }
  }

  lemma FreshAlone(entries: Entries, q: Quote, expiresAt: Time)
    requires AllPaired(entries)
    ensures var s := q.symbol;
            AllPaired(entries[Fresh(s) := Entry(Some(q), expiresAt)]) <==>
              Stale(s) in entries && entries[Stale(s)].quote == Some(q) && entries[Stale(s)].expiresAt > expiresAt
  {
    var after := entries[Fresh(q.symbol) := Entry(Some(q), expiresAt)];
    assert Fresh(q.symbol) in after;
    forall k | k in after && k.symbol != q.symbol ensures Paired(after, k.symbol) {
      assert k in entries;
    }
  }

  // ------------------------------------------------------------ the provider

  /** One symbol's part of the upstream answer. */
  datatype Raw = NotAnObject | Rejected | Unparsable | Snapshot(quote: Quote)

  /** The upstream answer: a failed request, a bare quote object, or objects by symbol. */
  datatype Response = Failed | Bare(raw: Raw) | BySymbol(raws: map<Symbol, Raw>)

  datatype BatchResult = BatchResult(quotes: map<Symbol, Quote>, errors: set<Symbol>)

  function Normalized(symbols: seq<Symbol>, normalize: Symbol -> Symbol): seq<Symbol> {
    seq(|symbols|, i requires 0 <= i < |symbols| => normalize(symbols[i]))
  }

  /** First occurrences only. */
  function Dedupe(symbols: seq<Symbol>): (d: seq<Symbol>)
    ensures forall s :: s in d <==> s in symbols
    ensures forall i, j :: 0 <= i < j < |d| ==> d[i] != d[j]
  {
    if symbols == [] then []
    else
      var front, last := symbols[..|symbols| - 1], symbols[|symbols| - 1];
      assert forall s :: s in symbols <==> s in front || s == last;
      if last in front then Dedupe(front) else Dedupe(front) + [last]
  }

  /** What the answer says about one of the `count` symbols asked for. */
  function RawFor(response: Response, count: nat, s: Symbol): Raw {
    match response
    case Bare(raw) => if count == 1 then raw else NotAnObject
    case BySymbol(raws) => if s in raws then raws[s] else NotAnObject
    case Failed => NotAnObject
  }

  predicate Usable(response: Response, count: nat, s: Symbol) {
    RawFor(response, count, s).Snapshot? && RawFor(response, count, s).quote.symbol == s
  }

  /** A bare answer is for a single symbol asked, others are looked up by symbol; a quote is
      taken only under the symbol it names. */
  lemma AnswerFor(response: Response, count: nat, s: Symbol)
    ensures Usable(response, count, s) <==>
            match response
            case Failed => false
            case Bare(raw) => count == 1 && raw.Snapshot? && raw.quote.symbol == s
            case BySymbol(raws) => s in raws && raws[s].Snapshot? && raws[s].quote.symbol == s
    ensures Usable(response, count, s) ==>
              RawFor(response, count, s) == if response.Bare? then response.raw else response.raws[s]
  {}

  predicate HasBlank(symbols: seq<Symbol>, normalize: Symbol -> Symbol) {
    exists i :: 0 <= i < |symbols| && normalize(symbols[i]) == ""
  }

  /** Symbols are asked for in the order in which they first occur. */
  lemma {:induction false} DedupeKeepsOrder(front: seq<Symbol>, rest: seq<Symbol>)
    ensures Dedupe(front) <= Dedupe(front + rest)
  {
    if rest == [] {
      assert front + rest == front;
    } else {
      var n := |rest| - 1;
      DedupeKeepsOrder(front, rest[..n]);
      assert (front + rest)[..|front + rest| - 1] == front + rest[..n];
    }
  }

  lemma SomethingIsAsked(symbols: seq<Symbol>, normalize: Symbol -> Symbol)
    ensures Dedupe(Normalized(symbols, normalize)) == [] <==> symbols == []
  {
    if symbols != [] {
      var n := Normalized(symbols, normalize);
      assert n[0] in n && n[0] in Dedupe(n);
    }
  }

  class TwelveDataMarketDataProvider {
    const normalize: Symbol -> Symbol

    constructor (normalize: Symbol -> Symbol)
      ensures this.normalize == normalize
    {
      this.normalize := normalize;
    }

    /** The symbols asked for are split into quotes and errors; a quote is returned under
        the symbol it is for. */
    method GetQuotes(symbols: seq<Symbol>, response: Response) returns (r: Result<BatchResult>, asked: seq<Symbol>)
      ensures r == Err(InvalidValue) <==> symbols == [] || HasBlank(symbols, normalize)
      ensures HasBlank(symbols, normalize) <==> exists i :: 0 <= i < |symbols| && normalize(symbols[i]) == ""
      ensures r != Err(InvalidValue) ==>
                && asked == Dedupe(Normalized(symbols, normalize)) && asked != []
                && (r == Err(Unavailable) <==> response.Failed?) && (r.Ok? <==> !response.Failed?)
      ensures r.Err? && r.error == InvalidValue ==> asked == []
      ensures r.Ok? ==>
                && (forall s :: s in asked <==> s in r.value.quotes || s in r.value.errors)
                && r.value.quotes.Keys !! r.value.errors
                && (forall s :: s in asked ==> (s in r.value.quotes <==> Usable(response, |asked|, s)))
                && (forall s :: s in r.value.quotes ==>
                      Usable(response, |asked|, s) && r.value.quotes[s] == RawFor(response, |asked|, s).quote)
    {
      asked := [];
      var seen: set<Symbol> := {};
      for i := 0 to |symbols|
        invariant !HasBlank(symbols[..i], normalize)
        invariant asked == Dedupe(Normalized(symbols[..i], normalize))
        invariant forall s :: s in seen <==> s in asked
      {
        var normalized := normalize(symbols[i]);
        assert Normalized(symbols[..i + 1], normalize) == Normalized(symbols[..i], normalize) + [normalized];
        if normalized == "" { return Err(InvalidValue), []; }
        if normalized !in seen {
          seen, asked := seen + {normalized}, asked + [normalized];
        }
      }
      assert symbols[..|symbols|] == symbols;
      SomethingIsAsked(symbols, normalize);
      if asked == [] {
        return Err(InvalidValue), [];
      }
      if response.Failed? { return Err(Unavailable), asked; }
      r := Parse(asked, response);
    }

    method Parse(asked: seq<Symbol>, response: Response) returns (r: Result<BatchResult>)
      requires !response.Failed? && asked != [] && forall i, j :: 0 <= i < j < |asked| ==> asked[i] != asked[j]
      ensures r.Ok?
      ensures forall s :: s in asked <==> s in r.value.quotes || s in r.value.errors
      ensures r.value.quotes.Keys !! r.value.errors
      ensures forall s :: s in asked ==> (s in r.value.quotes <==> Usable(response, |asked|, s))
      ensures forall s :: s in r.value.quotes ==>
                Usable(response, |asked|, s) && r.value.quotes[s] == RawFor(response, |asked|, s).quote
    {
      var quotes: map<Symbol, Quote>, errors: set<Symbol> := map[], {};
      for i := 0 to |asked|
        invariant forall s :: s in asked[..i] <==> s in quotes || s in errors
        invariant quotes.Keys !! errors
        invariant forall s :: s in quotes ==>
                    Usable(response, |asked|, s) && quotes[s] == RawFor(response, |asked|, s).quote
        invariant forall s :: s in errors ==> !Usable(response, |asked|, s)
      {
        var raw := RawFor(response, |asked|, asked[i]);
        assert asked[i] !in asked[..i];
        if raw.Snapshot? && raw.quote.symbol == asked[i] {
          quotes := quotes[asked[i] := raw.quote];
        } else {
          errors := errors + {asked[i]};
        }
      }
      assert asked[..|asked|] == asked;
      return Ok(BatchResult(quotes, errors));
    }
  }

  // ------------------------------------------------------------ the batch service

  datatype Status = Okay | OnlyStale | Missing

  datatype Source = FromCache | FromProvider | FromStaleCache

  datatype Message = LiveUnavailable | UpstreamFailed | NotAvailable

  datatype Item = Item(symbol: Symbol, status: Status, source: Option<Source>, quote: Option<Quote>,
                       message: Option<Message>)

  datatype BatchResponse = BatchResponse(requested: nat, succeeded: nat, stale: nat, failed: nat, items: seq<Item>)

  /** What the world does to one call: which cache reads work, what the provider answers,
      how far the cache write gets, and the times of the three cache accesses; and what
      other requests make of the cache between the fresh read and the write, and between
      the write and the stale read, when they change it at all. */
  datatype Weather = Weather(
    freshWorks: bool, freshAt: Time, response: Response,
    beforeWrite: Option<Entries>, writeReached: nat, writtenAt: Time,
    beforeStale: Option<Entries>, staleWorks: bool, staleAt: Time)

  function Meanwhile(entries: Entries, others: Option<Entries>): Entries {
    if others.Some? then others.value else entries
  }

  // The specification, symbol by symbol, over the cache as the call finds it.

  function FreshFor(entries: Entries, w: Weather, s: Symbol): Option<Quote> {
    if w.freshWorks then Lookup(entries, Fresh(s), w.freshAt) else None
  }

  function Misses(entries: Entries, w: Weather, symbols: seq<Symbol>): (misses: seq<Symbol>)
    ensures forall s :: s in misses <==> s in symbols && FreshFor(entries, w, s).None?
  {
    if symbols == [] then []
    else
      var front, last := symbols[..|symbols| - 1], symbols[|symbols| - 1];
      assert forall s :: s in symbols <==> s in front || s == last;
      Misses(entries, w, front) + if FreshFor(entries, w, last).None? then [last] else []
  }

  lemma LastMiss(entries: Entries, w: Weather, symbols: seq<Symbol>)
    requires symbols != []
    ensures var n := |symbols| - 1;
            Misses(entries, w, symbols) ==
            Misses(entries, w, symbols[..n]) + if FreshFor(entries, w, symbols[n]).None? then [symbols[n]] else []
  {
    hide FreshFor;
  }

  /** They are in the order of the request. */
  lemma {:induction false} MissesKeepOrder(entries: Entries, w: Weather, front: seq<Symbol>, rest: seq<Symbol>)
    ensures Misses(entries, w, front + rest) == Misses(entries, w, front) + Misses(entries, w, rest)
  {
    hide Misses, FreshFor;
    if rest == [] {
      NoMiss(entries, w);
      assert front + rest == front;
      var misses := Misses(entries, w, front);
      assert misses + [] == misses;
    } else {
      var n, all := |rest| - 1, front + rest;
      MissesKeepOrder(entries, w, front, rest[..n]);
      assert all[..|all| - 1] == front + rest[..n] && all[|all| - 1] == rest[n];
      LastMiss(entries, w, rest);
      LastMiss(entries, w, all);
      Regroup(Misses(entries, w, front), Misses(entries, w, rest[..n]),
              if FreshFor(entries, w, rest[n]).None? then [rest[n]] else []);
    }
  }

  lemma NoMiss(entries: Entries, w: Weather)
    ensures Misses(entries, w, []) == []
  {}

  lemma Regroup(a: seq<Symbol>, b: seq<Symbol>, c: seq<Symbol>)
    ensures a + b + c == a + (b + c)
  {}

  /** The symbols the provider is asked for. */
  function Asked(entries: Entries, w: Weather, symbols: seq<Symbol>, normalize: Symbol -> Symbol): seq<Symbol> {
    Dedupe(Normalized(Misses(entries, w, symbols), normalize))
  }

  function ProvidedFor(w: Weather, asked: seq<Symbol>, s: Symbol): Option<Quote> {
    if !w.response.Failed? && s in asked && Usable(w.response, |asked|, s)
    then Some(RawFor(w.response, |asked|, s).quote)
    else None
  }

  /** The call's own write never matters here: it saves no symbol that is looked up stale. */
  function StaleFor(entries: Entries, w: Weather, s: Symbol): Option<Quote> {
    if w.staleWorks then Lookup(Meanwhile(Meanwhile(entries, w.beforeWrite), w.beforeStale), Stale(s), w.staleAt)
    else None
  }

  /** The provider said it cannot return s, or could not be reached at all. */
  predicate Blamed(w: Weather, asked: seq<Symbol>, s: Symbol) {
    w.response.Failed? || (s in asked && !Usable(w.response, |asked|, s))
  }

  /** Fresh, else provider, else stale, else an error that says whose fault it was. */
  function Resolve(entries: Entries, w: Weather, asked: seq<Symbol>, s: Symbol): Item {
    if FreshFor(entries, w, s).Some? then Item(s, Okay, Some(FromCache), FreshFor(entries, w, s), None)
    else if ProvidedFor(w, asked, s).Some? then Item(s, Okay, Some(FromProvider), ProvidedFor(w, asked, s), None)
    else if StaleFor(entries, w, s).Some? then
      Item(s, OnlyStale, Some(FromStaleCache), StaleFor(entries, w, s), Some(LiveUnavailable))
    else Item(s, Missing, None, None, Some(if Blamed(w, asked, s) then UpstreamFailed else NotAvailable))
  }

  function CountOf(items: seq<Item>, status: Status): nat {
    if items == [] then 0
    else CountOf(items[..|items| - 1], status) + if items[|items| - 1].status == status then 1 else 0
  }

  lemma {:induction false} CountsPartition(items: seq<Item>)
    ensures CountOf(items, Okay) + CountOf(items, OnlyStale) + CountOf(items, Missing) == |items|
  {
    if items != [] {
      CountsPartition(items[..|items| - 1]);
    }
  }

  function PlacesOf(items: seq<Item>, status: Status): set<nat> {
    set i | 0 <= i < |items| && items[i].status == status
  }

  /** It is the number of such items. */
  lemma {:induction false} CountOfCounts(items: seq<Item>, status: Status)
    ensures CountOf(items, status) == |PlacesOf(items, status)|
  {
    if items != [] {
      CountOfCounts(items[..|items| - 1], status);
      LastPlace(items, status);
      hide PlacesOf;
    }
  }

  lemma LastPlace(items: seq<Item>, status: Status)
    requires items != []
    ensures var n := |items| - 1;
            var before := PlacesOf(items[..n], status);
            n !in before && PlacesOf(items, status) == if items[n].status == status then before + {n} else before
  {}

  /** What one requested symbol gets: a live fresh entry; failing that, the provider's quote;
      failing that, a live stale entry, marked as such; failing that, an error naming the
      provider when it was asked in vain or could not be reached. */
  lemma ItemOutcome(entries: Entries, w: Weather, asked: seq<Symbol>, s: Symbol)
    ensures var at := Meanwhile(Meanwhile(entries, w.beforeWrite), w.beforeStale);
            var live := w.freshWorks && Fresh(s) in entries && w.freshAt < entries[Fresh(s)].expiresAt
                         && entries[Fresh(s)].quote.Some?;
            var answered := s in asked && Usable(w.response, |asked|, s);
            var stale := w.staleWorks && Stale(s) in at && w.staleAt < at[Stale(s)].expiresAt
                         && at[Stale(s)].quote.Some?;
            Resolve(entries, w, asked, s) ==
            if live then Item(s, Okay, Some(FromCache), entries[Fresh(s)].quote, None)
            else if answered then Item(s, Okay, Some(FromProvider), Some(RawFor(w.response, |asked|, s).quote), None)
            else if stale then Item(s, OnlyStale, Some(FromStaleCache), at[Stale(s)].quote, Some(LiveUnavailable))
            else Item(s, Missing, None, None, Some(if w.response.Failed? || s in asked then UpstreamFailed
                                                   else NotAvailable))
  {}

  /** A write of quotes for other symbols leaves a symbol's entries alone. */
  lemma {:induction false} OtherEntriesStay(entries: Entries, commands: seq<Command>, key: Key)
    requires forall c :: c in commands ==> c.key != key
    ensures key in Executed(entries, commands) <==> key in entries
    ensures key in entries ==> Executed(entries, commands)[key] == entries[key]
  {
    if commands != [] {
      var front := commands[..|commands| - 1];
      assert forall c :: c in front ==> c in commands;
      OtherEntriesStay(entries, front, key);
      assert commands[|commands| - 1] in commands;
    }
  }

  predicate SameAt(before: Entries, after: Entries, k: Key) {
    && (k in after <==> k in before)
    && (k in after ==> after[k] == before[k])
  }

  predicate SameEntries(before: Entries, after: Entries, s: Symbol) {
    SameAt(before, after, Fresh(s)) && SameAt(before, after, Stale(s))
  }

  /** The symbols the provider answers with a usable quote. */
  function ProvidedSet(w: Weather, asked: seq<Symbol>): set<Symbol> {
    set s | s in asked && ProvidedFor(w, asked, s).Some?
  }

  /** What a call leaves in the cache: other symbols' entries as they were, and, if the
      write gets through, every provided quote under both keys. */
  ghost predicate CacheAfter(before: Entries, after: Entries, w: Weather, asked: seq<Symbol>,
                             freshTtl: int, staleTtl: int) {
    && (forall s :: ProvidedFor(w, asked, s).None? ==> SameEntries(before, after, s))
    && (w.writeReached >= 2 * |ProvidedSet(w, asked)| ==>
          forall s :: ProvidedFor(w, asked, s).Some? ==>
            StoredTwice(after, ProvidedFor(w, asked, s).value, w.writtenAt + freshTtl, w.writtenAt + staleTtl))
  }

  /** Only normalized symbols can be answered: a missing symbol is among those asked for
      exactly when normalizing leaves it alone. */
  lemma AskedIffNormalized(entries: Entries, w: Weather, symbols: seq<Symbol>, normalize: Symbol -> Symbol, s: Symbol)
    requires forall x :: normalize(normalize(x)) == normalize(x)
    requires s in Misses(entries, w, symbols)
    ensures s in Asked(entries, w, symbols, normalize) <==> normalize(s) == s
    ensures normalize(s) != s ==> ProvidedFor(w, Asked(entries, w, symbols, normalize), s).None?
  {
    var misses := Misses(entries, w, symbols);
    var i :| 0 <= i < |misses| && misses[i] == s;
    assert Normalized(misses, normalize)[i] == normalize(s);
  }

  /** However far a put gets, entries of other symbols stay. */
  lemma OtherSymbolStays(entries: Entries, quotes: seq<Quote>, s: Symbol, now: Time, freshTtl: int, staleTtl: int,
                         reached: nat)
    requires reached <= 2 * |quotes| && forall q :: q in quotes ==> q.symbol != s
    ensures SameEntries(entries, Executed(entries, Writes(quotes, now, freshTtl, staleTtl)[..reached]), s)
  {
    var done := Writes(quotes, now, freshTtl, staleTtl)[..reached];
    forall c | c in done ensures c.key.symbol != s {
      var j :| 0 <= j < |done| && done[j] == c;
      WriteAt(quotes, j, now, freshTtl, staleTtl);
      assert quotes[j / 2] in quotes;
    }
    OtherEntriesStay(entries, done, Fresh(s));
    OtherEntriesStay(entries, done, Stale(s));
  }

  lemma NothingIsBlank(normalize: Symbol -> Symbol)
    ensures !HasBlank([], normalize) && Dedupe(Normalized([], normalize)) == []
  {}

  /** The provider's maps are what the specification says, symbol by symbol. */
  lemma AnswersMatch(w: Weather, asked: seq<Symbol>, batch: Result<BatchResult>)
    requires batch.Err? ==> w.response.Failed?
    requires batch.Ok? ==>
               && !w.response.Failed?
               && (forall s :: s in asked <==> s in batch.value.quotes || s in batch.value.errors)
               && batch.value.quotes.Keys !! batch.value.errors
               && (forall s :: s in asked ==> (s in batch.value.quotes <==> Usable(w.response, |asked|, s)))
               && (forall s :: s in batch.value.quotes ==>
                     Usable(w.response, |asked|, s) && batch.value.quotes[s] == RawFor(w.response, |asked|, s).quote)
    ensures forall s :: (if batch.Ok? then Known(batch.value.quotes, s) else None) == ProvidedFor(w, asked, s)
    ensures forall s :: Blamed(w, asked, s) <==> batch.Err? || s in batch.value.errors
  {
    hide RawFor;
  }

  lemma NothingChanged(entries: Entries)
    ensures forall s :: SameEntries(entries, entries, s)
  {}

  lemma NoQuestionNoAnswer(w: Weather)
    ensures forall s :: ProvidedFor(w, [], s) == None
  {}

  lemma QuotesNameTheirSymbols(response: Response, count: nat, quotes: map<Symbol, Quote>)
    requires forall s :: s in quotes ==> Usable(response, count, s) && quotes[s] == RawFor(response, count, s).quote
    ensures forall s :: s in quotes ==> quotes[s].symbol == s
  {}

  lemma CacheIsAsPromised(before: Entries, after: Entries, w: Weather, asked: seq<Symbol>, provided: map<Symbol, Quote>,
                          freshTtl: int, staleTtl: int)
    requires forall s :: Known(provided, s) == ProvidedFor(w, asked, s)
    requires forall s :: s !in provided ==> SameEntries(before, after, s)
    requires w.writeReached >= 2 * |provided.Keys| ==>
               forall s :: s in provided ==>
                 StoredTwice(after, provided[s], w.writtenAt + freshTtl, w.writtenAt + staleTtl)
    ensures CacheAfter(before, after, w, asked, freshTtl, staleTtl)
  {
    hide SameEntries, StoredTwice;
    forall s ensures s in provided <==> s in ProvidedSet(w, asked) {
      assert Known(provided, s) == ProvidedFor(w, asked, s);
    }
    assert provided.Keys == ProvidedSet(w, asked);
    forall s | ProvidedFor(w, asked, s).Some? && w.writeReached >= 2 * |ProvidedSet(w, asked)|
      ensures StoredTwice(after, ProvidedFor(w, asked, s).value, w.writtenAt + freshTtl, w.writtenAt + staleTtl)
    {
      assert Known(provided, s) == ProvidedFor(w, asked, s);
    }
  }

  class BatchMarketQuoteService {
    const provider: TwelveDataMarketDataProvider
    const cache: MarketSnapshotCache

    constructor (provider: TwelveDataMarketDataProvider, cache: MarketSnapshotCache)
      ensures this.provider == provider && this.cache == cache
    {
      this.provider, this.cache := provider, cache;
    }

    /** Every requested symbol, in order, gets what the per-symbol specification says;
        the call raises only when a missing symbol is blank.  Others may change the cache
        at any time between this call's accesses. */
    method GetQuotes(symbols: seq<Symbol>, w: Weather) returns (r: Result<BatchResponse>, asked: seq<Symbol>)
      modifies cache
      ensures r.Err? <==> HasBlank(Misses(old(cache.entries), w, symbols), provider.normalize)
      ensures r.Err? ==> cache.entries == Meanwhile(old(cache.entries), w.beforeWrite)
      ensures r.Ok? ==>
                && asked == Asked(old(cache.entries), w, symbols, provider.normalize)
                && |r.value.items| == |symbols| == r.value.requested
                && (forall i :: 0 <= i < |symbols| ==>
                      r.value.items[i] == Resolve(old(cache.entries), w, asked, symbols[i]))
                && r.value.requested == r.value.succeeded + r.value.stale + r.value.failed
                && r.value.succeeded == CountOf(r.value.items, Okay)
                && r.value.stale == CountOf(r.value.items, OnlyStale)
      ensures r.Ok? ==>
                if w.beforeStale.Some? then cache.entries == w.beforeStale.value
                else CacheAfter(Meanwhile(old(cache.entries), w.beforeWrite), cache.entries, w, asked,
                                cache.freshTtl, cache.staleTtl)
    {
      var cached: map<Symbol, Quote> := map[];
      if w.freshWorks { cached := cache.GetFreshMany(symbols, w.freshAt); }
      var missing := CollectMissing(symbols, cached, w);
      cache.entries := Meanwhile(cache.entries, w.beforeWrite);
      var usable, provided, blamed;
      usable, asked, provided, blamed := AskProvider(missing, w);
      if !usable { return Err(InvalidValue), asked; }
      cache.entries := Meanwhile(cache.entries, w.beforeStale);
      var unresolved := CollectUnresolved(missing, provided);
      var stale: map<Symbol, Quote> := map[];
      if unresolved != [] && w.staleWorks { stale := cache.GetStaleMany(unresolved, w.staleAt); }
      var items := Assemble(old(cache.entries), symbols, w, asked, cached, provided, stale, blamed);
      CountsPartition(items);
      var succeeded := Tally(items, Okay);
      var onlyStale := Tally(items, OnlyStale);
      var failed := Tally(items, Missing);
      return Ok(BatchResponse(|symbols|, succeeded, onlyStale, failed, items)), asked;
    }

    /** The provider half: ask for the misses, note whom to blame, save what came back. */
    method AskProvider(missing: seq<Symbol>, w: Weather)
      returns (usable: bool, asked: seq<Symbol>, provided: map<Symbol, Quote>, blamed: set<Symbol>)
      modifies cache
      ensures usable <==> !HasBlank(missing, provider.normalize)
      ensures !usable ==> cache.entries == old(cache.entries)
      ensures usable ==>
                && asked == Dedupe(Normalized(missing, provider.normalize))
                && (forall s :: Known(provided, s) == ProvidedFor(w, asked, s))
                && (forall s :: s in missing ==> (s in blamed <==> Blamed(w, asked, s)))
                && CacheAfter(old(cache.entries), cache.entries, w, asked, cache.freshTtl, cache.staleTtl)
    {
      hide StoredTwice, CacheAfter, RawFor, Usable, Normalized, Dedupe, HasBlank, ProvidedFor, Blamed, SameEntries;
      NothingChanged(cache.entries);
      NothingIsBlank(provider.normalize);
      NoQuestionNoAnswer(w);
      asked, provided, blamed := [], map[], {};
      if missing == [] {
        CacheIsAsPromised(cache.entries, cache.entries, w, asked, provided, cache.freshTtl, cache.staleTtl);
        return true, asked, provided, blamed;
      }
      var batch;
      batch, asked := provider.GetQuotes(missing, w.response);
      if batch == Err(InvalidValue) { return false, asked, provided, blamed; }
      AnswersMatch(w, asked, batch);
      if batch.Err? {
        blamed := set s | s in missing;
      } else {
        provided, blamed := batch.value.quotes, batch.value.errors;
        QuotesNameTheirSymbols(w.response, |asked|, provided);
        Save(provided, w);
      }
      CacheIsAsPromised(old(cache.entries), cache.entries, w, asked, provided, cache.freshTtl, cache.staleTtl);
      return true, asked, provided, blamed;
    }

    method CollectMissing(symbols: seq<Symbol>, cached: map<Symbol, Quote>, w: Weather) returns (missing: seq<Symbol>)
      requires forall s :: s in symbols ==> (s in cached <==> FreshFor(cache.entries, w, s).Some?)
      ensures missing == Misses(cache.entries, w, symbols)
    {
      missing := [];
      for i := 0 to |symbols|
        invariant missing == Misses(cache.entries, w, symbols[..i])
      {
        assert symbols[..i + 1][..i] == symbols[..i] && symbols[i] in symbols;
        if symbols[i] !in cached { missing := missing + [symbols[i]]; }
      }
      assert symbols[..|symbols|] == symbols;
    }

    method CollectUnresolved(missing: seq<Symbol>, provided: map<Symbol, Quote>) returns (unresolved: seq<Symbol>)
      ensures forall s :: s in unresolved <==> s in missing && s !in provided
    {
      unresolved := [];
      for i := 0 to |missing|
        invariant forall s :: s in unresolved <==> s in missing[..i] && s !in provided
      {
        if missing[i] !in provided { unresolved := unresolved + [missing[i]]; }
      }
      assert missing[..|missing|] == missing;
    }

    /** put_many, whose failure is swallowed: only entries of the saved symbols change. */
    method Save(quotes: map<Symbol, Quote>, w: Weather)
      requires forall s :: s in quotes ==> quotes[s].symbol == s
      modifies cache
      ensures forall s :: s !in quotes ==> SameEntries(old(cache.entries), cache.entries, s)
      ensures w.writeReached >= 2 * |quotes.Keys| ==>
                forall s :: s in quotes ==>
                  StoredTwice(cache.entries, quotes[s], w.writtenAt + cache.freshTtl, w.writtenAt + cache.staleTtl)
    {
      hide Writes, Executed, StoredTwice;
      var list := ListOf(quotes);
      if list == [] {
        return;
      }
      ghost var before, commands := cache.entries, Writes(list, w.writtenAt, cache.freshTtl, cache.staleTtl);
      var completed := cache.PutMany(list, w.writtenAt, w.writeReached);
      ghost var reached := if completed then |commands| else w.writeReached;
      assert commands[..|commands|] == commands;
      assert cache.entries == Executed(before, commands[..reached]);
      forall s | s !in quotes ensures SameEntries(before, cache.entries, s) {
        hide SameEntries;
        OtherSymbolStays(before, list, s, w.writtenAt, cache.freshTtl, cache.staleTtl, reached);
      }
      if completed {
        forall s | s in quotes
          ensures StoredTwice(cache.entries, quotes[s], w.writtenAt + cache.freshTtl, w.writtenAt + cache.staleTtl)
        {
          hide SameEntries;
          var i :| 0 <= i < |list| && list[i] == quotes[s];
          LastQuoteIsStored(before, list, i, w.writtenAt, cache.freshTtl, cache.staleTtl);
        }
      }
    }

    /** The quotes as a list, each symbol once. */
    method ListOf(quotes: map<Symbol, Quote>) returns (list: seq<Quote>)
      requires forall s :: s in quotes ==> quotes[s].symbol == s
      ensures |list| == |quotes.Keys| && forall s :: s in quotes ==> quotes[s] in list
      ensures forall i :: 0 <= i < |list| ==> list[i].symbol in quotes && list[i] == quotes[list[i].symbol]
      ensures forall i, j :: 0 <= i < j < |list| ==> list[i].symbol != list[j].symbol
    {
      list := [];
      var rest := quotes.Keys;
      while rest != {}
        invariant rest <= quotes.Keys && |list| + |rest| == |quotes.Keys|
        invariant forall i :: 0 <= i < |list| ==>
                    list[i].symbol in quotes && list[i].symbol !in rest && list[i] == quotes[list[i].symbol]
        invariant forall i, j :: 0 <= i < j < |list| ==> list[i].symbol != list[j].symbol
        invariant forall s :: s in quotes && s !in rest ==> quotes[s] in list
        decreases rest
      {
        var s :| s in rest;
        list, rest := list + [quotes[s]], rest - {s};
      }
    }

    method Assemble(ghost entries: Entries, symbols: seq<Symbol>, w: Weather, ghost asked: seq<Symbol>,
                    cached: map<Symbol, Quote>, provided: map<Symbol, Quote>, stale: map<Symbol, Quote>,
                    blamed: set<Symbol>)
      returns (items: seq<Item>)
      requires forall s :: s in symbols ==> Known(cached, s) == FreshFor(entries, w, s)
      requires forall s :: s in symbols && s !in cached ==> Known(provided, s) == ProvidedFor(w, asked, s)
      requires forall s :: s in symbols && s !in cached && s !in provided ==> Known(stale, s) == StaleFor(entries, w, s)
      requires forall s :: s in symbols && s !in cached ==> (s in blamed <==> Blamed(w, asked, s))
      ensures |items| == |symbols|
      ensures forall i :: 0 <= i < |symbols| ==> items[i] == Resolve(entries, w, asked, symbols[i])
    {
      items := [];
      for i := 0 to |symbols|
        invariant |items| == i && forall j :: 0 <= j < i ==> items[j] == Resolve(entries, w, asked, symbols[j])
      {
        var s := symbols[i];
        assert s in symbols;
        if s in cached {
          items := items + [Item(s, Okay, Some(FromCache), Some(cached[s]), None)];
          continue;
        }
        if s in provided {
          items := items + [Item(s, Okay, Some(FromProvider), Some(provided[s]), None)];
          continue;
        }
        if s in stale {
          items := items + [Item(s, OnlyStale, Some(FromStaleCache), Some(stale[s]), Some(LiveUnavailable))];
          continue;
        }
        items := items + [Item(s, Missing, None, None, Some(if s in blamed then UpstreamFailed else NotAvailable))];
      }
    }

    method Tally(items: seq<Item>, status: Status) returns (n: nat)
      ensures n == CountOf(items, status)
    {
      n := 0;
      for i := 0 to |items|
        invariant n == CountOf(items[..i], status)
      {
        assert items[..i + 1][..i] == items[..i];
        if items[i].status == status { n := n + 1; }
      }
      assert items[..|items|] == items;
    }
  }

  function Known(quotes: map<Symbol, Quote>, s: Symbol): Option<Quote> {
    if s in quotes then Some(quotes[s]) else None
  }
}
