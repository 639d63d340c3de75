/**
 * The sequential core of the signal service (main.py): the fixed registry of
 * tracked symbols, the per-tick update step, the signal query and the
 * decision-change stream.
 */
module Service {
  import opened Outcomes
  import opened Models
  import opened Indicators

  /** The symbols registered at startup; the registry never changes afterwards. */
  const SymbolsToTrack: seq<string> := ["XYZ", "ABC", "DEF"]

  /** A query or subscription for a symbol outside the registry (HTTP 404 / close code 1008). */
  datatype LookupError = NotTracked(symbol: string)

  /** One message of the decision stream. */
  datatype StreamMessage = StreamMessage(symbol: string, decision: Decision)

  // ---------------------------------------------------------------- symbol keys

  function UpperChar(c: char): char
  {
    if 'a' <= c <= 'z' then (c as int - 32) as char else c
  }

  /** `str.upper` restricted to ASCII letters. */
  function Upper(s: string): (u: string)
    ensures |u| == |s|
    ensures forall k :: 0 <= k < |u| ==> !('a' <= u[k] <= 'z')
    ensures forall k :: 0 <= k < |s| && !('a' <= s[k] <= 'z') ==> u[k] == s[k]
    ensures forall k :: 0 <= k < |s| && 'a' <= s[k] <= 'z' ==>
              'A' <= u[k] <= 'Z' && u[k] as int - 'A' as int == s[k] as int - 'a' as int
  {
    seq(|s|, i requires 0 <= i < |s| => UpperChar(s[i]))
  }

  /** A lower-case query names the tracked key it spells: "xyz" looks up "XYZ". */
  lemma LowerCaseKeysAreTracked()
    ensures Upper("xyz") == "XYZ" && Upper("abc") == "ABC" && Upper("def") == "DEF"
  {
    assert Upper("xyz") == ['X', 'Y', 'Z'];
    assert Upper("abc") == ['A', 'B', 'C'];
    assert Upper("def") == ['D', 'E', 'F'];
  }

  /** Upper-casing a key twice is the same as once: a returned symbol looks itself up. */
  lemma UpperIdempotent(s: string)
    ensures Upper(Upper(s)) == Upper(s)
  {
  }

  // ---------------------------------------------------------------- specification of the store

  /** The prices of `ticks` that are for `sym`, in arrival order. */
  function PricesFor(ticks: seq<Tick>, sym: string): seq<real>
    decreases |ticks|
  {
    if ticks == [] then []
    else
      var last := ticks[|ticks| - 1];
      PricesFor(ticks[..|ticks| - 1], sym) + (if last.symbol == sym then [last.price] else [])
  }

  /** One more tick adds its price to its own symbol's list and to no other. */
  lemma PricesForSnoc(ticks: seq<Tick>, tick: Tick, sym: string)
    ensures PricesFor(ticks + [tick], sym)
         == PricesFor(ticks, sym) + (if tick.symbol == sym then [tick.price] else [])
  {
    assert (ticks + [tick])[..|ticks|] == ticks;
  }

  // ---------------------------------------------------------------- the decision stream

  /**
   * The decisions a stream subscriber is sent: the first read at once, then each
   * later read that differs from the last decision sent.
   */
  function Feed(first: Decision, polls: seq<Decision>): (sent: seq<Decision>)
    ensures |sent| >= 1
    decreases |polls|
  {
    if |polls| == 0 then [first]
    else
      var prior := Feed(first, polls[..|polls| - 1]);
      if polls[|polls| - 1] != prior[|prior| - 1] then prior + [polls[|polls| - 1]] else prior
  }

  function Last(ds: seq<Decision>): Decision
    requires ds != []
  {
    ds[|ds| - 1]
  }

  /** The stream opens with the snapshot and its last message carries the latest read. */
  lemma {:induction false} FeedEnds(first: Decision, polls: seq<Decision>)
    ensures Feed(first, polls)[0] == first
    ensures Last(Feed(first, polls)) == if |polls| == 0 then first else polls[|polls| - 1]
    decreases |polls|
  {
    if |polls| > 0 {
      FeedEnds(first, polls[..|polls| - 1]);
    }
  }

  /** One more poll sends its decision exactly when it differs from the last one sent. */
  lemma FeedSnoc(first: Decision, polls: seq<Decision>, x: Decision)
    ensures x != Last(Feed(first, polls)) ==> Feed(first, polls + [x]) == Feed(first, polls) + [x]
    ensures x == Last(Feed(first, polls)) ==> Feed(first, polls + [x]) == Feed(first, polls)
  {
    assert (polls + [x])[..|polls|] == polls;
  }

  predicate NoRepeats(ds: seq<Decision>)
  {
    forall k :: 0 < k < |ds| ==> ds[k - 1] != ds[k]
  }

  /** Consecutive messages never repeat a decision. */
  lemma {:induction false} FeedHasNoRepeats(first: Decision, polls: seq<Decision>)
    ensures NoRepeats(Feed(first, polls))
    decreases |polls|
  {
    if polls != [] {
      var prior := Feed(first, polls[..|polls| - 1]);
      FeedHasNoRepeats(first, polls[..|polls| - 1]);
      var x := polls[|polls| - 1];
      if x != prior[|prior| - 1] {
        var sent := prior + [x];
        forall k | 0 < k < |sent|
          ensures sent[k - 1] != sent[k]
        {
          if k < |prior| {
            assert sent[k - 1] == prior[k - 1] && sent[k] == prior[k];
          }
        }
      }
    }
  }

  /** `a` can be obtained from `b` by deleting elements (matched greedily from the back). */
  predicate SubsequenceOf(a: seq<Decision>, b: seq<Decision>)
    decreases |b|
  {
    if |a| == 0 then true
    else if |b| == 0 then false
    else if a[|a| - 1] == b[|b| - 1] then SubsequenceOf(a[..|a| - 1], b[..|b| - 1])
    else SubsequenceOf(a, b[..|b| - 1])
  }

  lemma {:induction false} SubsequenceDropLast(a: seq<Decision>, b: seq<Decision>)
    requires |a| > 0 && SubsequenceOf(a, b)
    ensures SubsequenceOf(a[..|a| - 1], b)
    decreases |b|, 0
  {
    var a', b' := a[..|a| - 1], b[..|b| - 1];
    if a[|a| - 1] == b[|b| - 1] {
      SubsequenceExtend(a', b', b[|b| - 1]);
    } else {
      SubsequenceDropLast(a, b');
      SubsequenceExtend(a', b', b[|b| - 1]);
    }
  }

  lemma {:induction false} SubsequenceExtend(a: seq<Decision>, b: seq<Decision>, x: Decision)
    requires SubsequenceOf(a, b)
    ensures SubsequenceOf(a, b + [x])
    decreases |b|, 1
  {
    assert (b + [x])[..|b|] == b;
    if |a| > 0 && a[|a| - 1] == x {
      SubsequenceDropLast(a, b);
    }
  }

  /** Every message of the stream is one of the reads, in the order they were read. */
  lemma {:induction false} FeedIsSubsequence(first: Decision, polls: seq<Decision>)
    ensures SubsequenceOf(Feed(first, polls), [first] + polls)
    decreases |polls|
  {
    if |polls| == 0 {
      assert SubsequenceOf([first][..0], [first][..0]);
    } else {
      var init, x := polls[..|polls| - 1], polls[|polls| - 1];
      var prior := Feed(first, init);
      FeedIsSubsequence(first, init);
      assert ([first] + polls)[..|polls|] == [first] + init;
      if x != prior[|prior| - 1] {
        assert (prior + [x])[..|prior|] == prior;
      } else {
        SubsequenceDropLast(prior, [first] + init);
      }
    }
  }

  /** How many times consecutive observations differ. */
  function Changes(obs: seq<Decision>): nat
    decreases |obs|
  {
    if |obs| < 2 then 0
    else Changes(obs[..|obs| - 1]) + (if obs[|obs| - 2] != obs[|obs| - 1] then 1 else 0)
  }

  /** One message for the snapshot plus exactly one per change of the observed decision. */
  lemma {:induction false} FeedCountsChanges(first: Decision, polls: seq<Decision>)
    ensures |Feed(first, polls)| == 1 + Changes([first] + polls)
    decreases |polls|
  {
    if polls != [] {
      var init := polls[..|polls| - 1];
      FeedCountsChanges(first, init);
      var obs := [first] + polls;
      assert obs[..|obs| - 1] == [first] + init;
      assert obs[|obs| - 2] == if init == [] then first else init[|init| - 1];
    }
  }

  /** The messages that carry `ds`, in order, each tagged with `key`. */
  function Tagged(key: string, ds: seq<Decision>): (msgs: seq<StreamMessage>)
    ensures |msgs| == |ds|
    ensures forall k :: 0 <= k < |ds| ==> msgs[k] == StreamMessage(key, ds[k])
  {
    seq(|ds|, k requires 0 <= k < |ds| => StreamMessage(key, ds[k]))
  }

  lemma TaggedSnoc(key: string, ds: seq<Decision>, d: Decision)
    ensures Tagged(key, ds + [d]) == Tagged(key, ds) + [StreamMessage(key, d)]
  {
  }

  /**
   * The subscriber loop: send `first` at once, then each later read that differs
   * from the last decision sent, every message tagged with `key`.
   */
  method DecisionStream(key: string, first: Decision, laterReads: seq<Decision>) returns (sent: seq<StreamMessage>)
    ensures sent == Tagged(key, Feed(first, laterReads))
  {
    var lastDecision := first;
    sent := [StreamMessage(key, lastDecision)];
    ghost var fed := [first];
    assert sent == Tagged(key, fed);
    for i := 0 to |laterReads|
      invariant fed == Feed(first, laterReads[..i])
      invariant sent == Tagged(key, fed)
      invariant lastDecision == fed[|fed| - 1]
    {
      var current := laterReads[i];
      assert laterReads[..i + 1] == laterReads[..i] + [current];
      FeedSnoc(first, laterReads[..i], current);
      if current != lastDecision {
        TaggedSnoc(key, fed, current);
        sent := sent + [StreamMessage(key, current)];
        fed := fed + [current];
        lastDecision := current;
      }
    }
    assert laterReads[..|laterReads|] == laterReads;
  }

  /**
   * The per-tick body for one tracked state: push the price, compute the signal
   * of the new window and overwrite the three published fields with it.
   */
  method Refresh(state: SymbolState, price: real)
    requires state.Valid()
    modifies state
    ensures state.Valid()
    ensures state.prices == LastN(old(state.prices) + [price], state.maxSize)
    ensures state.Published() == TrendAndDecision(state.prices)
  {
    state.AddPrice(price);
    var window := state.prices;
    var signal := DetermineTrendAndDecision(window);
    state.latestTrend := signal.trend;
    state.latestDecision := signal.decision;
    state.latestRsi := signal.rsi;
    assert state.prices == window && state.Published() == signal;
  }

  // ---------------------------------------------------------------- the store

  /** The registry of per-symbol states. Its keys are fixed when it is built. */
  class SignalStore {
    const states: map<string, SymbolState>

    ghost predicate Valid()
      reads this, states.Values
    {
      && (forall a, b :: a in states && b in states && a != b ==> states[a] != states[b])
      && (forall s :: s in states ==> states[s].maxSize == DefaultMaxSize && states[s].Valid())
    }

    /** Every published signal is the one computed from its symbol's current window. */
    ghost predicate Coherent()
      reads this, states.Values
    {
      forall s {:trigger states[s].Published()} :: s in states ==> states[s].Published() == TrendAndDecision(states[s].prices)
    }

    /** Startup: one fresh state of default capacity per tracked symbol. */
    constructor ()
      ensures Valid() && Coherent()
      ensures states.Keys == {"XYZ", "ABC", "DEF"}
      ensures forall s :: s in states ==>
        fresh(states[s]) && states[s].prices == [] && states[s].Published() == NeutralSignal
    {
      var m: map<string, SymbolState> := map[];
      for i := 0 to |SymbolsToTrack|
        invariant m.Keys == set k | 0 <= k < i :: SymbolsToTrack[k]
        invariant forall s :: s in m ==>
          && fresh(m[s]) && m[s].maxSize == DefaultMaxSize
          && m[s].prices == [] && m[s].Published() == NeutralSignal
        invariant forall a, b :: a in m && b in m && a != b ==> m[a] != m[b]
      {
        var state := new SymbolState(DefaultMaxSize);
        m := m[SymbolsToTrack[i] := state];
      }
      assert m.Keys == {"XYZ", "ABC", "DEF"} by {
        assert SymbolsToTrack[0] == "XYZ" && SymbolsToTrack[1] == "ABC" && SymbolsToTrack[2] == "DEF";
      }
      states := m;
      EmptyWindowIsNeutral();
    }

    /**
     * One tick of the consumer: a tracked symbol gets the price pushed into its
     * window and its three signal fields overwritten with the signal of the new
     * window; every other state, and every state for an untracked symbol, is untouched.
     */
    method Ingest(tick: Tick)
      requires Valid() && Coherent()
      modifies states.Values
      ensures Valid() && Coherent()
      ensures tick.symbol in states ==>
        var state := states[tick.symbol];
        && state.prices == LastN(old(state.prices) + [tick.price], DefaultMaxSize)
        && state.Published() == TrendAndDecision(state.prices)
      ensures forall s :: s in states && s != tick.symbol ==> unchanged(states[s])
    {
      if tick.symbol in states {
        var state := states[tick.symbol];
        Refresh(state, tick.price);
        forall s | s in states
          ensures states[s].maxSize == DefaultMaxSize && states[s].Valid()
          ensures states[s].Published() == TrendAndDecision(states[s].prices)
        {
          if s != tick.symbol {
            assert unchanged(states[s]);
            assert old(states[s].Published() == TrendAndDecision(states[s].prices));
          } else {
            assert states[s] == state;
          }
        }
      }
    }

    /**
     * The consumer loop over a finite stretch of the feed: each tracked symbol
     * ends with its own prices pushed through its window, in order, and a signal
     * computed from that window.
     */
    method Consume(ticks: seq<Tick>)
      requires Valid() && Coherent()
      modifies states.Values
      ensures Valid() && Coherent()
      ensures forall s :: s in states ==>
        states[s].prices == LastN(old(states[s].prices) + PricesFor(ticks, s), DefaultMaxSize)
    {
      for i := 0 to |ticks|
        invariant Valid() && Coherent()
        invariant forall s :: s in states ==>
          states[s].prices == Pushed(old(states[s].prices), PricesFor(ticks[..i], s), DefaultMaxSize)
      {
        label before:
        Ingest(ticks[i]);
        assert ticks[..i + 1] == ticks[..i] + [ticks[i]];
        forall s | s in states
          ensures states[s].prices == Pushed(old(states[s].prices), PricesFor(ticks[..i + 1], s), DefaultMaxSize)
        {
          var seen := PricesFor(ticks[..i], s);
          assert old@before(states[s].prices) == Pushed(old(states[s].prices), seen, DefaultMaxSize);
          PricesForSnoc(ticks[..i], ticks[i], s);
          if ticks[i].symbol == s {
            assert PricesFor(ticks[..i + 1], s) == seen + [ticks[i].price];
            assert states[s].prices == LastN(old@before(states[s].prices) + [ticks[i].price], DefaultMaxSize);
            PushedSnoc(old(states[s].prices), seen, ticks[i].price, DefaultMaxSize);
          } else {
            assert PricesFor(ticks[..i + 1], s) == seen;
            assert states[s].prices == old@before(states[s].prices);
          }
        }
      }
      assert ticks[..|ticks|] == ticks;
      forall s | s in states
        ensures states[s].prices == LastN(old(states[s].prices) + PricesFor(ticks, s), DefaultMaxSize)
      {
        PushedIsLastN(old(states[s].prices), PricesFor(ticks, s), DefaultMaxSize);
      }
    }

    /** The signal query: upper-case the key, report not-found or the stored fields as they are. */
    method GetSignal(symbol: string) returns (r: Result<SignalResponse, LookupError>)
      requires Coherent()
      ensures r.Ok? <==> Upper(symbol) in states
      ensures r.Err? ==> r.error == NotTracked(symbol)
      ensures r.Ok? ==>
        var state := states[Upper(symbol)];
        r.value == SignalResponse(Upper(symbol), state.latestTrend, state.latestRsi, state.latestDecision)
      ensures r.Ok? ==>
        var signal := TrendAndDecision(states[Upper(symbol)].prices);
        && r.value.trend == signal.trend && r.value.decision == signal.decision && r.value.rsi == signal.rsi
        && Rsi(states[Upper(symbol)].prices, 14) == Ok(r.value.rsi) && 0.0 <= r.value.rsi <= 100.0
    {
      var key := Upper(symbol);
      if key !in states {
        return Err(NotTracked(symbol));
      }
      var state := states[key];
      assert state.Published() == TrendAndDecision(state.prices);
      TrendAndDecisionRule(state.prices);
      return Ok(SignalResponse(key, state.latestTrend, state.latestRsi, state.latestDecision));
    }

    /**
     * The stream endpoint: an untracked symbol is refused; otherwise the stream
     * of the symbol's current decision followed by the later reads.
     */
    method StreamDecisions(symbol: string, laterReads: seq<Decision>) returns (r: Result<seq<StreamMessage>, LookupError>)
      ensures r.Ok? <==> Upper(symbol) in states
      ensures r.Err? ==> r.error == NotTracked(symbol)
      ensures r.Ok? ==> r.value == Tagged(Upper(symbol), Feed(states[Upper(symbol)].latestDecision, laterReads))
    {
      var key := Upper(symbol);
      if key !in states {
        return Err(NotTracked(symbol));
      }
      var sent := DecisionStream(key, states[key].latestDecision, laterReads);
      return Ok(sent);
    }
  }
}
