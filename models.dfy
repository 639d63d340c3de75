/**
 * The per-symbol rolling state of the signal service (models.py): the bounded
 * price window, the last published signal, and the value domains of the
 * signal response.
 */
module Models {

  /** The `Literal["UP", "DOWN", "FLAT"]` domain of a signal's trend. */
  datatype Trend = Up | Down | Flat

  /** The `Literal["BUY", "SELL", "HOLD"]` domain of a signal's decision. */
  datatype Decision = Buy | Sell | Hold

  /** A published `(trend, decision, rsi)` triple. */
  datatype Signal = Signal(trend: Trend, decision: Decision, rsi: real)

  /** One incoming price observation. */
  datatype Tick = Tick(symbol: string, ts: real, price: real)

  /** The body of a successful signal query. */
  datatype SignalResponse = SignalResponse(symbol: string, trend: Trend, rsi: real, decision: Decision)

  /** Default capacity of a symbol's price window. */
  const DefaultMaxSize: nat := 200

  /** The signal a symbol publishes before any tick has arrived. */
  const NeutralSignal: Signal := Signal(Flat, Hold, 50.0)

  /** The last `n` elements of `s` (all of `s` when it is shorter): what a deque with `maxlen = n` retains. */
  function LastN(s: seq<real>, n: nat): (r: seq<real>)
    ensures |r| == if |s| <= n then |s| else n
    ensures forall k :: 0 <= k < |r| ==> r[k] == s[|s| - |r| + k]
  {
    if |s| <= n then s else s[|s| - n..]
  }

  /** The window obtained by pushing every price of `ps`, oldest first, into a deque holding `w`. */
  function Pushed(w: seq<real>, ps: seq<real>, n: nat): seq<real>
    decreases |ps|
  {
    if ps == [] then w else LastN(Pushed(w, ps[..|ps| - 1], n) + [ps[|ps| - 1]], n)
  }

  /** Pushing one more price extends a push sequence by one step. */
  lemma PushedSnoc(w: seq<real>, ps: seq<real>, p: real, n: nat)
    ensures Pushed(w, ps + [p], n) == LastN(Pushed(w, ps, n) + [p], n)
  {
    assert (ps + [p])[..|ps|] == ps;
  }

  /** Trimming before one more push loses nothing that the push would keep. */
  lemma {:induction false} LastNPush(s: seq<real>, p: real, n: nat)
    ensures LastN(LastN(s, n) + [p], n) == LastN(s + [p], n)
  {
    var a, b := LastN(LastN(s, n) + [p], n), LastN(s + [p], n);
    assert |a| == |b|;
    forall k | 0 <= k < |a| ensures a[k] == b[k] {
      if k == |a| - 1 {
      } else {
        assert a[k] == LastN(s, n)[|LastN(s, n)| + 1 - |a| + k];
      }
    }
  }

  /** After any number of pushes the window holds the last `n` of everything it has seen, in order. */
  lemma {:induction false} PushedIsLastN(w: seq<real>, ps: seq<real>, n: nat)
    requires |w| <= n
    ensures Pushed(w, ps, n) == LastN(w + ps, n)
    decreases |ps|
  {
    if ps == [] {
      assert w + ps == w;
    } else {
      var init, p := ps[..|ps| - 1], ps[|ps| - 1];
      PushedIsLastN(w, init, n);
      LastNPush(w + init, p, n);
      assert w + init + [p] == w + ps;
    }
  }

  /** Starting from an empty window, k pushes leave exactly the last min(k, n) pushed prices. */
  lemma WindowAfterPushes(ps: seq<real>, n: nat)
    ensures |Pushed([], ps, n)| == if |ps| <= n then |ps| else n
    ensures Pushed([], ps, n) == ps[|ps| - |Pushed([], ps, n)|..]
  {
    PushedIsLastN([], ps, n);
    assert [] + ps == ps;
  }

  /** Once the window is full, the oldest element of a push sequence of length n + 1 is gone. */
  lemma {:induction false} OldestEvicted(ps: seq<real>, n: nat)
    requires |ps| == n + 1
    ensures Pushed([], ps, n) == ps[1..]
  {
    WindowAfterPushes(ps, n);
  }

  /** The rolling state of one symbol: a bounded FIFO of prices and the last published signal. */
  class SymbolState {
    const maxSize: nat
    var prices: seq<real>
    var latestTrend: Trend
    var latestDecision: Decision
    var latestRsi: real

    ghost predicate Valid()
      reads this
    {
      |prices| <= maxSize
    }

    /** The published signal fields as one value. */
    function Published(): Signal
      reads this
    {
      Signal(latestTrend, latestDecision, latestRsi)
    }

    constructor (maxSize: nat)
      ensures Valid()
      ensures this.maxSize == maxSize
      ensures prices == []
      ensures Published() == NeutralSignal
    {
      this.maxSize := maxSize;
      prices := [];
      latestTrend := Flat;
      latestDecision := Hold;
      latestRsi := 50.0;
    }

    /** Appends `price`; a full window first loses its oldest element. */
    method AddPrice(price: real)
      requires Valid()
      modifies this
      ensures Valid()
      ensures prices == LastN(old(prices) + [price], maxSize)
      ensures maxSize > 0 ==> prices[|prices| - 1] == price
      ensures |old(prices)| < maxSize ==> prices == old(prices) + [price]
      ensures |old(prices)| == maxSize > 0 ==> prices == old(prices)[1..] + [price]
      ensures Published() == old(Published())
    {
      prices := prices + [price];
      if |prices| > maxSize {
        prices := prices[1..];
      }
    }
  }
}
