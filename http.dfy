/**
 The parts of the signed REST client that are not foreign calls: the
 nonce generator and the order type accessors.
 */
module Http {
  import opened Wrappers

  /** An order as the exchange describes it; only its type code is read
      here (0 for a buy, 1 for a sell). */
  datatype Order = Order(orderType: int)

  /** `Order.isBuy`. */
  predicate IsBuy(o: Order) {
    o.orderType == 0
  }

  /** `Order.isSell`: never true of an order that is a buy. */
  function IsSell(o: Order): (r: bool)
    ensures r ==> !IsBuy(o)
  {
    o.orderType == 1
  }

  /** The nonce `_getNonce` computes from the previous nonce and the clock
      reading in whole seconds: the reading itself, or one more when the
      reading equals the previous nonce. */
  function NextNonce(prev: Option<int>, now: int): (r: int)
    ensures r == now || r == now + 1
    ensures r == now + 1 <==> prev == Some(now)
    ensures prev != Some(r)
  {
    if prev == Some(now) then now + 1 else now
  }

  /** Three nonces asked for within one clock second: the third repeats the
      first, since it is compared with the second only. */
  lemma NonceRepeatsWithinOneSecond(t: int)
    ensures var n1 := NextNonce(None, t);
            var n2 := NextNonce(Some(n1), t);
            var n3 := NextNonce(Some(n2), t);
            n1 == t && n2 == t + 1 && n3 == t
  {
  }

  /** A nonce that is never below the clock reading and always above the
      previous nonce. */
  function NextIncreasingNonce(prev: Option<int>, now: int): (r: int)
    ensures r >= now
    ensures prev.Some? ==> r > prev.value
    ensures r == now || (prev.Some? && r == prev.value + 1)
  {
    if prev.Some? && now <= prev.value then prev.value + 1 else now
  }

  /** The nonces produced for a run of clock readings, starting from `prev`. */
  function IncreasingNonces(prev: Option<int>, clock: seq<int>): (ns: seq<int>)
    ensures |ns| == |clock|
    decreases |clock|
  {
    if clock == [] then []
    else
      var n := NextIncreasingNonce(prev, clock[0]);
      [n] + IncreasingNonces(Some(n), clock[1..])
  }

  /** Whatever the clock reads, the corrected nonces strictly increase, so
      none is ever used twice. */
  lemma {:induction false} IncreasingNoncesStrictlyIncrease(prev: Option<int>, clock: seq<int>)
    ensures var ns := IncreasingNonces(prev, clock);
            && (forall i, j :: 0 <= i < j < |ns| ==> ns[i] < ns[j])
            && (prev.Some? ==> forall i :: 0 <= i < |ns| ==> prev.value < ns[i])
    decreases |clock|
  {
    if clock != [] {
      var n := NextIncreasingNonce(prev, clock[0]);
      IncreasingNoncesStrictlyIncrease(Some(n), clock[1..]);
      var ns := IncreasingNonces(prev, clock);
      assert ns[1..] == IncreasingNonces(Some(n), clock[1..]);
      forall i, j | 0 <= i < j < |ns| ensures ns[i] < ns[j] {
        if i > 0 {
          assert ns[i] == ns[1..][i - 1] && ns[j] == ns[1..][j - 1];
        } else {
          assert ns[j] == ns[1..][j - 1];
        }
      }
    }
  }

  /** The signed HTTP client; only its nonce state is modelled. */
  class HTTPClient {
    const clientId: string
    const key: string
    const secret: string
    var prevNonce: Option<int>

    constructor (clientId: string, key: string, secret: string)
      ensures this.clientId == clientId && this.key == key && this.secret == secret
      ensures prevNonce == None
    {
      this.clientId, this.key, this.secret := clientId, key, secret;
      prevNonce := None;
    }

    /** `_getNonce`, with the clock reading `now` (`int(time.time())`). The
        nonce differs from the previous one and becomes the new previous. */
    method GetNonce(now: int) returns (nonce: int)
      modifies this
      ensures nonce == NextNonce(old(prevNonce), now)
      ensures old(prevNonce) != Some(nonce)
      ensures prevNonce == Some(nonce)
    {
      nonce := now;
      if Some(nonce) == prevNonce {
        nonce := nonce + 1;
      }
      prevNonce := Some(nonce);
    }
  }
}
