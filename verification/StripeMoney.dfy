/** Amounts and deadlines sent to Stripe. */
module StripeMoney {
  import opened Tables
  import opened Commits
  import opened Integrity

  /** stripeMinorUnitMultiplier, for a currency code already trimmed and upper-cased. */
  function Multiplier(code: string): int {
    if code in ["BHD", "JOD", "KWD", "OMR", "TND"] then 1000
    else if code in ["BIF", "CLP", "DJF", "GNF", "JPY", "KMF", "KRW", "MGA", "PYG", "RWF", "UGX", "VND", "VUV",
                     "XAF", "XOF", "XPF"]
    then 1
    else 100
  }

  /** math.Round of n / d: to the nearest integer, halves away from zero. */
  function RoundHalfAway(n: int, d: int): int
    requires d > 0
  {
    if n >= 0 then (2 * n + d) / (2 * d) else -((-2 * n + d) / (2 * d))
  }

  /** The unit amount of a line whose price is in cents. */
  function UnitAmount(price: int, multiplier: int): int {
    var amount := RoundHalfAway(price * multiplier, 100);
    if amount < 0 then 0 else amount
  }

  function StripeTotal(items: seq<OrderItem>, multiplier: int): int {
    if items == [] then 0
    else items[0].quantity * UnitAmount(items[0].unitPrice, multiplier) + StripeTotal(items[1..], multiplier)
  }

  method ChargeTotal(items: seq<OrderItem>, code: string) returns (total: int)
    ensures total == StripeTotal(items, Multiplier(code))
  {
    total := 0;
    var i := 0;
    while i < |items|
      invariant 0 <= i <= |items|
      invariant total + StripeTotal(items[i..], Multiplier(code)) == StripeTotal(items, Multiplier(code))
    {
      total := total + items[i].quantity * UnitAmount(items[i].unitPrice, Multiplier(code));
      assert items[i..][1..] == items[i + 1..];
      i := i + 1;
    }
  }

  function Magnitude(x: int): nat {
    if x < 0 then -x else x
  }

  /** Units on the lines, whichever their sign. */
  function UnitCount(items: seq<OrderItem>): int {
    if items == [] then 0 else Magnitude(items[0].quantity) + UnitCount(items[1..])
  }

  predicate NonNegativePrices(items: seq<OrderItem>) {
    forall i :: 0 <= i < |items| ==> items[i].unitPrice >= 0
  }

  lemma UnitAmountBound(price: int, code: string)
    requires price >= 0
    ensures var m := Multiplier(code);
            && (m == 100 ==> UnitAmount(price, m) == price)
            && (m == 1000 ==> UnitAmount(price, m) == 10 * price)
            && (m == 1 ==> -50 <= price - 100 * UnitAmount(price, m) <= 50)
            && (m == 1 || m == 100 || m == 1000)
  {
  }

  lemma {:induction false} StripeTotalBound(items: seq<OrderItem>, code: string)
    requires NonNegativePrices(items)
    ensures var m := Multiplier(code);
            && (m == 100 ==> StripeTotal(items, m) == Subtotal(items))
            && (m == 1000 ==> StripeTotal(items, m) == 10 * Subtotal(items))
            && (m == 1 ==>
                -50 * UnitCount(items) <= Subtotal(items) - 100 * StripeTotal(items, m) <= 50 * UnitCount(items))
  {
    if items != [] {
      var m, p, q := Multiplier(code), items[0].unitPrice, items[0].quantity;
      UnitAmountBound(p, code);
      StripeTotalBound(items[1..], code);
      if m == 1 {
        LineBound(q, p, UnitAmount(p, m));
      } else if m == 1000 {
        assert q * (10 * p) == 10 * (p * q);
      }
    }
  }

  lemma LineBound(q: int, p: int, u: int)
    requires -50 <= p - 100 * u <= 50
    ensures -50 * Magnitude(q) <= p * q - 100 * (q * u) <= 50 * Magnitude(q)
  {
    var d, m := p - 100 * u, Magnitude(q);
    assert p * q - 100 * (q * u) == d * q;
    Scaled(m, d);
    assert q == m || -q == m;
    assert d * q == d * m || d * q == 0 - d * m;
  }

  lemma Scaled(m: nat, d: int)
    requires -50 <= d <= 50
    ensures -50 * m <= d * m <= 50 * m
  {
    assert (d + 50) * m >= 0 && (50 - d) * m >= 0;
  }

  // Every order the database ever stores is charged within that bound; exactly its subtotal in euros.
  lemma OrdersChargedExactly(s: Store, o: Id)
    requires Inv(s) && o in s.orders
    ensures StripeTotal(s.orders[o].items, Multiplier("EUR")) == s.orders[o].subtotal
  {
    assert OrderOk(s.types, s.sessions, s.orders[o]);
    var items := s.orders[o].items;
    forall i | 0 <= i < |items|
      ensures items[i].unitPrice >= 0
    {
      assert ItemOk(s.types, s.sessions, items[i]);
    }
    StripeTotalBound(items, "EUR");
  }

  // The bound for zero-decimal currencies is reached by every unit priced at half a major unit.
  lemma BoundIsTight(n: nat, snapshot: Snapshot)
    requires n > 0
    ensures var items := [OrderItem(snapshot, n, 50)];
            Subtotal(items) - 100 * StripeTotal(items, Multiplier("JPY")) == -50 * UnitCount(items)
  {
    var items := [OrderItem(snapshot, n, 50)];
    assert items[1..] == [];
    assert UnitAmount(50, 1) == 1;
  }

  // ---- The Stripe session's deadline ----

  /** The order's deadline, moved to between 31 minutes and 23 hours from now. */
  function SessionDeadline(now: int, orderExpiresAt: int): int {
    var low, high := now + 31 * 60, now + 23 * 3600;
    var raised := if orderExpiresAt < low then low else orderExpiresAt;
    if raised > high then high else raised
  }

  // Between the two bounds the order's own deadline counts, outside them the nearer bound.
  lemma DeadlineExactly(now: int, expiresAt: int)
    ensures SessionDeadline(now, expiresAt) ==
            if expiresAt <= now + 1860 then now + 1860 else if expiresAt >= now + 82800 then now + 82800 else expiresAt
  {
  }

  // The payment window outlives the hold it pays for: late settlements are possible by design.
  lemma DeadlineOutlivesHold(now: int, expiresAt: int)
    ensures now + 1860 <= SessionDeadline(now, expiresAt) <= now + 82800
    ensures expiresAt <= now + HOLD_SECONDS ==> SessionDeadline(now, expiresAt) == now + 1860 >= expiresAt + 1260
  {
  }
}
