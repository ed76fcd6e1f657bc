/** The lock-free number allocators: the request numbers of a platform and the SSRC serials of a
    domain. Both are a load followed by weak compare-and-swap attempts. */
module Counters {

  const SN_LIMIT := 0x7FFF_FFFF
  const SERIAL_LIMIT := 9999

  // ----- the k-th number -----

  /** The k-th number of a counter that runs from 1 to `limit` and starts over. */
  function At(limit: nat, k: nat): (n: nat)
    requires limit > 0
    ensures 1 <= n <= limit
  {
    1 + k % limit
  }

  function SnAt(k: nat): nat { At(SN_LIMIT, k) }

  /** `get_new_sn` and `make_ssrc` step their counters alike, with their own limits. */
  function Advance(limit: nat, n: nat): nat { if n >= limit then 1 else n + 1 }

  lemma AdvanceAt(limit: nat, k: nat)
    requires limit > 0
    ensures Advance(limit, At(limit, k)) == At(limit, k + 1)
  {
    var q, r := k / limit, k % limit;
    assert k == q * limit + r;
    if r == limit - 1 {
      assert k + 1 == (q + 1) * limit;
      Rest(limit, k + 1, q + 1, 0);
    } else {
      Rest(limit, k + 1, q, r + 1);
    }
  }

  lemma Rest(limit: nat, k: nat, q: nat, r: nat)
    requires limit > 0 && r < limit && k == q * limit + r
    ensures k % limit == r
  {
    var x := q - k / limit;
    assert x * limit == k % limit - r;
    assert x >= 1 ==> x * limit >= limit;
    assert x <= -1 ==> x * limit + limit <= 0;
  }

  /** No repeat among any `limit` consecutive numbers. */
  lemma {:induction false} AtDistinct(limit: nat, j: nat, k: nat)
    requires limit > 0 && j < k < j + limit
    ensures At(limit, j) != At(limit, k)
  {
    var q, r := j / limit, j % limit;
    assert j == q * limit + r;
    var d := k - j;
    if r + d < limit {
      Rest(limit, k, q, r + d);
    } else {
      assert k == (q + 1) * limit + (r + d - limit);
      Rest(limit, k, q + 1, r + d - limit);
    }
  }

  lemma {:induction false} SnDistinct(i: nat, j: nat)
    requires i < SN_LIMIT && j < SN_LIMIT && i != j
    ensures SnAt(i) != SnAt(j)
  {
    AtDistinct(SN_LIMIT, if i < j then i else j, if i < j then j else i);
  }

  // ----- any number of threads -----

  /** The shared counter, the value each thread inside its loop expects, and what was handed out. */
  datatype State = State(limit: nat, value: nat, expected: map<nat, nat>, issued: seq<nat>)

  /** An attempt may fail for no reason (`spurious`); a failed attempt reloads what it expects. */
  datatype Event = Load(thread: nat) | Attempt(thread: nat, spurious: bool)

  function Init(limit: nat): State { State(limit, 1, map[], []) }

  function Next(s: State, e: Event): State {
    match e
    case Load(t) => s.(expected := s.expected[t := s.value])
    case Attempt(t, spurious) =>
      if t !in s.expected then s
      else if s.expected[t] == s.value && !spurious then
        s.(value := Advance(s.limit, s.value), expected := s.expected - {t}, issued := s.issued + [s.expected[t]])
      else s.(expected := s.expected[t := s.value])
  }

  function Execute(s: State, es: seq<Event>): State {
    if es == [] then s else Next(Execute(s, es[..|es| - 1]), es[|es| - 1])
  }

  /** Whatever the interleaving, the spurious failures and the laps of the counter, the k-th
      successful attempt hands out the k-th number. */
  lemma {:induction false} RefinesAtomic(limit: nat, es: seq<Event>)
    requires limit > 0
    ensures var s := Execute(Init(limit), es);
            && s.limit == limit && s.value == 1 + |s.issued| % limit
            && forall k :: 0 <= k < |s.issued| ==> s.issued[k] == 1 + k % limit
  {
    hide Advance;
    if es == [] {
      FirstNumber(limit);
    } else {
      var before := es[..|es| - 1];
      RefinesAtomic(limit, before);
      AdvanceAt(limit, |Execute(Init(limit), before).issued|);
    }
  }

  /** What an attempt does: it succeeds when the value is as expected, and the thread has to load again
      before its next number; a spurious failure, or another value, only renews what it expects. */
  lemma AttemptDecides(s: State, t: nat, spurious: bool)
    requires t in s.expected
    ensures s.expected[t] == s.value && !spurious ==>
              && Next(s, Attempt(t, spurious)).issued == s.issued + [s.value]
              && Next(s, Attempt(t, spurious)).expected == s.expected - {t}
              && Next(s, Attempt(t, spurious)).value == if s.value >= s.limit then 1 else s.value + 1
    ensures s.expected[t] != s.value || spurious ==> Next(s, Attempt(t, spurious)) == Next(s, Load(t))
    ensures Next(s, Load(t)) == s.(expected := s.expected[t := s.value])
  {}

  /** The earlier calls of a domain, counted. */
  lemma {:induction false} EarlierCounts(calls: seq<Call>, domain: nat, n: nat)
    requires n <= |calls|
    ensures Earlier(calls, domain, n) == |CallsOf(calls, domain, n)|
  {
    if n > 0 {
      EarlierCounts(calls, domain, n - 1);
      var before := CallsOf(calls, domain, n - 1);
      assert CallsOf(calls, domain, n) == if calls[n - 1].domain == domain then before + {n - 1} else before;
    }
  }

  ghost function CallsOf(calls: seq<Call>, domain: nat, n: nat): set<nat>
    requires n <= |calls|
  {
    set i: nat | i < n && calls[i].domain == domain
  }

  /** The two allocators: request numbers run from 1 to 2^31 - 1, SSRC serials from 1 to 9999. */
  lemma Limits(k: nat, calls: seq<Call>, i: nat)
    requires i < |calls|
    ensures SnAt(k) == 1 + k % 2147483647
    ensures Issued(calls, i)
         == ((if calls[i].playback then 1_000_000_000 else 0) + calls[i].domain * 10000
             + (1 + Earlier(calls, calls[i].domain, i) % 9999)) % 4294967296
  {
    hide Earlier;
  }

  lemma FirstNumber(limit: nat)
    requires limit > 0
    ensures At(limit, 0) == 1
  {}

  // ----- SSRC -----

  const MAX_DOMAIN := 99999

  predicate Serial(n: nat) { 1 <= n <= SERIAL_LIMIT }

  /** The value `make_ssrc` builds, in 32-bit arithmetic. */
  function Ssrc(playback: bool, domain: nat, serial: nat): nat {
    ((if playback then 1_000_000_000 else 0) + domain * 10000 + serial) % 0x1_0000_0000
  }

  /** It fits in 31 bits and splits back into its three parts. */
  lemma SsrcDecodes(playback: bool, domain: nat, serial: nat)
    requires domain <= MAX_DOMAIN && Serial(serial)
    ensures var n := Ssrc(playback, domain, serial);
            && n < 0x8000_0000
            && playback == (n >= 1_000_000_000)
            && domain == n % 1_000_000_000 / 10000
            && serial == n % 10000
  {}

  lemma SsrcInjective(p: bool, d: nat, m: nat, q: bool, e: nat, n: nat)
    requires d <= MAX_DOMAIN && e <= MAX_DOMAIN && Serial(m) && Serial(n)
    ensures Ssrc(p, d, m) == Ssrc(q, e, n) <==> p == q && d == e && m == n
  {
    SsrcDecodes(p, d, m);
    SsrcDecodes(q, e, n);
  }

  /** Calls of `make_ssrc` in the order their attempts succeed, by servers of any domains. */
  datatype Call = Call(playback: bool, domain: nat)

  /** How many of the first `n` calls were for a domain: servers of one domain share its counter. */
  function Earlier(calls: seq<Call>, domain: nat, n: nat): (k: nat)
    requires n <= |calls|
    ensures k <= n
  {
    if n == 0 then 0 else Earlier(calls, domain, n - 1) + if calls[n - 1].domain == domain then 1 else 0
  }

  function Issued(calls: seq<Call>, i: nat): nat
    requires i < |calls|
  {
    Ssrc(calls[i].playback, calls[i].domain, At(SERIAL_LIMIT, Earlier(calls, calls[i].domain, i)))
  }

  lemma {:induction false} EarlierGrows(calls: seq<Call>, domain: nat, i: nat, j: nat)
    requires i < j <= |calls| && calls[i].domain == domain
    ensures Earlier(calls, domain, i) < Earlier(calls, domain, j)
    decreases j
  {
    if i < j - 1 { EarlierGrows(calls, domain, i, j - 1); }
  }

  /** Two calls get the same SSRC exactly when they are of one domain and one kind and a multiple of
      9999 calls of that domain apart. */
  lemma {:induction false} SsrcRepeats(calls: seq<Call>, i: nat, j: nat)
    requires i < j < |calls| && forall k :: 0 <= k < |calls| ==> calls[k].domain <= MAX_DOMAIN
    ensures Issued(calls, i) == Issued(calls, j)
       <==> calls[i] == calls[j]
            && (Earlier(calls, calls[j].domain, j) - Earlier(calls, calls[i].domain, i)) % SERIAL_LIMIT == 0
  {
    hide Ssrc, Earlier;
    var a, b := Earlier(calls, calls[i].domain, i), Earlier(calls, calls[j].domain, j);
    SsrcInjective(calls[i].playback, calls[i].domain, At(SERIAL_LIMIT, a), calls[j].playback, calls[j].domain, At(SERIAL_LIMIT, b));
    if calls[i].domain == calls[j].domain { EarlierGrows(calls, calls[i].domain, i, j); }
  }

  /** No repeat while fewer than 9999 calls of the domain lie between, live and playback mixed. */
  lemma {:induction false} SsrcUnique(calls: seq<Call>, i: nat, j: nat)
    requires i < j < |calls| && forall k :: 0 <= k < |calls| ==> calls[k].domain <= MAX_DOMAIN
    requires calls[i].domain == calls[j].domain ==>
               Earlier(calls, calls[j].domain, j) - Earlier(calls, calls[i].domain, i) < SERIAL_LIMIT
    ensures Issued(calls, i) != Issued(calls, j)
  {
    hide Ssrc, Earlier, Issued;
    SsrcRepeats(calls, i, j);
    if calls[i].domain == calls[j].domain { EarlierGrows(calls, calls[i].domain, i, j); }
  }

  // ----- the loops -----

  class Counter {
    const limit: nat
    var value: nat
    ghost var taken: nat

    ghost predicate Valid()
      reads this
    {
      limit > 0 && value == At(limit, taken)
    }

    constructor (limit: nat)
      requires limit > 0
      ensures Valid() && this.limit == limit && taken == 0
    {
      this.limit := limit;
      value, taken := 1, 0;
      new;
      FirstNumber(limit);
    }

    method CompareExchangeWeak(expected: nat, desired: nat, spurious: bool) returns (ok: bool, observed: nat)
      modifies this`value
      ensures observed == old(value) && ok == (old(value) == expected && !spurious)
      ensures value == if ok then desired else old(value)
    {
      ok, observed := value == expected && !spurious, value;
      if ok { value := desired; }
    }

    /** Other threads take `k` numbers. */
    method Others(k: nat)
      requires Valid()
      modifies this
      ensures Valid() && taken == old(taken) + k
    {
      for i := 0 to k
        invariant Valid() && taken == old(taken) + i
      {
        AdvanceAt(limit, taken);
        value := Advance(limit, value);
        taken := taken + 1;
      }
    }

    /** The loop of both allocators. Before its i-th attempt other threads take `others[i]` numbers; an
        attempt before which they take none may fail all the same. The number handed out is the one
        whose turn it was when the attempt succeeded, after a whole lap of the others as well. */
    method Take(others: seq<nat>) returns (n: nat)
      requires Valid()
      modifies this
      ensures Valid() && old(taken) < taken <= old(taken) + Total(others) + 1 && n == At(limit, taken - 1)
    {
      n := value;
      var i := 0;
      while true
        invariant Valid() && 0 <= i <= |others| && taken == old(taken) + Total(others[..i])
        decreases |others| - i, if n == value then 0 else 1
      {
        var last := i == |others|;
        if !last {
          assert others[..i + 1][..i] == others[..i];
          Others(others[i]);
        }
        AdvanceAt(limit, taken);
        var ok, observed := CompareExchangeWeak(n, Advance(limit, n), !last && others[i] == 0);
        if ok {
          taken := taken + 1;
          if !last { TotalGrows(others, i + 1); } else { assert others[..i] == others; }
          return;
        }
        n := observed;
        if !last { i := i + 1; }
      }
    }

    method MakeSsrc(playback: bool, domain: nat, others: seq<nat>) returns (ssrc: nat)
      requires Valid() && limit == SERIAL_LIMIT
      modifies this
      ensures Valid() && old(taken) < taken <= old(taken) + Total(others) + 1
      ensures ssrc == Ssrc(playback, domain, At(SERIAL_LIMIT, taken - 1))
    {
      var serial := Take(others);
      ssrc := ((if playback then 1_000_000_000 else 0) + domain * 10000 + serial) % 0x1_0000_0000;
    }
  }

  function Total(others: seq<nat>): nat {
    if others == [] then 0 else Total(others[..|others| - 1]) + others[|others| - 1]
  }

  lemma {:induction false} TotalGrows(others: seq<nat>, i: nat)
    requires i <= |others|
    ensures Total(others[..i]) <= Total(others)
  {
    if i == |others| {
      assert others[..i] == others;
    } else {
      var front := others[..|others| - 1];
      TotalGrows(front, i);
      assert front[..i] == others[..i];
    }
  }
}
