/** Exact round-robin fairness between two reconfigurations of a VIP. */
module RoundRobin {
  import opened Wire
  import opened Types
  import opened Tracker
  import opened Machine
  import opened Invariant

  /** The step takes a turn of `vip`: a new TCP connection, or a datagram handled to the end. */
  predicate TakesTurn(s: State, e: Event, vip: BackendKey) {
    match e
    case TcpIn(c, v, _, _) => v == vip && c !in s.conns && Selectable(s, v)
    case UdpIn(ip, v, rewritten) => v == vip && Selectable(s, v) && CanInsert(s.conns, ClientKey(ip, 0)) && rewritten
    case _ => false
  }

  predicate Reconfigures(e: Event, vip: BackendKey) {
    (e.Update? && e.key == Some(vip)) || (e.Delete? && e.vip == vip)
  }

  /** The slots handed out to the packets of a run that take a turn of `vip`. */
  function Slots(s: State, es: seq<Event>, vip: BackendKey): seq<nat>
    decreases |es|
  {
    if es == [] then []
    else (if TakesTurn(s, es[0], vip) then [s.indexes[vip] as nat] else []) + Slots(Step(s, es[0]), es[1..], vip)
  }

  /** Only its own turns and reconfigurations touch a VIP's list and index. */
  lemma StepIndex(s: State, e: Event, vip: BackendKey)
    requires vip in s.backends && vip in s.indexes && !Reconfigures(e, vip)
    ensures var s' := Step(s, e);
            && vip in s'.backends && vip in s'.indexes
            && s'.backends[vip] == s.backends[vip]
            && s'.indexes[vip] == (if TakesTurn(s, e, vip)
                                   then NextIndex(s.indexes[vip], s.backends[vip].backendsLen)
                                   else s.indexes[vip])
  {
    hide RstAndUpdate, Collect;
  }

  lemma TurnAdvances(i: u16, n: u16, start: nat, done: nat)
    requires start < n && i == (start + done) % n
    ensures NextIndex(i, n) == (start + (done + 1)) % n
  {
    ModStep(start + done, n);
    assert start + (done + 1) == start + done + 1;
  }

  lemma ModStep(k: nat, n: nat)
    requires n > 0
    ensures (k + 1) % n == if k % n + 1 == n then 0 else k % n + 1
    ensures (k + 1) / n == if k % n + 1 == n then k / n + 1 else k / n
  {
    var q, r := k / n, k % n;
    assert k + 1 == q * n + (r + 1);
    if r + 1 == n {
      assert k + 1 == (q + 1) * n;
      UniqueMod(k + 1, n, q + 1, 0);
    } else {
      UniqueMod(k + 1, n, q, r + 1);
    }
  }

  lemma UniqueMod(x: nat, n: nat, q: nat, r: nat)
    requires n > 0 && x == q * n + r && r < n
    ensures x % n == r && x / n == q
  {
    DivMod(x, n);
    SameQuotient(n, q, r, x / n, x % n);
  }

  lemma DivMod(x: nat, n: nat)
    requires n > 0
    ensures x == (x / n) * n + x % n && 0 <= x % n < n
  {
  }

  lemma SameQuotient(n: nat, q: nat, r: nat, q': nat, r': nat)
    requires q * n + r == q' * n + r' && r < n && r' < n
    ensures q == q' && r == r'
  {
    if q < q' {
      LargerProduct(q, q', n);
    } else if q' < q {
      LargerProduct(q', q, n);
    }
  }

  lemma LargerProduct(a: nat, b: nat, n: nat)
    requires a < b
    ensures a * n + n <= b * n
  {
    assert b * n == a * n + (b - a) * n;
    assert (b - a) * n == n + (b - a - 1) * n;
  }

  /** Slot `start` moved on by `k < n` turns, around a list of `n` backends. */
  function Slot(start: nat, k: nat, n: nat): nat
    requires start < n && k < n
  {
    if start + k < n then start + k else start + k - n
  }

  lemma ModShift(start: nat, k: nat, n: nat)
    requires start < n
    ensures (start + k) % n == Slot(start, k % n, n)
  {
    var q, r := k / n, k % n;
    if start + r < n {
      UniqueMod(start + k, n, q, start + r);
    } else {
      assert start + k == (q + 1) * n + (start + r - n);
      UniqueMod(start + k, n, q + 1, start + r - n);
    }
  }

  /** The j-th turn goes to slot `(start + done + j) mod n`; the stored index is where the next one goes. */
  lemma {:induction false} TurnsInOrder(s: State, es: seq<Event>, vip: BackendKey, start: nat, done: nat)
    requires vip in s.backends && vip in s.indexes
    requires forall i :: 0 <= i < |es| ==> !Reconfigures(es[i], vip)
    requires var n := s.backends[vip].backendsLen; start < n && s.indexes[vip] == (start + done) % n
    ensures var n := s.backends[vip].backendsLen;
            var q := Slots(s, es, vip);
            && (forall j :: 0 <= j < |q| ==> q[j] == (start + (done + j)) % n)
            && vip in Run(s, es).indexes && Run(s, es).indexes[vip] == (start + (done + |q|)) % n
    decreases |es|
  {
    if es != [] {
      hide Step, NextIndex, Selectable, TakesTurn;
      var n := s.backends[vip].backendsLen;
      var e, s' := es[0], Step(s, es[0]);
      StepIndex(s, e, vip);
      if TakesTurn(s, e, vip) {
        TurnAdvances(s.indexes[vip], n, start, done);
        TurnsInOrder(s', es[1..], vip, start, done + 1);
        var rest := Slots(s', es[1..], vip);
        assert Slots(s, es, vip) == [s.indexes[vip] as nat] + rest;
      } else {
        TurnsInOrder(s', es[1..], vip, start, done);
        assert Slots(s, es, vip) == [] + Slots(s', es[1..], vip) == Slots(s', es[1..], vip);
      }
    }
  }

  // ---------------------------------------------------------------------------
  // Shares
  // ---------------------------------------------------------------------------

  function Count(q: seq<nat>, k: nat): nat {
    if q == [] then 0 else Count(q[..|q| - 1], k) + if q[|q| - 1] == k then 1 else 0
  }

  /** Turns from slot `start` until slot `k` comes up. */
  function Distance(start: nat, k: nat, n: nat): nat
    requires start < n && k < n
  {
    if start <= k then k - start else k - start + n
  }

  /** Exact share of slot `k`: one per full round, plus one if the last partial round reached it. */
  lemma {:induction false} Share(q: seq<nat>, start: nat, n: nat, k: nat)
    requires start < n && k < n
    requires forall j :: 0 <= j < |q| ==> q[j] == (start + j) % n
    ensures Count(q, k) == |q| / n + if Distance(start, k, n) < |q| % n then 1 else 0
  {
    if q == [] {
      UniqueMod(0, n, 0, 0);
    } else {
      var m := |q| - 1;
      Share(q[..m], start, n, k);
      ModShift(start, m, n);
      ModStep(m, n);
    }
  }

  /**
   * Between two reconfigurations of a VIP with n backends, whatever other traffic and RPCs are
   * mixed in: turns go to consecutive slots, and after m of them every slot had floor(m/n) or
   * ceil(m/n).
   */
  lemma ExactFairness(s: State, es: seq<Event>, vip: BackendKey, k: nat)
    requires Inv(s) && vip in s.backends && k < s.backends[vip].backendsLen
    requires forall i :: 0 <= i < |es| ==> !Reconfigures(es[i], vip)
    ensures var n: nat := s.backends[vip].backendsLen;
            var q := Slots(s, es, vip);
            && (forall j :: 0 <= j < |q| ==> q[j] == (s.indexes[vip] + j) % n)
            && |q| / n <= Count(q, k) <= (|q| + n - 1) / n
  {
    hide Step, Slots, Count;
    var n: nat, start: nat := s.backends[vip].backendsLen, s.indexes[vip];
    UniqueMod(start, n, 0, start);
    TurnsInOrder(s, es, vip, start, 0);
    var q := Slots(s, es, vip);
    Share(q, start, n, k);
    CeilDiv(|q|, n);
  }

  lemma CeilDiv(m: nat, n: nat)
    requires n > 0
    ensures (m + n - 1) / n == m / n + if m % n == 0 then 0 else 1
  {
    var q, r := m / n, m % n;
    if r == 0 {
      UniqueMod(m + n - 1, n, q, n - 1);
    } else {
      assert m + n - 1 == (q + 1) * n + (r - 1);
      UniqueMod(m + n - 1, n, q + 1, r - 1);
    }
  }

  /** The backend a packet reaches: the handler gets as far as the rewriting, and the rewriting succeeds. */
  function Delivered(s: State, e: Event): Option<Backend> {
    if (e.TcpIn? || e.UdpIn?) && e.rewritten then Forwarded(s, e) else None
  }

  /** The turn is used up and the packet goes nowhere: RST, FIN while tracking is full, or a failing helper. */
  predicate LosesTurn(s: State, e: Event) {
    e.TcpIn? && (!e.rewritten || e.flags.rst || (e.flags.fin && !CanInsert(s.conns, e.client)))
  }

  /**
   * A turn delivers its packet to the backend in its slot, except that a new connection uses up its
   * turn and goes nowhere exactly when it starts with RST, or with FIN while tracking is full, or
   * when a helper that rewrites the packet fails. A datagram takes no turn in such a case.
   */
  lemma TurnTarget(s: State, e: Event, vip: BackendKey)
    requires TakesTurn(s, e, vip)
    ensures Selectable(s, vip)
    ensures Delivered(s, e) == if LosesTurn(s, e) then None else Some(s.backends[vip].backends[s.indexes[vip]])
  {
  }

  /** For each turn of a run, whether it is lost and where its packet goes. */
  function Outcomes(s: State, es: seq<Event>, vip: BackendKey): seq<(bool, Option<Backend>)>
    decreases |es|
  {
    if es == [] then []
    else
      (if TakesTurn(s, es[0], vip) then [(LosesTurn(s, es[0]), Delivered(s, es[0]))] else [])
      + Outcomes(Step(s, es[0]), es[1..], vip)
  }

  lemma {:induction false} OutcomesFollowSlots(s: State, es: seq<Event>, vip: BackendKey)
    requires vip in s.backends && vip in s.indexes
    requires forall i :: 0 <= i < |es| ==> !Reconfigures(es[i], vip)
    ensures var o, q := Outcomes(s, es, vip), Slots(s, es, vip);
            && |o| == |q|
            && forall j :: 0 <= j < |o| ==>
                 q[j] < CAPACITY && o[j].1 == if o[j].0 then None else Some(s.backends[vip].backends[q[j]])
    decreases |es|
  {
    if es != [] {
      hide Step, Delivered, LosesTurn, TakesTurn, NextIndex;
      StepIndex(s, es[0], vip);
      OutcomesFollowSlots(Step(s, es[0]), es[1..], vip);
      if TakesTurn(s, es[0], vip) {
        TurnTarget(s, es[0], vip);
      }
    }
  }

  /**
   * Between two reconfigurations, counting only whole turns: the packet of the j-th turn reaches the
   * backend j places after the current one, around the list, unless its turn is lost.
   */
  lemma DeliveriesInOrder(s: State, es: seq<Event>, vip: BackendKey)
    requires Inv(s) && vip in s.backends && s.backends[vip].backendsLen > 0
    requires forall i :: 0 <= i < |es| ==> !Reconfigures(es[i], vip)
    ensures var list, o := s.backends[vip], Outcomes(s, es, vip);
            && list.backendsLen <= CAPACITY && vip in s.indexes
            && forall j :: 0 <= j < |o| ==>
                 o[j].1 == if o[j].0 then None
                           else Some(list.backends[(s.indexes[vip] as nat + j) % list.backendsLen as nat])
  {
    hide Step, Slots, Outcomes, Count;
    ExactFairness(s, es, vip, 0);
    OutcomesFollowSlots(s, es, vip);
  }
}
