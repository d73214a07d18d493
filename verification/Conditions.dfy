/** What repeated calls of `set_condition` amount to. */
module Conditions {
  import opened Types
  import opened GatewayTypes

  /** An unchanged status keeps the old condition apart from the observed generation. */
  function Merge(current: Condition, c: Condition): Condition {
    if current.status == c.status then current.(generation := c.generation) else c
  }

  /** Update the first condition of the same type, or append. */
  function Upsert(cs: seq<Condition>, c: Condition): seq<Condition> {
    if cs == [] then [c]
    else if cs[0].type_ == c.type_ then [Merge(cs[0], c)] + cs[1..]
    else [cs[0]] + Upsert(cs[1..], c)
  }

  /** `set_condition`; without a status there is nowhere to store the condition. */
  function WithCondition(status: Option<GatewayStatus>, c: Condition): Option<GatewayStatus> {
    match status
    case None => None
    case Some(st) => Some(st.(conditions := Some(if st.conditions.None? then [c] else Upsert(st.conditions.value, c))))
  }

  predicate DistinctTypes(cs: seq<Condition>) {
    forall i, j :: 0 <= i < j < |cs| ==> cs[i].type_ != cs[j].type_
  }

  predicate HasType(cs: seq<Condition>, t: string) {
    exists i :: 0 <= i < |cs| && cs[i].type_ == t
  }

  /** Where the update lands: the first condition of that type, else one past the end. */
  function Position(cs: seq<Condition>, t: string): nat {
    if cs == [] || cs[0].type_ == t then 0 else 1 + Position(cs[1..], t)
  }

  lemma {:induction false} UpsertAt(cs: seq<Condition>, c: Condition)
    ensures var p := Position(cs, c.type_);
            && p <= |cs|
            && (forall i :: 0 <= i < p ==> cs[i].type_ != c.type_)
            && (p < |cs| ==> cs[p].type_ == c.type_)
            && Upsert(cs, c) == if p < |cs| then cs[p := Merge(cs[p], c)] else cs + [c]
  {
    hide Merge;
    if cs != [] && cs[0].type_ != c.type_ {
      UpsertAt(cs[1..], c);
      var p, tail := Position(cs[1..], c.type_), cs[1..];
      assert forall i :: 0 < i < |cs| ==> cs[i] == tail[i - 1];
      if p < |tail| {
        UpdateTail(cs, p, Merge(tail[p], c));
      } else {
        assert [cs[0]] + (tail + [c]) == cs + [c];
      }
    } else if cs != [] {
      assert [Merge(cs[0], c)] + cs[1..] == cs[0 := Merge(cs[0], c)];
    }
  }

  lemma UpdateTail(cs: seq<Condition>, p: nat, m: Condition)
    requires p + 1 < |cs|
    ensures [cs[0]] + cs[1..][p := m] == cs[p + 1 := m]
  {
  }

  // ---------------------------------------------------------------------------
  // History
  // ---------------------------------------------------------------------------

  /** The conditions after a sequence of calls on an initially empty list. */
  function Replay(calls: seq<Condition>): seq<Condition> {
    if calls == [] then [] else Upsert(Replay(calls[..|calls| - 1]), calls[|calls| - 1])
  }

  function OfType(calls: seq<Condition>, t: string): seq<Condition> {
    if calls == [] then []
    else OfType(calls[..|calls| - 1], t) + if calls[|calls| - 1].type_ == t then [calls[|calls| - 1]] else []
  }

  /** The types in order of first appearance. */
  function TypesSeen(calls: seq<Condition>): seq<string> {
    if calls == [] then []
    else
      var ts := TypesSeen(calls[..|calls| - 1]);
      if calls[|calls| - 1].type_ in ts then ts else ts + [calls[|calls| - 1].type_]
  }

  /** The call that began the latest unbroken run of one status. */
  function RunStart(q: seq<Condition>): nat
    requires q != []
  {
    if |q| == 1 || q[|q| - 2].status != q[|q| - 1].status then |q| - 1 else RunStart(q[..|q| - 1])
  }

  /** `RunStart` is the least index from which all statuses equal the last one. */
  lemma {:induction false} RunStartMeaning(q: seq<Condition>)
    requires q != []
    ensures RunStart(q) < |q|
    ensures forall i :: RunStart(q) <= i < |q| ==> q[i].status == q[|q| - 1].status
    ensures RunStart(q) > 0 ==> q[RunStart(q) - 1].status != q[|q| - 1].status
  {
    if !(|q| == 1 || q[|q| - 2].status != q[|q| - 1].status) {
      RunStartMeaning(q[..|q| - 1]);
    }
  }

  /** The history of one type: the condition that began the current run, with the last generation. */
  function Current(q: seq<Condition>): Condition
    requires q != []
  {
    RunStartMeaning(q);
    q[RunStart(q)].(generation := q[|q| - 1].generation)
  }

  lemma CurrentStep(q: seq<Condition>, c: Condition)
    requires q != []
    ensures Current(q).status == q[|q| - 1].status
    ensures Current(q + [c]) == Merge(Current(q), c)
  {
    RunStartMeaning(q);
    assert (q + [c])[..|q|] == q && (q + [c])[|q|] == c;
    assert RunStart(q + [c]) == if q[|q| - 1].status != c.status then |q| else RunStart(q);
  }

  lemma {:induction false} OfTypeMeaning(calls: seq<Condition>, t: string)
    ensures OfType(calls, t) != [] <==> t in TypesSeen(calls)
    ensures forall i :: 0 <= i < |OfType(calls, t)| ==> OfType(calls, t)[i].type_ == t
  {
    if calls != [] {
      OfTypeMeaning(calls[..|calls| - 1], t);
    }
  }

  predicate Distinct(ts: seq<string>) {
    forall i, j :: 0 <= i < j < |ts| ==> ts[i] != ts[j]
  }

  /** The condition is what the history of its type leaves. */
  ghost predicate Matches(cond: Condition, calls: seq<Condition>, t: string) {
    OfType(calls, t) != [] && cond == Current(OfType(calls, t))
  }

  lemma OfTypeSnoc(front: seq<Condition>, c: Condition, t: string)
    ensures OfType(front + [c], t) == OfType(front, t) + if c.type_ == t then [c] else []
    ensures TypesSeen(front + [c]) == TypesSeen(front) + if c.type_ in TypesSeen(front) then [] else [c.type_]
    ensures Replay(front + [c]) == Upsert(Replay(front), c)
  {
    assert (front + [c])[..|front|] == front && (front + [c])[|front|] == c;
  }

  lemma MatchStep(cond: Condition, front: seq<Condition>, c: Condition, t: string)
    requires Matches(cond, front, t)
    ensures cond.type_ == t
    ensures Matches(if t == c.type_ then Merge(cond, c) else cond, front + [c], t)
  {
    var q := OfType(front, t);
    OfTypeSnoc(front, c, t);
    OfTypeMeaning(front, t);
    RunStartMeaning(q);
    CurrentStep(q, c);
    assert q + [] == q;
  }

  lemma MatchNew(front: seq<Condition>, c: Condition)
    requires c.type_ !in TypesSeen(front)
    ensures Matches(c, front + [c], c.type_)
  {
    OfTypeMeaning(front, c.type_);
    OfTypeSnoc(front, c, c.type_);
    assert OfType(front + [c], c.type_) == [c];
  }

  lemma HistoryStep(front: seq<Condition>, c: Condition)
    requires var r, ts := Replay(front), TypesSeen(front);
             && Distinct(ts) && |r| == |ts|
             && forall i :: 0 <= i < |ts| ==> Matches(r[i], front, ts[i])
    ensures var r, ts := Replay(front + [c]), TypesSeen(front + [c]);
            && Distinct(ts) && |r| == |ts|
            && forall i :: 0 <= i < |ts| ==> Matches(r[i], front + [c], ts[i])
  {
    hide Matches, OfType, TypesSeen, Replay, Merge;
    var r, ts := Replay(front), TypesSeen(front);
    OfTypeSnoc(front, c, c.type_);
    UpsertAt(r, c);
    hide Upsert, Position;
    forall i | 0 <= i < |ts|
      ensures r[i].type_ == ts[i] && Matches(if ts[i] == c.type_ then Merge(r[i], c) else r[i], front + [c], ts[i])
    {
      MatchStep(r[i], front, c, ts[i]);
    }
    if c.type_ in ts {
      var k :| 0 <= k < |ts| && ts[k] == c.type_;
      assert Position(r, c.type_) == k;
    } else {
      MatchNew(front, c);
    }
  }

  /**
   * After any sequence of calls: one condition per type, in order of first appearance, each being
   * the call that began the latest unbroken run of its status, with the latest generation.
   */
  lemma {:induction false} ReplayIsHistory(calls: seq<Condition>)
    ensures Distinct(TypesSeen(calls)) && |Replay(calls)| == |TypesSeen(calls)|
    ensures forall i :: 0 <= i < |TypesSeen(calls)| ==> Matches(Replay(calls)[i], calls, TypesSeen(calls)[i])
  {
    hide Matches;
    if calls != [] {
      var front, c := calls[..|calls| - 1], calls[|calls| - 1];
      assert calls == front + [c];
      ReplayIsHistory(front);
      HistoryStep(front, c);
    }
  }

  /** A list with one condition per type is itself such a history, so histories may start from it. */
  lemma {:induction false} DistinctIsHistory(cs: seq<Condition>)
    requires DistinctTypes(cs)
    ensures Replay(cs) == cs
  {
    if cs != [] {
      var front, c := cs[..|cs| - 1], cs[|cs| - 1];
      DistinctIsHistory(front);
      UpsertAt(front, c);
      assert front + [c] == cs;
    }
  }

  // ---------------------------------------------------------------------------
  // Idempotence and lookup
  // ---------------------------------------------------------------------------

  /** The first condition of a type has this status and generation. */
  ghost predicate Settled(cs: seq<Condition>, c: Condition) {
    var p := Position(cs, c.type_);
    p < |cs| && cs[p].status == c.status && cs[p].generation == c.generation
  }

  /** Setting a settled condition again changes nothing, whatever its time, reason and message. */
  lemma SettledIsFixed(cs: seq<Condition>, c: Condition)
    requires Settled(cs, c)
    ensures Upsert(cs, c) == cs
  {
    UpsertAt(cs, c);
  }

  lemma PositionIs(cs: seq<Condition>, t: string, p: nat)
    requires p <= |cs| && (forall i :: 0 <= i < p ==> cs[i].type_ != t) && (p < |cs| ==> cs[p].type_ == t)
    ensures Position(cs, t) == p
  {
    if p > 0 {
      PositionIs(cs[1..], t, p - 1);
    }
  }

  lemma UpsertSettles(cs: seq<Condition>, c: Condition)
    ensures Settled(Upsert(cs, c), c)
  {
    UpsertAt(cs, c);
    PositionIs(Upsert(cs, c), c.type_, Position(cs, c.type_));
  }

  lemma UpsertKeepsSettled(cs: seq<Condition>, c: Condition, d: Condition)
    requires Settled(cs, c) && c.type_ != d.type_
    ensures Settled(Upsert(cs, d), c)
  {
    UpsertAt(cs, c);
    UpsertAt(cs, d);
    PositionIs(Upsert(cs, d), c.type_, Position(cs, c.type_));
  }

  lemma UpsertKeepsDistinct(cs: seq<Condition>, c: Condition)
    requires DistinctTypes(cs)
    ensures DistinctTypes(Upsert(cs, c))
  {
    UpsertAt(cs, c);
  }

  /** With distinct types, a settled condition is the only one of its type. */
  lemma SettledIsOnly(cs: seq<Condition>, c: Condition, i: nat)
    requires DistinctTypes(cs) && Settled(cs, c) && i < |cs| && cs[i].type_ == c.type_
    ensures cs[i].status == c.status
  {
    UpsertAt(cs, c);
    assert i == Position(cs, c.type_);
  }
}
