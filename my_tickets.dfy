/**
 * The ticket list of src/components/MyTickets.tsx.
 *
 * `useRoundTickets` turns three ledger reads for one round into ticket
 * records:
 *  - the caller's ticket indices;
 *  - whether the caller won;
 *  - the round record.
 * The records share one status and one round name. `allTickets` concatenates
 * the lists of the five rounds the component follows, up to the ledger's
 * round count, and is empty without an address.
 */
module MyTickets {

  import opened Wrappers
  import opened Ecma
  import opened Rounds

  datatype Status = Pending | Drawn | Winner

  /** The badge text of a ticket: a winner gets a trophy, the other statuses show their own name. */
  function StatusText(s: Status): string {
    match s
    case Pending => "pending"
    case Drawn => "drawn"
    case Winner => "\U{1F3C6} Winner!"
  }

  /** Different statuses are shown as different texts. */
  lemma StatusTextInjective(a: Status, b: Status)
    ensures StatusText(a) == StatusText(b) ==> a == b
  {
  }

  /** The status rule (line 30); a missing `isWinner` read is falsy. */
  function Classify(drawn: bool, isWinner: Option<bool>): (s: Status)
    ensures s == Pending <==> !drawn
    ensures s == Winner <==> drawn && isWinner == Some(true)
    ensures s == Drawn <==> drawn && isWinner != Some(true)
  {
    if drawn then (if isWinner == Some(true) then Winner else Drawn) else Pending
  }

  /** A ticket record (lines 8-15). */
  datatype TicketData = TicketData(id: string, roundId: nat, ticketIndex: nat, encrypted: bool, status: Status, roundName: string)

  /** `TKT-${roundId}-${ticketIdx}` (line 32). */
  function TicketId(roundId: nat, ticketIndex: nat): string {
    "TKT-" + DecimalString(roundId) + "-" + DecimalString(ticketIndex)
  }

  predicate AllDecimalDigits(s: string) {
    forall k :: 0 <= k < |s| ==> IsDigit(s[k], 10)
  }

  /** In a digit string followed by a dash, that dash is the first one. */
  lemma FirstDash(a: string, b: string)
    requires AllDecimalDigits(a)
    ensures var s := a + "-" + b; s[|a|] == '-' && forall k :: 0 <= k < |a| ==> s[k] != '-'
  {
    var s := a + "-" + b;
    forall k | 0 <= k < |a|
      ensures s[k] != '-'
    {
      assert s[k] == a[k] && IsDigit(a[k], 10);
    }
  }

  /** Digit strings joined by a dash can be split again at that dash. */
  lemma SplitAtDash(a: string, b: string, c: string, d: string)
    requires AllDecimalDigits(a) && AllDecimalDigits(c)
    requires a + "-" + b == c + "-" + d
    ensures a == c && b == d
  {
    FirstDash(a, b);
    FirstDash(c, d);
    var s := a + "-" + b;
    assert |a| == |c|;
    assert a == s[..|a|] == c;
    assert b == s[|a| + 1..] == d;
  }

  /** Different (round, index) pairs get different ids, as the list's React keys (line 94) require. */
  lemma TicketIdInjective(r1: nat, i1: nat, r2: nat, i2: nat)
    requires TicketId(r1, i1) == TicketId(r2, i2)
    ensures r1 == r2 && i1 == i2
  {
    TicketIdTail(r1, i1);
    TicketIdTail(r2, i2);
    SplitAtDash(DecimalString(r1), DecimalString(i1), DecimalString(r2), DecimalString(i2));
    DecimalStringInjective(r1, r2);
    DecimalStringInjective(i1, i2);
  }

  /** After the fixed "TKT-" prefix an id is the two numbers joined by a dash. */
  lemma TicketIdTail(roundId: nat, ticketIndex: nat)
    ensures TicketId(roundId, ticketIndex)[4..] == DecimalString(roundId) + "-" + DecimalString(ticketIndex)
  {
    var a, b := DecimalString(roundId), DecimalString(ticketIndex);
    assert "TKT-" + a + "-" + b == "TKT-" + (a + "-" + b);
  }

  /** What the three reads of one round returned. `ticketIndices` is None when it is missing or not an array. */
  datatype RoundReads = RoundReads(ticketIndices: Option<seq<nat>>, isWinner: Option<bool>, roundData: Option<Round>)

  /** The records for `indices`, one per index, in order. */
  function TicketsFor(roundId: nat, indices: seq<nat>, status: Status, roundName: string): (ts: seq<TicketData>)
    ensures |ts| == |indices|
    ensures forall k :: 0 <= k < |ts| ==>
      ts[k] == TicketData(TicketId(roundId, indices[k]), roundId, indices[k], true, status, roundName)
  {
    if indices == [] then []
    else
      var init := TicketsFor(roundId, indices[..|indices| - 1], status, roundName);
      var last := indices[|indices| - 1];
      init + [TicketData(TicketId(roundId, last), roundId, last, true, status, roundName)]
  }

  /** useRoundTickets (lines 18-44). */
  function RoundTickets(roundId: nat, fetched: RoundReads): (ts: seq<TicketData>)
    ensures fetched.ticketIndices.None? ==> ts == []
    ensures fetched.ticketIndices.Some? ==> |ts| == |fetched.ticketIndices.value|
    ensures forall k :: 0 <= k < |ts| ==>
      var round := if fetched.roundData.Some? then fetched.roundData.value else MissingRound;
      ts[k] == TicketData(TicketId(roundId, fetched.ticketIndices.value[k]), roundId, fetched.ticketIndices.value[k],
                          true, Classify(round.drawn, fetched.isWinner), round.name)
  {
    match fetched.ticketIndices
    case None => []
    case Some(indices) =>
      if indices == [] then []
      else
        var round := if fetched.roundData.Some? then fetched.roundData.value else MissingRound;
        TicketsFor(roundId, indices, Classify(round.drawn, fetched.isWinner), round.name)
  }

  /** All tickets of a round share one status and one round name. */
  lemma RoundTicketsShareStatus(roundId: nat, fetched: RoundReads, j: nat, k: nat)
    requires j < |RoundTickets(roundId, fetched)| && k < |RoundTickets(roundId, fetched)|
    ensures var ts := RoundTickets(roundId, fetched);
      ts[j].status == ts[k].status && ts[j].roundName == ts[k].roundName && ts[j].roundId == ts[k].roundId == roundId
  {
  }

  /** Without the round's data every ticket of that round is pending and named 'Unknown'. */
  lemma MissingRoundIsPending(roundId: nat, fetched: RoundReads, k: nat)
    requires fetched.roundData.None? && k < |RoundTickets(roundId, fetched)|
    ensures RoundTickets(roundId, fetched)[k].status == Pending
    ensures RoundTickets(roundId, fetched)[k].roundName == "Unknown"
  {
  }

  /** The number of rounds the component follows (lines 51-55). */
  const TrackedRounds: nat := 5

  /** `Number(roundsCount || 0)` (line 60), capped by the slice at the five followed rounds. */
  function ShownRounds(roundsCount: Option<nat>): (n: nat)
    ensures n <= TrackedRounds
    ensures roundsCount.None? ==> n == 0
    ensures roundsCount.Some? ==> n == if roundsCount.value < TrackedRounds then roundsCount.value else TrackedRounds
  {
    var count := if roundsCount.Some? then roundsCount.value else 0;
    if count < TrackedRounds then count else TrackedRounds
  }

  /** `Array.prototype.flat` on a list of lists: the lists joined in order. */
  function Flatten<T>(lists: seq<seq<T>>): seq<T> {
    if lists == [] then [] else Flatten(lists[..|lists| - 1]) + lists[|lists| - 1]
  }

  /** An element is in the joined list exactly when it is in one of the lists. */
  lemma {:induction false} FlattenMembership<T>(lists: seq<seq<T>>, t: T)
    ensures t in Flatten(lists) <==> exists r :: 0 <= r < |lists| && t in lists[r]
  {
    if lists != [] {
      var front := lists[..|lists| - 1];
      FlattenMembership(front, t);
      assert forall r :: 0 <= r < |front| ==> front[r] == lists[r];
      if t in lists[|lists| - 1] {
        assert 0 <= |lists| - 1 < |lists|;
      }
    }
  }

  /** An element is in the first n lists joined exactly when it is in one of them. */
  lemma FlattenPrefixMembership<T>(lists: seq<seq<T>>, n: nat, t: T)
    requires n <= |lists|
    ensures t in Flatten(lists[..n]) <==> exists r :: 0 <= r < n && t in lists[r]
  {
    FlattenMembership(lists[..n], t);
    assert forall r :: 0 <= r < n ==> lists[..n][r] == lists[r];
  }

  /** The five per-round lists of lines 51-55 and 61, in round order. */
  function PerRound(fetched: seq<RoundReads>): (lists: seq<seq<TicketData>>)
    requires |fetched| == TrackedRounds
    ensures |lists| == TrackedRounds && forall r :: 0 <= r < TrackedRounds ==> lists[r] == RoundTickets(r, fetched[r])
  {
    seq(TrackedRounds, r requires 0 <= r < TrackedRounds => RoundTickets(r, fetched[r]))
  }

  /** allTickets (lines 58-63). `fetched` has one entry per followed round. */
  function AllTickets(address: Option<string>, roundsCount: Option<nat>, fetched: seq<RoundReads>): (ts: seq<TicketData>)
    requires |fetched| == TrackedRounds
    ensures address.None? || address.value == "" ==> ts == []
  {
    if address.None? || address.value == "" then [] else Flatten(PerRound(fetched)[..ShownRounds(roundsCount)])
  }

  /** With an address, a ticket is listed exactly when it is in the list of a round below
      min(count, 5); in particular no round from index 5 on ever appears. */
  lemma AllTicketsMembership(address: Option<string>, roundsCount: Option<nat>, fetched: seq<RoundReads>, t: TicketData)
    requires |fetched| == TrackedRounds && address.Some? && address.value != ""
    ensures t in AllTickets(address, roundsCount, fetched) <==>
      exists r :: 0 <= r < ShownRounds(roundsCount) && t in RoundTickets(r, fetched[r])
    ensures t in AllTickets(address, roundsCount, fetched) ==> t.roundId < ShownRounds(roundsCount) <= TrackedRounds
  {
    var lists := PerRound(fetched);
    FlattenPrefixMembership(lists, ShownRounds(roundsCount), t);
    if t in AllTickets(address, roundsCount, fetched) {
      var r :| 0 <= r < ShownRounds(roundsCount) && t in RoundTickets(r, fetched[r]);
      RoundTicketIsTagged(r, fetched[r], t);
    }
  }

  /** A ticket of round r's list carries r as its round. */
  lemma RoundTicketIsTagged(roundId: nat, fetched: RoundReads, t: TicketData)
    requires t in RoundTickets(roundId, fetched)
    ensures t.roundId == roundId
  {
    var ts := RoundTickets(roundId, fetched);
    var k :| 0 <= k < |ts| && ts[k] == t;
  }

  /** One more round appends its list at the end: the rounds come in order. */
  lemma AllTicketsInRoundOrder(address: Option<string>, fetched: seq<RoundReads>, count: nat)
    requires |fetched| == TrackedRounds && address.Some? && address.value != ""
    requires 0 < count <= TrackedRounds
    ensures AllTickets(address, Some(count), fetched)
         == AllTickets(address, Some(count - 1), fetched) + RoundTickets(count - 1, fetched[count - 1])
  {
    var lists := PerRound(fetched);
    assert lists[..count][..count - 1] == lists[..count - 1];
    assert AllTickets(address, Some(count), fetched) == Flatten(lists[..count]);
    assert AllTickets(address, Some(count - 1), fetched) == Flatten(lists[..count - 1]);
  }

  /** No ticket index repeats within a round's read. */
  predicate DistinctIndices(fetched: RoundReads) {
    fetched.ticketIndices.Some? ==>
      forall j, k :: 0 <= j < k < |fetched.ticketIndices.value| ==> fetched.ticketIndices.value[j] != fetched.ticketIndices.value[k]
  }

  predicate DistinctIds(ts: seq<TicketData>) {
    forall j, k :: 0 <= j < k < |ts| ==> ts[j].id != ts[k].id
  }

  /** The list of round r is tagged with r, and its ids are built from r and the ticket index. */
  predicate TaggedWith(ts: seq<TicketData>, r: nat) {
    forall t :: t in ts ==> t.roundId == r && t.id == TicketId(r, t.ticketIndex)
  }

  /** A round whose read lists no index twice yields distinct ids, all tagged with the round. */
  lemma RoundTicketsDistinct(roundId: nat, fetched: RoundReads)
    requires DistinctIndices(fetched)
    ensures DistinctIds(RoundTickets(roundId, fetched)) && TaggedWith(RoundTickets(roundId, fetched), roundId)
  {
    var ts := RoundTickets(roundId, fetched);
    forall j, k | 0 <= j < k < |ts|
      ensures ts[j].id != ts[k].id
    {
      if ts[j].id == ts[k].id {
        TicketIdInjective(roundId, ts[j].ticketIndex, roundId, ts[k].ticketIndex);
      }
    }
  }

  lemma {:induction false} FlattenDistinctIds(lists: seq<seq<TicketData>>)
    requires forall r :: 0 <= r < |lists| ==> DistinctIds(lists[r]) && TaggedWith(lists[r], r)
    ensures DistinctIds(Flatten(lists))
    ensures forall t :: t in Flatten(lists) ==> t.roundId < |lists| && t.id == TicketId(t.roundId, t.ticketIndex)
  {
    if lists != [] {
      var n := |lists|;
      var front := lists[..n - 1];
      assert forall r :: 0 <= r < |front| ==> front[r] == lists[r];
      FlattenDistinctIds(front);
      var head := Flatten(front);
      var last := lists[n - 1];
      var ts := head + last;
      forall j, k | 0 <= j < k < |ts|
        ensures ts[j].id != ts[k].id
      {
        if k < |head| {
          assert ts[j] == head[j] && ts[k] == head[k];
        } else if j >= |head| {
          assert ts[j] == last[j - |head|] && ts[k] == last[k - |head|];
        } else {
          assert ts[j] == head[j] && ts[j] in head;
          assert ts[k] == last[k - |head|] && ts[k] in last;
          if ts[j].id == ts[k].id {
            TicketIdInjective(ts[j].roundId, ts[j].ticketIndex, n - 1, ts[k].ticketIndex);
          }
        }
      }
      forall t | t in ts
        ensures t.roundId < n && t.id == TicketId(t.roundId, t.ticketIndex)
      {
        if t !in head {
          assert t in last;
        }
      }
    }
  }

  /** When no round lists an index twice, all listed tickets have distinct ids. */
  lemma AllTicketsDistinctIds(address: Option<string>, roundsCount: Option<nat>, fetched: seq<RoundReads>)
    requires |fetched| == TrackedRounds
    requires forall r :: 0 <= r < TrackedRounds ==> DistinctIndices(fetched[r])
    ensures DistinctIds(AllTickets(address, roundsCount, fetched))
  {
    if address.Some? && address.value != "" {
      var shown := PerRound(fetched)[..ShownRounds(roundsCount)];
      forall r | 0 <= r < |shown|
        ensures DistinctIds(shown[r]) && TaggedWith(shown[r], r)
      {
        RoundTicketsDistinct(r, fetched[r]);
      }
      FlattenDistinctIds(shown);
    }
  }
}
