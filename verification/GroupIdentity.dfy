/**
 Native turn records and the identity check a steered group is settled by:
 which user items carry a client id, whether a terminal turn contains a whole
 ordered group, and the answer rebuilt from what follows the last member.

 Native and client ids are only ever compared for equality, so natural numbers
 stand for them; an absent, non-string or empty id is None.
 */
module GroupIdentity {
  import opened Options

  type Id = nat

  datatype Item =
    | UserMessage(clientId: Option<Id>)
    | FinalAnswer(text: string)
    | OtherItem

  datatype Status = Unstated | Finished | Failed | Interrupted | InProgress

  /** A native turn as app-server reports it; `full` is `itemsView == "full"`. */
  datatype NativeTurn = NativeTurn(id: Option<Id>, status: Status, full: bool, items: seq<Item>, error: Option<string>)

  /** Why a completion could not be attributed. */
  datatype Reason =
    | MemberMissing
    | MemberRepeated
    | MembersOutOfOrder
    | ClientIdRepeated
    | NoMatch
    | ManyMatches
    | OwnTurnTerminated
    | DeadlineReached
    | LegacyInput
    | LookupFailed

  /** The text a final carries. `Conflict` never holds model text. */
  datatype Answer = Nothing | Text(body: string) | NativeFailure(message: string) | RunnerError | Conflict(reason: Reason)

  datatype Verdict = Unchecked | Last(index: nat) | Mismatch(reason: Reason)

  predicate Terminal(turn: NativeTurn) {
    turn.status != InProgress
  }

  predicate Carries(item: Item, clientId: Id) {
    item == UserMessage(Some(clientId))
  }

  /** The positions of the user items that carry `clientId`. */
  function IndexesOf(items: seq<Item>, clientId: Id): (r: seq<nat>)
    ensures forall i :: i in r <==> 0 <= i < |items| && Carries(items[i], clientId)
    ensures forall j, k :: 0 <= j < k < |r| ==> r[j] < r[k]
  {
    if items == [] then []
    else
      var n := |items| - 1;
      var before := IndexesOf(items[..n], clientId);
      assert forall i :: 0 <= i < n ==> items[..n][i] == items[i];
      assert forall j :: 0 <= j < |before| ==> before[j] in before;
      if Carries(items[n], clientId) then before + [n] else before
  }

  function ExactIndexes(turn: NativeTurn, clientId: Id): seq<nat> {
    if turn.full then IndexesOf(turn.items, clientId) else []
  }

  /** The in-place scan of the source, against `ExactIndexes`. */
  method ExactClientItemIndexes(turn: NativeTurn, clientId: Id) returns (indexes: seq<nat>)
    ensures indexes == ExactIndexes(turn, clientId)
  {
    indexes := [];
    if !turn.full {
      return;
    }
    for index := 0 to |turn.items|
      invariant indexes == IndexesOf(turn.items[..index], clientId)
    {
      assert turn.items[..index + 1][..index] == turn.items[..index];
      if Carries(turn.items[index], clientId) {
        indexes := indexes + [index];
      }
    }
    assert turn.items[..|turn.items|] == turn.items;
  }

  lemma SeveralIndexes(items: seq<Item>, clientId: Id)
    ensures |IndexesOf(items, clientId)| > 1
        ==> exists i, k :: 0 <= i < k < |items| && Carries(items[i], clientId) && Carries(items[k], clientId)
  {
    var r := IndexesOf(items, clientId);
    if |r| > 1 {
      assert r[0] in r && r[1] in r;
    }
  }

  lemma SoleIndex(items: seq<Item>, clientId: Id, p: nat)
    requires p < |items| && Carries(items[p], clientId)
    requires forall i :: 0 <= i < |items| && Carries(items[i], clientId) ==> i == p
    ensures IndexesOf(items, clientId) == [p]
  {
    var r := IndexesOf(items, clientId);
    assert p in r;
    SeveralIndexes(items, clientId);
    assert r[0] in r;
  }

  // ---------------------------------------------------------------------------
  // The ordered-group check
  // ---------------------------------------------------------------------------

  function VerifyFrom(items: seq<Item>, ids: seq<Id>, previous: int): (v: Verdict)
    ensures ids != [] ==> !v.Unchecked?
  {
    if ids == [] then (if previous < 0 then Unchecked else Last(previous))
    else
      var indexes := IndexesOf(items, ids[0]);
      if |indexes| == 0 then Mismatch(MemberMissing)
      else if |indexes| > 1 then Mismatch(MemberRepeated)
      else if indexes[0] <= previous then Mismatch(MembersOutOfOrder)
      else VerifyFrom(items, ids[1..], indexes[0])
  }

  /** `ids` are the client ids the accepted members sent, in accepted order. */
  function VerifyGroup(ids: seq<Id>, turn: NativeTurn): Verdict {
    if !turn.full || ids == [] then Unchecked else VerifyFrom(turn.items, ids, -1)
  }

  /** The loop of the source, against `VerifyGroup`. */
  method VerifyGroupSubsequence(ids: seq<Id>, turn: NativeTurn) returns (verdict: Verdict)
    ensures verdict == VerifyGroup(ids, turn)
  {
    if !turn.full || |ids| == 0 {
      return Unchecked;
    }
    var previous: int := -1;
    for member := 0 to |ids|
      invariant -1 <= previous
      invariant member > 0 ==> previous >= 0
      invariant VerifyFrom(turn.items, ids, -1) == VerifyFrom(turn.items, ids[member..], previous)
    {
      var indexes := ExactClientItemIndexes(turn, ids[member]);
      assert ids[member..][0] == ids[member] && ids[member..][1..] == ids[member + 1..];
      if |indexes| != 1 || indexes[0] <= previous {
        return Mismatch(
            if |indexes| == 0 then MemberMissing
            else if |indexes| > 1 then MemberRepeated
            else MembersOutOfOrder);
      }
      previous := indexes[0];
    }
    verdict := Last(previous);
  }

  /** The client ids of the user items that belong to the group, in item order. */
  function Echoed(items: seq<Item>, ids: seq<Id>): seq<Id> {
    if items == [] then []
    else
      var n := |items| - 1;
      var before := Echoed(items[..n], ids);
      match items[n]
      case UserMessage(Some(id)) => if id in ids then before + [id] else before
      case _ => before
  }

  ghost predicate Distinct(ids: seq<Id>) {
    forall j, k :: 0 <= j < k < |ids| ==> ids[j] != ids[k]
  }

  /** `at[k]` is the one position of `ids[k]`, and positions increase. */
  ghost predicate Placed(items: seq<Item>, ids: seq<Id>, at: seq<nat>) {
    && |at| == |ids|
    && (forall j, k :: 0 <= j < k < |at| ==> at[j] < at[k])
    && (forall k :: 0 <= k < |at| ==> at[k] < |items| && Carries(items[at[k]], ids[k]))
    && (forall i, k :: 0 <= i < |items| && 0 <= k < |ids| && Carries(items[i], ids[k]) ==> i == at[k])
  }

  lemma {:induction false} PlacedVerifies(items: seq<Item>, ids: seq<Id>, at: seq<nat>, previous: int)
    requires Placed(items, ids, at) && -1 <= previous
    requires |at| > 0 ==> previous < at[0]
    ensures VerifyFrom(items, ids, previous)
         == if ids != [] then Last(at[|at| - 1]) else if previous < 0 then Unchecked else Last(previous)
  {
    if ids != [] {
      SoleIndex(items, ids[0], at[0]);
      PlacedRest(items, ids, at);
      PlacedVerifies(items, ids[1..], at[1..], at[0]);
    }
  }

  lemma PlacedRest(items: seq<Item>, ids: seq<Id>, at: seq<nat>)
    requires Placed(items, ids, at) && ids != []
    ensures Placed(items, ids[1..], at[1..])
  {
    assert forall k :: 0 <= k < |at| - 1 ==> at[1..][k] == at[k + 1] && ids[1..][k] == ids[k + 1];
  }

  lemma {:induction false} VerifiedIsPlaced(items: seq<Item>, ids: seq<Id>, previous: int) returns (at: seq<nat>)
    requires -1 <= previous
    requires !VerifyFrom(items, ids, previous).Mismatch?
    ensures Placed(items, ids, at)
    ensures |at| > 0 ==> previous < at[0]
  {
    if ids == [] {
      at := [];
    } else {
      var indexes := IndexesOf(items, ids[0]);
      var rest := VerifiedIsPlaced(items, ids[1..], indexes[0]);
      at := [indexes[0]] + rest;
      assert indexes[0] in indexes;
      forall k | 0 <= k < |at| ensures at[k] < |items| && Carries(items[at[k]], ids[k]) {
        if k > 0 {
          assert ids[k] == ids[1..][k - 1] && at[k] == rest[k - 1];
        }
      }
      forall i, k | 0 <= i < |items| && 0 <= k < |ids| && Carries(items[i], ids[k])
        ensures i == at[k]
      {
        if k == 0 {
          assert i in indexes;
        } else {
          assert ids[k] == ids[1..][k - 1];
        }
      }
    }
  }

  lemma StrangerEchoesNothing(items: seq<Item>, n: nat, ids: seq<Id>)
    requires 0 < n <= |items| && forall k :: 0 <= k < |ids| ==> !Carries(items[n - 1], ids[k])
    ensures Echoed(items[..n], ids) == Echoed(items[..n - 1], ids)
  {
    assert items[..n][..n - 1] == items[..n - 1] && items[..n][n - 1] == items[n - 1];
    match items[n - 1]
    case UserMessage(Some(id)) =>
      forall k | 0 <= k < |ids| ensures ids[k] != id {
        assert Carries(items[n - 1], ids[k]) <==> ids[k] == id;
      }
    case _ =>
  }

  lemma MemberEchoes(items: seq<Item>, n: nat, ids: seq<Id>, id: Id)
    requires 0 < n <= |items| && id in ids && Carries(items[n - 1], id)
    ensures Echoed(items[..n], ids) == Echoed(items[..n - 1], ids) + [id]
  {
    assert items[..n][..n - 1] == items[..n - 1] && items[..n][n - 1] == items[n - 1];
  }

  lemma {:induction false} PlacedEchoes(items: seq<Item>, n: nat, ids: seq<Id>, at: seq<nat>, c: nat)
    requires Placed(items, ids, at) && n <= |items| && c <= |ids|
    requires forall k :: 0 <= k < |at| ==> (at[k] < n <==> k < c)
    ensures Echoed(items[..n], ids) == ids[..c]
  {
    if n == 0 {
      assert |at| > 0 ==> at[0] >= n;
      assert items[..n] == [] && ids[..c] == [];
    } else {
      if c > 0 && at[c - 1] == n - 1 {
        PlacedEchoes(items, n - 1, ids, at, c - 1);
        MemberEchoes(items, n, ids, ids[c - 1]);
        assert ids[..c] == ids[..c - 1] + [ids[c - 1]];
      } else {
        forall k | 0 <= k < |ids| ensures at[k] != n - 1 {
          assert c > 0 && k < c - 1 ==> at[k] < at[c - 1];
        }
        forall k | 0 <= k < |ids| ensures !Carries(items[n - 1], ids[k]) {
          assert n - 1 == at[k] || !Carries(items[n - 1], ids[k]);
        }
        StrangerEchoesNothing(items, n, ids);
        PlacedEchoes(items, n - 1, ids, at, c);
      }
    }
  }

  lemma {:induction false} EchoPositions(items: seq<Item>, ids: seq<Id>) returns (at: seq<nat>)
    ensures |at| == |Echoed(items, ids)|
    ensures forall j, k :: 0 <= j < k < |at| ==> at[j] < at[k]
    ensures forall k :: 0 <= k < |at| ==> at[k] < |items| && Carries(items[at[k]], Echoed(items, ids)[k])
    ensures forall i, id :: 0 <= i < |items| && id in ids && Carries(items[i], id) ==> i in at
  {
    at := [];
    if items != [] {
      var n := |items| - 1;
      var before := Echoed(items[..n], ids);
      at := EchoPositions(items[..n], ids);
      forall k | 0 <= k < |at| ensures at[k] < n && Carries(items[at[k]], before[k]) {
        assert items[..n][at[k]] == items[at[k]];
      }
      forall i, id | 0 <= i < n && id in ids && Carries(items[i], id) ensures i in at {
        assert items[..n][i] == items[i];
      }
      if items[n].UserMessage? && items[n].clientId.Some? && items[n].clientId.value in ids {
        at := at + [n];
        assert Echoed(items, ids) == before + [items[n].clientId.value];
      } else {
        assert Echoed(items, ids) == before;
      }
    }
  }

  /** The check accepts exactly the turns whose user items, filtered to the
      group, read as the sent ids in accepted order with no repeats. */
  lemma GroupCheckExact(ids: seq<Id>, turn: NativeTurn)
    requires turn.full && ids != []
    ensures VerifyGroup(ids, turn).Last? <==> Echoed(turn.items, ids) == ids && Distinct(ids)
  {
    var items := turn.items;
    if VerifyGroup(ids, turn).Last? {
      var at := VerifiedIsPlaced(items, ids, -1);
      PlacedEchoes(items, |items|, ids, at, |ids|);
      assert items[..|items|] == items && ids[..|ids|] == ids;
      forall j, k | 0 <= j < k < |ids| ensures ids[j] != ids[k] {
        assert Carries(items[at[j]], ids[j]);
      }
    }
    if Echoed(items, ids) == ids && Distinct(ids) {
      var at := EchoPositions(items, ids);
      forall i, k | 0 <= i < |items| && 0 <= k < |ids| && Carries(items[i], ids[k])
        ensures i == at[k]
      {
        assert ids[k] in ids;
        assert i in at;
        var j :| 0 <= j < |at| && at[j] == i;
        assert Carries(items[i], ids[j]);
        assert j == k;
      }
      PlacedVerifies(items, ids, at, -1);
    }
  }

  /** The accepted position is the last member's user item, and no group
      member's item comes after it. */
  lemma LastMemberPosition(ids: seq<Id>, turn: NativeTurn)
    requires VerifyGroup(ids, turn).Last?
    ensures ids != []
    ensures VerifyGroup(ids, turn).index < |turn.items|
    ensures Carries(turn.items[VerifyGroup(ids, turn).index], ids[|ids| - 1])
    ensures forall i, id :: VerifyGroup(ids, turn).index < i < |turn.items| && id in ids ==> !Carries(turn.items[i], id)
  {
    var at := VerifiedIsPlaced(turn.items, ids, -1);
    PlacedVerifies(turn.items, ids, at, -1);
    forall i, id | at[|at| - 1] < i < |turn.items| && id in ids ensures !Carries(turn.items[i], id) {
      var k :| 0 <= k < |ids| && ids[k] == id;
      assert at[k] <= at[|at| - 1];
    }
  }

  // ---------------------------------------------------------------------------
  // The rebuilt answer
  // ---------------------------------------------------------------------------

  function AnswerOf(text: string): Answer {
    if text == "" then Nothing else Text(text)
  }

  predicate LastAnswerAt(items: seq<Item>, i: nat) {
    i < |items| && items[i].FinalAnswer? && forall j :: i < j < |items| ==> !items[j].FinalAnswer?
  }

  function LastFinalAnswer(items: seq<Item>): (r: Option<string>)
    ensures r.None? <==> forall i :: 0 <= i < |items| ==> !items[i].FinalAnswer?
    ensures r.Some? ==> exists i: nat :: LastAnswerAt(items, i) && items[i].text == r.value
  {
    if items == [] then None
    else
      var n := |items| - 1;
      if items[n].FinalAnswer? then
        assert LastAnswerAt(items, n);
        Some(items[n].text)
      else
        assert forall i :: 0 <= i < n ==> items[..n][i] == items[i];
        assert forall i: nat :: LastAnswerAt(items[..n], i) ==> LastAnswerAt(items, i);
        LastFinalAnswer(items[..n])
  }

  function Rebuild(turn: NativeTurn, userIndex: nat): Answer {
    var following := if userIndex < |turn.items| then turn.items[userIndex + 1..] else [];
    match LastFinalAnswer(following)
    case Some(text) => AnswerOf(text)
    case None => if turn.error.Some? then NativeFailure(turn.error.value) else Nothing
  }

  /** What `Rebuild` says in terms of the positions after `from`. */
  lemma RebuiltAfter(turn: NativeTurn, from: nat)
    requires from < |turn.items|
    ensures var text := LastFinalAnswer(turn.items[from + 1..]);
      if text.Some? then exists i :: from < i < |turn.items| && turn.items[i] == FinalAnswer(text.value)
                                  && forall j :: i < j < |turn.items| ==> !turn.items[j].FinalAnswer?
      else forall i :: from < i < |turn.items| ==> !turn.items[i].FinalAnswer?
  {
    var following := turn.items[from + 1..];
    var text := LastFinalAnswer(following);
    if text.Some? {
      var k: nat :| LastAnswerAt(following, k) && following[k].text == text.value;
      var i := from + 1 + k;
      assert turn.items[i] == FinalAnswer(text.value);
      forall j | i < j < |turn.items| ensures !turn.items[j].FinalAnswer? {
        assert turn.items[j] == following[j - from - 1];
      }
    } else {
      forall i | from < i < |turn.items| ensures !turn.items[i].FinalAnswer? {
        assert turn.items[i] == following[i - from - 1];
      }
    }
  }

  /** A rebuilt text is that of the last final answer, or the native error. */
  lemma RebuiltText(turn: NativeTurn, from: nat)
    requires from < |turn.items|
    ensures var answer := Rebuild(turn, from);
      && (answer.Text? ==> exists i :: from < i < |turn.items| && LastAnswerAt(turn.items, i) && turn.items[i].text == answer.body)
      && (answer.NativeFailure? ==> turn.error == Some(answer.message))
      && (answer.NativeFailure? ==> forall i :: from < i < |turn.items| ==> !turn.items[i].FinalAnswer?)
      && !answer.Conflict? && !answer.RunnerError?
  {
    RebuiltAfter(turn, from);
    var text := LastFinalAnswer(turn.items[from + 1..]);
    assert text.Some? ==> Rebuild(turn, from) == AnswerOf(text.value);
  }

  lemma RebuiltWithout(turn: NativeTurn, from: nat)
    requires from < |turn.items| && forall i :: from < i < |turn.items| ==> !turn.items[i].FinalAnswer?
    ensures Rebuild(turn, from) == if turn.error.Some? then NativeFailure(turn.error.value) else Nothing
  {
    RebuiltAfter(turn, from);
  }

  lemma RebuiltFrom(turn: NativeTurn, from: nat, i: nat)
    requires from < i && LastAnswerAt(turn.items, i)
    ensures Rebuild(turn, from) == if turn.items[i].text == "" then Nothing else Text(turn.items[i].text)
  {
    var following := turn.items[from + 1..];
    var k := i - from - 1;
    assert following[k] == turn.items[i];
    assert forall j :: k < j < |following| ==> following[j] == turn.items[from + 1 + j];
    OneLastAnswer(following, k);
  }

  lemma OneLastAnswer(items: seq<Item>, k: nat)
    requires LastAnswerAt(items, k)
    ensures LastFinalAnswer(items) == Some(items[k].text)
  {
    assert !LastFinalAnswer(items).None?;
    var i: nat :| LastAnswerAt(items, i) && items[i].text == LastFinalAnswer(items).value;
    assert i == k;
  }

  /** A settled group's text is the last final answer strictly after the last
      member's user item: an earlier member's answer never leaks into it. Without
      one it is the native error, if there is one. */
  lemma SettledTextFollowsLastMember(ids: seq<Id>, turn: NativeTurn)
    requires VerifyGroup(ids, turn).Last?
    ensures var last := VerifyGroup(ids, turn).index;
      var answer := Rebuild(turn, last);
      && (answer.Text? ==> exists i :: last < i < |turn.items| && LastAnswerAt(turn.items, i) && turn.items[i].text == answer.body)
      && (answer.NativeFailure? ==> turn.error == Some(answer.message))
      && (answer.NativeFailure? ==> forall i :: last < i < |turn.items| ==> !turn.items[i].FinalAnswer?)
      && !answer.Conflict? && !answer.RunnerError?
    ensures var last := VerifyGroup(ids, turn).index;
      forall i :: last < i < |turn.items| && LastAnswerAt(turn.items, i) ==>
        Rebuild(turn, last) == if turn.items[i].text == "" then Nothing else Text(turn.items[i].text)
    ensures var last := VerifyGroup(ids, turn).index;
      (forall i :: last < i < |turn.items| ==> !turn.items[i].FinalAnswer?)
        ==> Rebuild(turn, last) == if turn.error.Some? then NativeFailure(turn.error.value) else Nothing
  {
    var last := LastIndex(ids, turn);
    RebuiltText(turn, last);
    forall i | last < i < |turn.items| && LastAnswerAt(turn.items, i)
      ensures Rebuild(turn, last) == if turn.items[i].text == "" then Nothing else Text(turn.items[i].text) {
      RebuiltFrom(turn, last, i);
    }
    if forall i :: last < i < |turn.items| ==> !turn.items[i].FinalAnswer? {
      RebuiltWithout(turn, last);
    }
  }

  lemma LastIndex(ids: seq<Id>, turn: NativeTurn) returns (last: nat)
    requires VerifyGroup(ids, turn).Last?
    ensures last == VerifyGroup(ids, turn).index < |turn.items|
  {
    last := VerifyGroup(ids, turn).index;
    LastMemberPosition(ids, turn);
  }
}
