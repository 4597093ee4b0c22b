/** The quest list operations behind App.tsx handleCompleteQuest: the
    `find` that looks the quest up and the `map` that marks it completed. */
module Quests {
  import opened Types

  /** `quests.find(q => q.id === id)`: the first quest with that id, if any. */
  function FindQuest(qs: seq<Quest>, id: string): (r: Option<Quest>)
    ensures r.None? <==> forall i :: 0 <= i < |qs| ==> qs[i].id != id
    ensures r.Some? ==> exists i :: 0 <= i < |qs| && qs[i] == r.value && qs[i].id == id &&
                                    forall j :: 0 <= j < i ==> qs[j].id != id
    decreases |qs|
  {
    if qs == [] then None
    else if qs[0].id == id then Some(qs[0])
    else
      var r := FindQuest(qs[1..], id);
      assert r.Some? ==> exists i :: 1 <= i < |qs| && qs[i] == r.value && qs[i].id == id &&
                                    forall j :: 0 <= j < i ==> qs[j].id != id by {
        if r.Some? {
          var k :| 0 <= k < |qs[1..]| && qs[1..][k] == r.value && qs[1..][k].id == id &&
                   forall j :: 0 <= j < k ==> qs[1..][j].id != id;
          assert qs[k + 1] == r.value;
          forall j | 0 <= j < k + 1 ensures qs[j].id != id {
            if j > 0 { assert qs[j] == qs[1..][j - 1]; }
          }
        }
      }
      assert r.None? ==> forall i :: 0 <= i < |qs| ==> qs[i].id != id by {
        if r.None? {
          forall i | 0 <= i < |qs| ensures qs[i].id != id {
            if i > 0 { assert qs[i] == qs[1..][i - 1]; }
          }
        }
      }
      r
  }

  /** `prev.map(q => q.id === id ? {...q, completed: true} : q)`. */
  function MarkCompleted(qs: seq<Quest>, id: string): (r: seq<Quest>)
    ensures |r| == |qs|
    ensures forall i :: 0 <= i < |qs| ==>
      r[i].(completed := qs[i].completed) == qs[i] &&
      r[i].completed == (qs[i].completed || qs[i].id == id)
  {
    seq(|qs|, i requires 0 <= i < |qs| => if qs[i].id == id then qs[i].(completed := true) else qs[i])
  }

  /** The guard of handleCompleteQuest: the quest to award, or none when no
      quest has the id or its first match is already completed. */
  function Completable(qs: seq<Quest>, id: string): (r: Option<Quest>)
    ensures r.None? <==> FindQuest(qs, id).None? || FindQuest(qs, id).value.completed
    ensures r.Some? ==> r == FindQuest(qs, id)
    ensures r.Some? ==> r.value.id == id && !r.value.completed && r.value in qs
  {
    match FindQuest(qs, id)
    case None => None
    case Some(q) => if q.completed then None else Some(q)
  }

  /** Marking one id does not change what the lookup finds for any other id. */
  lemma {:induction false} FindUnaffected(qs: seq<Quest>, id: string, other: string)
    requires other != id
    ensures FindQuest(MarkCompleted(qs, id), other) == FindQuest(qs, other)
    decreases |qs|
  {
    if qs != [] {
      var m := MarkCompleted(qs, id);
      assert m[1..] == MarkCompleted(qs[1..], id);
      FindUnaffected(qs[1..], id, other);
    }
  }

  /** Once a quest has been completed, completing it again awards nothing. */
  lemma SecondCompletionIgnored(qs: seq<Quest>, id: string)
    ensures Completable(MarkCompleted(qs, id), id) == None
  {
  }

  /** Completing one id leaves the guard of every other id as it was. */
  lemma OtherQuestsStillCompletable(qs: seq<Quest>, id: string, other: string)
    requires other != id
    ensures Completable(MarkCompleted(qs, id), other) == Completable(qs, other)
  {
    FindUnaffected(qs, id, other);
  }
}
