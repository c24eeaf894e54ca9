/**
 * The pure list patches the dashboard applies to its in-memory task list
 * after a remote call succeeds: merge a draft into the tasks with a given id,
 * set `completed` on the tasks with a given id, and drop the tasks with a
 * given id. Each is a `map` or `filter` in the source.
 */
module TaskPatches {
  import opened TaskTypes
  import opened Gateway

  /** `{ ...task, ...draft }`: the draft's fields over the task's. */
  function MergeDraft(t: Task, d: TaskFormData): (r: Task)
    ensures r.id == t.id && r.completed == t.completed && r.userEmail == t.userEmail
    ensures DraftOf(r) == d
  {
    t.(title := d.title, description := d.description, priority := d.priority)
  }

  /** Merging a task's own fields back into it changes nothing. */
  lemma MergeOwnDraft(t: Task)
    ensures MergeDraft(t, DraftOf(t)) == t
  {
  }

  /** Every task whose id is `id` takes the draft's fields; the rest stay. */
  function UpdateById(ts: seq<Task>, id: string, d: TaskFormData): (r: seq<Task>)
    ensures |r| == |ts|
    ensures forall i :: 0 <= i < |ts| ==>
      r[i] == if ts[i].id == id then MergeDraft(ts[i], d) else ts[i]
  {
    if ts == [] then []
    else [if ts[0].id == id then MergeDraft(ts[0], d) else ts[0]] + UpdateById(ts[1..], id, d)
  }

  /** Every task whose id is `id` gets `completed := c`; the rest stay. */
  function SetCompletedById(ts: seq<Task>, id: string, c: bool): (r: seq<Task>)
    ensures |r| == |ts|
    ensures forall i :: 0 <= i < |ts| ==>
      r[i] == if ts[i].id == id then ts[i].(completed := c) else ts[i]
  {
    if ts == [] then []
    else [if ts[0].id == id then ts[0].(completed := c) else ts[0]] + SetCompletedById(ts[1..], id, c)
  }

  /** The number of tasks whose id is `id`. */
  function CountId(ts: seq<Task>, id: string): nat
  {
    if ts == [] then 0 else (if ts[0].id == id then 1 else 0) + CountId(ts[1..], id)
  }

  /** The tasks whose id is not `id`, in their original order. */
  function RemoveById(ts: seq<Task>, id: string): (r: seq<Task>)
    ensures |r| == |ts| - CountId(ts, id)
  {
    if ts == [] then []
    else if ts[0].id == id then RemoveById(ts[1..], id)
    else [ts[0]] + RemoveById(ts[1..], id)
  }

  /** The remaining tasks are exactly the tasks whose id differs. */
  lemma {:induction false} RemoveByIdMembers(ts: seq<Task>, id: string)
    ensures forall t :: t in RemoveById(ts, id) <==> t in ts && t.id != id
  {
    if ts != [] {
      RemoveByIdMembers(ts[1..], id);
      assert ts == [ts[0]] + ts[1..];
    }
  }

  /** No two tasks of the list share an id. */
  predicate UniqueIds(ts: seq<Task>)
  {
    forall i, j :: 0 <= i < j < |ts| ==> ts[i].id != ts[j].id
  }

  /** Every task of the list belongs to `owner`. */
  predicate OwnedBy(ts: seq<Task>, owner: string)
  {
    forall i :: 0 <= i < |ts| ==> ts[i].userEmail == owner
  }

  /** The ids of the list, in order. */
  function Ids(ts: seq<Task>): (r: seq<string>)
    ensures |r| == |ts|
    ensures forall i :: 0 <= i < |ts| ==> r[i] == ts[i].id
  {
    if ts == [] then [] else [ts[0].id] + Ids(ts[1..])
  }

  /** Filtering distributes over concatenation, so it keeps relative order. */
  lemma {:induction false} RemoveByIdAppend(a: seq<Task>, b: seq<Task>, id: string)
    ensures RemoveById(a + b, id) == RemoveById(a, id) + RemoveById(b, id)
  {
    if a == [] {
      assert a + b == b;
    } else {
      assert (a + b)[1..] == a[1..] + b;
      RemoveByIdAppend(a[1..], b, id);
    }
  }

  /** Filtering out an id no task has is the identity. */
  lemma {:induction false} RemoveAbsentId(ts: seq<Task>, id: string)
    requires forall i :: 0 <= i < |ts| ==> ts[i].id != id
    ensures RemoveById(ts, id) == ts
  {
    if ts != [] {
      RemoveAbsentId(ts[1..], id);
      assert ts == [ts[0]] + ts[1..];
    }
  }

  /** Deleting the id of the only task that has it removes just that task. */
  lemma {:induction false} RemoveSingleOccurrence(before: seq<Task>, x: Task, after: seq<Task>)
    requires forall i :: 0 <= i < |before| ==> before[i].id != x.id
    requires forall i :: 0 <= i < |after| ==> after[i].id != x.id
    ensures RemoveById(before + ([x] + after), x.id) == before + after
  {
    RemoveAbsentId(before, x.id);
    RemoveAbsentId(after, x.id);
    assert RemoveById([x], x.id) == [] by {
      assert [x][1..] == [];
    }
    RemoveByIdAppend([x], after, x.id);
    RemoveByIdAppend(before, [x] + after, x.id);
  }

  /**
   * With unique ids, deleting the id of the task at position `k` removes
   * exactly that entry and keeps the others in order.
   */
  lemma {:induction false} RemoveUniqueId(ts: seq<Task>, k: nat)
    requires UniqueIds(ts) && k < |ts|
    ensures RemoveById(ts, ts[k].id) == ts[..k] + ts[k + 1..]
  {
    var before, after := ts[..k], ts[k + 1..];
    forall i | 0 <= i < |before|
      ensures before[i].id != ts[k].id
    {
      assert before[i] == ts[i];
    }
    forall i | 0 <= i < |after|
      ensures after[i].id != ts[k].id
    {
      assert after[i] == ts[k + 1 + i];
    }
    assert ts == before + ([ts[k]] + after);
    RemoveSingleOccurrence(before, ts[k], after);
  }

  /** A toggle there and back again restores the list. */
  lemma ToggleTwiceRestores(ts: seq<Task>, id: string, b: bool)
    requires forall i :: 0 <= i < |ts| && ts[i].id == id ==> ts[i].completed == b
    ensures SetCompletedById(SetCompletedById(ts, id, !b), id, b) == ts
  {
    var r := SetCompletedById(SetCompletedById(ts, id, !b), id, b);
    assert forall i :: 0 <= i < |ts| ==> r[i] == ts[i];
  }

  /**
   * Submitting an edit form whose draft is still the edited task's own
   * fields leaves the list unchanged, provided the list holds that task
   * under its id.
   */
  lemma UpdateWithOwnDraft(ts: seq<Task>, t: Task)
    requires forall i :: 0 <= i < |ts| && ts[i].id == t.id ==> DraftOf(ts[i]) == DraftOf(t)
    ensures UpdateById(ts, t.id, DraftOf(t)) == ts
  {
    var r := UpdateById(ts, t.id, DraftOf(t));
    forall i | 0 <= i < |ts|
      ensures r[i] == ts[i]
    {
      if ts[i].id == t.id {
        MergeOwnDraft(ts[i]);
      }
    }
  }

  /** Merging and toggling keep the ids, so they keep ids unique. */
  lemma {:induction false} PatchesKeepIds(ts: seq<Task>, id: string, d: TaskFormData, c: bool)
    ensures Ids(UpdateById(ts, id, d)) == Ids(ts)
    ensures Ids(SetCompletedById(ts, id, c)) == Ids(ts)
    ensures UniqueIds(ts) ==> UniqueIds(UpdateById(ts, id, d)) && UniqueIds(SetCompletedById(ts, id, c))
  {
    var u, s := UpdateById(ts, id, d), SetCompletedById(ts, id, c);
    assert forall i :: 0 <= i < |ts| ==> Ids(u)[i] == Ids(ts)[i];
    assert forall i :: 0 <= i < |ts| ==> Ids(s)[i] == Ids(ts)[i];
  }

  /** Deleting keeps ids unique: the result is a sublist of the input. */
  lemma {:induction false} RemoveKeepsUniqueIds(ts: seq<Task>, id: string)
    requires UniqueIds(ts)
    ensures UniqueIds(RemoveById(ts, id))
    ensures id !in Ids(RemoveById(ts, id))
  {
    if ts != [] {
      RemoveKeepsUniqueIds(ts[1..], id);
      RemoveByIdMembers(ts[1..], id);
      var rest := RemoveById(ts[1..], id);
      if ts[0].id != id {
        forall j | 0 <= j < |rest|
          ensures rest[j].id != ts[0].id
        {
          assert rest[j] in ts[1..];
        }
      }
    }
  }

  /** Every patch keeps the list owned by the signed-in user. */
  lemma PatchesKeepOwner(ts: seq<Task>, owner: string, id: string, d: TaskFormData, c: bool)
    requires OwnedBy(ts, owner)
    ensures OwnedBy(UpdateById(ts, id, d), owner)
    ensures OwnedBy(SetCompletedById(ts, id, c), owner)
    ensures OwnedBy(RemoveById(ts, id), owner)
  {
    var r := RemoveById(ts, id);
    RemoveByIdMembers(ts, id);
    forall j | 0 <= j < |r|
      ensures r[j].userEmail == owner
    {
      assert r[j] in ts;
    }
  }

  /** Prepending the task the store created for `owner` keeps the list owned by `owner`. */
  lemma CreateKeepsOwner(ts: seq<Task>, owner: string, id: string, d: TaskFormData)
    requires OwnedBy(ts, owner)
    ensures OwnedBy([CreatedTask(id, d, owner)] + ts, owner)
  {
    var r := [CreatedTask(id, d, owner)] + ts;
    forall j | 0 <= j < |r|
      ensures r[j].userEmail == owner
    {
      if j > 0 {
        assert r[j] == ts[j - 1];
      }
    }
  }
}
