/** The goals page's list operations and the actions its UI offers:
    adding a goal, moving a progress slider, deleting with confirmation and
    marking a goal complete. */
module Goals {
  import opened Optional

  datatype Status = Active | Completed

  datatype Goal = Goal(
    id: string,
    title: string,
    description: string,
    expertId: string,
    status: Status,
    progress: int,
    targetDate: string,
    createdAt: string)

  /** The add-goal form's fields. */
  datatype Form = Form(title: string, description: string, expertId: string, targetDate: string)

  const BlankForm := Form("", "", "therapist", "")

  datatype Page = Page(user: Option<string>, goals: seq<Goal>, form: Form, showAddForm: bool)

  /** `handleAddGoal` once the insert has answered: `inserted` is the row it
      returned, if any.  A returned row goes to the front of the list and the
      form is reset and hidden; otherwise nothing changes. */
  function AddGoal(p: Page, inserted: Option<Goal>): (p': Page)
    ensures (p.user.None? || inserted.None?) ==> p' == p
    ensures p.user.Some? && inserted.Some? ==>
              p'.goals == [inserted.value] + p.goals && p'.form == BlankForm && !p'.showAddForm
              && p'.user == p.user
  {
    if p.user.None? then p
    else
      match inserted
      case None => p
      case Some(g) => p.(goals := [g] + p.goals, form := BlankForm, showAddForm := false)
  }

  /** `handleUpdateProgress`: the goals with id `id` take the new progress;
      nothing else changes, not even their order. */
  function SetProgress(gs: seq<Goal>, id: string, v: int): (r: seq<Goal>)
    ensures |r| == |gs|
    ensures forall i :: 0 <= i < |gs| && gs[i].id != id ==> r[i] == gs[i]
    ensures forall i :: 0 <= i < |gs| && gs[i].id == id ==> r[i] == gs[i].(progress := v)
  {
    if |gs| == 0 then []
    else [if gs[0].id == id then gs[0].(progress := v) else gs[0]] + SetProgress(gs[1..], id, v)
  }

  /** `handleCompleteGoal`: the goals with id `id` become completed at 100%;
      nothing else changes. */
  function Complete(gs: seq<Goal>, id: string): (r: seq<Goal>)
    ensures |r| == |gs|
    ensures forall i :: 0 <= i < |gs| && gs[i].id != id ==> r[i] == gs[i]
    ensures forall i :: 0 <= i < |gs| && gs[i].id == id ==>
              r[i] == gs[i].(status := Completed, progress := 100)
  {
    if |gs| == 0 then []
    else [if gs[0].id == id then gs[0].(status := Completed, progress := 100) else gs[0]] + Complete(gs[1..], id)
  }

  /** The goals whose id is not `id`, in their original order. */
  function Without(gs: seq<Goal>, id: string): (r: seq<Goal>)
    ensures forall g :: g in r <==> g in gs && g.id != id
    ensures |r| <= |gs|
  {
    if |gs| == 0 then []
    else
      var rest := Without(gs[1..], id);
      assert forall g :: g in gs <==> g == gs[0] || g in gs[1..];
      if gs[0].id == id then rest else [gs[0]] + rest
  }

  /** `handleDeleteGoal`: only a confirmed delete removes anything, and a
      confirmed one keeps every other goal in its place
      (`WithoutKeepsOrder`, `WithoutAbsent`). */
  function Delete(gs: seq<Goal>, id: string, confirmed: bool): (r: seq<Goal>)
    ensures !confirmed ==> r == gs
    ensures confirmed ==> r == Without(gs, id)
    ensures confirmed ==> forall g :: g in r <==> g in gs && g.id != id
  {
    if confirmed then Without(gs, id) else gs
  }

  /** Deleting works piecewise, so the survivors keep their relative order. */
  lemma {:induction false} WithoutKeepsOrder(a: seq<Goal>, b: seq<Goal>, id: string)
    ensures Without(a + b, id) == Without(a, id) + Without(b, id)
    decreases |a|
  {
    if |a| == 0 {
      assert a + b == b;
    } else {
      assert (a + b)[1..] == a[1..] + b;
      WithoutKeepsOrder(a[1..], b, id);
    }
  }

  /** A single goal survives exactly when its id is not the deleted one;
      with `WithoutKeepsOrder` this pins `Without` down on every list. */
  lemma WithoutSingle(g: Goal, id: string)
    ensures Without([g], id) == if g.id == id then [] else [g]
  {
    assert [g][1..] == [];
  }

  /** Deleting an id that no goal has changes nothing. */
  lemma {:induction false} WithoutAbsent(gs: seq<Goal>, id: string)
    requires forall i :: 0 <= i < |gs| ==> gs[i].id != id
    ensures Without(gs, id) == gs
    decreases |gs|
  {
    if |gs| > 0 {
      WithoutAbsent(gs[1..], id);
    }
  }

  /** Completing twice is completing once. */
  lemma CompleteIdempotent(gs: seq<Goal>, id: string)
    ensures Complete(Complete(gs, id), id) == Complete(gs, id)
  {
  }

  /** The last slider position wins. */
  lemma SetProgressLastWins(gs: seq<Goal>, id: string, v: int, w: int)
    ensures SetProgress(SetProgress(gs, id, v), id, w) == SetProgress(gs, id, w)
  {
  }

  /** What the page lets a user do. */
  datatype Action =
    | AddReturned(inserted: Option<Goal>)
    | Slide(id: string, value: int)
    | Remove(id: string, confirmed: bool)
    | MarkComplete(id: string)

  function Step(p: Page, a: Action): (p': Page)
    ensures p'.user == p.user
  {
    match a
    case AddReturned(inserted) => AddGoal(p, inserted)
    case Slide(id, v) => p.(goals := SetProgress(p.goals, id, v))
    case Remove(id, confirmed) => p.(goals := Delete(p.goals, id, confirmed))
    case MarkComplete(id) => p.(goals := Complete(p.goals, id))
  }

  predicate ShownOpen(p: Page, id: string) {
    exists i :: 0 <= i < |p.goals| && p.goals[i].id == id && p.goals[i].status != Completed
  }

  /** Whether an action can come from the rendered page.  The slider (range
      0 to 100) and the complete button are rendered only on goals that are
      not completed; the delete button on every goal.  An inserted row is
      the database's: it has a fresh id and a progress in range. */
  predicate Possible(p: Page, a: Action) {
    match a
    case AddReturned(inserted) =>
      inserted.Some? ==> (forall i :: 0 <= i < |p.goals| ==> p.goals[i].id != inserted.value.id)
                         && 0 <= inserted.value.progress <= 100
    case Slide(id, v) => ShownOpen(p, id) && 0 <= v <= 100
    case Remove(id, _) => exists i :: 0 <= i < |p.goals| && p.goals[i].id == id
    case MarkComplete(id) => ShownOpen(p, id)
  }

  predicate DistinctIds(gs: seq<Goal>) {
    forall i, j :: 0 <= i < j < |gs| ==> gs[i].id != gs[j].id
  }

  /** Goal ids are distinct and every progress lies in 0..100. */
  predicate WellFormed(p: Page) {
    && DistinctIds(p.goals)
    && (forall i :: 0 <= i < |p.goals| ==> 0 <= p.goals[i].progress <= 100)
  }

  /** Every action the page offers keeps ids distinct and progress within
      0..100. */
  lemma StepPreservesWellFormed(p: Page, a: Action)
    requires WellFormed(p) && Possible(p, a)
    ensures WellFormed(Step(p, a))
  {
    match a
    case Remove(id, confirmed) =>
      var r := Delete(p.goals, id, confirmed);
      if confirmed {
        assert r == Without(p.goals, id);
        WithoutDistinct(p.goals, id);
        forall i | 0 <= i < |r| ensures 0 <= r[i].progress <= 100 {
          assert r[i] in p.goals;
        }
      }
    case AddReturned(inserted) =>
    case Slide(id, v) =>
    case MarkComplete(id) =>
  }

  lemma {:induction false} WithoutDistinct(gs: seq<Goal>, id: string)
    requires DistinctIds(gs)
    ensures DistinctIds(Without(gs, id))
    decreases |gs|
  {
    if |gs| > 0 {
      WithoutDistinct(gs[1..], id);
      var rest := Without(gs[1..], id);
      if gs[0].id != id {
        var r := Without(gs, id);
        assert r == [gs[0]] + rest;
        forall k | 0 <= k < |rest| ensures rest[k].id != gs[0].id {
          assert rest[k] in gs[1..];
          var m :| 0 <= m < |gs[1..]| && gs[1..][m] == rest[k];
          assert gs[m + 1] == rest[k];
        }
        forall i, j | 0 <= i < j < |r| ensures r[i].id != r[j].id {
          assert r[j] == rest[j - 1];
          if i > 0 {
            assert r[i] == rest[i - 1];
            assert DistinctIds(rest);
          }
        }
      }
    }
  }

  /** Completion is terminal through the page: with distinct ids, a
      completed goal survives every offered action unchanged, unless it is
      the one deleted by a confirmed delete. */
  lemma CompletedIsTerminal(p: Page, a: Action, g: Goal)
    requires WellFormed(p) && Possible(p, a)
    requires g in p.goals && g.status == Completed
    requires a != Remove(g.id, true)
    ensures g in Step(p, a).goals
  {
    var k :| 0 <= k < |p.goals| && p.goals[k] == g;
    match a
    case Slide(id, v) =>
      assert p.goals[k].id != id;
      assert SetProgress(p.goals, id, v)[k] == g;
    case MarkComplete(id) =>
      assert p.goals[k].id != id;
      assert Complete(p.goals, id)[k] == g;
    case Remove(id, confirmed) =>
    case AddReturned(inserted) =>
      if p.user.Some? && inserted.Some? {
        assert Step(p, a).goals[k + 1] == g;
      }
  }
}
