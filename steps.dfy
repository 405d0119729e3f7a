/** The step list that the create-workflow and edit-workflow pages build: a
    sequence of `{prompt, prompt_name, order, name}` rows, edited by adding a
    prompt, removing a row, moving a row up or down and relabelling a row.
    Both pages carry the same four operations; they are defined once here. */
module WorkflowSteps {
  import opened Common

  /** One row of the step list: the prompt it runs, that prompt's display
      name, its position number and an optional label. */
  datatype Step = Step(prompt: Id, promptName: string, order: int, name: string)

  /** A step without its position number: what a move or a removal must
      carry over unchanged. */
  datatype StepContent = StepContent(prompt: Id, promptName: string, name: string)

  function ContentOf(s: Step): StepContent {
    StepContent(s.prompt, s.promptName, s.name)
  }

  function Contents(steps: seq<Step>): (r: seq<StepContent>)
    ensures |r| == |steps|
    ensures forall k :: 0 <= k < |steps| ==> r[k] == ContentOf(steps[k])
  {
    seq(|steps|, k requires 0 <= k < |steps| => ContentOf(steps[k]))
  }

  /** `steps.find(s => s.prompt === id)` is truthy. */
  predicate HasPrompt(steps: seq<Step>, id: Id) {
    exists i :: 0 <= i < |steps| && steps[i].prompt == id
  }

  /** Every row's `order` is its position in the list. */
  predicate OrdersArePositions(steps: seq<Step>) {
    forall k :: 0 <= k < |steps| ==> steps[k].order == k
  }

  /** No prompt appears in two rows. */
  predicate UniquePrompts(steps: seq<Step>) {
    forall i, j :: 0 <= i < j < |steps| ==> steps[i].prompt != steps[j].prompt
  }

  /** The invariant the four editing operations keep. */
  predicate WellFormed(steps: seq<Step>) {
    OrdersArePositions(steps) && UniquePrompts(steps)
  }

  /** `steps.map((s, i) => ({...s, order: i}))`. */
  function Renumber(steps: seq<Step>): (r: seq<Step>)
    ensures |r| == |steps| && OrdersArePositions(r)
    ensures Contents(r) == Contents(steps)
  {
    seq(|steps|, k requires 0 <= k < |steps| => steps[k].(order := k))
  }

  /** `addStep(prompt)`: nothing happens when some row already runs this
      prompt; otherwise one unlabelled row numbered after the last is
      appended. */
  function AddStep(steps: seq<Step>, p: PromptRef): (r: seq<Step>)
    ensures HasPrompt(steps, p.id) ==> r == steps
    ensures !HasPrompt(steps, p.id) ==>
      |r| == |steps| + 1 && r[..|steps|] == steps
      && r[|steps|] == Step(p.id, p.name, |steps|, "")
    ensures HasPrompt(r, p.id)
    ensures WellFormed(steps) ==> WellFormed(r)
  {
    if HasPrompt(steps, p.id) then steps
    else
      var r := steps + [Step(p.id, p.name, |steps|, "")];
      assert r[|steps|].prompt == p.id;
      r
  }

  /** `removeStep(index)`: the row at `index` (if there is one) is dropped, the
      others keep their relative order, and every row is renumbered. */
  function RemoveStep(steps: seq<Step>, index: int): (r: seq<Step>)
    ensures OrdersArePositions(r)
    ensures 0 <= index < |steps| ==>
      |r| == |steps| - 1
      && (forall k :: 0 <= k < index ==> ContentOf(r[k]) == ContentOf(steps[k]))
      && (forall k :: index <= k < |r| ==> ContentOf(r[k]) == ContentOf(steps[k + 1]))
    ensures !(0 <= index < |steps|) ==> Contents(r) == Contents(steps)
    ensures UniquePrompts(steps) ==> UniquePrompts(r)
  {
    var kept := if 0 <= index < |steps| then steps[..index] + steps[index + 1..] else steps;
    var r := Renumber(kept);
    assert forall k :: 0 <= k < |r| ==> ContentOf(r[k]) == ContentOf(kept[k]);
    r
  }

  /** `[s[i], s[j]] = [s[j], s[i]]` on a copy of `s`. */
  function Swapped(steps: seq<Step>, i: nat, j: nat): (r: seq<Step>)
    requires i < |steps| && j < |steps|
    ensures |r| == |steps| && r[i] == steps[j] && r[j] == steps[i]
    ensures forall k :: 0 <= k < |steps| && k != i && k != j ==> r[k] == steps[k]
    ensures multiset(r) == multiset(steps)
  {
    steps[i := steps[j]][j := steps[i]]
  }

  /** What `moveStep(index, direction)` leaves: the list itself, untouched and
      not renumbered, when `index + direction` falls outside it; otherwise the
      list with the two rows swapped and every row renumbered. */
  ghost function Moved(steps: seq<Step>, index: nat, direction: int): seq<Step>
    requires index < |steps|
  {
    var j := index + direction;
    if j < 0 || j >= |steps| then steps else Renumber(Swapped(steps, index, j))
  }

  /** `moveStep(index, direction)`, computed as the page does: copy the list,
      swap the two slots of the copy, then number the copy's rows `0..n-1`.
      `index` is the row whose arrow was clicked, so it is always a row. */
  method MoveStep(steps: seq<Step>, index: nat, direction: int) returns (r: seq<Step>)
    requires index < |steps|
    ensures r == Moved(steps, index, direction)
    ensures index + direction < 0 || index + direction >= |steps| ==> r == steps
    ensures 0 <= index + direction < |steps| ==>
      |r| == |steps| && OrdersArePositions(r)
      && ContentOf(r[index]) == ContentOf(steps[index + direction])
      && ContentOf(r[index + direction]) == ContentOf(steps[index])
      && (forall k :: 0 <= k < |r| && k != index && k != index + direction ==> ContentOf(r[k]) == ContentOf(steps[k]))
  {
    var j := index + direction;
    if j < 0 || j >= |steps| {
      return steps;
    }
    var a := new Step[|steps|](k requires 0 <= k < |steps| => steps[k]);
    a[index], a[j] := a[j], a[index];
    ghost var swapped := Swapped(steps, index, j);
    var k := 0;
    while k < a.Length
      invariant 0 <= k <= a.Length
      invariant forall m :: 0 <= m < k ==> a[m] == swapped[m].(order := m)
      invariant forall m :: k <= m < a.Length ==> a[m] == swapped[m]
    {
      a[k] := a[k].(order := k);
      k := k + 1;
    }
    r := a[..];
    assert r == Renumber(swapped);
  }

  /** `updateStepName(index, value)`: only the label of row `index` changes. */
  function UpdateStepName(steps: seq<Step>, index: int, value: string): (r: seq<Step>)
    ensures |r| == |steps|
    ensures forall k :: 0 <= k < |steps| && k != index ==> r[k] == steps[k]
    ensures 0 <= index < |steps| ==>
      r[index].name == value && r[index].prompt == steps[index].prompt
      && r[index].promptName == steps[index].promptName && r[index].order == steps[index].order
    ensures WellFormed(steps) ==> WellFormed(r)
  {
    seq(|steps|, k requires 0 <= k < |steps| => if k == index then steps[k].(name := value) else steps[k])
  }

  /** A move keeps the rows' contents as a multiset and, from a well-formed
      list, gives a well-formed list. */
  lemma MovePreserves(steps: seq<Step>, index: nat, direction: int)
    requires index < |steps|
    ensures multiset(Contents(Moved(steps, index, direction))) == multiset(Contents(steps))
    ensures WellFormed(steps) ==> WellFormed(Moved(steps, index, direction))
  {
    var j := index + direction;
    if 0 <= j < |steps| {
      var sw := Swapped(steps, index, j);
      SwapContents(steps, index, j);
      assert Contents(Renumber(sw)) == Contents(sw);
      if WellFormed(steps) {
        forall a, b | 0 <= a < b < |steps|
          ensures Moved(steps, index, direction)[a].prompt != Moved(steps, index, direction)[b].prompt
        {
          var pa := if a == index then j else if a == j then index else a;
          var pb := if b == index then j else if b == j then index else b;
          assert sw[a] == steps[pa] && sw[b] == steps[pb];
          assert ContentOf(Moved(steps, index, direction)[a]) == ContentOf(sw[a]);
          assert ContentOf(Moved(steps, index, direction)[b]) == ContentOf(sw[b]);
        }
      }
    }
  }

  lemma SwapContents(steps: seq<Step>, i: nat, j: nat)
    requires i < |steps| && j < |steps|
    ensures multiset(Contents(Swapped(steps, i, j))) == multiset(Contents(steps))
  {
    var c := Contents(steps);
    assert Contents(Swapped(steps, i, j)) == c[i := c[j]][j := c[i]];
  }

  /** One edit a user can make on the step list. The picker offers `Add`; the
      arrows on row `index` offer `Move(index, -1)` and `Move(index, 1)`. */
  datatype StepAction =
    | Add(p: PromptRef)
    | Remove(index: int)
    | Move(index: int, direction: int)
    | Rename(index: int, value: string)

  /** Moves are only offered on an existing row. */
  predicate Enabled(steps: seq<Step>, a: StepAction) {
    a.Move? ==> 0 <= a.index < |steps|
  }

  ghost function Apply(steps: seq<Step>, a: StepAction): seq<Step>
    requires Enabled(steps, a)
  {
    match a
    case Add(p) => AddStep(steps, p)
    case Remove(i) => RemoveStep(steps, i)
    case Move(i, d) => Moved(steps, i, d)
    case Rename(i, v) => UpdateStepName(steps, i, v)
  }

  /** Every action of `acts`, taken in turn from `steps`, is enabled. */
  ghost predicate Runs(steps: seq<Step>, acts: seq<StepAction>)
    decreases |acts|
  {
    acts == [] || (Enabled(steps, acts[0]) && Runs(Apply(steps, acts[0]), acts[1..]))
  }

  ghost function Replay(steps: seq<Step>, acts: seq<StepAction>): seq<Step>
    requires Runs(steps, acts)
    decreases |acts|
  {
    if acts == [] then steps else Replay(Apply(steps, acts[0]), acts[1..])
  }

  /** Each single edit keeps the step list well-formed. */
  lemma ApplyPreserves(steps: seq<Step>, a: StepAction)
    requires WellFormed(steps) && Enabled(steps, a)
    ensures WellFormed(Apply(steps, a))
  {
    if a.Move? {
      MovePreserves(steps, a.index, a.direction);
    }
  }

  /** Any run of edits from a well-formed list (the empty list of a new
      workflow in particular) keeps every order equal to its position and the
      prompts pairwise distinct. */
  lemma {:induction false} ReplayPreserves(steps: seq<Step>, acts: seq<StepAction>)
    requires WellFormed(steps) && Runs(steps, acts)
    ensures WellFormed(Replay(steps, acts))
    decreases |acts|
  {
    if acts != [] {
      ApplyPreserves(steps, acts[0]);
      ReplayPreserves(Apply(steps, acts[0]), acts[1..]);
    }
  }

  lemma FromEmpty(acts: seq<StepAction>)
    requires Runs([], acts)
    ensures WellFormed(Replay([], acts))
  {
    ReplayPreserves([], acts);
  }

  /** Rows ascending by `order`. */
  predicate SortedByOrder(steps: seq<Step>) {
    forall i, j :: 0 <= i < j < |steps| ==> steps[i].order <= steps[j].order
  }

  /** Insert `x` before the first row of the sorted `t` with a larger order. */
  function Insert(x: Step, t: seq<Step>): (r: seq<Step>)
    requires SortedByOrder(t)
    ensures SortedByOrder(r) && multiset(r) == multiset(t) + multiset{x}
    ensures |r| == |t| + 1
    ensures t == [] || x.order <= t[0].order ==> r == [x] + t
  {
    if t == [] || x.order <= t[0].order then [x] + t
    else
      var rest := Insert(x, t[1..]);
      assert t == [t[0]] + t[1..];
      InsertedAfterHead(x, t, rest);
      SortedCons(t[0], rest);
      [t[0]] + rest
  }

  /** Every row of the tail with `x` inserted is at least the head's order. */
  lemma InsertedAfterHead(x: Step, t: seq<Step>, rest: seq<Step>)
    requires SortedByOrder(t) && t != [] && t[0].order < x.order
    requires multiset(rest) == multiset(t[1..]) + multiset{x}
    ensures forall k :: 0 <= k < |rest| ==> t[0].order <= rest[k].order
  {
    forall k | 0 <= k < |rest| ensures t[0].order <= rest[k].order {
      assert rest[k] in multiset(rest);
      assert rest[k] == x || rest[k] in t[1..];
    }
  }

  /** A row no larger than every row of a sorted list can go in front. */
  lemma SortedCons(h: Step, rest: seq<Step>)
    requires SortedByOrder(rest)
    requires forall k :: 0 <= k < |rest| ==> h.order <= rest[k].order
    ensures SortedByOrder([h] + rest)
  {
    var r := [h] + rest;
    forall i, j | 0 <= i < j < |r| ensures r[i].order <= r[j].order {
      assert r[j] == rest[j - 1];
      if i > 0 { assert r[i] == rest[i - 1]; }
    }
  }

  /** `rows.sort((a, b) => a.order - b.order)`: a permutation of the rows
      ascending by order (the sort is stable, as `Array.prototype.sort` is). */
  function SortByOrder(steps: seq<Step>): (r: seq<Step>)
    ensures SortedByOrder(r) && multiset(r) == multiset(steps)
    ensures |r| == |steps|
  {
    if steps == [] then []
    else
      assert steps == [steps[0]] + steps[1..];
      Insert(steps[0], SortByOrder(steps[1..]))
  }

  /** A list already in order comes back from the sort unchanged; in
      particular a well-formed list does. */
  lemma {:induction false} SortKeepsSorted(steps: seq<Step>)
    requires SortedByOrder(steps)
    ensures SortByOrder(steps) == steps
  {
    if steps != [] {
      SortKeepsSorted(steps[1..]);
      assert steps == [steps[0]] + steps[1..];
    }
  }

  /** The rows whose order is `o`, in list order. */
  function WithOrder(steps: seq<Step>, o: int): (r: seq<Step>)
    ensures forall k :: 0 <= k < |r| ==> r[k].order == o
  {
    if steps == [] then []
    else (if steps[0].order == o then [steps[0]] else []) + WithOrder(steps[1..], o)
  }

  /** Inserting `x` into a sorted list puts it in front of the rows that
      share its order, and leaves every other order's rows as they were. */
  lemma {:induction false} InsertWithOrder(x: Step, t: seq<Step>, o: int)
    requires SortedByOrder(t)
    ensures WithOrder(Insert(x, t), o) == (if x.order == o then [x] else []) + WithOrder(t, o)
  {
    if t == [] || x.order <= t[0].order {
      assert ([x] + t)[1..] == t;
    } else {
      var rest := Insert(x, t[1..]);
      assert Insert(x, t) == [t[0]] + rest;
      assert ([t[0]] + rest)[1..] == rest;
      InsertWithOrder(x, t[1..], o);
    }
  }

  /** The sort is stable: for every order value, the rows with that order
      keep their relative positions. */
  lemma {:induction false} SortIsStable(steps: seq<Step>, o: int)
    ensures WithOrder(SortByOrder(steps), o) == WithOrder(steps, o)
  {
    if steps != [] {
      SortIsStable(steps[1..], o);
      InsertWithOrder(steps[0], SortByOrder(steps[1..]), o);
    }
  }

  /** The first prompt of the list with this id: `allPrompts.find(p => p.id === id)`. */
  function FindPrompt(prompts: seq<PromptRef>, id: Id): Option<PromptRef> {
    Find(prompts, (p: PromptRef) => p.id == id)
  }

  /** The picker: the fetched prompts that are not yet a step, in fetched order. */
  function Available(prompts: seq<PromptRef>, steps: seq<Step>): (r: seq<PromptRef>)
    ensures forall p :: p in r <==> p in prompts && !HasPrompt(steps, p.id)
    ensures |r| <= |prompts|
  {
    FilterSpec(prompts, (p: PromptRef) => !HasPrompt(steps, p.id));
    Filter(prompts, (p: PromptRef) => !HasPrompt(steps, p.id))
  }
}
