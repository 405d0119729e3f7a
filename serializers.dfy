/** `CreatePromptSerializer.create`: the relation ids are taken out of the
    validated data, the prompt is saved from the remaining fields, and one
    link row is saved per category id and per team id. */
module Serializers {
  import opened Common
  import opened Models

  /** The validated data of a new prompt. `None` is a key that was not
      sent; `createdBy` is the user `perform_create` adds. */
  datatype PromptInput = PromptInput(
    organization: Id, createdBy: Option<Id>, name: string, description: Option<string>, prompt: string,
    model: string, visibility: Option<string>, categoryIds: Option<seq<Id>>, teamIds: Option<seq<Id>>)

  /** `validated_data.pop(key, [])`. */
  function PopIds(ids: Option<seq<Id>>): (r: seq<Id>)
    ensures ids.None? ==> r == []
    ensures ids.Some? ==> r == ids.value
  {
    if ids.Some? then ids.value else []
  }

  /** The prompt row saved from the fields left after the pops; the model
      defaults fill `description` and `visibility`. */
  function PromptOf(id: Id, data: PromptInput): (r: PromptRow)
    requires StoredVisibility(data.visibility).Some?
    ensures r.id == id && r.organization == data.organization && r.createdBy == data.createdBy
    ensures r.name == data.name && r.prompt == data.prompt && r.model == data.model
    ensures r.description == (if data.description.Some? then data.description.value else "")
    ensures r.visibility == StoredVisibility(data.visibility).value && r.visibility in VisibilityChoices
  {
    PromptRow(id, data.organization, data.createdBy, data.name,
              if data.description.Some? then data.description.value else "",
              data.prompt, data.model, StoredVisibility(data.visibility).value)
  }

  /** One classification row per category id, in order, all for `prompt`. */
  function CategoryLinks(prompt: Id, ids: seq<Id>): (r: seq<PromptCategoryRow>)
    ensures |r| == |ids| && forall k :: 0 <= k < |ids| ==> r[k] == PromptCategoryRow(prompt, ids[k])
  {
    seq(|ids|, k requires 0 <= k < |ids| => PromptCategoryRow(prompt, ids[k]))
  }

  /** One access row per team id, in order, all for `prompt`. */
  function TeamLinks(prompt: Id, ids: seq<Id>): (r: seq<TeamPromptRow>)
    ensures |r| == |ids| && forall k :: 0 <= k < |ids| ==> r[k] == TeamPromptRow(prompt, ids[k])
  {
    seq(|ids|, k requires 0 <= k < |ids| => TeamPromptRow(prompt, ids[k]))
  }

  /** The link rows point at the new prompt, and their ids are the given
      ids, each as often as it was given. */
  lemma LinksMatchIds(prompt: Id, categoryIds: seq<Id>, teamIds: seq<Id>)
    ensures forall l :: l in CategoryLinks(prompt, categoryIds) <==> l.prompt == prompt && l.category in categoryIds
    ensures forall l :: l in TeamLinks(prompt, teamIds) <==> l.prompt == prompt && l.team in teamIds
    ensures forall c :: multiset(CategoryLinks(prompt, categoryIds))[PromptCategoryRow(prompt, c)] == multiset(categoryIds)[c]
    ensures forall t :: multiset(TeamLinks(prompt, teamIds))[TeamPromptRow(prompt, t)] == multiset(teamIds)[t]
  {
    forall c ensures multiset(CategoryLinks(prompt, categoryIds))[PromptCategoryRow(prompt, c)] == multiset(categoryIds)[c] {
      CategoryCount(prompt, categoryIds, c);
    }
    forall t ensures multiset(TeamLinks(prompt, teamIds))[TeamPromptRow(prompt, t)] == multiset(teamIds)[t] {
      TeamCount(prompt, teamIds, t);
    }
  }

  lemma {:induction false} CategoryCount(prompt: Id, ids: seq<Id>, c: Id)
    ensures multiset(CategoryLinks(prompt, ids))[PromptCategoryRow(prompt, c)] == multiset(ids)[c]
    decreases |ids|
  {
    if ids != [] {
      var last := ids[|ids| - 1];
      assert ids == ids[..|ids| - 1] + [last];
      assert CategoryLinks(prompt, ids) == CategoryLinks(prompt, ids[..|ids| - 1]) + [PromptCategoryRow(prompt, last)];
      CategoryCount(prompt, ids[..|ids| - 1], c);
    }
  }

  lemma {:induction false} TeamCount(prompt: Id, ids: seq<Id>, t: Id)
    ensures multiset(TeamLinks(prompt, ids))[TeamPromptRow(prompt, t)] == multiset(ids)[t]
    decreases |ids|
  {
    if ids != [] {
      var last := ids[|ids| - 1];
      assert ids == ids[..|ids| - 1] + [last];
      assert TeamLinks(prompt, ids) == TeamLinks(prompt, ids[..|ids| - 1]) + [TeamPromptRow(prompt, last)];
      TeamCount(prompt, ids[..|ids| - 1], t);
    }
  }

  /** `CreatePromptSerializer.create`. The visibility has passed the field's
      choice validation. */
  method Create(db: Database, id: Id, data: PromptInput) returns (created: PromptRow)
    requires db.Valid() && id !in PromptIds(db.prompts) && StoredVisibility(data.visibility).Some?
    modifies db`prompts, db`promptCategories, db`teamPrompts
    ensures db.Valid()
    ensures created == PromptOf(id, data)
    ensures db.prompts == old(db.prompts) + [created]
    ensures db.promptCategories == old(db.promptCategories) + CategoryLinks(id, PopIds(data.categoryIds))
    ensures db.teamPrompts == old(db.teamPrompts) + TeamLinks(id, PopIds(data.teamIds))
  {
    var categoryIds := PopIds(data.categoryIds);
    var teamIds := PopIds(data.teamIds);
    created := PromptOf(id, data);
    assert PromptIds(db.prompts + [created]) == PromptIds(db.prompts) + [id];
    DistinctAppend(PromptIds(db.prompts), id);
    db.prompts := db.prompts + [created];

    var i := 0;
    while i < |categoryIds|
      invariant 0 <= i <= |categoryIds|
      invariant db.promptCategories == old(db.promptCategories) + CategoryLinks(id, categoryIds[..i])
      invariant db.prompts == old(db.prompts) + [created] && db.teamPrompts == old(db.teamPrompts)
      invariant db.Valid()
    {
      assert categoryIds[..i + 1] == categoryIds[..i] + [categoryIds[i]];
      assert CategoryLinks(id, categoryIds[..i + 1]) == CategoryLinks(id, categoryIds[..i]) + [PromptCategoryRow(id, categoryIds[i])];
      db.promptCategories := db.promptCategories + [PromptCategoryRow(id, categoryIds[i])];
      i := i + 1;
    }
    assert categoryIds[..i] == categoryIds;

    var j := 0;
    while j < |teamIds|
      invariant 0 <= j <= |teamIds|
      invariant db.teamPrompts == old(db.teamPrompts) + TeamLinks(id, teamIds[..j])
      invariant db.prompts == old(db.prompts) + [created]
      invariant db.promptCategories == old(db.promptCategories) + CategoryLinks(id, categoryIds)
      invariant db.Valid()
    {
      assert teamIds[..j + 1] == teamIds[..j] + [teamIds[j]];
      assert TeamLinks(id, teamIds[..j + 1]) == TeamLinks(id, teamIds[..j]) + [TeamPromptRow(id, teamIds[j])];
      db.teamPrompts := db.teamPrompts + [TeamPromptRow(id, teamIds[j])];
      j := j + 1;
    }
    assert teamIds[..j] == teamIds;
  }
}
