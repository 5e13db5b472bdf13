/** The profession page: saving an edited profession back into the list, the
    calculator's recipe selection, and the learned/unlearned recipe lists. */
module CraftingPage {
  import opened Types
  import opened XpTable

  /** Lines 64-77: the edited profession with `xpToNextLevel` re-derived from
      the table. A tabulated level takes its row's XP; an untabulated level at
      or above the last row takes the last row's XP; one below 1 is raised to
      1 with the first row's XP; any other level is left as it was. */
  function Normalised(t: seq<XpRow>, edited: Profession): Profession
    requires WellFormedTable(t)
  {
    match FindRow(t, edited.level)
    case Some(row) => edited.(xpToNextLevel := row.xp)
    case None =>
      if edited.level >= t[|t| - 1].level then edited.(xpToNextLevel := t[|t| - 1].xp)
      else if edited.level < 1 then edited.(level := 1, xpToNextLevel := t[0].xp)
      else edited
  }

  /** Lines 64-77, field by field on a copy of the edited profession. */
  method Normalise(t: seq<XpRow>, edited: Profession) returns (professionToUpdate: Profession)
    requires WellFormedTable(t)
    ensures professionToUpdate == Normalised(t, edited)
  {
    professionToUpdate := edited;
    var levelData := FindRow(t, professionToUpdate.level);
    if levelData.Some? {
      professionToUpdate := professionToUpdate.(xpToNextLevel := levelData.value.xp);
    } else {
      var maxLevelEntry := t[|t| - 1];
      if professionToUpdate.level >= maxLevelEntry.level {
        professionToUpdate := professionToUpdate.(xpToNextLevel := maxLevelEntry.xp);
      } else if professionToUpdate.level < 1 {
        professionToUpdate := professionToUpdate.(level := 1);
        professionToUpdate := professionToUpdate.(xpToNextLevel := t[0].xp);
      }
    }
  }

  /** What saving does to the level and the XP of the level, case by case;
      the name, id, current XP and recipes are always kept. */
  lemma NormalisedCases(t: seq<XpRow>, edited: Profession)
    requires WellFormedTable(t)
    ensures var p := Normalised(t, edited);
            && p.id == edited.id && p.name == edited.name
            && p.currentXp == edited.currentXp && p.recipes == edited.recipes
            && ((exists i :: 0 <= i < |t| && t[i].level == edited.level) ==>
                  p.level == edited.level && exists i :: 0 <= i < |t| && t[i] == XpRow(edited.level, p.xpToNextLevel))
            && ((forall i :: 0 <= i < |t| ==> t[i].level != edited.level) ==>
                  if edited.level >= MaxLevel(t) then p.level == edited.level && p.xpToNextLevel == t[|t| - 1].xp
                  else if edited.level < 1 then p.level == 1 && p.xpToNextLevel == t[0].xp
                  else p == edited)
  {
    var row := FindRow(t, edited.level);
    if row.Some? {
      var i :| 0 <= i < |t| && t[i] == row.value;
    }
  }

  /** When the table starts at level 1 or later, a saved profession has a
      level of at least 1. */
  lemma NormalisedLevelPositive(t: seq<XpRow>, edited: Profession)
    requires WellFormedTable(t) && t[0].level >= 1
    ensures Normalised(t, edited).level >= 1
  {
    match FindRow(t, edited.level)
    case Some(row) =>
      var i :| 0 <= i < |t| && t[i] == row;
      assert i == 0 || t[0].level < t[i].level;
    case None =>
  }

  /** When the table starts at level 1, a saved profession whose level is
      tabulated carries exactly that row's XP. */
  lemma NormalisedMatchesTable(t: seq<XpRow>, edited: Profession)
    requires WellFormedTable(t) && t[0].level == 1
    requires FindRow(t, Normalised(t, edited).level).Some?
    ensures Normalised(t, edited).xpToNextLevel == FindRow(t, Normalised(t, edited).level).value.xp
  {
    var p := Normalised(t, edited);
    if FindRow(t, edited.level).None? && edited.level < t[|t| - 1].level && edited.level < 1 {
      RowsAreUnique(t, 0, 1);
    }
  }

  /** In a table with strictly increasing levels a row is the only one of its
      level. */
  lemma RowsAreUnique(t: seq<XpRow>, i: int, lvl: int)
    requires WellFormedTable(t) && 0 <= i < |t| && t[i].level == lvl
    ensures FindRow(t, lvl) == Some(t[i])
  {
    var r := FindRow(t, lvl).value;
    var j :| 0 <= j < |t| && t[j] == r;
    assert t[j].level == t[i].level;
    assert j == i;
  }

  /** When the table starts at level 1 or later, saving twice is saving once. */
  lemma NormalisedIdempotent(t: seq<XpRow>, edited: Profession)
    requires WellFormedTable(t) && t[0].level >= 1
    ensures Normalised(t, Normalised(t, edited)) == Normalised(t, edited)
  {
    var p := Normalised(t, edited);
    match FindRow(t, edited.level)
    case Some(row) =>
      assert FindRow(t, p.level) == Some(row);
    case None =>
      if edited.level < t[|t| - 1].level && edited.level < 1 {
        if t[0].level == 1 {
          RowsAreUnique(t, 0, 1);
        } else {
          assert forall i :: 0 <= i < |t| ==> t[i].level != 1 by {
            forall i | 0 <= i < |t| ensures t[i].level != 1 {
              assert i == 0 || t[0].level < t[i].level;
            }
          }
        }
      }
  }

  /** Lines 79-81: every profession with the saved one's id replaced by it. */
  function ReplaceById(professions: seq<Profession>, saved: Profession): (r: seq<Profession>)
    ensures |r| == |professions|
    ensures forall i :: 0 <= i < |r| ==> r[i] == if professions[i].id == saved.id then saved else professions[i]
  {
    if professions == [] then []
    else [if professions[0].id == saved.id then saved else professions[0]] + ReplaceById(professions[1..], saved)
  }

  /** Ids are unique in the list. */
  predicate DistinctIds(professions: seq<Profession>)
  {
    forall i, j :: 0 <= i < j < |professions| ==> professions[i].id != professions[j].id
  }

  /** With unique ids, saving replaces the one profession with the saved id at
      its position and leaves the list otherwise as it was. */
  lemma ReplaceByIdUpdatesOne(professions: seq<Profession>, saved: Profession, k: int)
    requires DistinctIds(professions) && 0 <= k < |professions| && professions[k].id == saved.id
    ensures ReplaceById(professions, saved) == professions[k := saved]
  {
  }

  /** Saving a profession whose id is not in the list changes nothing. */
  lemma ReplaceByIdAbsent(professions: seq<Profession>, saved: Profession)
    requires forall i :: 0 <= i < |professions| ==> professions[i].id != saved.id
    ensures ReplaceById(professions, saved) == professions
  {
  }

  /** `handleSave` (lines 61-86): with nothing being edited nothing changes,
      neither the list nor the current selection; otherwise the edited
      profession is normalised, replaces the entry with its id, and becomes
      the selected profession. */
  method Save(professions: seq<Profession>, editing: Option<Profession>, current: Option<Profession>,
              t: seq<XpRow>)
    returns (newProfessions: seq<Profession>, selected: Option<Profession>)
    requires WellFormedTable(t)
    ensures editing.None? ==> newProfessions == professions && selected == current
    ensures editing.Some? ==>
              && selected == Some(Normalised(t, editing.value))
              && |newProfessions| == |professions|
              && forall i :: 0 <= i < |professions| ==>
                   newProfessions[i] == if professions[i].id == editing.value.id then selected.value else professions[i]
  {
    if editing.None? {
      return professions, current;
    }
    var professionToUpdate := Normalise(t, editing.value);
    newProfessions := ReplaceById(professions, professionToUpdate);
    selected := Some(professionToUpdate);
  }

  /** Lines 109-111: choosing the selected recipe again clears the selection;
      choosing any other recipe selects it. */
  function Toggle(selected: Option<Recipe>, recipe: Recipe): (r: Option<Recipe>)
    ensures r.None? <==> selected.Some? && selected.value.id == recipe.id
    ensures r.Some? ==> r.value == recipe
  {
    if selected.Some? && recipe.id == selected.value.id then None else Some(recipe)
  }

  /** Choosing a recipe twice from no selection, or from another recipe's
      selection, ends with nothing selected. */
  lemma ToggleTwiceClears(selected: Option<Recipe>, recipe: Recipe)
    requires selected.None? || selected.value.id != recipe.id
    ensures Toggle(Toggle(selected, recipe), recipe).None?
  {
  }

  /** Lines 115-117: the recipes of level at most `level`, in order. */
  function Learned(rs: seq<Recipe>, level: int): (r: seq<Recipe>)
    ensures forall x :: x in r <==> x in rs && x.requiredLevel <= level
  {
    if rs == [] then [] else (if rs[0].requiredLevel <= level then [rs[0]] else []) + Learned(rs[1..], level)
  }

  /** Lines 119-121: the recipes above `level`, in order. */
  function Unlearned(rs: seq<Recipe>, level: int): (r: seq<Recipe>)
    ensures forall x :: x in r <==> x in rs && x.requiredLevel > level
  {
    if rs == [] then [] else (if rs[0].requiredLevel > level then [rs[0]] else []) + Unlearned(rs[1..], level)
  }

  /** The learned list keeps the recipes' order: splitting the recipe list
      splits it the same way. */
  lemma {:induction false} LearnedKeepsOrder(rs: seq<Recipe>, ss: seq<Recipe>, level: int)
    ensures Learned(rs + ss, level) == Learned(rs, level) + Learned(ss, level)
  {
    if rs == [] {
      assert rs + ss == ss;
    } else {
      var head := if rs[0].requiredLevel <= level then [rs[0]] else [];
      var tail := rs[1..] + ss;
      assert (rs + ss)[0] == rs[0] && (rs + ss)[1..] == tail;
      LearnedCons(rs + ss, level);
      LearnedCons(rs, level);
      LearnedKeepsOrder(rs[1..], ss, level);
      Associative(head, Learned(rs[1..], level), Learned(ss, level));
    }
  }

  /** The unlearned list keeps the recipes' order likewise. */
  lemma {:induction false} UnlearnedKeepsOrder(rs: seq<Recipe>, ss: seq<Recipe>, level: int)
    ensures Unlearned(rs + ss, level) == Unlearned(rs, level) + Unlearned(ss, level)
  {
    if rs == [] {
      assert rs + ss == ss;
    } else {
      var head := if rs[0].requiredLevel > level then [rs[0]] else [];
      var tail := rs[1..] + ss;
      assert (rs + ss)[0] == rs[0] && (rs + ss)[1..] == tail;
      UnlearnedCons(rs + ss, level);
      UnlearnedCons(rs, level);
      UnlearnedKeepsOrder(rs[1..], ss, level);
      Associative(head, Unlearned(rs[1..], level), Unlearned(ss, level));
    }
  }

  lemma LearnedCons(rs: seq<Recipe>, level: int)
    requires rs != []
    ensures Learned(rs, level)
            == (if rs[0].requiredLevel <= level then [rs[0]] else []) + Learned(rs[1..], level)
  {
  }

  lemma UnlearnedCons(rs: seq<Recipe>, level: int)
    requires rs != []
    ensures Unlearned(rs, level)
            == (if rs[0].requiredLevel > level then [rs[0]] else []) + Unlearned(rs[1..], level)
  {
  }

  /** Regrouping a concatenation, as a separate fact so that the proofs
      using it do not search for it among the filters' own facts. */
  lemma Associative(a: seq<Recipe>, b: seq<Recipe>, c: seq<Recipe>)
    ensures (a + b) + c == a + (b + c)
  {
  }

  /** The two lists partition the recipes: together they hold every recipe
      exactly as often as the recipe list does. */
  lemma {:induction false} FiltersPartition(rs: seq<Recipe>, level: int)
    ensures multiset(Learned(rs, level)) + multiset(Unlearned(rs, level)) == multiset(rs)
  {
    if rs != [] {
      FiltersPartition(rs[1..], level);
      assert rs == [rs[0]] + rs[1..];
    }
  }
}
