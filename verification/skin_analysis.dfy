/**
 * The skin analysis screen: a fixed catalogue of skin types, the current
 * selection and whether the analysis was completed.
 */
module SkinAnalysis {
  import opened Common

  datatype SkinType = SkinType(
    id: string,
    name: string,
    description: string,
    characteristics: seq<string>,
    recommendedProducts: seq<string>,
    icon: string)

  /** The six skin types, in display order. */
  const SkinTypes: seq<SkinType> := [
    SkinType("normal", "Normal Skin", "Well-balanced skin with minimal imperfections",
      ["Even texture", "Small pores", "No sensitivity", "Good circulation"],
      ["MULTI VITA RADIANCE CREAM", "EyeCell EYE ZONE CARE"], "\U{2728}"),
    SkinType("dry", "Dry Skin", "Skin that lacks moisture and may feel tight",
      ["Tight feeling", "Flaky patches", "Dull appearance", "Fine lines"],
      ["MOISTURE REPLENISHING HYALURON CREAM", "SKIN RESCUE OVERNIGHT CREAM MASK"], "\U{1F335}"),
    SkinType("oily", "Oily Skin", "Skin that produces excess sebum",
      ["Shiny appearance", "Large pores", "Prone to breakouts", "Thick texture"],
      ["EPI TURNOVER BOOSTING PEELING GEL", "INTENSIVE PROBLEM CONTROL TONER"], "\U{1F4A7}"),
    SkinType("combination", "Combination Skin", "Mix of oily and dry areas",
      ["Oily T-zone", "Dry cheeks", "Variable texture", "Mixed concerns"],
      ["MULTI VITA RADIANCE SERUM", "SKIN CARING BLEMISH BALM CUSHION"], "\U{2696}\U{FE0F}"),
    SkinType("sensitive", "Sensitive Skin", "Skin that reacts easily to products and environment",
      ["Redness", "Irritation", "Burning sensation", "Reactive to changes"],
      ["MICROBIOME ENERGY INFUSING MIST", "ULTRA SHIELD SUN CREAM"], "\U{1F339}"),
    SkinType("mature", "Mature Skin", "Skin showing signs of aging",
      ["Fine lines", "Loss of firmness", "Age spots", "Dullness"],
      ["BIO-FERMENT AGE DEFYING POWDER MASK", "GENO-LED IR II"], "\U{1F451}")
  ]

  /** No two catalogue entries share an id. */
  predicate DistinctIds(types: seq<SkinType>) {
    forall i, j :: 0 <= i < j < |types| ==> types[i].id != types[j].id
  }

  /** The catalogue's shape: six entries, distinct ids, four characteristics and two products each. */
  lemma CatalogueShape()
    ensures |SkinTypes| == 6
    ensures DistinctIds(SkinTypes)
    ensures forall i :: 0 <= i < |SkinTypes| ==>
              |SkinTypes[i].characteristics| == 4 && |SkinTypes[i].recommendedProducts| == 2
  {
  }

  /** `selectedSkinType` (null until a card is pressed) and `analysisComplete`. */
  datatype AnalysisState = AnalysisState(selected: Option<string>, complete: bool)

  const InitialState: AnalysisState := AnalysisState(None, false)

  /** `!!selectedSkinType`: a selection is present and not the empty string. */
  predicate HasSelection(st: AnalysisState) {
    st.selected.Some? && st.selected.value != ""
  }

  /** `handleSkinTypeSelect`: the new id replaces any earlier selection. */
  function Select(st: AnalysisState, id: string): (r: AnalysisState)
    ensures r.selected == Some(id) && r.complete == st.complete
  {
    st.(selected := Some(id))
  }

  /** `handleCompleteAnalysis`: without a selection only the reminder alert appears. */
  function Complete(st: AnalysisState): (r: AnalysisState)
    ensures !HasSelection(st) ==> r == st
    ensures HasSelection(st) ==> r.complete && r.selected == st.selected
  {
    if !HasSelection(st) then st else st.(complete := true)
  }

  /** The complete button is disabled exactly when nothing is selected. */
  predicate CompleteDisabled(st: AnalysisState)
    ensures !st.complete ==> (CompleteDisabled(st) <==> Complete(st) == st)
  {
    !HasSelection(st)
  }

  /** Pressing the button while it is enabled always completes the analysis. */
  lemma EnabledButtonCompletes(st: AnalysisState)
    requires !CompleteDisabled(st)
    ensures Complete(st).complete && Complete(st).selected == st.selected
  {
  }

  /** The handlers the screen exposes. */
  datatype Action = SelectType(id: string) | CompleteAnalysis

  function Apply(st: AnalysisState, a: Action): AnalysisState {
    match a
    case SelectType(id) => Select(st, id)
    case CompleteAnalysis => Complete(st)
  }

  function Run(st: AnalysisState, actions: seq<Action>): AnalysisState
    decreases |actions|
  {
    if |actions| == 0 then st else Run(Apply(st, actions[0]), actions[1..])
  }

  /** No handler clears a selection or undoes a completed analysis. */
  lemma {:induction false} SelectionAndCompletionPersist(st: AnalysisState, actions: seq<Action>)
    ensures st.selected.Some? ==> Run(st, actions).selected.Some?
    ensures st.complete ==> Run(st, actions).complete
    decreases |actions|
  {
    if |actions| > 0 {
      SelectionAndCompletionPersist(Apply(st, actions[0]), actions[1..]);
    }
  }

  /** The analysis can only have been completed after something was selected. */
  lemma {:induction false} CompletionNeedsSelection(st: AnalysisState, actions: seq<Action>)
    requires st.complete ==> st.selected.Some?
    ensures Run(st, actions).complete ==> Run(st, actions).selected.Some?
    decreases |actions|
  {
    if |actions| > 0 {
      CompletionNeedsSelection(Apply(st, actions[0]), actions[1..]);
    }
  }

  /** `skinTypes.find(skin => skin.id === selectedSkinType)`: the first entry with that id. */
  function Find(types: seq<SkinType>, id: string): (r: Option<SkinType>)
    ensures r.Some? <==> exists i :: 0 <= i < |types| && types[i].id == id
    ensures r.Some? ==> r.value in types && r.value.id == id
  {
    if |types| == 0 then None
    else if types[0].id == id then Some(types[0])
    else Find(types[1..], id)
  }

  /** The entry whose details and recommendations are shown. */
  function SelectedSkin(st: AnalysisState): (r: Option<SkinType>)
    ensures st.selected.None? ==> r.None?
    ensures r.Some? ==> r.value in SkinTypes && st.selected == Some(r.value.id)
  {
    match st.selected
    case None => None
    case Some(id) => Find(SkinTypes, id)
  }

  /** With distinct ids, the entry found is the one catalogue entry with that id. */
  lemma {:induction false} FindIsUnique(types: seq<SkinType>, id: string, i: nat)
    requires DistinctIds(types) && i < |types| && types[i].id == id
    ensures Find(types, id) == Some(types[i])
  {
    if i > 0 {
      assert types[0].id != id;
      FindIsUnique(types[1..], id, i - 1);
    }
  }

  /** Details are absent exactly when nothing is selected or the id is not in the catalogue. */
  lemma SelectedSkinAbsentIff(st: AnalysisState)
    ensures SelectedSkin(st).None? <==>
              st.selected.None? || forall i :: 0 <= i < |SkinTypes| ==> SkinTypes[i].id != st.selected.value
  {
  }

  /** Selecting a catalogue entry's id shows that entry. */
  lemma SelectShowsEntry(st: AnalysisState, i: nat)
    requires i < |SkinTypes|
    ensures SelectedSkin(Select(st, SkinTypes[i].id)) == Some(SkinTypes[i])
  {
    CatalogueShape();
    FindIsUnique(SkinTypes, SkinTypes[i].id, i);
  }

  /** `id` names a catalogue entry. */
  predicate IsCatalogueId(id: string) {
    exists i :: 0 <= i < |SkinTypes| && SkinTypes[i].id == id
  }

  /** Every card pressed is one of the catalogue's cards. */
  predicate SelectsFromCatalogue(actions: seq<Action>) {
    forall k :: 0 <= k < |actions| && actions[k].SelectType? ==> IsCatalogueId(actions[k].id)
  }

  /**
   * While only catalogue cards are pressed, the selection stays a catalogue
   * id, and a completed analysis always has details to show.
   */
  lemma {:induction false} CompletedAnalysisHasDetails(st: AnalysisState, actions: seq<Action>)
    requires SelectsFromCatalogue(actions)
    requires st.selected.Some? ==> IsCatalogueId(st.selected.value)
    requires st.complete ==> st.selected.Some?
    ensures Run(st, actions).selected.Some? ==> IsCatalogueId(Run(st, actions).selected.value)
    ensures Run(st, actions).complete ==> SelectedSkin(Run(st, actions)).Some?
    decreases |actions|
  {
    if |actions| > 0 {
      assert SelectsFromCatalogue(actions[1..]) by {
        forall k | 0 <= k < |actions[1..]| && actions[1..][k].SelectType?
          ensures IsCatalogueId(actions[1..][k].id)
        {
          assert actions[1..][k] == actions[k + 1];
        }
      }
      assert actions[0].SelectType? ==> IsCatalogueId(actions[0].id);
      CompletedAnalysisHasDetails(Apply(st, actions[0]), actions[1..]);
    } else if st.complete {
      var i :| 0 <= i < |SkinTypes| && SkinTypes[i].id == st.selected.value;
      SelectShowsEntry(st, i);
      assert Select(st, SkinTypes[i].id) == st;
    }
  }

  /** From a fresh screen, pressing only catalogue cards, a completed analysis shows its details. */
  lemma CompletedFromStartHasDetails(actions: seq<Action>)
    requires SelectsFromCatalogue(actions)
    ensures Run(InitialState, actions).complete ==> SelectedSkin(Run(InitialState, actions)).Some?
  {
    CompletedAnalysisHasDetails(InitialState, actions);
  }
}
