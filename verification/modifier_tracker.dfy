/** The damage calculator's modifier tracker
    (`src/subtools/scythers_mantis_estimation/modifierTracker.js`).

    While one `calculate` call runs, the instrumented calculator reports every modifier it
    applies; a multi-hit move reports the same modifier once per hit. When the call ends the
    tracker keeps each distinct modifier once, in the order it was first reported. Modifiers
    are compared by their JSON text, so two reports are the same modifier exactly when they
    are the same JSON value. */
module ModifierTracking {
  import opened Wrappers
  import opened Json
  import opened Seqs

  /** `window.modifierTracker`. */
  class ModifierTracker {
    /** The modifiers reported by the running calculation, in report order. */
    var currentMods: seq<Json>
    /** The result of the last finished calculation; `None` before the first. */
    var lastCalculation: Option<seq<Json>>
    var lastDefense: Option<Json>

    constructor()
      ensures currentMods == [] && lastCalculation == None && lastDefense == None
    {
      currentMods := [];
      lastCalculation := None;
      lastDefense := None;
    }

    /** Forgets the modifiers reported so far and the last defense; the last result stays. */
    method StartTracking()
      modifies this
      ensures currentMods == [] && lastDefense == None
      ensures lastCalculation == old(lastCalculation)
    {
      currentMods := [];
      lastDefense := None;
    }

    /** Records one reported modifier at the end of the list. */
    method AddModifier(modData: Json)
      modifies this
      ensures currentMods == old(currentMods) + [modData]
      ensures lastCalculation == old(lastCalculation) && lastDefense == old(lastDefense)
    {
      currentMods := currentMods + [modData];
    }

    /** Ends the calculation: the distinct reported modifiers in first-report order, which also
        become `lastCalculation`; the list is emptied, so finishing again gives `[]`. */
    method FinishTracking() returns (result: seq<Json>)
      modifies this
      ensures result == Dedup(old(currentMods))
      ensures lastCalculation == Some(result) && currentMods == []
      ensures lastDefense == old(lastDefense)
    {
      var mods := currentMods;
      result := [];
      var i := 0;
      while i < |mods|
        invariant 0 <= i <= |mods|
        invariant result == Dedup(mods[..i])
      {
        assert mods[..i + 1][..i] == mods[..i];
        if mods[i] !in result {
          result := result + [mods[i]];
        }
        i := i + 1;
      }
      assert mods[..|mods|] == mods;
      lastCalculation := Some(result);
      currentMods := [];
    }

    /** The proxied `calc.calculate`: tracking starts, the calculation reports `reported` in
        order, and the distinct ones become the result's `allModifiers`. Whatever an earlier,
        unfinished calculation reported is dropped. */
    method Calculate(reported: seq<Json>) returns (allModifiers: seq<Json>)
      modifies this
      ensures allModifiers == Dedup(reported)
      ensures lastCalculation == Some(allModifiers) && currentMods == [] && lastDefense == None
    {
      StartTracking();
      var i := 0;
      while i < |reported|
        invariant 0 <= i <= |reported|
        invariant currentMods == reported[..i] && lastDefense == None
      {
        AddModifier(reported[i]);
        assert reported[..i + 1] == reported[..i] + [reported[i]];
        i := i + 1;
      }
      assert reported[..|reported|] == reported;
      allModifiers := FinishTracking();
    }
  }
}
