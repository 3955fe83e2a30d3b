/**
 * `gamesSchema`: the body of a game to create. joi's URI grammar is not part of this
 * model; the validator takes it as the predicate `isUri`.
 */
module GamesSchema {
  import opened Wrappers
  import opened Joi

  datatype Game = Game(name: Option<Value>, image: Option<Value>, stockTotal: Option<Value>,
                       categoryId: Option<Value>, pricePerDay: Option<Value>)

  /** string, uri, required */
  predicate ImageRule(v: Option<Value>, isUri: string -> bool)
  {
    IsRequiredString(v) && isUri(v.value.s)
  }

  function Validate(g: Game, isUri: string -> bool): (r: Validation)
    ensures r == Valid <==>
      IsRequiredString(g.name) && ImageRule(g.image, isUri) && IsRequiredNumberGreater(g.stockTotal, 0.0) &&
      IsRequiredNumberGreater(g.categoryId, 0.0) && IsRequiredNumberGreater(g.pricePerDay, 0.0)
    ensures r.Invalid? ==> r.key in ["name", "image", "stockTotal", "categoryId", "pricePerDay"]
    ensures !IsRequiredString(g.name) ==> r == Invalid("name")
    ensures IsRequiredString(g.name) && !ImageRule(g.image, isUri) ==> r == Invalid("image")
    ensures IsRequiredString(g.name) && ImageRule(g.image, isUri) && !IsRequiredNumberGreater(g.stockTotal, 0.0) ==>
      r == Invalid("stockTotal")
    ensures (IsRequiredString(g.name) && ImageRule(g.image, isUri) && IsRequiredNumberGreater(g.stockTotal, 0.0) &&
             !IsRequiredNumberGreater(g.categoryId, 0.0)) ==> r == Invalid("categoryId")
    ensures (IsRequiredString(g.name) && ImageRule(g.image, isUri) && IsRequiredNumberGreater(g.stockTotal, 0.0) &&
             IsRequiredNumberGreater(g.categoryId, 0.0) && !IsRequiredNumberGreater(g.pricePerDay, 0.0)) ==>
      r == Invalid("pricePerDay")
  {
    var checks := [Check("name", IsRequiredString(g.name)), Check("image", ImageRule(g.image, isUri)),
                   Check("stockTotal", IsRequiredNumberGreater(g.stockTotal, 0.0)),
                   Check("categoryId", IsRequiredNumberGreater(g.categoryId, 0.0)),
                   Check("pricePerDay", IsRequiredNumberGreater(g.pricePerDay, 0.0))];
    assert checks[0].key == "name" && checks[1].key == "image" && checks[2].key == "stockTotal" &&
           checks[3].key == "categoryId" && checks[4].key == "pricePerDay";
    FirstFailure(checks)
  }

  /**
   * A game with a name and a URI image is valid exactly when its three numbers are all
   * strictly positive; a missing or zero number makes it invalid, and fractions are accepted.
   */
  lemma ValidNumbers(name: string, image: string, isUri: string -> bool,
                     stockTotal: Option<Value>, categoryId: Option<Value>, pricePerDay: Option<Value>)
    requires name != "" && image != "" && isUri(image)
    ensures Validate(Game(Some(Str(name)), Some(Str(image)), stockTotal, categoryId, pricePerDay), isUri) == Valid
      <==> (stockTotal.Some? && stockTotal.value.Num? && stockTotal.value.n > 0.0) &&
           (categoryId.Some? && categoryId.value.Num? && categoryId.value.n > 0.0) &&
           (pricePerDay.Some? && pricePerDay.value.Num? && pricePerDay.value.n > 0.0)
  {
  }
}
