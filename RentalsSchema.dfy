/** `rentalsSchema`: the body of a rental to create. */
module RentalsSchema {
  import opened Wrappers
  import opened Joi

  datatype Rental = Rental(customerId: Option<Value>, gameId: Option<Value>, daysRented: Option<Value>)

  function Validate(r: Rental): (v: Validation)
    ensures v == Valid <==>
      IsRequiredNumberGreater(r.customerId, 0.0) && IsRequiredNumberGreater(r.gameId, 0.0) &&
      IsRequiredNumberGreater(r.daysRented, 0.0)
    ensures v.Invalid? ==> v.key in ["customerId", "gameId", "daysRented"]
    ensures !IsRequiredNumberGreater(r.customerId, 0.0) ==> v == Invalid("customerId")
    ensures IsRequiredNumberGreater(r.customerId, 0.0) && !IsRequiredNumberGreater(r.gameId, 0.0) ==>
      v == Invalid("gameId")
    ensures (IsRequiredNumberGreater(r.customerId, 0.0) && IsRequiredNumberGreater(r.gameId, 0.0) &&
             !IsRequiredNumberGreater(r.daysRented, 0.0)) ==> v == Invalid("daysRented")
  {
    var checks := [Check("customerId", IsRequiredNumberGreater(r.customerId, 0.0)),
                   Check("gameId", IsRequiredNumberGreater(r.gameId, 0.0)),
                   Check("daysRented", IsRequiredNumberGreater(r.daysRented, 0.0))];
    assert checks[0].key == "customerId" && checks[1].key == "gameId" && checks[2].key == "daysRented";
    FirstFailure(checks)
  }

  /**
   * A rental of three numbers is valid exactly when all three are strictly positive; nothing
   * asks them to be whole, so a rental of half a day for customer 1.5 validates.
   */
  lemma ValidNumbers(customerId: real, gameId: real, daysRented: real)
    ensures Validate(Rental(Some(Num(customerId)), Some(Num(gameId)), Some(Num(daysRented)))) == Valid
      <==> customerId > 0.0 && gameId > 0.0 && daysRented > 0.0
  {
  }
}
