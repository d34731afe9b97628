/**
  Worked scenarios for the calculator, and the properties of the electricity
  clamp and of unclamped categories that follow from the formulas.
 */
module Scenarios {
  import opened Tables
  import opened Calculator
  import opened Report

  /** An input with every quantity zero and the given diet. */
  function Idle(dietType: string): (input: EmissionInput)
    ensures NonNegative(input) && input.dietType == dietType
  {
    EmissionInput(0.0, 0.0, 0.0, 0.0, 0.0, 0.0, 0.0, 0.0, 0, 0.0, 0, 0, 0,
                  dietType, 0.0, 0.0, 0.0, 0.0, 0.0, 0.0)
  }

  /** The estimator's starting inputs: the initial value of every input widget. */
  function Defaults(): (input: EmissionInput)
    ensures NonNegative(input) && input.dietType == "Vegetarian"
  {
    EmissionInput(
      150.0, 0.0,                          // grid, solar
      20.0, 10.0, 5.0, 10.0, 5.0, 5.0,     // car, two-wheeler, cab, bus, train, metro
      12, 20.0,                            // LPG cylinders, induction
      2, 1, 1,                             // domestic, short-haul, long-haul flights
      "Vegetarian", 2.0,                   // first diet of the list, dairy
      3.0,                                 // screen time
      1.0, 0.5,                            // plastic, e-waste
      0.5, 2.0)                            // geyser, air conditioner
  }

  /** A solar offset above the grid use gives zero electricity, never a negative figure. */
  lemma ElectricityClampExample()
    ensures Electricity(100.0, 150.0) == 0.0
  {
  }

  /** More solar offset never raises the electricity figure; more grid use never lowers it. */
  lemma ElectricityMonotone(gridKwh: real, solarKwh: real, moreGrid: real, moreSolar: real)
    requires moreGrid >= gridKwh && moreSolar >= solarKwh
    ensures Electricity(gridKwh, moreSolar) <= Electricity(gridKwh, solarKwh)
    ensures Electricity(moreGrid, solarKwh) >= Electricity(gridKwh, solarKwh)
  {
  }

  /** With nothing reported and a vegetarian diet, only the diet's base emission remains. */
  lemma IdleVegetarian()
    ensures Compute(Idle("Vegetarian"))
      == Ok(EmissionOutput(0.0, 0.0, 0.0, 0.0, 1000.0, 0.0, 0.0, 0.0, 1000.0, 1.0))
  {
    DietTable();
  }

  /** With nothing reported and a regular-meat diet, diet and total are 2000. */
  lemma IdleRegularMeat()
    ensures Compute(Idle("Regular Meat")).Ok?
    ensures Compute(Idle("Regular Meat")).value.diet == 2000.0
    ensures Compute(Idle("Regular Meat")).value.total == 2000.0
  {
    DietTable();
  }

  /** The transport example: 52 x 5.785 = 300.82, on top of the vegetarian base 1000. */
  lemma TransportExample()
    ensures Transport(20.0, 10.0, 5.0, 10.0, 5.0, 5.0) == 300.82
    ensures Compute(Idle("Vegetarian").(carKm := 20.0, bikeKm := 10.0, cabKm := 5.0,
                                         busKm := 10.0, trainKm := 5.0, metroKm := 5.0)).Ok?
    ensures Compute(Idle("Vegetarian").(carKm := 20.0, bikeKm := 10.0, cabKm := 5.0,
                                         busKm := 10.0, trainKm := 5.0, metroKm := 5.0)).value.total == 1300.82
  {
    DietTable();
  }

  /** The estimate for the starting inputs, category by category. */
  lemma DefaultsEstimate()
    ensures Compute(Defaults()) == Ok(EmissionOutput(
      1476.0, 300.82, 580.8, 1300.0, 1156.0, 54.75, 82.0, 1441.75, 6392.12, 6.39212))
  {
    DietTable();
  }

  /** A diet name outside the table yields the error and no record. */
  lemma UnknownDietFails()
    ensures Compute(Idle("Vegan")) == Err(UnknownDiet("Vegan"))
    ensures Compute(Defaults().(dietType := "vegetarian")) == Err(UnknownDiet("vegetarian"))
  {
    DietTable();
  }

  /**
    Only electricity is clamped: a negative quantity elsewhere is accepted
    and carried into its category, here a diet below its base emission.
   */
  lemma NegativeInputAccepted()
    ensures Compute(Idle("Vegetarian").(dairyLitres := -1.0)).Ok?
    ensures Compute(Idle("Vegetarian").(dairyLitres := -1.0)).value.diet == 922.0
    ensures Compute(Idle("Vegetarian").(plasticKg := -1.0)).value.waste == -72.0
  {
    DietTable();
  }

  /** The chart of the starting inputs is drawn over the eight categories, which add up to the total. */
  lemma DefaultsChart()
    ensures Compute(Defaults()).Ok?
    ensures ChartKeys(Data(Compute(Defaults()).value)) == CategoryNames
    ensures Sum(ChartValues(Data(Compute(Defaults()).value), CategoryNames)) == 6392.12
  {
    DefaultsEstimate();
    ComputedChartSumIsTotal(Defaults());
    ChartKeysAreCategories(Compute(Defaults()).value);
  }
}
