/**
  The emission calculator: eight straight-line category formulas over the
  reported quantities, their grand total and the total in tonnes. Every
  category is a yearly figure in kg CO2e.
 */
module Calculator {
  import opened Tables

  /**
    The reported activity levels. Quantities entered as free numbers are
    reals; the cylinder and flight counts, chosen on integer sliders, are
    ints; the diet is the name picked from the diet list.
   */
  datatype EmissionInput = EmissionInput(
    gridKwh: real,            // grid electricity, kWh per month
    solarKwh: real,           // solar offset, kWh per month
    carKm: real,              // weekly km by car
    bikeKm: real,             // weekly km by two-wheeler
    cabKm: real,              // weekly km by cab or taxi
    busKm: real,              // weekly km by bus
    trainKm: real,            // weekly km by train
    metroKm: real,            // weekly km by metro
    lpgCylinders: int,        // LPG cylinders per year
    inductionKwh: real,       // induction cooking, kWh per month
    domesticFlights: int,     // domestic flights per year
    intlShortFlights: int,    // short-haul international flights per year
    intlLongFlights: int,     // long-haul international flights per year
    dietType: string,         // one of the diet names, or anything else
    dairyLitres: real,        // milk and dairy, litres per week
    screenHours: real,        // screen time, hours per day
    plasticKg: real,          // plastic waste, kg per month
    ewasteKg: real,           // e-waste, kg per year
    geyserHours: real,        // geyser use, hours per day
    acHours: real             // air conditioner use, hours per day
  )

  /** The eight category totals, the grand total and the total in tonnes. */
  datatype EmissionOutput = EmissionOutput(
    electricity: real,
    transport: real,
    cooking: real,
    flights: real,
    diet: real,
    digital: real,
    waste: real,
    appliances: real,
    total: real,
    tons: real
  )

  /** All numeric fields of the input are at least zero. */
  predicate NonNegative(input: EmissionInput) {
    && input.gridKwh >= 0.0 && input.solarKwh >= 0.0
    && input.carKm >= 0.0 && input.bikeKm >= 0.0 && input.cabKm >= 0.0
    && input.busKm >= 0.0 && input.trainKm >= 0.0 && input.metroKm >= 0.0
    && input.lpgCylinders >= 0 && input.inductionKwh >= 0.0
    && input.domesticFlights >= 0 && input.intlShortFlights >= 0 && input.intlLongFlights >= 0
    && input.dairyLitres >= 0.0 && input.screenHours >= 0.0
    && input.plasticKg >= 0.0 && input.ewasteKg >= 0.0
    && input.geyserHours >= 0.0 && input.acHours >= 0.0
  }

  /** The sum of the eight categories of a record. */
  function CategorySum(o: EmissionOutput): real {
    o.electricity + o.transport + o.cooking + o.flights + o.diet + o.digital + o.waste + o.appliances
  }

  /** The aggregates of a record agree with its categories. */
  predicate Consistent(o: EmissionOutput) {
    o.total == CategorySum(o) && o.tons == o.total / 1000.0
  }

  /** Python's max(0, x) on a real: x when it is positive, zero otherwise. */
  function ClampAtZero(x: real): (r: real)
    ensures r >= 0.0 && r >= x
    ensures r == x || r == 0.0
  {
    if 0.0 < x then x else 0.0
  }

  /**
    Yearly emission of the net grid electricity: monthly grid use less the
    solar offset, clamped at zero, over twelve months. The result is never
    negative and is zero exactly when the offset covers the grid use.
   */
  function Electricity(gridKwh: real, solarKwh: real): (r: real)
    ensures r >= 0.0
    ensures r == 0.0 <==> gridKwh <= solarKwh
  {
    ClampAtZero(gridKwh - solarKwh) * 12.0 * GridElec
  }

  /** Yearly emission of travel: 52 weeks of factor-weighted weekly distances. */
  function Transport(carKm: real, bikeKm: real, cabKm: real, busKm: real, trainKm: real, metroKm: real): (r: real)
    ensures carKm >= 0.0 && bikeKm >= 0.0 && cabKm >= 0.0 && busKm >= 0.0 && trainKm >= 0.0 && metroKm >= 0.0
      ==> r >= 0.0
  {
    52.0 * (
      carKm * Car +
      bikeKm * Bike +
      cabKm * Cab +
      busKm * Bus +
      trainKm * Train +
      metroKm * Metro
    )
  }

  /** Reference definition: the sum of each quantity times its weight. */
  function WeightedSum(quantities: seq<real>, weights: seq<real>): real
    requires |quantities| == |weights|
  {
    if quantities == [] then 0.0
    else quantities[0] * weights[0] + WeightedSum(quantities[1..], weights[1..])
  }

  /** One step of the reference sum: the first quantity's term plus the rest. */
  lemma WeightedSumCons(x: real, w: real, quantities: seq<real>, weights: seq<real>)
    requires |quantities| == |weights|
    ensures WeightedSum([x] + quantities, [w] + weights) == x * w + WeightedSum(quantities, weights)
  {
    assert ([x] + quantities)[1..] == quantities && ([w] + weights)[1..] == weights;
  }

  /** Transport is 52 weeks of the factor-weighted sum of the six weekly distances. */
  lemma TransportIsWeightedSum(carKm: real, bikeKm: real, cabKm: real, busKm: real, trainKm: real, metroKm: real)
    ensures Transport(carKm, bikeKm, cabKm, busKm, trainKm, metroKm)
      == 52.0 * WeightedSum([carKm, bikeKm, cabKm, busKm, trainKm, metroKm], TransportFactors)
  {
    // Build the reference sum one mode at a time, from the last mode back.
    WeightedSumCons(metroKm, Metro, [], []);
    WeightedSumCons(trainKm, Train, [metroKm], [Metro]);
    WeightedSumCons(busKm, Bus, [trainKm, metroKm], [Train, Metro]);
    WeightedSumCons(cabKm, Cab, [busKm, trainKm, metroKm], [Bus, Train, Metro]);
    WeightedSumCons(bikeKm, Bike, [cabKm, busKm, trainKm, metroKm], [Cab, Bus, Train, Metro]);
    WeightedSumCons(carKm, Car, [bikeKm, cabKm, busKm, trainKm, metroKm], [Bike, Cab, Bus, Train, Metro]);
  }

  /** Yearly emission of cooking: LPG cylinders plus twelve months of induction use. */
  function Cooking(lpgCylinders: int, inductionKwh: real): (r: real)
    ensures lpgCylinders >= 0 && inductionKwh >= 0.0 ==> r >= 0.0
  {
    lpgCylinders as real * LpgCylinder + inductionKwh * 12.0 * Induction
  }

  /** Yearly emission of flights; the counts are already per year. */
  function Flights(domestic: int, intlShort: int, intlLong: int): (r: real)
    ensures domestic >= 0 && intlShort >= 0 && intlLong >= 0 ==> r >= 0.0
  {
    domestic as real * FlightDom
      + intlShort as real * FlightIntlShort
      + intlLong as real * FlightIntlLong
  }

  /** Yearly emission of diet: the diet's base emission plus 52 weeks of dairy. */
  function Diet(dietBase: int, dairyLitres: real): (r: real)
    ensures dairyLitres >= 0.0 ==> r >= dietBase as real
    ensures dairyLitres == 0.0 ==> r == dietBase as real
  {
    dietBase as real + dairyLitres * 52.0 * Dairy
  }

  /** Yearly emission of screen time over 365 days. */
  function Digital(screenHours: real): (r: real)
    ensures screenHours >= 0.0 ==> r >= 0.0
  {
    365.0 * screenHours * Screen
  }

  /** Yearly emission of waste: twelve months of plastic plus the year's e-waste. */
  function Waste(plasticKg: real, ewasteKg: real): (r: real)
    ensures plasticKg >= 0.0 && ewasteKg >= 0.0 ==> r >= 0.0
  {
    plasticKg * 12.0 * Plastic + ewasteKg * Ewaste
  }

  /** Yearly emission of geyser and air-conditioner use over 365 days. */
  function Appliances(geyserHours: real, acHours: real): (r: real)
    ensures geyserHours >= 0.0 && acHours >= 0.0 ==> r >= 0.0
  {
    365.0 * (geyserHours * GeyserHour + acHours * AcHour)
  }

  /**
    The calculator. It fails with UnknownDiet, and produces no record, exactly
    when the diet name is not one of the four the diet table holds.
   */
  function Compute(input: EmissionInput): (r: Result<EmissionOutput>)
    ensures r.Err? <==> input.dietType !in {"Vegetarian", "Eggetarian", "Occasional Meat", "Regular Meat"}
    ensures r.Err? ==> r.error == UnknownDiet(input.dietType)
  {
    match DietEmission(input.dietType)
    case Err(e) => Err(e)
    case Ok(dietEmission) =>
      var elec := Electricity(input.gridKwh, input.solarKwh);
      var trans := Transport(input.carKm, input.bikeKm, input.cabKm, input.busKm, input.trainKm, input.metroKm);
      var cooking := Cooking(input.lpgCylinders, input.inductionKwh);
      var flights := Flights(input.domesticFlights, input.intlShortFlights, input.intlLongFlights);
      var diet := Diet(dietEmission, input.dairyLitres);
      var digital := Digital(input.screenHours);
      var waste := Waste(input.plasticKg, input.ewasteKg);
      var appliances := Appliances(input.geyserHours, input.acHours);
      var total := elec + trans + cooking + flights + diet + digital + waste + appliances;
      Ok(EmissionOutput(elec, trans, cooking, flights, diet, digital, waste, appliances, total, total / 1000.0))
  }

  /**
    Every record the calculator produces has a total equal to the sum of its
    eight categories, a tonnes figure equal to the total over 1000, and a
    non-negative electricity figure.
   */
  lemma ComputeConsistent(input: EmissionInput)
    ensures Compute(input).Ok? ==> Consistent(Compute(input).value)
    ensures Compute(input).Ok? ==> Compute(input).value.electricity >= 0.0
  {
  }

  /**
    With no negative quantity reported, every category is non-negative, diet
    is at least the diet's base emission, and the total is at least 1000.
   */
  lemma ComputeBounds(input: EmissionInput)
    requires NonNegative(input)
    ensures Compute(input).Ok? ==>
      var o := Compute(input).value;
      && o.electricity >= 0.0 && o.transport >= 0.0 && o.cooking >= 0.0 && o.flights >= 0.0
      && o.diet >= DietEmission(input.dietType).value as real
      && o.digital >= 0.0 && o.waste >= 0.0 && o.appliances >= 0.0
      && o.total >= 1000.0
  {
  }

  /**
    The categories are independent: choosing another known diet changes the
    Diet category, and the total with it, by the difference of the two base
    emissions, and leaves the other seven categories as they were.
   */
  lemma DietChoiceChangesOnlyDiet(input: EmissionInput, otherDiet: string)
    requires Compute(input).Ok? && Compute(input.(dietType := otherDiet)).Ok?
    ensures var a, b := Compute(input).value, Compute(input.(dietType := otherDiet)).value;
      && a.electricity == b.electricity && a.transport == b.transport
      && a.cooking == b.cooking && a.flights == b.flights
      && a.digital == b.digital && a.waste == b.waste && a.appliances == b.appliances
      && b.diet - a.diet == (DietEmission(otherDiet).value - DietEmission(input.dietType).value) as real
      && b.total - a.total == b.diet - a.diet
  {
  }
}
