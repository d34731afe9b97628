/**
  The two read-only lookup tables of the estimator: the emission factors
  (kg CO2e per unit of activity) and the base yearly emission of each diet.
  Both are built once and never changed.
 */
module Tables {

  // The emission factors, in kg CO2e per unit of activity.
  const GridElec: real := 0.82          // per kWh of grid electricity
  const Car: real := 0.192              // per km
  const Bike: real := 0.045             // per km by two-wheeler
  const Cab: real := 0.2                // per km
  const Bus: real := 0.027              // per km
  const Train: real := 0.015            // per km
  const Metro: real := 0.03             // per km
  const LpgCylinder: real := 32.0       // per cylinder
  const Induction: real := 0.82         // per kWh of induction cooking
  const FlightDom: real := 150.0        // per domestic flight
  const FlightIntlShort: real := 400.0  // per short-haul international flight
  const FlightIntlLong: real := 600.0   // per long-haul international flight
  const Dairy: real := 1.5              // per litre
  const Screen: real := 0.05            // per hour
  const Plastic: real := 6.0            // per kg
  const Ewaste: real := 20.0            // per kg
  const GeyserHour: real := 1.5         // per hour
  const AcHour: real := 1.6             // per hour

  /** The emission-factor table, keyed by activity name. */
  const Factors: map<string, real> := map[
    "grid_elec" := GridElec,
    "car" := Car,
    "bike" := Bike,
    "cab" := Cab,
    "bus" := Bus,
    "train" := Train,
    "metro" := Metro,
    "lpg_cylinder" := LpgCylinder,
    "induction" := Induction,
    "flight_dom" := FlightDom,
    "flight_intl_short" := FlightIntlShort,
    "flight_intl_long" := FlightIntlLong,
    "dairy" := Dairy,
    "screen" := Screen,
    "plastic" := Plastic,
    "ewaste" := Ewaste,
    "geyser_hour" := GeyserHour,
    "ac_hour" := AcHour
  ]

  /**
    The keys the category formulas use (app.py:85-99), in the order the
    table lists them; FactorTableComplete shows they are exactly the table's.
   */
  const FactorKeys: seq<string> := [
    "grid_elec", "car", "bike", "cab", "bus", "train", "metro",
    "lpg_cylinder", "induction", "flight_dom", "flight_intl_short",
    "flight_intl_long", "dairy", "screen", "plastic", "ewaste",
    "geyser_hour", "ac_hour"
  ]

  /** The base emission of each diet, in kg CO2e per year. */
  const DietBase: map<string, int> := map[
    "Vegetarian" := 1000,
    "Eggetarian" := 1200,
    "Occasional Meat" := 1500,
    "Regular Meat" := 2000
  ]

  /** The only error of the calculator: a diet name the diet table does not hold. */
  datatype CalcError = UnknownDiet(dietType: string)

  datatype Result<T> = Ok(value: T) | Err(error: CalcError)

  /** Every entry of the factor table is strictly positive. */
  lemma FactorsPositive(key: string)
    requires key in Factors
    ensures Factors[key] > 0.0
  {
  }

  /**
    The factor table holds a positive factor under every key the calculator
    uses, and no other key.
   */
  lemma FactorTableComplete()
    ensures forall k :: k in FactorKeys ==> k in Factors && Factors[k] > 0.0
    ensures forall k :: k in Factors ==> k in FactorKeys
  {
  }

  /** The household keys hold the electricity, cooking, screen and appliance factors. */
  lemma HomeFactorValues()
    ensures Factors["grid_elec"] == GridElec == 0.82
    ensures Factors["lpg_cylinder"] == LpgCylinder == 32.0 && Factors["induction"] == Induction == 0.82
    ensures Factors["screen"] == Screen == 0.05
    ensures Factors["geyser_hour"] == GeyserHour == 1.5 && Factors["ac_hour"] == AcHour == 1.6
  {
  }

  /** The travel keys hold the six per-km factors and the three per-flight factors. */
  lemma TravelFactorValues()
    ensures Factors["car"] == Car == 0.192 && Factors["bike"] == Bike == 0.045 && Factors["cab"] == Cab == 0.2
    ensures Factors["bus"] == Bus == 0.027 && Factors["train"] == Train == 0.015 && Factors["metro"] == Metro == 0.03
    ensures Factors["flight_dom"] == FlightDom == 150.0
    ensures Factors["flight_intl_short"] == FlightIntlShort == 400.0
    ensures Factors["flight_intl_long"] == FlightIntlLong == 600.0
  {
  }

  /** The consumption keys hold the dairy and waste factors. */
  lemma ConsumptionFactorValues()
    ensures Factors["dairy"] == Dairy == 1.5
    ensures Factors["plastic"] == Plastic == 6.0 && Factors["ewaste"] == Ewaste == 20.0
  {
  }

  /** The six travel modes, each the factor-table key of its per-km factor. */
  const TransportModes: seq<string> := ["car", "bike", "cab", "bus", "train", "metro"]

  /** The per-km factors of the six travel modes, in the same order. */
  const TransportFactors: seq<real> := [Car, Bike, Cab, Bus, Train, Metro]

  /** Each travel mode's factor is the table's entry under that mode's key. */
  lemma TransportFactorsMatchTable()
    ensures |TransportModes| == |TransportFactors| == 6
    ensures forall i :: 0 <= i < 6 ==> TransportModes[i] in Factors && Factors[TransportModes[i]] == TransportFactors[i]
  {
    TravelFactorValues();
  }

  /**
    The diet lookup: a known diet gives its base emission, any other name
    fails with UnknownDiet and yields no value.
   */
  function DietEmission(dietType: string): (r: Result<int>)
    ensures r.Ok? <==> dietType in {"Vegetarian", "Eggetarian", "Occasional Meat", "Regular Meat"}
    ensures r.Ok? ==> r.value in {1000, 1200, 1500, 2000}
    ensures r.Err? ==> r.error == UnknownDiet(dietType)
  {
    if dietType in DietBase then Ok(DietBase[dietType]) else Err(UnknownDiet(dietType))
  }

  /** The four diets, with the base emission each is given. */
  lemma DietTable()
    ensures DietEmission("Vegetarian") == Ok(1000)
    ensures DietEmission("Eggetarian") == Ok(1200)
    ensures DietEmission("Occasional Meat") == Ok(1500)
    ensures DietEmission("Regular Meat") == Ok(2000)
    ensures DietEmission("Vegan") == Err(UnknownDiet("Vegan"))
  {
  }

  /** The smallest base emission is Vegetarian's, the largest Regular Meat's. */
  lemma DietBaseBounds(dietType: string)
    requires DietEmission(dietType).Ok?
    ensures 1000 <= DietEmission(dietType).value <= 2000
  {
  }
}
