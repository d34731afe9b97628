# India CO₂ emission estimator — calculator model

This project models the calculator at the heart of the India CO₂ Emission
Estimator, a one-page Streamlit app (`app.py`). The app takes a person's
reported activity and estimates their yearly carbon footprint in kg CO₂e,
category by category. The reported activity covers grid and solar
electricity, weekly travel by six modes, LPG and induction cooking, flights,
diet and dairy, screen time, plastic and e-waste, and geyser and
air-conditioner use. The calculator has four parts:

- a fixed emission-factor table with 18 entries;
- a diet base-emission lookup keyed by the diet name;
- eight straight-line category formulas, their grand total and the total in
  tonnes;
- the ordered output record, whose first eight rows feed the distribution
  chart.

The Dafny code has four modules:

- `Tables` (`tables.dfy`): the factor table, both as named constants and as
  the string-keyed map the app looks entries up in. Also the diet map, with
  its lookup `DietEmission`, which fails with `UnknownDiet`.
- `Calculator` (`calculator.dfy`): the input and output records, one function
  per category formula, and `Compute`. `Compute` returns
  `Result<EmissionOutput>`.
- `Report` (`report.dfy`): the output record as an insertion-ordered list of
  ten named rows (`Data`), the chart's key slice (`ChartKeys`, which follows
  Python's `[:-2]`) and the chart's values (`ChartValues`).
- `Scenarios` (`scenarios.dfy`): worked examples, and the app's starting
  inputs (`Defaults`) with the estimate they produce.

Python floats are modelled as Dafny `real`, so every figure is exact
arithmetic. The slider-chosen counts (LPG cylinders, flights) are `int`. The
diet is the string the app looks up.

Notes on how the code is modelled:

- The diet is the string the app looks up in `diet_map` (`app.py:41-42`).
  In the app that string comes from a selectbox offering exactly the four
  names (`app.py:40`), so the app itself never reaches the failure. The
  dict lookup has no default, though: any other name raises `KeyError`.
  The model keeps that case and returns `Err(UnknownDiet(name))`. The lookup
  is case-sensitive: `"vegetarian"` fails.
- Six factors are Python ints in the code (`lpg_cylinder`, the three flight
  factors, `plastic` and `ewaste`). The model gives them the same values as
  reals.

## Model

| member | source | states |
|---|---|---|
| Tables.FactorTableComplete | app.py:60-79 | every key the calculator uses is in the factor table with a positive factor, and the table has no other key |
| Tables.FactorsPositive | app.py:60-79 | every factor in the table is strictly positive |
| Tables.HomeFactorValues | app.py:60-79 | the table's grid_elec, lpg_cylinder, induction, screen, geyser_hour and ac_hour entries are 0.82, 32, 0.82, 0.05, 1.5 and 1.6, the constants the formulas use |
| Tables.TravelFactorValues | app.py:62-72 | the table's car, bike, cab, bus, train and metro entries are 0.192, 0.045, 0.2, 0.027, 0.015 and 0.03, and the flight entries are 150, 400 and 600 |
| Tables.ConsumptionFactorValues | app.py:73-76 | the table's dairy, plastic and ewaste entries are 1.5, 6 and 20 |
| Tables.TransportFactorsMatchTable | app.py:62-67 | each of the six travel modes' factors is the table's entry under that mode's key |
| Tables.DietEmission | app.py:41-42 | the lookup succeeds exactly for the four diet names, gives one of 1000, 1200, 1500 or 2000, and otherwise fails with UnknownDiet of that name |
| Tables.DietTable | app.py:41-42 | Vegetarian, Eggetarian, Occasional Meat and Regular Meat give 1000, 1200, 1500 and 2000, and "Vegan" fails |
| Tables.DietBaseBounds | app.py:41 | every known diet's base emission lies between 1000 and 2000 |
| Calculator.ClampAtZero | app.py:85 | max(0, x) is non-negative, at least x, and either x or 0 |
| Calculator.Electricity | app.py:85 | electricity is never negative, and it is zero exactly when the solar offset covers the grid use |
| Calculator.Transport | app.py:86-93 | with non-negative weekly distances, transport is non-negative |
| Calculator.TransportIsWeightedSum | app.py:86-93 | transport equals 52 times the reference weighted sum of the six distances with the six per-km factors |
| Calculator.Cooking | app.py:94 | with non-negative cylinders and induction use, cooking is non-negative |
| Calculator.Flights | app.py:95 | with non-negative flight counts, flights is non-negative |
| Calculator.Diet | app.py:96 | with non-negative dairy, diet is at least the diet's base emission, and with no dairy it equals the base |
| Calculator.Digital | app.py:97 | with non-negative screen time, digital is non-negative |
| Calculator.Waste | app.py:98 | with non-negative plastic and e-waste, waste is non-negative |
| Calculator.Appliances | app.py:99 | with non-negative geyser and A/C hours, appliances is non-negative |
| Calculator.Compute | app.py:41-101 | the calculation fails, and produces no record, exactly when the diet name is unknown, and the error carries that name |
| Calculator.ComputeConsistent | app.py:101-118 | every produced record's total is the sum of its eight categories, its tonnes figure is the total over 1000, and its electricity is non-negative |
| Calculator.ComputeBounds | app.py:85-101 | with non-negative inputs, every category is non-negative, diet is at least its base, and the total is at least 1000 |
| Calculator.DietChoiceChangesOnlyDiet | app.py:96-101 | switching between known diets leaves the other seven categories unchanged, and changes diet and total by the difference of the base emissions |
| Report.Data | app.py:108-119 | the record has ten rows: its keys are the eight category names then "Total" and "Total (tons)", and its values are the eight categories, the total and the tonnes figure, in that order |
| Report.Keys | app.py:126 | `list(data.keys())` has one key per row, and key i is row i's key |
| Report.DataKeys | app.py:108-119 | the record's keys are the eight category names, then "Total" and "Total (tons)", with none repeated |
| Report.DropLastTwo | app.py:126 | Python's `[:-2]` keeps a prefix two shorter than the list, or nothing when the list is shorter than two |
| Report.ChartKeys | app.py:126 | the chart's keys are the record's keys without exactly the last two (none when there are fewer than two), kept as a prefix in order |
| Report.Lookup | app.py:127 | looking up a present key gives a value stored under that key |
| Report.ChartValues | app.py:127 | the chart has one value per chart key, and each value is the record's value under that key |
| Report.LookupRow | app.py:127 | in a record without repeated keys, looking up row i's key gives row i's value |
| Report.LookupPrefix | app.py:126-127 | in a record without repeated keys, the values looked up for its first n keys are its first n values |
| Report.DataValues | app.py:108-116 | the first eight values of the record are the eight categories, in order |
| Report.ChartKeysAreCategories | app.py:108-126 | the chart uses exactly the eight category names, in record order, and never "Total" or "Total (tons)" |
| Report.ChartValuesAreCategories | app.py:108-127 | the chart's values are exactly the eight category values, in record order |
| Report.ChartSumIsTotal | app.py:101-127 | for a consistent record, the chart's values add up to the record's total |
| Report.ComputedChartSumIsTotal | app.py:101-127 | for every record the calculator produces, the chart's keys are the eight category names and the values under them add up to its total |
| Report.TonsRowIsTotalOver1000 | app.py:118 | in a consistent record, the "Total (tons)" row is the "Total" row over 1000 |
| Scenarios.Defaults | app.py:17-54 | the app's starting inputs are non-negative and select the Vegetarian diet |
| Scenarios.ElectricityClampExample | app.py:85 | grid 100 kWh with a solar offset of 150 kWh gives electricity 0 |
| Scenarios.ElectricityMonotone | app.py:85 | more solar offset never raises electricity, and more grid use never lowers it |
| Scenarios.IdleVegetarian | app.py:41-101 | with every quantity zero and diet Vegetarian, the record is all zeros except diet 1000, with total 1000 and 1 tonne |
| Scenarios.IdleRegularMeat | app.py:41-101 | with every quantity zero and diet Regular Meat, diet and total are 2000 |
| Scenarios.TransportExample | app.py:62-93 | car 20, bike 10, cab 5, bus 10, train 5 and metro 5 km a week give transport 300.82, and with a vegetarian diet and nothing else the total is 1300.82 |
| Scenarios.DefaultsEstimate | app.py:17-119 | the starting inputs give 1476, 300.82, 580.8, 1300, 1156, 54.75, 82 and 1441.75 for the eight categories, a total of 6392.12 and 6.39212 tonnes |
| Scenarios.UnknownDietFails | app.py:42 | "Vegan" and the lower-case "vegetarian" both fail with UnknownDiet and produce no record |
| Scenarios.NegativeInputAccepted | app.py:96-98 | negative dairy or plastic is not clamped: diet drops to 922 and waste to -72 |
| Scenarios.DefaultsChart | app.py:108-127 | the chart of the starting inputs is over the eight categories, and their values add up to 6392.12 |

## Left out

- Input widgets and page setup (`app.py:1-54`): these are user-interface I/O.
  The widgets' values become the fields of `EmissionInput`. The widgets'
  starting values are kept only as `Scenarios.Defaults`.
- Slider bounds (LPG 0–24, flights 0–20, 0–10 and 0–5): they limit what the
  user can enter, not what the calculator accepts. The calculator takes any
  int or real.
- The pandas table (`app.py:120-121`): it is display through a foreign
  library. `Report.Data` gives the rows it shows.
- Pie-chart drawing (`app.py:124-130`): the percentage labels, colours and
  start angle are plotting. The model keeps only which keys and values
  the chart is drawn from.
- The reduction tips (`app.py:133-141`): static text with no logic.
- IEEE-754 rounding: figures such as 300.82 hold exactly in the model. In
  the app they hold only up to float rounding.
- `max(0, x)` returning the int `0`: the clamp gives the real `0.0`
  instead. Multiplied out, the value is the same.
- Calculator.Compute: its own contract states only the error behaviour.
  The record's consistency and bounds are stated by the lemmas
  `Calculator.ComputeConsistent` and `Calculator.ComputeBounds` about it.
