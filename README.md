# Smart Camping services in Dafny

This project models the service layer of the Smart Camping desktop application
and the model classes those services update. It also models the pure helpers of
the peg placement dialog. Each part is written in Dafny and its properties are
proved.

- **Orders.** A fixed menu of 19 items that can be filtered by day period and
  category. Orders are kept per tent and move Open -> Preparing -> Paid or
  Charged. Each order holds one line per menu item with a positive quantity,
  and its total is the sum of its line totals.
- **Events.** A board of camp events. `Add` gives an event an id. `Join` is
  bounded by the event's capacity. `SeedIfEmpty` adds six events, once.
- **Energy.** A simulator with photovoltaic production, device and A/C load,
  and an 800 Wh battery. When the battery runs low, the automatic saving
  actions switch off the A/C and the charger and dim the lamp through the
  lighting service.
- **Lighting.** A lamp controller:
  - `Apply` stores a whole state, with an automatic night override;
  - `Toggle` switches the lamp, and toggling to the current value does nothing;
  - a periodic tick animates the Pulse and ColorCycle effects;
  - the HSV-to-RGB conversion.
- **Weather.** A simulator:
  - targets take a clamped random walk, with an occasional storm;
  - the condition is classified from the targets;
  - readings move a fixed fraction of the way toward the targets;
  - the snapshot history holds at most 120 entries;
  - `CurrentAdvice` has three advice tiers plus no advice, escalating with the
    condition and the wind (Services/WeatherService.cs:77-84).
- **Navigation.** A planner with a fixed table of nine routes. It scales the
  route to pixels and computes the path length, the distance, the walking time
  and the turn-by-turn guidance.
- **Peg placement.**
  - the soil a zone stands for;
  - the recommended angle, pressure and tension;
  - the score, its bands and the tips;
  - reading the score back from its label.

Every service, and every state object the services update in place, is a Dafny
`class`. Order lines, energy devices, weather history entries and camp events
are held as values instead (see "Left out"). A class's methods
state their effect by tying the new state to a function on values of the old
state: `Current() == StepSpec(old(Current()), ...)`. The properties the
application relies on are lemmas about those functions.

Every `StateChanged`, `EventsChanged` or `OrdersChanged` notification is a ghost
log or counter. This lets the model state when a notification happens and when
none does.

Inputs from the environment become parameters:

- the time of day;
- `Random` draws;
- the values of `Math.Sin`;
- `Math.Atan2` and `Math.Sqrt`, passed as functions whose ranges are the only
  assumption made about them;
- a counter in place of `Guid.NewGuid`.

## Model

| member | source | states |
|---|---|---|
| Common.ClampInt | Services/WeatherService.cs:87 | the clamped value lies in [lo, hi], a value inside is kept, and values beyond either end become that end |
| Common.ClampReal | Services/WeatherService.cs:87 | the clamped value lies in [lo, hi], a value inside is kept, and values beyond either end become that end |
| Common.Trunc | Views/PegPlacementForm.cs:288 | the C# (int) cast rounds toward zero: it is within one of x, on the side of zero, and never larger in magnitude |
| Common.RoundHalfEven | Services/EnergyService.cs:98 | Math.Round gives the nearest integer, the even one on a tie |
| Common.Round1 | Services/EnergyService.cs:102 | Math.Round(x, 1) is within 0.05 of x and keeps a non-negative x non-negative |
| Common.Upper | Services/NavigationService.cs:78 | ToUpperInvariant keeps the length and upper-cases each character |
| OrdersModels.Line.Add | Models/OrdersModels.cs:35 | OrderItem.Add keeps the menu item and sets the quantity to old quantity plus the added amount, or to 1 when that sum is below 1 |
| OrdersModels.NewLine | Models/OrdersModels.cs:34 | a new order line keeps the item; a quantity below 1 becomes 1, any other is kept |
| OrdersModels.FindLine | Models/OrdersModels.cs:51 | FirstOrDefault by item id: None exactly when no line has the id; otherwise the index of the first line with it |
| OrdersModels.AddLineKeepsInvariant | Models/OrdersModels.cs:49-54 | Order.AddItem keeps at most one line per item id and every quantity at least 1 |
| OrdersModels.AddLineExisting | Models/OrdersModels.cs:51-53 | for an item already in the order only that line changes, by OrderItem.Add; the number of lines is kept |
| OrdersModels.AddLineNew | Models/OrdersModels.cs:51-52 | for a new item exactly one line, the new OrderItem, is appended at the end |
| OrdersModels.LinesTotalAppend | Models/OrdersModels.cs:47 | the order total of lines plus one more line is the old total plus that line's total |
| OrdersModels.LinesTotalUpdate | Models/OrdersModels.cs:47 | replacing one line changes the total by the difference of the two line totals |
| OrdersModels.TotalAfterAddLine | Models/OrdersModels.cs:47-54 | after AddItem the total grows by the price times the quantity actually added (new line: max(1, qty); existing line: the change in its quantity) |
| OrdersModels.TotalNonNegative | Models/OrdersModels.cs:32-47 | with non-negative prices and positive quantities the total is never negative, and an order with no lines totals 0 |
| OrdersModels.Order.constructor | Models/OrdersModels.cs:40-44 | a new order has tent "A1", status Open, no lines and the given fresh id |
| OrdersModels.Order.AddItem | Models/OrdersModels.cs:49-54 | the lines become AddLine of the old lines; tent and status are unchanged; one line per item is kept |
| Orders.SeedMenu | Services/OrdersService.cs:51-81 | the menu the service starts with: the 19 items in the order they are added, whose shape SeedMenuShape proves |
| Orders.SeedMenuShape | Services/OrdersService.cs:51-81 | SeedMenu puts 19 items on the menu with pairwise distinct ids and positive prices |
| Orders.FilterMenuItems | Services/OrdersService.cs:45-49 | the filtered menu is never longer than the menu |
| Orders.FilterMenuConcat | Services/OrdersService.cs:45-49 | filtering commutes with concatenation, so menu order is kept |
| Orders.FilterMenuMembers | Services/OrdersService.cs:47-48 | an item is in the result exactly when it is on the menu, its period matches (or either side is Anytime) and its category matches (or no category is given) |
| Orders.FilterMenuUnfiltered | Services/OrdersService.cs:47-48 | period Anytime with no category returns the whole menu unchanged |
| Orders.OrdersService.FilterMenu | Services/OrdersService.cs:45-49 | FilterMenuItems of the service's menu; its order, membership and unfiltered case are FilterMenuConcat, FilterMenuMembers and FilterMenuUnfiltered |
| Orders.FindOpenOrder | Services/OrdersService.cs:86-88 | the first order whose tent equals the given one ignoring case and whose status is Open or Preparing; None exactly when there is none |
| Orders.FindOrder | Services/OrdersService.cs:98 | GetById: the first order with the id; None exactly when no order has it |
| Orders.StartOrGetSpec | Services/OrdersService.cs:84-96 | an existing active order of the tent leaves the list unchanged; otherwise exactly one new Open order with no lines for the tent is appended |
| Orders.AddItemSpec | Services/OrdersService.cs:100-109 | an unknown id changes nothing; otherwise only the found order changes: its lines get the item and Open becomes Preparing |
| Orders.SetStatusSpec | Services/OrdersService.cs:111-125 | PayOrder and ChargeToTent set the found order's status and change nothing else; an unknown id changes nothing |
| Orders.ClearSpec | Services/OrdersService.cs:19-36 | ClearOrder empties the found order and reopens it unless it is Paid or Charged; with removeIfEmpty the order is removed instead; an unknown id changes nothing |
| Orders.RemoveAt | Services/OrdersService.cs:33 | List.Remove at index k: one element fewer, elements before k kept, elements after k shifted down by one |
| Orders.ClearRemovesExactly | Services/OrdersService.cs:19-36 | ClearOrder with removeIfEmpty leaves exactly the orders with other ids, and ids stay unique |
| Orders.OnlyClearShrinks | Services/OrdersService.cs:19-125 | StartOrGetOpenOrder never shrinks the list; AddItem, PayOrder, ChargeToTent and ClearOrder without removal keep its length; ClearOrder with removal shrinks it exactly when the id is found |
| Orders.OperationsKeepInvariants | Services/OrdersService.cs:19-125 | AddItem, PayOrder, ChargeToTent and ClearOrder keep order ids unique and every order's lines one per item with positive quantities |
| Orders.OrdersService.IdsUnique | Models/OrdersModels.cs:40 | distinct order objects carry distinct ids (Guid.NewGuid) |
| Orders.OrdersService.constructor | Services/OrdersService.cs:39-42 | the menu is the seeded menu, there are no orders and nothing has been notified |
| Orders.OrdersService.GetById | Services/OrdersService.cs:98 | returns null when no order has the id, otherwise the first order object with it |
| Orders.OrdersService.StartOrGetOpenOrder | Services/OrdersService.cs:84-96 | the orders become StartOrGetSpec of the old orders; returns the existing active order, or the new one and raises OrdersChanged once |
| Orders.OrdersService.AppendOrder | Services/OrdersService.cs:92-93 | appends a fresh Open order for the tent with no lines |
| Orders.OrdersService.AddItem | Services/OrdersService.cs:100-109 | the orders become AddItemSpec of the old orders; OrdersChanged is raised once when the id is found, never otherwise |
| Orders.OrdersService.AddLineTo | Services/OrdersService.cs:105 | only the k-th order's lines change, to AddLine of its old lines |
| Orders.OrdersService.PayOrder | Services/OrdersService.cs:111-117 | the found order becomes Paid and nothing else changes; one notification when found |
| Orders.OrdersService.ChargeToTent | Services/OrdersService.cs:119-125 | the found order becomes Charged and nothing else changes; one notification when found |
| Orders.OrdersService.SetStatusOf | Services/OrdersService.cs:111-125 | only the k-th order's status changes |
| Orders.OrdersService.ClearOrder | Services/OrdersService.cs:19-36 | the orders become ClearSpec of the old orders; one notification when the id is found |
| Orders.OrdersService.ClearItems | Services/OrdersService.cs:25-28 | the k-th order loses its lines and is reopened unless settled |
| Orders.OrdersService.RemoveOrder | Services/OrdersService.cs:33 | the k-th order object and its value are removed, the rest keep their order |
| Events.FindEvent | Services/EventsService.cs:31 | FirstOrDefault by id: None exactly when no event has the id; otherwise the index of the first event with it |
| Events.JoinSpec | Services/EventsService.cs:29-36 | Join as a value; JoinUnknown, JoinFull, JoinIncrements and JoinKeepsCapacity state its cases and the capacity it keeps |
| Events.JoinUnknown | Services/EventsService.cs:31-32 | joining an id that no event has changes nothing and raises nothing |
| Events.JoinFull | Services/EventsService.cs:33 | joining an event whose registrations have reached its capacity changes nothing and raises nothing |
| Events.JoinIncrements | Services/EventsService.cs:34-35 | joining a known event that is not full adds one registration to that event only |
| Events.JoinKeepsCapacity | Services/EventsService.cs:33-34 | if no event is over its capacity, none is after a Join |
| Events.SeedEvents | Services/EventsService.cs:45-106 | the six seeded events, whose shape SeedEventsShape states |
| Events.SeedEventsShape | Services/EventsService.cs:45-106 | the seed is six events with no registrations, capacities of at least 25, consecutive fresh ids and every start before its end |
| Events.SeedIfEmptyIdempotent | Services/EventsService.cs:39-41 | after SeedIfEmpty the list is non-empty, and a second SeedIfEmpty changes nothing |
| Events.EventsService.constructor | Services/EventsService.cs:10-13 | a new board has no events and has raised nothing |
| Events.EventsService.NewId | Models/EventsModels.cs:7 | Guid.NewGuid: an id never handed out before, never the empty id |
| Events.EventsService.Clear | Services/EventsService.cs:16-20 | the list becomes empty and EventsChanged is raised once with it |
| Events.EventsService.Add | Services/EventsService.cs:22-27 | the event is appended at the end, with a fresh id when its id is empty; EventsChanged is raised once |
| Events.EventsService.Join | Services/EventsService.cs:29-36 | the list becomes JoinSpec of the old list; EventsChanged is raised exactly when a registration was added |
| Events.EventsService.SeedIfEmpty | Services/EventsService.cs:39-107 | a non-empty list is left alone; an empty one receives the six seeded events, with six notifications |
| Events.EventsService.AddSeed | Services/EventsService.cs:45-58 | appends one seeded event with the next fresh id and raises EventsChanged once |
| EnergyModels.DefaultDevices | Models/EnergyModels.cs:31-36 | a new state lists the fridge (60 W, on), the water pump (40 W, off) and the charger (20 W, off), in that order |
| EnergyModels.EnergyState.constructor | Models/EnergyModels.cs:18-36 | a new state is at 78 %, AutoSave on, A/C off in mode Off at 24 degrees, no last action, the three default devices |
| EnergyModels.EnergyState.SetReadings | Services/EnergyService.cs:98-108 | only battery percent, estimate, PV, load and net change |
| EnergyModels.EnergyState.Clone | Models/EnergyModels.cs:38-55 | Clone is a fresh object equal in every property, with a copied device list |
| EnergyModels.CopyDevices | Models/EnergyModels.cs:52-53 | ConvertAll keeps the length and, element by element, name, power and switch |
| Energy.Pv | Services/EnergyService.cs:70-73 | PV production is between 0 and 220 W whatever the time and the random draw |
| Energy.AcLoad | Services/EnergyService.cs:79-90 | the A/C adds nothing when off, and 128 W cooling, 140 W heating, 60 W fan (rated power times duty, truncated) |
| Energy.NextWh | Services/EnergyService.cs:96-97 | the stored energy stays within [0, 800] Wh, and a zero-second step keeps it |
| Energy.Percent | Services/EnergyService.cs:98 | the battery percentage is between 0 and 100 |
| Energy.EstHours | Services/EnergyService.cs:101-104 | with a deficit the autonomy is a finite, non-negative number of hours; otherwise it is infinity |
| Energy.FindCharger | Services/EnergyService.cs:143 | the first device whose name contains the charger's name; None exactly when none does |
| Energy.FindDevice | Services/EnergyService.cs:42 | the first device with exactly the given name; None exactly when none has it |
| Energy.SavingActions | Services/EnergyService.cs:119-152 | ApplyAutoSavingActions on the energy state: A/C off, first charger off, LastAction set only when an action ran, as SavingActionsEffect proves |
| Energy.SavingActionsEffect | Services/EnergyService.cs:119-152 | after the saving actions the A/C is off in mode Off and the first charger is off, no other device changes, readings and settings are kept; LastAction is written exactly when some action was taken, and otherwise nothing changes |
| Energy.Dimmed | Services/EnergyService.cs:134-138 | the lamp handed to Apply is on, NightLight in the warm colour, at most 35 % bright, AutoNight kept |
| Energy.DimmedIsApplied | Services/EnergyService.cs:139 | LightingService.Apply stores the dimmed lamp state unchanged at any time of day |
| Energy.StepSpec | Services/EnergyService.cs:68-115 | one simulation step as a value: the measured readings, then SavingActions when saving is due; its readings and its saving condition are StepReadings and StepSavesIff |
| Energy.StepReadings | Services/EnergyService.cs:68-115 | after a step net = PV - load, load = devices that are on plus the A/C share, PV in [0, 220], energy in [0, 800] Wh, the percentage its rounded share, and the estimate finite exactly on a deficit |
| Energy.CommandKeepsEnergy | Services/EnergyService.cs:117 | Recompute (a zero-second step) keeps the stored energy and reports its percentage |
| Energy.StepSavesIff | Services/EnergyService.cs:110-112 | the saving actions run exactly when AutoSave is on and the battery is at most 20 %; otherwise A/C, devices and LastAction are untouched |
| Energy.DevicesLoadSwitch | Services/EnergyService.cs:76 | switching one device changes the device load by exactly its rated power |
| Energy.DefaultLoad | Models/EnergyModels.cs:31-36 | the starting devices draw 60 W |
| Energy.DefaultCharger | Models/EnergyModels.cs:35 | the charger found by name is the third starting device |
| Energy.DefaultPercent | Services/EnergyService.cs:26 | the battery starts at 624 Wh, which reads as 78 % |
| Energy.EnergyService.constructor | Services/EnergyService.cs:22-31 | the service starts from the default state with 624 Wh stored and nothing published |
| Energy.EnergyService.Step | Services/EnergyService.cs:68-115 | the meter becomes StepSpec of the old one; one snapshot is published; the lamp is dimmed exactly when the step runs the saving actions with the lamp on |
| Energy.EnergyService.MeasureStep | Services/EnergyService.cs:70-108 | the meter becomes Measure of the old one and nothing is published |
| Energy.EnergyService.ApplyAutoSavingActions | Services/EnergyService.cs:119-152 | the state becomes SavingActions of the old one; the lamp is dimmed and published once exactly when there is a lighting service and the lamp is on or the call is forced |
| Energy.EnergyService.SwitchOffAc | Services/EnergyService.cs:124-129 | an A/C that is on is switched off with mode Off; reports whether it was on |
| Energy.EnergyService.DimIfNeeded | Services/EnergyService.cs:132-141 | dims the lamp exactly when there is a lighting service and the lamp is on or the call is forced; otherwise the lamp is untouched |
| Energy.EnergyService.SwitchOffCharger | Services/EnergyService.cs:143-148 | the first charger, if on, is switched off; reports whether it was |
| Energy.EnergyService.DimLamp | Services/EnergyService.cs:134-139 | the lamp becomes the dimmed state and publishes once |
| Energy.EnergyService.ToggleDevice | Services/EnergyService.cs:40-46 | an unknown name changes nothing and publishes nothing; otherwise that device is switched and a zero-second step follows |
| Energy.EnergyService.IndexOfDevice | Services/EnergyService.cs:42 | the index of the first device with the name, or the length when there is none |
| Energy.EnergyService.SwitchDevice | Services/EnergyService.cs:44 | only the k-th device's switch changes |
| Energy.EnergyService.SetAutoSave | Services/EnergyService.cs:48-52 | AutoSave is set and a zero-second step follows |
| Energy.EnergyService.SetAc | Services/EnergyService.cs:54-60 | the A/C switch and setpoint are set, the mode is Off whenever the A/C is off, and a zero-second step follows |
| Energy.EnergyService.ApplySavingNow | Services/EnergyService.cs:62-66 | the forced saving actions (the lamp dimmed even when off), then a zero-second step |
| LightingModels.EffectValue | Models/LightingModels.cs:6-13 | every effect has an underlying value between 0 and 4 |
| LightingModels.EffectOf | Models/LightingModels.cs:6-13 | an integer names an effect exactly when it lies between 0 and 4 |
| LightingModels.EffectNumbering | Models/LightingModels.cs:6-13 | the numbering 0..4 and the five effects are inverse to each other |
| LightingModels.Color.ToArgb | Services/LightingService.cs:68 | the packed ARGB value is a signed 32-bit integer |
| LightingModels.ToArgbInjective | Services/LightingService.cs:68 | two colours have the same ToArgb exactly when they are the same colour, so the tick's ToArgb comparison is a colour comparison |
| LightingModels.LightingState.constructor | Models/LightingModels.cs:17-21 | a new lamp state is on, at brightness 60, warm white (255, 255, 244, 230), Static, with AutoNight set |
| LightingModels.LightingState.Clone | Models/LightingModels.cs:23-30 | Clone is a fresh object with all five properties equal |
| Lighting.Channel | Services/LightingService.cs:107-110 | Convert.ToInt32 of a channel level is its round-half-to-even value and fits a byte |
| Lighting.NormalHue | Services/LightingService.cs:99 | FromHsv's hue lies in [0, 360) and a hue already there is kept |
| Lighting.Sector | Services/LightingService.cs:103 | the hue sector is one of the six 0..5 |
| Lighting.SectorFraction | Services/LightingService.cs:104 | the position inside the sector lies in [0, 1) |
| Lighting.FromHsv | Services/LightingService.cs:97-121 | every colour FromHsv builds is opaque |
| Lighting.Levels | Services/LightingService.cs:106-120 | the sector colour built from the levels is opaque |
| Lighting.SectorColor | Services/LightingService.cs:112-120 | each of the six sector colours is opaque |
| Lighting.SectorColorExtremes | Services/LightingService.cs:112-120 | whichever sector, the brightest channel is vi and the darkest is p |
| Lighting.LevelsExtremes | Services/LightingService.cs:106-120 | the brightest channel is the rounded value level and the darkest the rounded v(1 - s) |
| Lighting.FromHsvExtremes | Services/LightingService.cs:97-121 | for every hue FromHsv's largest channel is round(255 value) and its smallest round(255 value (1 - saturation)), with saturation and value clamped to [0, 1] |
| Lighting.FromHsvRed | Services/LightingService.cs:97-121 | hue 0 at full saturation and value is pure red |
| Lighting.NightOverride | Services/LightingService.cs:82-95 | the automatic night override of a lamp state, whose effect ApplyWithOverride and ApplyWithoutOverride state |
| Lighting.AfterApply | Services/LightingService.cs:24-33 | the state Apply stores for a given state and time of day; ApplyWithoutOverride, ApplyWithOverride and ApplyIdempotent state its cases and its idempotence |
| Lighting.ApplyWithoutOverride | Services/LightingService.cs:27-30 | without AutoNight, by day, or for NightLight, Pulse and ColorCycle, Apply stores exactly the given state |
| Lighting.ApplyWithOverride | Services/LightingService.cs:82-95 | at night with AutoNight, Static and Reading become NightLight in the warm colour with brightness min(b, 35), nothing else changes |
| Lighting.ApplyIdempotent | Services/LightingService.cs:24-33 | applying the stored state again, at the same time of day, stores it unchanged |
| Lighting.NightHours | Services/LightingService.cs:85-86 | within a day, night is exactly the time outside 06:00 to 21:00 |
| Lighting.NextPhase | Services/LightingService.cs:51-52 | the pulse phase advances by 0.12 while it stays within 2 pi, is reset to 0 once it would pass 2 pi, and so a non-negative phase stays within [0, 2 pi] |
| Lighting.Amplitude | Services/LightingService.cs:54 | the pulse amplitude is at least 5 |
| Lighting.Swing | Services/LightingService.cs:55 | the truncated swing sin(phase) * amp is within plus or minus amp |
| Lighting.Pulsed | Services/LightingService.cs:55-56 | the pulsed brightness is clamped to [5, 100] |
| Lighting.PulsedNearMid | Services/LightingService.cs:53-56 | for a brightness in [5, 100] the pulsed brightness is within the amplitude of it |
| Lighting.NextHue | Services/LightingService.cs:65-66 | the cycle hue advances by one degree and stays in [0, 360) |
| Lighting.TickSpec | Services/LightingService.cs:42-80 | one animation tick as a value; TickIdle, TickPulse, TickColorCycle and TickKeepsRanges state what it changes and the ranges it keeps |
| Lighting.TickIdle | Services/LightingService.cs:42-48 | a tick on a lamp that is off, or whose effect is not animated, changes nothing |
| Lighting.TickPulse | Services/LightingService.cs:50-62 | a Pulse tick changes only the brightness, keeps it in [5, 100] and leaves the hue |
| Lighting.TickColorCycle | Services/LightingService.cs:64-73 | a ColorCycle tick changes only the colour, keeps it opaque and leaves the phase |
| Lighting.TickKeepsRanges | Services/LightingService.cs:42-80 | ticks keep the hue in [0, 360) and the phase in [0, 2 pi] |
| Lighting.LightingService.constructor | Services/LightingService.cs:10-22 | the service starts with the default lamp state, phase and hue 0 and nothing published |
| Lighting.LightingService.Apply | Services/LightingService.cs:24-33 | a null state is refused and nothing changes; otherwise a fresh copy is stored as AfterApply of it and published once |
| Lighting.LightingService.ApplyNightSuggestionIfNeeded | Services/LightingService.cs:82-95 | the stored state becomes NightOverride of the old one |
| Lighting.LightingService.Toggle | Services/LightingService.cs:35-40 | only IsOn changes; a snapshot is published exactly when it actually changed |
| Lighting.LightingService.Tick | Services/LightingService.cs:42-80 | the lamp, phase and hue become TickSpec of the old ones; a snapshot is published exactly when the lamp state changed |
| Lighting.LightingService.PulseTick | Services/LightingService.cs:50-62 | the phase advances and only the brightness changes, to the pulsed value |
| Lighting.LightingService.ColorCycleTick | Services/LightingService.cs:64-73 | the hue advances and only the colour changes, to FromHsv(hue, 0.55, 1) |
| WeatherModels.WeatherSnapshot.constructor | Models/WeatherModels.cs:9-16 | a new snapshot carries the given time stamp, zero readings and condition Clear |
| WeatherModels.WeatherSnapshot.Clone | Models/WeatherModels.cs:18 | MemberwiseClone: a fresh object with all six fields equal |
| WeatherModels.WeatherState.constructor | Models/WeatherModels.cs:23-24 | a new state has a fresh default snapshot and an empty history |
| WeatherModels.WeatherState.Clone | Models/WeatherModels.cs:26-31 | Clone is a fresh state with a fresh copy of the current snapshot and the same history entries in the same order |
| Weather.Lerp | Services/WeatherService.cs:86 | linear interpolation from a toward b by t, which LerpBetween bounds |
| Weather.LerpBetween | Services/WeatherService.cs:86 | for t in [0, 1] the interpolation lies between its two ends and never moves away from the target |
| Weather.Rem360Range | Services/WeatherService.cs:68 | the C# remainder modulo 360 of a non-negative number lies in [0, 360), differs from it by a multiple of 360, and keeps a number already below 360 |
| Weather.NextTargetsInRange | Services/WeatherService.cs:45-62 | the targets stay within 12-34 degrees, 30-95 %, 0-40 km/h and [0, 360) degrees across every update, the storm push included |
| Weather.StormForces | Services/WeatherService.cs:52-57 | a storm draw forces the wind target to at least 28 km/h, humidity to at least 80 % and the condition to Storm |
| Weather.ConditionRule | Services/WeatherService.cs:45-62 | without a storm an update sets the condition by classifying the new targets; a step without an update keeps targets and condition |
| Weather.Classify | Services/WeatherService.cs:58-61 | the condition of a set of targets, whose thresholds ClassifyThresholds states |
| Weather.ClassifyThresholds | Services/WeatherService.cs:58-61 | Windy exactly above 18 km/h; otherwise Rain above 75 %, Cloudy above 60 %, Clear at or below 60 %; the classification is never Storm |
| Weather.Smooth | Services/WeatherService.cs:65-69 | the readings moved part of the way toward the targets, as SmoothMovesToward states |
| Weather.SmoothMovesToward | Services/WeatherService.cs:65-69 | each reading ends between its old value and its target, the condition is kept, the stamp is the new time, and readings in range stay in range |
| Weather.Enqueue | Services/WeatherService.cs:71-72 | the bounded history queue after one enqueue, whose first-in first-out behaviour EnqueueFifo states |
| Weather.EnqueueFifo | Services/WeatherService.cs:71-72 | the history grows by one until it holds 120 entries, then the oldest is evicted; the newest entry is the one just enqueued |
| Weather.StepSpec | Services/WeatherService.cs:43-75 | one simulator step as a value: NextTargets, then Smooth toward the targets, then Enqueue of the new snapshot; StepKeepsValid states the ranges and history bound it keeps |
| Weather.StepKeepsValid | Services/WeatherService.cs:43-75 | every step keeps targets, readings and every history entry in range and the history at most 120 long, and the newest history entry is the new current snapshot |
| Weather.Level | Services/WeatherService.cs:77-84 | advice strength is 0 exactly for the null advice and at most 3 |
| Weather.AdviceTiers | Services/WeatherService.cs:77-84 | storm warning exactly for Storm or wind of 35 km/h or more; rain advice exactly for Rain or wind from 22 km/h; moderate-wind advice exactly from 15 to 22 km/h otherwise; null exactly when none applies |
| Weather.AdviceEscalates | Services/WeatherService.cs:77-84 | more wind under the same condition never gives a weaker advice |
| Weather.WindStrength | Services/WeatherService.cs:34 | the wind strength lies in [0, 1] |
| Weather.WindStrengthRatio | Services/WeatherService.cs:34 | within 0-40 km/h the strength is wind / 40, and it grows with the wind |
| Weather.WeatherService.constructor | Services/WeatherService.cs:9-31 | targets 22 degrees, 60 %, 8 km/h, 220 degrees; readings 21.5 degrees, 65 %, 7.5 km/h, 220 degrees, Clear; empty history; nothing published |
| Weather.WeatherService.WindStrength01 | Services/WeatherService.cs:34 | the current wind strength lies in [0, 1] |
| Weather.WeatherService.WindDirDeg | Services/WeatherService.cs:35 | the current wind direction lies in [0, 360) |
| Weather.WeatherService.CurrentAdvice | Services/WeatherService.cs:77-84 | the advice is null only without storm or rain and below 15 km/h |
| Weather.WeatherService.Step | Services/WeatherService.cs:43-75 | the simulator becomes StepSpec of the old one, stays valid, and publishes one copy of the state |
| Weather.WeatherService.UpdateTargets | Services/WeatherService.cs:47-61 | targets and condition become NextTargets of the old ones; the history is untouched |
| Weather.WeatherService.SmoothTowardTargets | Services/WeatherService.cs:65-69 | the current snapshot becomes Smooth of the old one toward the targets |
| Weather.WeatherService.RecordNow | Services/WeatherService.cs:71-72 | the history becomes Enqueue of the old history and a copy of the current snapshot |
| NavigationModels.Scale | Models/NavigationModels.cs:12-13 | a point given as fractions in [0, 1] of the map lands on the map, between 0 and the width and height in pixels |
| NavigationModels.NavigationState.constructor | Models/NavigationModels.cs:16-29 | a new state has preference Recommended, all three overlays shown, no path, no guidance and zero distance and time |
| NavigationModels.NavigationState.FromView | Models/NavigationModels.cs:31-43 | the object initialiser Clone uses: every property set from the given values |
| NavigationModels.NavigationState.SetRoute | Services/NavigationService.cs:109-127 | only path, distance, time and guidance change |
| NavigationModels.NavigationState.Clone | Models/NavigationModels.cs:31-43 | Clone is a fresh state equal in every property, path and guidance copied |
| Navigation.RouteTableComplete | Services/NavigationService.cs:41-71 | the table has exactly nine routes, one per destination and preference, each at least two points long, from the basecamp to its destination |
| Navigation.ScalePath | Services/NavigationService.cs:109-111 | the pixel path has one point per route point, each the route point scaled by the map size |
| Navigation.LengthNonNegative | Services/NavigationService.cs:113-121 | the summed segment lengths are never negative |
| Navigation.SquareNonNegative | Services/NavigationService.cs:120 | the sum under the square root is never negative |
| Navigation.Normalize | Services/NavigationService.cs:144-145 | the two loops bring a heading difference into [-pi, pi], keep one already there, and change it by at most one full turn |
| Navigation.TurnsUpTo | Services/NavigationService.cs:135-154 | one instruction per interior vertex so far, each the turn at that vertex |
| Navigation.GuidanceSpec | Services/NavigationService.cs:132-157 | the guidance lines for a route, whose length and order GuidanceShape states |
| Navigation.GuidanceShape | Services/NavigationService.cs:132-157 | guidance for n >= 2 points has n lines: the start message first, the arrival message last, and the turn at each interior vertex between |
| Navigation.RecomputeSpec | Services/NavigationService.cs:104-130 | RecomputePath as a value; RecomputeWithRoute, RecomputeShape and RecomputeDeterministic state its result |
| Navigation.RecomputeWithRoute | Services/NavigationService.cs:104-130 | with a route from the basecamp, the path runs from the basecamp's pixel position to the destination's with the route's length, the guidance has one line per point, the distance is non-negative and the time is distance / 1.2; nothing else changes |
| Navigation.RecomputeShape | Services/NavigationService.cs:104-130 | with the fixed table every destination and preference gets such a path, guidance, distance and time |
| Navigation.RecomputeDeterministic | Services/NavigationService.cs:104-130 | path, guidance, distance and time depend only on destination, preference and map size |
| Navigation.DestinationFor | Services/NavigationService.cs:76-86 | the destination SetDestination chooses for an id, as DestinationIgnoresCase states |
| Navigation.DestinationIgnoresCase | Services/NavigationService.cs:76-86 | destinations are chosen by id without regard to case, s1, s2 and s3 select S1, S2 and S3, and any other id keeps the current destination |
| Navigation.NavigationService.constructor | Services/NavigationService.cs:25-74 | starts at the basecamp heading for S1 with the default settings, recomputed on a 1600 x 1067 map, and publishes that state once |
| Navigation.NavigationService.SetDestination | Services/NavigationService.cs:76-86 | the destination becomes DestinationFor of the id, then the path is recomputed and the state published once |
| Navigation.NavigationService.SetPreference | Services/NavigationService.cs:88-92 | the preference is set, then the path is recomputed and the state published once |
| Navigation.NavigationService.ToggleOverlays | Services/NavigationService.cs:94-100 | each given overlay flag is set, the others and everything else are kept; the state is published once |
| Navigation.NavigationService.RescalePath | Services/NavigationService.cs:102 | the path is recomputed for the new map size and the state published once |
| Navigation.NavigationService.RecomputePath | Services/NavigationService.cs:104-130 | the state becomes RecomputeSpec of the old one (unchanged when no route matches) and is published once |
| Navigation.PathLength | Services/NavigationService.cs:113-121 | the loop's sum is the length of the whole path |
| Navigation.BuildGuidance | Services/NavigationService.cs:132-157 | the lines built are exactly GuidanceSpec of the route |
| Navigation.TurnBetween | Services/NavigationService.cs:141-152 | the loop body gives the turn TurnFor the three points |
| PegPlacement.SoilFor | Views/PegPlacementForm.cs:42-48 | a zone is loose sand exactly when it is "Sand" and firm exactly when it is "Forest" or "Land"; any other zone is unknown |
| PegPlacement.Wind01 | Views/PegPlacementForm.cs:49 | the site's wind clamped into [0, 1], a wind already there kept |
| PegPlacement.PegKindAt | Views/PegPlacementForm.cs:17-24 | indexes 0, 2 and 3 are the aluminium peg, the sand anchor and the ground screw; index 1 and every index outside 0..3 give the steel peg |
| PegPlacement.DefaultPegIndex | Views/PegPlacementForm.cs:111 | the dialog opens on the sand anchor on loose sand and on the steel peg otherwise |
| PegPlacement.RecommendedAngle | Views/PegPlacementForm.cs:202-214 | the recommended angle is 30 to 45 degrees, 45 on unknown soil |
| PegPlacement.RecommendedPressure | Views/PegPlacementForm.cs:216-228 | the recommended pressure is 45 to 85 %, 60 on unknown soil, at most 65 on firm soil, at least 70 in loose sand |
| PegPlacement.TensionBase | Views/PegPlacementForm.cs:232-244 | the tension base is 45 to 60 %, 50 on unknown soil |
| PegPlacement.RecommendedTension | Views/PegPlacementForm.cs:230-246 | the recommended tension lies in [0, 100] and, for a wind in [0, 1], between the base and the base plus 20 |
| PegPlacement.TensionMonotoneInWind | Views/PegPlacementForm.cs:245 | more wind never lowers the recommended tension |
| PegPlacement.SubScore | Views/PegPlacementForm.cs:267-269 | a sub-score lies in [0, 100], is full exactly with no deviation and zero exactly when the deviation reaches the tolerance |
| PegPlacement.SubScoreAntitone | Views/PegPlacementForm.cs:267-269 | a larger deviation never earns a higher sub-score |
| PegPlacement.TypeAdj | Views/PegPlacementForm.cs:271-274 | +8 exactly for a sand anchor in loose sand, +6 exactly for steel or a screw on firm soil, -10 exactly for a sand anchor on firm soil, 0 otherwise |
| PegPlacement.WindPenalty | Views/PegPlacementForm.cs:276 | the wind penalty is never negative and vanishes at the recommended angle and tension |
| PegPlacement.TargetFor | Views/PegPlacementForm.cs:259-265 | the tolerances scored against are positive |
| PegPlacement.Score | Views/PegPlacementForm.cs:267-279 | the clamped total lies in [0, 100] against any target |
| PegPlacement.Total | Views/PegPlacementForm.cs:258-279 | the score of any settings lies in [0, 100] |
| PegPlacement.Combine | Views/PegPlacementForm.cs:278-279 | the weighted total, after clamping, lies in [0, 100] |
| PegPlacement.Band | Views/PegPlacementForm.cs:281-285 | Excellent exactly from 80, Good exactly in [60, 80), Marginal exactly in [40, 60), Wrong exactly below 40 |
| PegPlacement.RecommendedIsExcellent | Views/PegPlacementForm.cs:248-285 | the recommended settings score at least 90 and are rated excellent for every soil, peg and wind |
| PegPlacement.TotalAntitone | Views/PegPlacementForm.cs:258-279 | settings no further from the recommendations in each of angle, pressure and tension never score lower |
| PegPlacement.ScoreAntitone | Views/PegPlacementForm.cs:267-279 | against any target, settings no further from it never score lower |
| PegPlacement.TipsForUnique | Views/PegPlacementForm.cs:294-304 | the tips are determined by the settings: two lists meeting the tip rules are equal |
| PegPlacement.SortedSameMembers | Views/PegPlacementForm.cs:294-304 | two lists in tip order with the same members are the same list |
| PegPlacement.Tips | Views/PegPlacementForm.cs:294-304 | the tips BuildTips composes, which TipsMeetSpec, TipsSorted and TipsMembers relate to TipsFor |
| PegPlacement.TipsMeetSpec | Views/PegPlacementForm.cs:294-304 | the tips open with the header and close with the orientation tip, are in order, and hold each adjustment tip exactly when its deviation is over the limit (6 degrees, 10 points) and each peg tip exactly when the peg suits the soil badly |
| PegPlacement.TipsSorted | Views/PegPlacementForm.cs:296-302 | the tips are in the order the code appends them |
| PegPlacement.TipsMembers | Views/PegPlacementForm.cs:297-301 | each conditional tip is present exactly when its condition holds, and no other tip appears |
| PegPlacement.BuildTips | Views/PegPlacementForm.cs:294-304 | the appended lines are the tip list for the settings and meet the tip rules |
| PegPlacement.NatText | Views/PegPlacementForm.cs:288 | a number's text is a non-empty run of digits |
| PegPlacement.TryParseInt | Views/PegPlacementForm.cs:309 | int.TryParse only succeeds with a value in the 32-bit range |
| PegPlacement.NatTextValue | Views/PegPlacementForm.cs:288 | a number's decimal text has that number as its value |
| PegPlacement.IntTextRoundTrip | Views/PegPlacementForm.cs:288-309 | the text of every 32-bit integer parses back to it |
| PegPlacement.SplitSpaces | Views/PegPlacementForm.cs:308 | Split(' ') gives at least one piece and no piece holds a space |
| PegPlacement.SplitJoin | Views/PegPlacementForm.cs:308 | joining the pieces with single spaces gives back the text |
| PegPlacement.FirstInt | Views/PegPlacementForm.cs:308-309 | None exactly when no piece parses; otherwise the value of some piece that parses |
| PegPlacement.ParseScoreSpec | Views/PegPlacementForm.cs:306-311 | the score read from a label lies in [0, 100], and is 0 when no piece parses |
| PegPlacement.ScoreLabel | Views/PegPlacementForm.cs:288 | the score label text, which ScoreLabelRoundTrip and ScoreLabelPieces read back |
| PegPlacement.ScoreLabelRoundTrip | Views/PegPlacementForm.cs:288-311 | the score label of any score in [0, 100] reads back as that score |
| PegPlacement.ScoreLabelPieces | Views/PegPlacementForm.cs:288 | the label splits into the word, the score, the dash and the status word |
| PegPlacement.ParseScoreFromLabel | Views/PegPlacementForm.cs:306-311 | the loop returns the clamped first integer of the label, or 0 |
| PegPlacement.PegPlacementForm.constructor | Views/PegPlacementForm.cs:39-55 | the dialog opens with the zone's soil, the clamped wind, the default peg for the soil, the sliders at the recommendations, the evaluation shown, and no result |
| PegPlacement.PegPlacementForm.EvaluateAndRedraw | Views/PegPlacementForm.cs:248-292 | the score label and tips show the evaluation of the current sliders |
| PegPlacement.PegPlacementForm.SelectPeg | Views/PegPlacementForm.cs:112-118 | choosing a peg moves the sliders to its recommendations and shows the evaluation; the result is untouched |
| PegPlacement.PegPlacementForm.ApplyRecommended | Views/PegPlacementForm.cs:181-187 | the automatic button moves the sliders to the recommendations and shows the evaluation |
| PegPlacement.PegPlacementForm.Scroll | Views/PegPlacementForm.cs:136-138 | a slider move stores the new values and shows their evaluation |
| PegPlacement.PegItem | Views/PegPlacementForm.cs:110 | the text of each of the four drop-down items, which Accept reports as the peg type |
| PegPlacement.PegPlacementForm.Accept | Views/PegPlacementForm.cs:167-179 | accepting returns the sliders, the selected item's text and the truncated score actually computed, read back from the label |

## Left out

- Presentation. The WinForms forms, layout, painting, timers, `Dispose`, event-handler wiring and subscriber code are not modelled. A timer tick is an explicit call to `Tick`/`Step`.
- Time. `DateTime.Now` and `DateTime.Today` become parameters:
  - time stamps are integers;
  - the time of day is a real number of hours;
  - event start and end times are hours counted from a reference day.
- Transcendental functions and `Random`. `Math.Sin`, `Math.Atan2` and `Math.Sqrt` are parameters, known only by their ranges. `Random` draws are bounded parameters (`Draws`, `Ambient`).
- Ids. `Guid.NewGuid` is a counter that starts at 1. Id 0 stands for `Guid.Empty`.
- Numbers. `double`, `float` and `decimal` are exact reals, and prices are integer cents.
  - There is no IEEE rounding and no `float` narrowing.
  - C# casts to `int` are `Trunc`, and `Math.Round` and `Convert.ToInt32` are `RoundHalfEven`. Both are written out.
  - `TimeSpan.FromSeconds` is kept as a number of seconds, without the rounding to ticks.
  - `double.PositiveInfinity` is the `Infinity` case of `Hours`.
  - `int` is unbounded. A 32-bit overflow of `Qty + qty` in `OrderItem.Add` or of `Registered++` in `EventsService.Join` does not wrap around in the model.
- Text.
  - The Greek message texts of the guidance, the advice, the saving actions and the tips are enumerations. So is `LastAction`, whose string is the sequence of actions taken (`string.IsNullOrWhiteSpace` becomes "no action").
  - The long event descriptions are empty strings.
  - `SoilLabel`, the slider captions and the label colours are not modelled.
- Upper-casing and case-insensitive comparison cover ASCII letters only (`ToUpperInvariant`, `StringComparison.OrdinalIgnoreCase`).
- `int.TryParse` accepts ASCII white space, an optional sign and decimal digits in the 32-bit range. Culture-specific signs and digits are not modelled.
- Objects held as values. Neither the application nor the model shares them between owners, so they carry no identity of their own:
  - order lines (`OrderItem`) are held in their order;
  - energy devices (`EnergyDevice`) are held in the energy state;
  - weather history entries are held in the history queue;
  - camp events (`CampEvent`) are held in the events list. The application does share these: `Add` writes a fresh `Id` into the caller's object, and `Join` increments `Registered` on the list's own object, which the events view also holds as its current event. In the model the caller of `Add` does not see the new id, and a holder of an event taken from the list before `Join` does not see the new count. Only the list itself has the updated values.
- Exceptions. `LightingService.Apply` with a null state returns `NullArgument` instead of throwing `ArgumentNullException`.
- The cancel button, `DialogResult` and closing of the peg placement dialog are not modelled.
- PegPlacement.PegPlacementForm.SelectPeg: takes only the combo box's indexes 0 to 3. The drop-down list offers no other.
- PegPlacement.PegPlacementForm.Scroll: takes only values in the sliders' ranges. The track bars allow no others.
- Forms other than the peg placement dialog are not modelled. This covers site selection, tarp placement, tourist navigation and the main dashboard. So are `AppState` and `TarpPlacementResult`.
