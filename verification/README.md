# Convoys, factories and cities: a verified model

The project models five parts of the simulation and proves what each of them has to keep.

**Coupled and carried convoys** (`Vehicles`, `Convois`, `Coupling`, `NextStop`, `Depots`, `Shipping`,
`Orphans`, `Deck`, `Carriers`, `Journeys`, `Landing`, `Rescue`, `Visits`, `Events`, `Runs`, `BoardingPromise`,
`Voyages`). Convoys are records in a handle table, as the program's convoy handles are indexes into a table
and an unbound handle is one that the table has no entry for. A ghost map tells for every convoy which chain
it is in. One invariant, `Fleet`, says what every operation keeps: every convoy is in exactly one chain; a
chain on the map is linked both ways, its head drives itself and all others are coupled, and of all vehicles
only the very first leads and only the very last is last; a filed chain keeps only its links to the children
and stands in base order; a chain aboard is SHIPPED throughout; the vehicles are in base order exactly when
the convoy is not reversed; a carrier lists exactly what it carries, once, and only heads of chains, and is
itself neither aboard nor filed. Beside it, `Stowed` bounds the load of every deck, `Lists` says that a depot
lists whole filed chains, and `Cared` that nobody is aboard nothing.

`Runs.Run` proves the first three for every moment of every sequence of events: coupling, uncoupling, turning
the order of a chain, turning the vehicles of a convoy, sending on, stopping, leaving, driving, boarding,
calling at a stop, emptying a carrier, repairing, entering a depot and leaving it. What each event does is
stated exactly as well, and that everybody aboard a carrier it does not concern stays as he was, so each
moment is tied to the one before. `Cared` can be lost, and `Runs.OrphanOrigin`
says how: over any run, with or without depots, whoever is aboard nothing was so from the start, or was in a
chain aboard whose head some event destroyed. It also follows that convoys in a depot always stand in base
order, and that a copy always takes the base order (`Runs.BaseOrderInDepots`, `Depots.CopyConvoi`).
`BoardingPromise` follows one convoy through the schedule of its carrier, and `Voyages` ties that to what the
carrier does with it.

**Skip sections** (`Sections`, `SkipSections`). The convoys of a chain ask each other whether they want to
stop, which asks them again. The recursion ends because every evaluation puts up the guard flag of one more
convoy; the number of convoys without it is the termination measure. A verdict that counts goes on counting
whatever else is asked in the same step, which is what the answers of a whole chain rest on. A locked one does
so over any number of steps, until its convoy forgets it outside the section (`SkipSections.LockedStands`). A fresh one
is what the cargo and the halts that can be reached say, and `SkipSections.Chain.DemandAnswers` bounds it by
the cargo alone, whatever the convoys answer each other.

**Factories** (`SaturatedMath`, `Production`, `Rates`, `Factory`, `FactoryRun`, `Stall`). Base production
with its carried remainder, production from inputs, demand buffers, deliveries and shipments, and three
counters of one byte each that stand for a recount. No stock ever leaves its limits, whatever the counters
say (`FactoryRun.Run`), and each event does exactly what it should to the slots it concerns.

**Cities** (`TargetFactories`, `Passengers`, `Growth`, `CityNames`, `RandomPlace`). Running totals, the
packet loop and the histories, whose books balance over all packets (`Passengers.Traffic.StepPassagiere`),
growth differentials, the search for a name, and places for new cities.

**Freight lists and speeds** (`FreightList`, `MaxSpeed`).

Some claims that one would like to make are false of the code. The model keeps the code as it is, shows an
input, and proves exactly when the claim holds:

- The boarding promise: `PromiseBroken` gives S-A-B-A-D, `PromiseKept` the exact condition. The comment at
  simconvoi.cc:8344-8350 speaks of where the convoy boards, but the question is asked again at every stop.
- A producer that believes it is full is full: its counter is a byte (simfab.h:342-344) that shipments
  lower and fills do not raise, so it wraps round. `Stall.ProducerStalls` shows a producer of one good that
  stops after 255 shipments, until its outputs are counted anew because its base production is set
  (simfab.cc:699-703 leads to 655; `Stall.Recount`). `Factory.EarlyExit` gives the exact condition.
- The counters of a consuming factory are always those of a recount: an empty delivery to a drained input
  breaks that (`Stall.EmptyDelivery`), and so does an amount that makes a demand wrap round
  (`Stall.LongWayRound`). `FactoryRun.DidRight` gives the exact condition for every event, `Factory.WrapsUpExact`
  and `Factory.WrapsDownExact` the amounts.
- All entries of a skip section are enclosed by it: `Sections.SameSection` gives the one exception, an END
  that is also a START of its own, and `Sections.EndOfItsOwn` a schedule with one.
- The button that sends a chain on leaves convoys in a depot alone: the tool asks for no state
  (simtool.cc:10006-10010), and a filed convoy that is let go is left in EDIT_SCHEDULE while the depot lists
  it (simconvoi.cc:2800-2806). `NextStop.ReleasedInDepot` shows two such convoys,
  `NextStop.NextStopButtonPressed` gives the exact condition.
- The vehicles of an aircraft are in the order that `reversed` tells: a stop marks it reversed without moving
  them (simconvoi.cc:5253-5255). When it leaves forward the mark is taken back (simconvoi.cc:3006-3010), but
  filed before that it stands in the depot the wrong way round: `Depots.PushbackBreaksOrder`, and
  `Depots.PushbackFiled` for when it does not. The runs above therefore have no such aircraft.
- Everybody aboard always has a carrier: the loss of a head leaves convoys aboard nothing exactly when it
  pulled others (`Rescue.LostCared`, with `Rescue.OrphanLeft` as an input), and over a run nothing else does
  (`Runs.OrphanOrigin`).
- A speed limit that passes the test can be kept up: the power it takes is narrowed to 32 bits
  (simconvoi.cc:951). `MaxSpeed.TooFast` shows a convoy without any power, `MaxSpeed.PassedIsKeptUp` gives the
  exact condition.

Chance, clocks, the network, halts, tiles and the search for routes are parameters: functions that answer
what the program would be told, or arbitrary choices. Integers are unbounded except where the width
matters: the one-byte counters, the 64-bit product, the saturating amounts, and the demands and residual
powers of 32 bits, where an overflow is taken to wrap round.

## Model

| member | source | states |
|---|---|---|
| Vehicles.TurnedFlags | simconvoi.cc:7762-7783 | turning a convoy round moves its leading and last flags to the new ends it owns, and to no other vehicle |
| Vehicles.ReversedTwice | simconvoi.cc:7771-7776 | turning twice restores the base order |
| Convois.GoodKept | simconvoi.cc:7327-7393 | a chain stays good, on the map, in a depot or aboard, as long as states, links and vehicles of its own convoys stay |
| Convois.Moved | simconvoi.cc:7327-7393 | a convoy that passes from one whole chain to another is as sound as before, cargo included |
| Convois.RestSound | simconvoi.cc:7327-7393 | an operation on some chains leaves every convoy outside them sound |
| Convois.ChainOf | simconvoi.cc:7803-7822 | a convoy on the map or in a depot stands in the chain that the fleet has it in, linked as one of its kind, and heads it exactly when it is not coupled |
| Coupling.JoinedOnMap | simconvoi.cc:7327-7345 | after coupling, A + B is one chain: links both ways, only the first vehicle leading, only the last one last, every non-head coupled; for both ways of coupling |
| Coupling.FleetJoined | simconvoi.cc:7327-7345 | coupling two whole chains keeps the whole fleet in order and leaves all other convoys alone |
| Coupling.CutOnMap | simconvoi.cc:7348-7393 | uncoupling leaves two chains, each with links, states and flags of its own |
| Coupling.FleetCut | simconvoi.cc:7348-7393 | uncoupling keeps the whole fleet in order and leaves all other convoys alone |
| Coupling.SwapEnds | simconvoi.cc:7766-7776 | the in-place swap loop yields exactly the reversed vehicles |
| Coupling.Welt.CoupleConvoi | simconvoi.cc:7327-7345 | sets the states of the whole rear chain, the links and the two flags, and nothing else |
| Coupling.Welt.CoupleConvoiDuringRunning | simconvoi.cc:7921-7934 | sets the state of the rear head only, the links and the two flags |
| Coupling.Welt.UncoupleConvoi | simconvoi.cc:7348-7393 | cuts the link behind a convoy; the result is the cut-off head, unbound if there was none |
| Coupling.Welt.ReverseVehicles | simconvoi.cc:7762-7783 | the vehicles in opposite order, flags only at chain ends, `reversed` flipped |
| Coupling.Welt.FindMostChild | simconvoi.cc:7816-7822 | finds the tail of the chain from any of its convoys |
| Coupling.Welt.GetMostParent | simconvoi.cc:7803-7814 | finds the head of the chain from any of its convoys |
| Coupling.Welt.Couple | simconvoi.cc:7327-7345 | on the fleet: two chains become one, everything else unchanged, cargo and vehicle order untouched |
| Coupling.Welt.Uncouple | simconvoi.cc:7348-7393 | on the fleet: a chain becomes two, everything else unchanged |
| Coupling.Welt.ReverseConvoyCoupling | simconvoi.cc:7785-7801 | the recursion yields exactly the reversed chain; at a stop the new head loads, on the way it looks for its route; all other convoys are untouched |
| Coupling.FleetTurned | simconvoi.cc:7749-7783 | a convoy on the map that turns its vehicles round leaves the fleet in order: the ends of its chain stay where they are and `reversed` goes on telling the order |
| Coupling.Welt.ReverseVehiclesAtHalt | simconvoi.cc:7749-7760 | turning any convoy of a chain at a halt, on the fleet; nothing else changes |
| Coupling.TurnedTogether | simconvoi.cc:7785-7801 | one level of the recursion turns the whole chain round if the level below turned the rest |
| NextStop.PartsAt | simconvoi.cc:7882-7888 | neighbours stay in one part exactly when the front one keeps its child |
| NextStop.HeadStateKept | simconvoi.cc:7911-7916 | a head that stands by for a new route leaves the fleet in order |
| NextStop.SendOn | simconvoi.cc:7882-7919 | one convoy of the walk: cut off behind it unless it keeps its child; if it leads its part it stands by in EDIT_SCHEDULE, unless it destroys itself, and nobody else's state changes but that of the child that is let go |
| NextStop.WalkOn | simconvoi.cc:7882-7919 | the walk keeps what has left before as chains of their own, in the states they were left in |
| NextStop.WalkChain | simconvoi.cc:7882-7919 | after the walk every convoy is in exactly the part given by who keeps its child; the head of each part is in EDIT_SCHEDULE unless it was in SELF_DESTRUCT, and all behind it are in the states they were in |
| NextStop.WalkFiled | simconvoi.cc:7882-7919 | the walk along a filed chain lets go exactly those whose parent does not keep them, and leaves just them in EDIT_SCHEDULE; it does no harm exactly when nobody behind the first is let go |
| NextStop.ReleasedInDepot | simconvoi.cc:7882-7919 | two coupled convoys in a depot of which the first does not keep its child: the second is left in EDIT_SCHEDULE |
| NextStop.NextStopButtonPressed | simconvoi.cc:7874-7919 | children and convoys aboard are ignored; a head on the map sends its chain on part by part, the head of each part in EDIT_SCHEDULE unless it was in SELF_DESTRUCT, and nobody else is touched; in a depot the outcome is exact too, and harmless exactly when nobody behind it is let go |
| Depots.AddedApart | simdepot.cc:189-245 | convoys that arrive one by one are listed in chain order behind the rest |
| Depots.Depot.ConvoiArrived | simdepot.cc:189-245 | a convoy is listed once |
| Depots.Depot.RemoveConvoi | simdepot.cc:675-695 | takes a convoy off the list and keeps the order of the others |
| Depots.TakenOff | simdepot.cc:675-695 | the walk over the list removes exactly the first occurrence |
| Depots.BetreteDepot | simconvoi.cc:2134-2174 | the filing of a chain: base order, no parent links, child links kept, and a note that it had turned; listed in chain order |
| Depots.FilingStep | simconvoi.cc:2134-2174 | one round of the filing loop |
| Depots.FiledSound | simconvoi.cc:2134-2174 | a filed convoy has its vehicles in base order, whether it had turned or not |
| Depots.FleetFiled | simconvoi.cc:2134-2174 | filing a chain that has been emptied keeps the whole fleet in order, all of it in base order |
| Depots.Start | simconvoi.cc:2178-2221 | leaving a depot sets state and flags only for a convoy that is filed or waits for its route |
| Depots.StartingStep | simdepot.cc:548-567 | one child more leaves behind its parent |
| Depots.FleetStarted | simdepot.cc:548-567 | a chain all of which has left is a chain on the map, and the fleet is in order |
| Depots.StartChain | simdepot.cc:548-567 | the whole chain leaves in the order it stood in and is off the depot's list |
| Depots.ParentInDepot | simdepot.cc:475-482 | in a depot, the only convoy linked to a child is the one in front of it |
| Depots.FindParentInDepot | simdepot.cc:475-482 | finds the parent although filed convoys do not know it |
| Depots.FindMostParentInDepot | simdepot.cc:484-492 | finds the head of a filed chain |
| Depots.StartConvoi | simdepot.cc:494-567 | only the head of a filed chain can be started; then its whole chain is on the map again |
| Depots.ListsAdded | simdepot.cc:189-245 | a depot goes on listing whole filed chains only when one more is filed |
| Depots.ListsWithout | simdepot.cc:548-567 | and when one leaves |
| Depots.ListsKept | simdepot.cc:475-492 | and whatever happens to others, as long as the filed convoys stay as they are |
| Depots.FiledInBase | simdepot.cc:371-420 | whoever is in a depot has its vehicles in base order |
| Depots.CopyConvoi | simdepot.cc:371-420 | a copy takes the vehicles in base order whichever way the convoy stands |
| Depots.PushbackFiled | simconvoi.cc:5253-5255 | an aircraft marked reversed by a stop, if it is filed before it leaves forward, stands in the depot not reversed and with its vehicles the wrong way round; in base order exactly when that is a palindrome |
| Depots.PushbackBreaksOrder | simconvoi.cc:5253-5255 | a concrete aircraft of two vehicles that is filed the wrong way round |
| Shipping.FleetBoarded | simconvoi.cc:8424-8449 | taking a whole chain aboard keeps the fleet in order; listed exactly once, exactly by its carrier |
| Shipping.FleetReleased | simconvoi.cc:8569-8571 | a chain that leaves its carrier, ashore or into a depot, leaves the fleet in order |
| Shipping.FleetLanded | simconvoi.cc:8510-8630 | a chain put ashore is a chain on the map |
| Shipping.FleetSplitAboard | simconvoi.cc:8484-8498 | cutting a chain aboard keeps the fleet in order: both parts aboard, each head listed |
| Shipping.FleetLost | simconvoi.cc:5640-5653 | the loss of a head aboard leaves the fleet in order and its children a chain aboard nothing |
| Shipping.OrphanSound | simconvoi.cc:1713-1731 | the children of a lost head are aboard without a carrier |
| Orphans.AboardUntouched | simconvoi.cc:1713-1731 | what happens to chains on the map or in a depot takes nobody aboard his carrier, with or without depots |
| Orphans.AlightedTwice | simconvoi.cc:1713-1731 | steps in which nobody boards may follow each other: whoever is aboard nothing in the end was so at first, or a convoy of its chain was lost on the way |
| Orphans.CaredAfter | simconvoi.cc:1713-1731 | if nobody is lost, nobody loses his carrier |
| Orphans.HeadWasLost | simconvoi.cc:1713-1731 | whoever lost his carrier was aboard before, and the head of its chain was destroyed |
| Orphans.OthersKeptTwice | simconvoi.cc:8972-8992 | what is done for some carriers leaves those aboard every other carrier, and its list, as they were, and goes on doing so step after step |
| Journeys.StatesKept | simconvoi.cc:2462-2465 | a chain on the map stays one, and the fleet in order, when its head passes to a state of its own and its children to a coupled one |
| Journeys.InStatesAre | simconvoi.cc:2462-2465 | of a chain that changes states, the first convoy is in the one and every other in the other, whatever they were in |
| Journeys.ZielErreicht | simconvoi.cc:2462-2465 | a chain that stops at a halt: the head LOADING, all children COUPLED_LOADING, nothing else changed |
| Journeys.HatGehalten | simconvoi.cc:5233-5252 | a chain that leaves: the head looks for its route, all children COUPLED, nothing else changed |
| Shipping.FiledCleared | simconvoi.cc:8972-8984 | forced disembarking: off the list first, filed then; the same state results |
| Shipping.ClearedFiled | simconvoi.cc:8696-8712 | rescue at a halt: filed first, off the list then; the same state results |
| Deck.LoadWithout | simconvoi.cc:8173-8189 | a chain that leaves takes exactly its load with it |
| Deck.BoardedDeck | simconvoi.cc:8224-8234 | as a convoy boards while any space is left, the overload stays below the length of the boarding chain |
| Deck.DecksBoarded | simconvoi.cc:8192-8235 | boarding keeps every deck within capacity plus the longest chain, for every good |
| Deck.ReleasedDeck | simconvoi.cc:8173-8189 | a carrier gets back exactly the space that the chain took |
| Deck.SplitDeck | simconvoi.cc:8484-8498 | cutting a chain at 250 vehicles conserves the load |
| Deck.DecksSplit | simconvoi.cc:8484-8498 | the deck bound survives the cut |
| Deck.DecksLost | simconvoi.cc:5640-5653 | the deck bound survives the loss of a convoy |
| Deck.StowedOnMap | simconvoi.cc:8173-8189 | nothing that happens to chains on the map touches any deck |
| Carriers.GetShippingLength | simconvoi.cc:8094-8105 | a chain is as long as all its convoys |
| Carriers.GetShippingLoadForGoods | simconvoi.cc:8173-8189 | sums up the listed chains of one shipping good |
| Carriers.CanShip | simconvoi.cc:8192-8235 | answers exactly whether the chain may board: all the guards, every member of the chain, any space left |
| Carriers.Withdraw | simconvoi.cc:8238-8289 | every convoy of the chain is taken off the map, last flags on every vehicle |
| Carriers.BoardCarrier | simconvoi.cc:8374-8457 | boards exactly when the convoy may and there is a destination; the fleet and the decks stay in order |
| Carriers.StillNoRoom | simconvoi.cc:8224-8234 | boarding never makes room for a convoy that could not board before |
| Carriers.TakeAboard | simconvoi.cc:8738-8825 | the candidates that ask board in turn, each as long as there is any space left; in the end none is left who could still board, and nobody else is touched |
| Landing.CutKeepsLoad | simconvoi.cc:8482-8505 | cutting a chain aboard conserves the load of every good |
| Landing.CutAboard | simconvoi.cc:8484-8498 | the steps of the cut amount to two parts aboard the same carrier |
| Landing.CutToFit | simconvoi.cc:8482-8501 | keeps the longest front part of at most 250 vehicles; nothing is cut if not even the first convoy fits |
| Landing.StillAlighted | simconvoi.cc:1713-1731 | what happens to one chain aboard takes nobody else his carrier, whether anybody was aboard nothing before or not |
| Landing.CutAlighted | simconvoi.cc:8484-8498 | both parts of a chain that is cut aboard have heads that know their carrier |
| Landing.EnterTile | simconvoi.cc:8582-8600 | puts every vehicle of every convoy of the chain on the tile without flags |
| Landing.PutAshore | simconvoi.cc:8510-8630 | the chain is off the carrier's list and stands at the halt, flags at its two ends |
| Landing.DisembarkConvoy | simconvoi.cc:8460-8642 | whole piece or nothing: at most 250 vehicles, at most 254 objects on the tile, otherwise it waits; invalid exactly when the tile or the first convoy rules it out; ashore the head is LOADING and all others COUPLED_LOADING, what was cut off stays aboard as it was; nobody is lost and nobody aboard any other carrier is touched |
| Landing.ElsewhereOthers | simconvoi.cc:8460-8642 | a landing leaves everybody aboard every other carrier, and its list, as they were |
| Rescue.TeleportToNearestDepot | simconvoi.cc:8908-8969 | files the whole chain if there is a depot for it |
| Rescue.SendToDepot | simconvoi.cc:8696-8712 | a chain from aboard ends up filed and off the carrier's list |
| Rescue.LostAlighted | simconvoi.cc:5640-5653 | losing the head of a chain aboard takes only the convoys of that chain their carrier |
| Rescue.LostCared | simconvoi.cc:5640-5653 | losing a head aboard leaves convoys aboard nothing exactly when it pulled any |
| Rescue.OrphanLeft | simconvoi.cc:5640-5653 | a carrier with a chain of two aboard whose head is lost: the other one is aboard nothing |
| Rescue.SaveableCared | simconvoi.cc:8645-8736 | if every chain aboard of more than one convoy has a depot, nobody loses his carrier |
| Rescue.GiveUp | simconvoi.cc:8727-8735 | only the head vanishes; its children stay a chain aboard nothing |
| Rescue.ServeOne | simconvoi.cc:8663-8735 | each convoy aboard rides on, lands, waits for room, is filed or is lost, by exact conditions |
| Rescue.ServedKept | simconvoi.cc:8663-8735 | whoever was dealt with stays where it is while the next one is dealt with |
| Rescue.GotOffKept | simconvoi.cc:8663-8735 | who got off, and what was cut off and stayed aboard, is still so after the next one is dealt with |
| Rescue.PutAllAshore | simconvoi.cc:8645-8736 | the descending loop serves exactly the convoys that were aboard; those aboard other carriers stay there; only heads on the list are lost, and whoever is aboard nothing was so before or was pulled by one of them |
| Rescue.UnloadedNext | simconvoi.cc:8645-8736 | serving one convoy more touches the list of this carrier and nobody aboard another |
| Rescue.FileOrLose | simconvoi.cc:8975-8991 | a forced convoy is filed, or lost if there is no depot for it |
| Rescue.DisembarkAllForced | simconvoi.cc:8972-8992 | the list ends up empty; everyone on it is in a depot with its whole chain, or lost if there is none for it, and then what it pulled is aboard nothing; everybody aboard any other carrier stays there, and its list is as it was |
| Rescue.RepairOrphan | simconvoi.cc:1713-1731 | a chain aboard nothing is filed; without a depot its head is lost and the rest is left for the next step; nobody aboard a carrier is touched and nobody else loses his own |
| Visits.EmptyChain | simconvoi.cc:2117-2142 | gets everybody off every convoy of a chain that is about to be filed, each into the depot or lost; the chain itself and everybody aboard other carriers stay as they are |
| Visits.ForcedNext | simconvoi.cc:2134-2142 | the convoys emptied so far stay emptied, and their passengers filed or lost, when the next one is emptied |
| Visits.EnterDepot | simconvoi.cc:2117-2175 | a chain, whatever it carries and whichever way it stands, is emptied, filed in base order and listed; everybody else on the map, in a depot or aboard other carriers stays as he was; only heads of chains aboard are lost, and only those they pulled lose their carrier |
| Visits.StartFromDepot | simdepot.cc:475-567 | of the convoys a depot lists, exactly the heads can be started; the whole chain leaves in base order, linked both ways again, and exactly it is off the list, the others in order |
| Visits.DepotVisit | simconvoi.cc:2117-2221 | entering and leaving is a round trip: same convoys, same order, both links, base order of vehicles; whoever was aboard one of them is in the depot, behind all that were listed before, or lost if there is none for him; fleet, decks, carriers and everybody else stay in order |
| Events.OnMapChain | simconvoi.cc:7803-7822 | every convoy on the map is in a whole chain on the map, and is its head exactly when it drives itself |
| Events.CoupleThem | simconvoi.cc:7327-7345 | any two convoys that may couple do; fleet, decks and the list of the depot stay in order, and nobody loses his carrier |
| Events.UncoupleThem | simconvoi.cc:7348-7393 | the same for cutting a chain behind any of its convoys |
| Events.TurnThemRound | simconvoi.cc:7785-7801 | and for turning the order of a whole chain |
| Events.TurnIt | simconvoi.cc:7749-7783 | and for turning the vehicles of any convoy on the map |
| Events.SendThemOn | simconvoi.cc:7874-7919 | and for sending any chain on, with the states that leaves |
| Events.StopIt | simconvoi.cc:2462-2465 | and for a chain that stops at a halt |
| Events.LeaveIt | simconvoi.cc:5233-5252 | and for a chain that leaves its stop |
| Events.ProceedIt | simconvoi.cc:1755-1790 | and for a head that goes on from one state of its own to another |
| Events.BoardedExplained | simconvoi.cc:8424-8449 | boarding gives the whole chain a carrier and takes nobody his own |
| Events.BoardIt | simconvoi.cc:8374-8457 | and for boarding, with the length of what boarded |
| Events.CallIt | simconvoi.cc:8645-8736 | and for a carrier that calls at a stop: everybody aboard rides on, lands, waits or is rescued by the conditions of one convoy, everybody aboard another carrier stays as he was, and whoever loses his carrier was pulled by a head that was lost |
| Events.EmptyIt | simconvoi.cc:8972-8992 | and for getting everybody off by force, with the same word on those aboard other carriers and on who loses his own |
| Events.FileIt | simconvoi.cc:2117-2175 | and for any chain that enters a depot, with the same word on both |
| Events.StartIt | simdepot.cc:494-567 | and for any that leaves one |
| Events.RepairIt | simconvoi.cc:1713-1731 | and for the repair, which does nothing as long as everybody aboard has a carrier |
| Runs.Happen | simconvoi.cc:7327-7393 | one event: what it does, exactly, and that all stays in order; whoever is aboard nothing after it was so before, or was pulled by a head that the event destroyed |
| Runs.Run | simconvoi.cc:7327-7393 | over any sequence of these events, at every moment: the fleet is in order, the depot lists filed chains, no deck is overloaded by more than the longest chain that boarded until then; each moment follows from the one before by its event, and with it who lost his carrier and why |
| Runs.OrphanOrigin | simconvoi.cc:1713-1731 | over any run, with or without depots: whoever is aboard nothing was so from the start, or was aboard a chain whose head some event before destroyed |
| Runs.CaredUntilLoss | simconvoi.cc:1713-1731 | as long as no chain aboard loses its head, everybody aboard has a carrier |
| Runs.BaseOrderInDepots | simdepot.cc:371-420 | so at every moment of a run all convoys in depots stand in base order, and all others in the order that `reversed` tells |
| BoardingPromise.GetShippingTargetHalt | simconvoi.cc:8292-8308 | the first usable halt after the current entry, none if there is none |
| BoardingPromise.AdvanceTo | simconvoi.cc:8390-8410 | moves on to the first entry at the halt, and leaves a schedule alone that does not call there |
| BoardingPromise.BoardFor | simconvoi.cc:8390-8410 | after boarding, the current entry lies at the promised halt and is the next stop |
| BoardingPromise.CanDeliverShippedTo | simconvoi.cc:8310-8361 | true exactly when some entry delivers before the trip ends |
| BoardingPromise.AskedAgain | simconvoi.cc:8310-8361 | asked again at a stop, the answer is still yes exactly when the carrier does not come back there first |
| BoardingPromise.RideOn | simconvoi.cc:8659-8700 | the ride from any entry on, by induction to the delivering one |
| BoardingPromise.PromiseKept | simconvoi.cc:8659-8700 | the convoy stays aboard until the delivering stop, where landing is attempted, exactly when no stop before it is called at again with loading; otherwise it is rescued |
| BoardingPromise.NoHaltTwice | simconvoi.cc:8659-8700 | in particular when no halt is called at twice before the delivering stop |
| BoardingPromise.PromiseBroken | simconvoi.cc:8344-8350 | on S-A-B-A-D the convoy for D is taken aboard and rescued at the first A |
| Voyages.DecidesAlike | simconvoi.cc:8655-8700 | what a carrier does with a convoy aboard is what its schedule says: it rides on, or is to land, exactly when the ride by schedule says so |
| Voyages.KeptAboard | simconvoi.cc:8655-8700 | if the carrier does not come back to a stop it made before, the convoy stays as it is at every stop before the delivering one, and gets off or waits for room there if its tile can take it at all |
| Sections.GetNoGoNoUsersSection | dataobj/schedule.cc:1052-1112 | finds the section of an entry exactly when there is one |
| Sections.OneStart | dataobj/schedule.cc:1057-1069 | an entry has only one START before it |
| Sections.SameSection | dataobj/schedule.cc:1052-1112 | all entries of a section are enclosed by it, except an END that is also a START: exact condition |
| Sections.EndOfItsOwn | dataobj/schedule.cc:1052-1112 | a schedule of four entries with such an END |
| Sections.OnlySection | dataobj/schedule.cc:1052-1112 | no entry is in two sections |
| SkipSections.Chain.DecideSection | simconvoi.cc:7045-7080 | the recursion ends, restores the guard flags, keeps one verdict per section and every locked verdict; it answers with the memo if that counts, yes while it is evaluating, and otherwise afresh, in accord with what the plan says of the demand; so is every new verdict of any convoy |
| SkipSections.Chain.Evaluate | simconvoi.cc:7067-7079 | a fresh verdict is whether there is demand in the section, by the cargo and the reachable halts, and is recorded as that; evaluations are nested no deeper than there are convoys |
| SkipSections.Chain.Mark | simconvoi.cc:7045-7056 | a verdict of the same step counts, and is locked if it is to be |
| SkipSections.Chain.WouldStopAtEntry | simconvoi.cc:7034-7043 | outside all sections always yes; inside, no only on a standing verdict not to stop, yes only on one to stop or while that is being worked out; a fresh answer is in accord with the demand |
| SkipSections.Chain.ChainWantsStopAtOffset | simconvoi.cc:7110-7122 | yes only if somebody has a waypoint there or stops there; no only if everybody with a schedule has neither, by verdicts that still stand when the last was asked |
| SkipSections.Chain.ChainWouldStopAtEntry | simconvoi.cc:7124-7128 | the same for an entry of one's own, as far ahead for the others |
| SkipSections.Chain.OffsetComesTo | simconvoi.cc:7124-7128 | the entry that far ahead of the current stop is the one that was asked about |
| SkipSections.Chain.LookAt | simconvoi.cc:4651-4754 | one entry of the line: the search ends there, passes it, takes its halt, or asks the chain and takes it exactly if the chain would stop |
| SkipSections.Chain.CalcReachableHalts | simconvoi.cc:4651-4754 | the halts reached are exactly those that the search takes one entry after the other, up to where it ends; memos kept |
| SkipSections.Chain.HasDemandAtHaltBeforeSection | simconvoi.cc:6993-7012 | the answer is exactly whether there is a stop before the section and cargo waits there for one of the halts reached from it |
| SkipSections.Chain.AnyEntryHasDemand | simconvoi.cc:7014-7030 | yes exactly if for some entry that the walk over the section comes to there is cargo aboard, or something to load there for the halts reached |
| SkipSections.Chain.SectionHasDemand | simconvoi.cc:7014-7030 | the answer is exactly whether there is cargo aboard for an entry of the section, or something to load there, or cargo at the stop before it; without a schedule no |
| SkipSections.Chain.DemandAnswers | simconvoi.cc:7014-7030 | whatever the convoys answer each other: what the plan forces is answered yes, and yes is answered only to what the plan allows |
| SkipSections.Chain.LockUpcomingSectionDecision | simconvoi.cc:7082-7108 | the section that the next stop is in ends with a locked verdict, a fresh one in accord with the demand; no locked verdict was changed, and no other was locked but for a convoy in its section |
| SkipSections.Chain.ForgetLeftSectionDecisions | simconvoi.cc:4839-4849 | forgets exactly the verdicts on sections that were left |
| SkipSections.Written | simconvoi.cc:7070-7078 | writing a verdict keeps one per section and every locked one, as nested questions can at most lock fresh verdicts meanwhile |
| SkipSections.StillInExact | simconvoi.cc:4839-4849 | what remains are the sections that contain the current stop |
| SkipSections.Do | simconvoi.cc:7034-7108 | one question is answered by the verdict that counts, or else in accord with the demand; one departure settles the section of the next stop; one stop forgets exactly the verdicts on sections that were left; a convoy of another chain changes nothing |
| SkipSections.DidWithin | simconvoi.cc:7034-7108 | whatever of these is done, a locked verdict is kept unless its convoy forgets it at a stop outside the section |
| SkipSections.Run | simconvoi.cc:4839-4849 | any number of steps, while schedules and cargo change: each moment follows from the one before by what was done |
| SkipSections.LockedStands | simconvoi.cc:4839-4849 | over any run, a locked verdict stands until its convoy forgets it at a stop outside the section |
| SkipSections.LockedAnswers | simconvoi.cc:7034-7062 | and until then it is the answer to every question about an entry of that section |
| RandomPlace.FineTooClose | simcity.cc:4293-4302 | two places of one fine cell are closer than the minimum |
| RandomPlace.CoarseNeighbours | simcity.cc:4313-4344 | places that are too close lie in neighbouring coarse cells |
| RandomPlace.TooClose | simcity.cc:4333-4344 | looking at nine cells is as good as comparing with every chosen place |
| RandomPlace.Distribute | simcity.cc:4293-4302 | every place is in its fine cell |
| RandomPlace.Index | simcity.cc:4303-4312 | exactly the cells that hold a place are indexed |
| RandomPlace.CoveredByChoice | simcity.cc:4323-4349 | dropping the cell of a chosen place loses no place that is far enough |
| RandomPlace.CoveredWithout | simcity.cc:4351-4358 | neither does giving up a place that is too close |
| RandomPlace.NextPlace | simcity.cc:4322-4359 | the search ends, with a place that is far enough or with nothing left |
| RandomPlace.RandomPlace | simcity.cc:4293-4369 | pairwise distance, and maximal if there are fewer than asked for |
| SaturatedMath.SaturatedMulDiv | utils/saturated_math.h:30-77 | exactly min(limit, a * b / d), rounded as asked, without leaving 64 bits |
| SaturatedMath.LongMultiplication | utils/saturated_math.h:47-72 | bit by bit: exact quotient and remainder, or proof that the quotient exceeds its room |
| SaturatedMath.SplitProduct | utils/saturated_math.h:35-47 | whole and fractional part multiply one by one |
| Production.BaseProduction | simfab.cc:1967-1977 | one step of base production with its carried remainder |
| Production.NothingLost | simfab.cc:1967-1977 | produced times D plus remainder equals rate times time plus old remainder, exactly when the step is not saturated |
| Production.RunTotal | simfab.cc:1967-1977 | the same for any sequence of steps |
| Production.SameHoweverSliced | simfab.cc:1967-1977 | two ways to slice the same work produce the same and carry over the same |
| Production.SumAtRate | simfab.cc:1967-1977 | at one rate only the total time counts |
| Rates.RateBounds | simfab.cc:3515-3535 | the rate is between 5 and 100 percent below the maximum and zero exactly from the maximum on |
| Rates.RateIsPart | simfab.cc:3515-3535 | on the ramp the rate is the part of the way that is left to the maximum, rounded down, with five percent as the least |
| Rates.RateFalls | simfab.cc:3515-3535 | the more there is, the slower the work |
| Rates.ScaledBounds | simfab.cc:105-108 | production at a rate is at most production, and something whenever both are something |
| Rates.FromUnitsIsLeast | simfab.cc:650-651 | the rounded-up conversion is the least amount worth that many units |
| Rates.BackAndForth | simfab.cc:2648-2650 | the floor conversion of an amount converts back to at most that amount |
| Rates.ForthAndBack | simfab.cc:650-651 | a shipment size in units survives both conversions |
| Factory.Fabrik.constructor | simfab.cc:850-879 | a new factory's counters are those of a recount |
| Factory.Fabrik.RebuildInactiveCache | simfab.cc:3491-3509 | the recount |
| Factory.Fabrik.ProduceMany | simfab.cc:2035-2081 | every output takes exactly what it desires, up to its limit; the outputs that fill up are not counted |
| Factory.Fabrik.TransformMany | simfab.cc:2157-2275 | whatever the counters say: outputs served in order up to n times the least input, or nothing when an input is believed to be drained; every input gives the n-th part rounded down and no more than it has; if it consumes, the input counter is right afterwards, otherwise as right as before |
| Factory.Fabrik.MakeAndTake | simfab.cc:2162-2265 | the step of a factory whose outputs are not believed to be full |
| Factory.Fabrik.ConsumeMany | simfab.cc:2324-2380 | each input gives what its demand rate asks for, up to its stock, unless all are believed to be drained; the counter stays as right as it was |
| Factory.Fabrik.OrderSync | simfab.cc:2421-2438 | all demands rise alike unless one is believed to be sated; if they do, the counter is right afterwards |
| Factory.Fabrik.OrderAsync | simfab.cc:2439-2464 | each unsated demand rises by its own share unless all are believed to be sated; the counter stays as right as it was |
| Factory.Fabrik.LiefereAn | simfab.cc:1811-1858 | the stock is capped and the excess counts against demand; all that arrives is of use if it fits, otherwise all but the whole units nearest to the excess; the input counter stays as right as it was exactly when something arrived or was there and something can be stored |
| Factory.Fabrik.ApplyTransit | simfab.cc:329-356 | goods that set out lower the demand, in 32 bits; the counter stays right exactly unless the demand wraps round from below its limit to above |
| Factory.Fabrik.Refund | simfab.cc:2755-2772 | goods taken back raise it again, in 32 bits; the counter stays right exactly unless the demand wraps round from above its limit to below |
| Factory.Fabrik.SetOutAndBack | simfab.cc:329-356 | setting out and taking back leaves nothing behind, even if the demand wraps round in between |
| Factory.SetOutInRange | simfab.cc:329-356 | as long as nothing leaves 32 bits, the demand falls by exactly what sets out and no wrap is possible |
| Factory.WrapsUpExact | simfab.cc:344-351 | exactly which amounts, when they set out, make a demand below its limit wrap round to one that is not |
| Factory.WrapsDownExact | simfab.cc:2755-2772 | exactly which amounts, when they are taken back, make a demand wrap round to one below its limit |
| Factory.Fabrik.VerteileWaren | simfab.cc:2648-2792 | never ships more than there is; the counter drops exactly when the output stops being full |
| Factory.ServedNext | simfab.cc:2183-2250 | each output gets what it desires or what is left |
| Factory.SharedOut | simfab.cc:2259-2265 | the n-th part of what was made is at most the least input |
| Factory.ProduceOutputs | simfab.cc:2183-2250 | total made is the smaller of what inputs allow and what outputs desire, served in order; no output above its limit |
| Factory.Transform | simfab.cc:2160-2265 | consumption and production of a step in exact relation, whatever the counters say |
| Factory.DeliveredStock | simfab.cc:1823-1848 | when an input is still without stock after a delivery |
| Factory.EarlyExit | simfab.cc:2037-2039 | a producer that believes it is full is right exactly when the fills it did not count are a multiple of 256 |
| FactoryRun.Happen | simfab.cc:2035-2465 | one event does exactly what it is to the slots it concerns and nothing to the others, and keeps all stocks between zero and their limits |
| FactoryRun.DidRight | simfab.cc:2035-2465 | right counters of inputs and demands stay right over an event exactly unless it is a delivery that leaves an input drained or an amount that makes a demand wrap round past its limit; a recount makes them right |
| FactoryRun.Run | simfab.cc:2035-2465 | over any run of any factory, from any state of its counters, no stock of an input or output is negative or above its limit, and each moment follows from the one before by its event |
| FactoryRun.RightUntilWrong | simfab.cc:2035-2465 | over any run of a consuming factory the three counters are those of a recount, up to the first event of these kinds and exactly until then |
| Stall.ProducerStalls | simfab.cc:2035-2081 | a producer of one good stalls at its 256th shipment with room in store |
| Stall.StaysStalled | simfab.cc:2035-2081 | and does not produce again, whatever is shipped, until its outputs are counted anew |
| Stall.Recount | simfab.cc:655-703 | a recount, as when the base production is set, sets it going again |
| Stall.EmptyDelivery | simfab.cc:1829-1831 | a delivery of nothing makes a drained input look stocked |
| Stall.LongWayRound | simfab.cc:344-349 | three million units that set out at once make the demand wrap round, which the counter misses |
| TargetFactories.FactorySet.UpdateFactory | simcity.cc:813-829 | keeps the totals; the entry of the factory is changed in place, or a new one comes last; every other entry stays, and the ratio is to be worked out anew |
| TargetFactories.FactorySet.RemoveFactory | simcity.cc:831-841 | keeps the totals; exactly that factory leaves, the others in order, and then the ratio is to be worked out anew |
| TargetFactories.FactorySet.NewMonth | simcity.cc:928-937 | clears supply and remaining of every entry, keeps the totals |
| TargetFactories.FactorySet.RecalcGenerationRatio | simcity.cc:846-925 | the ratio, and the part of its supply that every entry gets, are the largest that the target and the usual number of people allow; what was realised stays realised; totals and 0 <= remaining <= supply kept |
| TargetFactories.RealisedKept | simcity.cc:906-925 | what an entry realised of its supply is taken off the new supply, down to nothing |
| TargetFactories.AllResupplied | simcity.cc:906-925 | every entry gets its part of its own demand as supply, with what it realised deducted from what remains |
| TargetFactories.FactorySet.GetRandomEntry | simcity.cc:796-810 | with a positive total always an entry with something remaining, the one the weight falls to |
| TargetFactories.FallsToOne | simcity.cc:796-810 | a weight falls to one entry only |
| TargetFactories.PickedInProportion | simcity.cc:796-810 | each entry is picked for exactly as many weights as it has remaining |
| TargetFactories.FactorySet.Book | simcity.cc:1978-1987 | a packet books the people there are or, with enforced demand, what remains if that is less; exactly the entry it goes to is charged; totals kept |
| Passengers.Traffic.FindDestination | simcity.cc:2300-2327 | leads to a factory only if one has something remaining |
| Passengers.Traffic.SendPacket | simcity.cc:1968-2136 | who sets out is on the books of the city he leaves, as transported or walked by his route, and who goes back on those of the city he was at, month and year alike; at least one person per packet, all of them unless a factory takes fewer; every other city and every older record as before |
| Passengers.Traffic.Choose | simcity.cc:1968-1987 | a packet is for a factory exactly if one is wanted; then the entry that the weight falls to is charged, and nothing else of the books changes |
| Passengers.Traffic.SendAll | simcity.cc:1959-2136 | the packet loop ends; its packets, each as large as it may be, sum up to exactly the people of the building, the cities gain exactly what the packets say, and each is for a factory exactly if something remains and too few were for factories so far |
| Passengers.Traffic.StepPassagiere | simcity.cc:1925-2204 | conservation: the city gains all its people as generated, as transported and as walked exactly those of the packets with such a route, and every city what returns from it; older records as before; transported plus walked never exceeds generated |
| Passengers.EverybodySetsOut | simcity.cc:1959-2136 | the people of all packets by their four routes are all people there are |
| Passengers.PacketBalanced | simcity.cc:1996-2136 | the records of one packet that sets out and returns balance in every city, the two being one or not |
| Passengers.BalancedTwice | simcity.cc:1959-2136 | books that balance over some packets and over one more balance over all of them |
| Passengers.ChargingNext | simcity.cc:1959-1987 | what the packets do to the factories adds up, whatever else happens to the books of the cities |
| Passengers.Traffic.RollHistory | simcity.cc:1597-1627 | the same after a month or a year has passed |
| Growth.City.CityGrowthBase | simcity.cc:1653-1690 | a tick reports all that is pending |
| Growth.City.NewMonth | simcity.cc:1740-1747 | nothing pending is lost at the end of a month |
| Growth.City.CityGrowthMonthly | simcity.cc:1723-1737 | keeps what is pending as a negative start |
| Growth.Run | simcity.cc:1631-1747 | over any interleaving, all reports plus what is pending equal all that was booked |
| CityNames.AllPrime | simcity.cc:1102 | the strides are primes |
| CityNames.Stride | simcity.cc:1103-1110 | the stride is the first of the primes that does not divide the length, or one if all do, and has no common divisor with it |
| CityNames.NoShortRound | simcity.cc:1112-1118 | fewer steps than there are names never come back |
| CityNames.WalkIsPermutation | simcity.cc:1112-1118 | the walk visits every index exactly once |
| CityNames.FindName | simcity.cc:1099-1125 | an unused name is found whenever there is one |
| FreightList.CompareIsKeyCmp | freight_list_sorter.cc:31-93 | the comparison with its fall-through cases compares keys one after the other |
| FreightList.StrictWeakOrder | freight_list_sorter.cc:31-93 | in every mode it is a strict weak order |
| FreightList.AddGoods | simware.cc:240-249 | what does not fit is returned |
| FreightList.Merge | freight_list_sorter.cc:137-164 | by next stop, no two entries belong together and each is the first of its kind with all that fits of its kind; otherwise the list is what counts, as it came; list and losses together make up the input, category by category |
| FreightList.SameHeadingIsCategory | freight_list_sorter.cc:191-203 | the test for a new heading is a test for a new category |
| FreightList.CategoryTogether | freight_list_sorter.cc:191-204 | in the sorted list all of a category is where its heading is |
| FreightList.Headings | freight_list_sorter.cc:177-208 | each category once, with all of its amount |
| FreightList.SortFreight | freight_list_sorter.cc:125-209 | merged, saturated and sorted in the order of the mode; each category present has one heading, with its total in the input |
| FreightList.AssignCategories | bauer/goods_manager.cc:60-79 | two goods share a category index exactly when they are of one kind |
| MaxSpeed.DragRises | simconvoi.cc:949-953 | the faster, the more power it takes, in spite of the truncating divisions |
| MaxSpeed.ResPowerFalls | simconvoi.cc:949-953 | up to any speed at which the power that is left fits into 32 bits, it is what it should be and falls with the speed |
| MaxSpeed.PassedIsKeptUp | simconvoi.cc:949-953 | the exact condition under which a speed that passes the test for enough power can be kept up |
| MaxSpeed.TooFast | simconvoi.cc:1158-1195 | a convoy of 3200 tonnes without any power that gets a limit of 65536 as its speed |
| MaxSpeed.CalcMaxSpeed | simconvoi.cc:1158-1195 | ends; the speed found passes for one that leaves power, with one that leaves none within the tolerance above; if the numbers fit into 32 bits at the limit, it really leaves power, unless it is 1, and every speed higher by the tolerance, or by one, leaves none, unless it is the limit |

## Left out

- Objects: a convoy is a record in the handle table of one class `Welt`, not an object of its own, and the inputs and outputs of a factory are sequences, so aliasing between convoys or slots is not captured.
- Savegames, windows, messages, statistics arrays, power, boosts, smoke and sound.
- Routes, reservations, signals, speed and the geometry of vehicles; handing over reservations is nothing in the model, as are the caches for electrification, weight and speed.
- Depots.BetreteDepot: is the filing loop alone; `Visits.EnterDepot` empties all carriers of the chain before it, where the source empties each child just before it is filed, so the order of the two on the list of a depot is not modelled.
- Depots.Depot.ConvoiArrived: does not model what the arrival does to the schedule, the cargo and the flags of the convoy.
- Depots.StartConvoi: the checks on schedules and on what the depot can hold are one answer, and the teleport of a chain whose schedule has one stop (simdepot.cc:513-527) is not modelled; assembling a copy anew in another depot is not either, only the order it is copied in.
- Runs.Run: a convoy in a depot is not sent on, and there is one depot. A convoy turns its vehicles round or couples wherever it is on the map, so that the runs include more than the program would ask for.
- Journeys.HatGehalten: does not mark aircraft as reversed, as the runs have none; whether a stop is reached or may be left is the choice of the events.
- Events.SendThemOn: leaves a convoy in a depot alone; what the source does to it is `NextStop.WalkFiled`.
- Visits.EnterDepot: as said of `Depots.BetreteDepot`, the order on the list of a depot may differ where a carrier of the chain files convoys of its own.
- Rescue.TeleportToNearestDepot: one depot stands for the nearest, and one answer for whether there is one that takes the whole chain.
- Landing.PutAshore: what the arrival at the halt does is taken as its outcome, the head LOADING and the children COUPLED_LOADING; the states in between are not modelled.
- Carriers.BoardCarrier: leaves the schedules alone; that they advance while boarding is modelled in `BoardingPromise` only.
- Carriers.TakeAboard: what the halt and the schedules say of a candidate, the destination included, is one answer per candidate.
- Convois.Good: the leading and last flags of vehicles aboard or in a depot are not promised to have any particular value.
- BoardingPromise.PromiseKept: supposes that neither schedule and no halt changes on the way and that the player does not have everything unloaded; otherwise the question is simply asked again.
- Rescue.RepairOrphan: the self-destruction of a head and its destruction in a later step are one step.
- Self-destruction and destruction of convoys on the map; only the loss of the head of a chain aboard is modelled, not the child that is cut out by hand at simconvoi.cc:5619-5628.
- SkipSections.Chain.CalcReachableHalts: what kind of entry the line has at a place, and whether anything is reachable beyond it, are answers of the plan that may depend on what was found so far.
- Factory.Fabrik.TransformMany: the power, the work factor and the flags for working are not modelled; nor are the classic modes and the delivery without limits of the older modes.
- FactoryRun.Run: the limits of the stocks stay the same; what a new base production does to them (simfab.cc:600-655) is not modelled.
- Factory.Fabrik.VerteileWaren: the choice of a halt and the rerouting of what waits there are left out; what is taken back is `Factory.Fabrik.Refund`.
- Passengers: who is happy or not at which halt, and the map of destinations.
- Growth.City.CityGrowthBase: the weighting of the differentials into a growth rate.
- RandomPlace.RandomPlace: the search for suitable squares is the list it starts from; which cell and which place is picked is arbitrary.
- FreightList.SortFreight: how the lines below the headings are written, and the list with capacities.
- FreightList.Sort: stands for the library's sort, of which only the order and the contents of the result are used.
- MaxSpeed.CalcMaxSpeed: speeds are not negative and no product exceeds 64 bits.
