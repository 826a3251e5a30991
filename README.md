# Animal farm: a verified model

This project models the core of a small farm-animal registry. Animals are
birds and dogs. Each animal has a name, a fixed leg count and a fixed set of
available actions, built from two capability flags. Its state is four
mutable fields: hungry, sleepy, the current duty and the current action.
Hunger and sleepiness stop it from performing its duty or its action. An
action is dispatched to the species' own behaviour (fly, crow, bark, chase
sheep), and each behaviour is guarded by its capability. The farm keeps the
animals in a map from name to animal, in insertion order. It refuses
missing, empty and duplicate names. It looks animals up, deletes them, lists
them and counts them for the metrics.

Layout, one module per component:

- `outcomes.dfy` (`Outcomes`): `Option`, `Result`, the success messages and
  the failures. Each failure constructor stands for one distinct error text
  of the source.
- `variants.dfy` (`Variants`): the `Species` datatype. `Bird(canFly, canCrow)`
  and `Dog(canBark, canChase)` fix the type name, the leg count, the two
  action names and, through `ActionsOf`, the ordered available actions.
- `animal.dfy` (`Animals`): the class `Animal`. It has two named constructors,
  `Bird` and `Dog`, and no anonymous one, so a bare animal cannot be built.
  The mutators are methods with field-level `modifies` frames. The read-only
  queries are functions that read the object. `Valid()` is the object
  invariant: the current action, when set, is one of the available actions.
- `farm.dfy` (`Registry`): the class `Farm`, holding `animals: map<string, Animal>`
  and `order: seq<string>`, the keys in insertion order. `Valid()` says the
  order has no duplicates, holds exactly the map's keys, and every animal is
  stored under its own name and keeps its own invariant. The listing and the metrics are read-only
  functions of the farm, as the source computes them with `map` and
  `filter`. Each metric is a filtered list's length, counted along the
  insertion order and proved equal to the number of names that pass.
- `scenarios.dfy` (`Scenarios`): client methods for the concrete scenarios of
  the repository's tests, each stated as a contract.

JavaScript truthiness is kept where it decides behaviour. A duty or action
is "set" only when it is present and not `""` (`IsSet`). A name for a new
animal is accepted only when it is present and not `""`. An omitted
capability flag becomes `false`, as the constructors' default parameters do.
The source's dynamic method lookup, `this[action.toLowerCase()]`, is an
explicit test of species and action name.

## Model

| member | source | states |
|---|---|---|
| `Variants.ActionsOf` | models/Bird.js:12-15 | the available actions hold the first action (fly, bark) exactly when its flag is set and the second (crow, chase) exactly when its flag is set; the first always precedes the second; no action repeats |
| `Variants.OrFalse` | models/Bird.js:7 | an omitted capability flag is false and a given one is kept, as the default parameters of the bird and dog constructors make it (also models/Dog.js:7) |
| `Variants.AvailableActionsHaveBehaviours` | models/Animal.js:90-96 | every available action names a behaviour method of the species, and that behaviour's capability is held, so dispatch never falls back |
| `Animals.Animal.Bird` | models/Bird.js:7-16 | a new bird has 2 legs, stores both flags, offers "fly" iff it can fly and "crow" iff it can crow, is valid, and starts neither hungry nor sleepy with no duty and no action |
| `Animals.Animal.Dog` | models/Dog.js:7-16 | a new dog has 4 legs, stores both flags, offers "bark" iff it can bark and "chase" iff it can chase, is valid, and starts in the same initial state |
| `Animals.Animal.Eat` | models/Animal.js:20-26 | changes only the hunger flag; afterwards the animal is not hungry; the reply is "eating" iff it was hungry and "not hungry" otherwise |
| `Animals.Animal.Sleep` | models/Animal.js:28-34 | changes only the sleepiness flag; afterwards the animal is not sleepy; the reply is "sleeping" iff it was sleepy and "not sleepy" otherwise |
| `Animals.Animal.SetHungry` | models/Animal.js:36-39 | sets the hunger flag to the argument and changes nothing else |
| `Animals.Animal.SetSleepy` | models/Animal.js:41-44 | sets the sleepiness flag to the argument and changes nothing else |
| `Animals.Animal.SetDuty` | models/Animal.js:47-50 | replaces the duty with the argument, the empty text included, and changes nothing else |
| `Animals.IsSet` | models/Animal.js:53 | an optional text counts as set exactly when it is present and not the empty text, as JavaScript truthiness of `currentDuty` and `currentAction` decides (also models/Animal.js:78) |
| `Animals.Animal.Incapacity` | models/Animal.js:57-63 | an animal is stopped iff it is hungry or sleepy; the reason is hunger whenever it is hungry, and sleepiness when it is sleepy but not hungry |
| `Animals.Animal.PerformDuty` | models/Animal.js:52-66 | a missing or empty duty is reported first, even for a hungry or sleepy animal; then hunger, then sleepiness; it succeeds iff a duty is set and the animal is neither; the success names the duty; it changes nothing |
| `Animals.Animal.SetAction` | models/Animal.js:69-75 | succeeds iff the action is available, and then it is the current action; on refusal ("not a valid action", with the type name) the current action is unchanged; the invariant is kept |
| `Animals.Animal.Fly` | models/Bird.js:18-23 | succeeds with "flying" iff the bird can fly, otherwise fails with "cannot fly" |
| `Animals.Animal.Crow` | models/Bird.js:25-30 | succeeds with "crowing" iff the bird can crow, otherwise fails with "cannot crow" |
| `Animals.Animal.Bark` | models/Dog.js:18-23 | succeeds with "barking" iff the dog can bark, otherwise fails with "cannot bark" |
| `Animals.Animal.Chase` | models/Dog.js:25-30 | succeeds with "chasing sheep" iff the dog can chase, otherwise fails with "cannot chase sheep" |
| `Animals.Animal.PerformAction` | models/Animal.js:77-97 | a missing action is reported first, then hunger, then sleepiness; an unknown name falls back to the generic message; for a valid animal that is ready, it always succeeds with the behaviour of the current action (fly, crow, bark, chase sheep), so the capability failure and the fallback are unreachable; it changes nothing |
| `Animals.Animal.GetStatus` | models/Animal.js:100-111 | a read-only snapshot of every field plus the species flags (Bird.js and Dog.js lines 32-38); for a valid animal the type tag, legs and available actions agree with the species and the current action is available |
| `Registry.Erase` | server.js:171 | deleting a key from the map's insertion order never makes it longer; what it keeps is stated by the three lemmas below |
| `Registry.EraseKeeps` | server.js:171 | removing a key keeps every other key and only those, keeps a duplicate-free order duplicate-free, and shortens it by one when the key was present |
| `Registry.EraseAbsent` | server.js:167-171 | removing a key that is not present leaves the order as it is |
| `Registry.EraseAppend` | server.js:171 | removing a key from two concatenated orders removes it from each part |
| `Registry.EraseAt` | server.js:171 | removing the key at a position of a duplicate-free order leaves the keys before and after it, in their order |
| `Registry.KeyCount` | server.js:51 | a map whose keys are exactly the entries of a duplicate-free sequence has as many entries as the sequence |
| `Registry.CountMarked` | server.js:52-57 | the length of a filtered list never exceeds the length of the list |
| `Registry.CountMarkedIsCard` | server.js:52-57 | along a duplicate-free list of names, the length of the filtered list is the number of distinct names that pass the filter |
| `Registry.Farm.constructor` | server.js:24 | the farm starts empty |
| `Registry.Farm.SizeIsOrderLength` | server.js:86-88 | the size of the map equals the number of names in the insertion order |
| `Registry.Farm.StatusesOf` | server.js:86 | one snapshot per key, in the order of the keys, each the status of the animal stored under it |
| `Registry.Farm.GetAnimal` | server.js:27-33 | fails with "not found on the farm" iff the name is not a key; otherwise returns the stored animal, whose name is the key and which keeps its own invariant on a valid farm; it changes nothing |
| `Registry.Farm.Admission` | server.js:98-106 | a missing or empty name is refused with "Name is required" before a taken name is refused with "already exists"; only a set, unused name is admitted |
| `Registry.Farm.Insert` | server.js:109 | adds a valid animal under its own name at the end of the insertion order, growing the farm by one and keeping the invariant |
| `Registry.Farm.CreateBird` | server.js:94-121 | a refused name leaves the farm unchanged and returns the refusal; otherwise a fresh, pristine bird with the given flags (omitted ones false) is added under its name, the size grows by one, and looking the name up returns it |
| `Registry.Farm.CreateDog` | server.js:124-151 | the same as for birds, for a dog with the given bark and chase flags |
| `Registry.Farm.Delete` | server.js:164-176 | an absent name fails with "not found" and changes nothing; a present name is removed with nothing else changed, the others keep their order, the size shrinks by one; afterwards looking it up fails |
| `Registry.Farm.List` | server.js:85-91 | the count equals the size of the farm and the number of statuses; the i-th status is that of the i-th animal in insertion order, which carries that name; every status is coherent: its type tag, legs and actions agree with the species and its current action is available |
| `Registry.Farm.CountsArePassing` | server.js:49-57 | for every filter, counting along the insertion order gives the number of animals on the farm that pass it |
| `Registry.Farm.BirdsAndDogs` | server.js:52-53 | every animal is a bird or a dog and never both, so the birds and the dogs add up to the size of the farm |
| `Registry.Passes` | server.js:52-57 | the filter callbacks: the bird and dog filters hold exactly for birds and dogs, the duty and action filters exactly when the duty or action is present and not empty |
| `Registry.Farm.CollectMetrics` | server.js:48-58 | the total is the size of the farm; each count is the number of animals on the farm that pass its filter (class name, hunger, sleepiness, truthy duty, truthy action); birds plus dogs equals the total; no count exceeds the total; it changes nothing |
| `Scenarios.EatTwice` | tests/animal.test.js:92-102 | a hungry animal eats, and fed again straight away it is not hungry |
| `Scenarios.SleepTwice` | tests/animal.test.js:104-109 | a sleepy animal sleeps, and sent to sleep again straight away it is not sleepy |
| `Scenarios.TweetyFlies` | tests/animal.test.js:20-25 | a bird that can only fly offers exactly "fly", accepts it and flies |
| `Scenarios.PenguinCannotFly` | tests/animal.test.js:27-30 | a bird that cannot fly refuses "fly" as not a valid action and has no action to perform |
| `Scenarios.RexSwitchesAction` | tests/animal.test.js:136-147 | a dog with both abilities barks, then after switching chases sheep: the last action set wins |
| `Scenarios.IdleDogRefusesEveryAction` | models/Dog.js:13-15 | a dog with neither ability refuses every action |
| `Scenarios.HungryGuardDog` | tests/animal.test.js:77-82 | a hungry dog with a duty refuses it because it is hungry; the test is extended by also making the dog sleepy, to show that hunger is reported before sleepiness |
| `Scenarios.MissingDutyComesFirst` | tests/animal.test.js:126-128 | a hungry bird without a duty is told it has no duty |
| `Scenarios.DuplicateTweety` | tests/api.test.js:108-119 | a second bird named "Tweety" is refused with "already exists" and the farm keeps one animal |
| `Scenarios.EmptyFarmListsNothing` | tests/api.test.js:136-141 | a new farm lists no animals, with count 0 |
| `Scenarios.FarmWithBird` | tests/api.test.js:144 | creating the bird "Bird1" on a new farm stores it under its name as the only entry |
| `Scenarios.BirdThenDog` | tests/api.test.js:144-145 | creating the bird "Bird1" and then the dog "Dog1" stores both under their names, in that order, on a valid farm |
| `Scenarios.ListBirdThenDog` | tests/api.test.js:143-151 | after a bird and a dog are created, the listing has count 2 and shows the bird, then the dog, with their type names and legs |
| `Scenarios.SetThenPerform` | server.js:263-288 | the action routes: an unknown name fails with "not found on the farm"; a stored animal accepts exactly its available actions, the farm stays valid, and an accepted action of a fed, rested animal is performed by its own behaviour, never by the generic fallback |
| `Scenarios.DeleteTwice` | server.js:164-176 | deleting an animal removes it; deleting it again and looking it up both fail |

## Left out

- The HTTP layer of `server.js` is not modelled. That covers routing, status codes, JSON bodies, the `req.body` type checks and the route-level "duty is required" and "action is required" checks. Names and duties are strings, flags booleans.
- Swagger loading, the logger and the request logger are left out. They are foreign libraries whose sources are not part of this model.
- The `/health` endpoint is left out. It depends on the wall clock.
- `app.listen`, the startup banners and the 500 handler are left out. They are process bootstrap and catch-all error plumbing.
- The benchmarks, the test configuration and the tests are left out. The tests appear only as the `Scenarios` clients.
- Messages are datatype constructors carrying the animal's name and any duty or action, not rendered text.
- `Animals.Animal.GetStatus`: the source's fallback `availableActions || []` is not modelled. Every animal is built by a species constructor, which always sets the available actions.
- `Animals.Animal.PerformAction`: the dispatch consults only the species' own behaviour methods. JavaScript's lookup would also find inherited methods such as `eat` when given that name. `toLowerCase` is not modelled. Both are irrelevant to reachable states, because the current action is always one of the lower-case names fly, crow, bark or chase.
- The base constructor's runtime check against building a bare animal is made static. The class has only the two species constructors.
- `Animals.Animal.Fly`, `Crow`, `Bark`, `Chase`: calling a behaviour of the other species is a missing-method error in the source; here it is excluded by a precondition on the species.
