/**
  Client code: the scenarios of the repository's tests, each stated as a
  contract that follows from the specifications of the farm and its animals.
 */
module Scenarios {

  import opened Outcomes
  import opened Variants
  import opened Animals
  import opened Registry

  /** A hungry animal eats once; fed straight away again, it is not hungry. */
  method EatTwice(a: Animal) returns (first: Message, second: Message)
    requires a.isHungry
    modifies a
    ensures first == Eating(a.name) && second == NotHungry(a.name)
    ensures !a.isHungry
  {
    first := a.Eat();
    second := a.Eat();
  }

  /** A sleepy animal sleeps once; sent to sleep straight away again, it is not sleepy. */
  method SleepTwice(a: Animal) returns (first: Message, second: Message)
    requires a.isSleepy
    modifies a
    ensures first == Sleeping(a.name) && second == NotSleepy(a.name)
    ensures !a.isSleepy
  {
    first := a.Sleep();
    second := a.Sleep();
  }

  /** A flying bird offers only "fly", accepts it, and flies. */
  method TweetyFlies() returns (actions: seq<string>, chosen: Result<Message>, performed: Result<Message>)
    ensures actions == ["fly"]
    ensures chosen == Ok(ActionIs("Tweety", "fly"))
    ensures performed == Ok(Flying("Tweety"))
  {
    var tweety := new Animal.Bird("Tweety", true, false);
    actions := tweety.availableActions;
    chosen := tweety.SetAction("fly");
    performed := tweety.PerformAction();
  }

  /** A bird that cannot fly refuses "fly" as an action. */
  method PenguinCannotFly() returns (chosen: Result<Message>, performed: Result<Message>)
    ensures chosen == Err(NotAValidAction("fly", "Bird"))
    ensures performed == Err(NoActionAssigned("Penguin"))
  {
    var penguin := new Animal.Bird("Penguin", false, false);
    chosen := penguin.SetAction("fly");
    performed := penguin.PerformAction();
  }

  /** A dog with both abilities switches from barking to chasing sheep; the last action set wins. */
  method RexSwitchesAction() returns (first: Result<Message>, second: Result<Message>)
    ensures first == Ok(Barking("Rex"))
    ensures second == Ok(ChasingSheep("Rex"))
  {
    var rex := new Animal.Dog("Rex", true, true);
    var _ := rex.SetAction("bark");
    first := rex.PerformAction();
    var _ := rex.SetAction("chase");
    second := rex.PerformAction();
  }

  /** A dog that cannot do anything has no action to accept. */
  method IdleDogRefusesEveryAction(action: string) returns (chosen: Result<Message>)
    ensures chosen == Err(NotAValidAction(action, "Dog"))
  {
    var idle := new Animal.Dog("Idle", false, false);
    chosen := idle.SetAction(action);
  }

  /** A hungry guard dog refuses its duty and says it is hungry, even when also sleepy. */
  method HungryGuardDog() returns (performed: Result<Message>)
    ensures performed == Err(CannotPerform("Rex", Duty, Hungry))
  {
    var rex := new Animal.Dog("Rex", true, false);
    var _ := rex.SetDuty("guard the farm");
    var _ := rex.SetSleepy(true);
    var _ := rex.SetHungry(true);
    performed := rex.PerformDuty();
  }

  /** Without a duty, hunger is not reported: the missing duty is. */
  method MissingDutyComesFirst() returns (performed: Result<Message>)
    ensures performed == Err(NoDutyAssigned("Test Bird"))
  {
    var bird := new Animal.Bird("Test Bird", true, false);
    var _ := bird.SetHungry(true);
    performed := bird.PerformDuty();
  }

  /** A second bird of the same name is refused and the first one stays. */
  method DuplicateTweety() returns (first: Result<Animal>, second: Result<Animal>, count: nat)
    ensures first.Ok? && first.value.species == Species.Bird(true, false)
    ensures second == Err(AlreadyExists("Tweety"))
    ensures count == 1
  {
    var farm := new Farm();
    first := farm.CreateBird(Some("Tweety"), Some(true), Some(false));
    second := farm.CreateBird(Some("Tweety"), Some(false), None);
    count := farm.List().count;
  }

  /** A new farm lists nothing. */
  method EmptyFarmListsNothing() returns (listing: Listing)
    ensures listing == Listing(0, [])
  {
    var farm := new Farm();
    listing := farm.List();
  }

  /** A new farm on which the bird "Bird1" was created. */
  method FarmWithBird() returns (farm: Farm, bird: Animal)
    ensures fresh(farm) && farm.Valid() && farm.order == ["Bird1"]
    ensures farm.animals["Bird1"] == bird && bird.species == Species.Bird(true, false)
  {
    farm := new Farm();
    var created := farm.CreateBird(Some("Bird1"), Some(true), None);
    bird := created.value;
  }

  /** A farm on which a bird and then a dog were created. */
  method BirdThenDog() returns (farm: Farm, bird: Animal, dog: Animal)
    ensures farm.Valid() && farm.order == ["Bird1", "Dog1"]
    ensures farm.animals["Bird1"] == bird && farm.animals["Dog1"] == dog
    ensures bird.species == Species.Bird(true, false) && dog.species == Species.Dog(true, false)
  {
    farm, bird := FarmWithBird();
    var created := farm.CreateDog(Some("Dog1"), Some(true), None);
    dog := created.value;
  }

  /** After a bird and a dog are created, both are listed, in that order. */
  method ListBirdThenDog() returns (listing: Listing)
    ensures listing.count == 2 && |listing.statuses| == 2
    ensures listing.statuses[0].name == "Bird1" && listing.statuses[0].typeName == "Bird" && listing.statuses[0].legs == 2
    ensures listing.statuses[1].name == "Dog1" && listing.statuses[1].typeName == "Dog" && listing.statuses[1].legs == 4
  {
    var farm, bird, dog := BirdThenDog();
    listing := farm.List();
    assert listing.statuses[0] == bird.GetStatus() && listing.statuses[1] == dog.GetStatus();
  }

  /**
    The action routes of the server: the animal is looked up by name, given
    an action, and asked to perform it. A stored animal is valid, so an
    accepted action is always performed by its own behaviour once the
    animal is fed and rested, never by the generic fallback.
   */
  method SetThenPerform(farm: Farm, name: string, action: string) returns (chosen: Result<Message>, performed: Result<Message>)
    requires farm.Valid()
    modifies farm.animals.Values
    ensures farm.Valid()
    ensures name !in farm.animals ==> chosen == Err(NotFoundOnFarm(name)) && performed == chosen
    ensures name in farm.animals ==> (chosen.Ok? <==> action in farm.animals[name].availableActions)
    ensures chosen.Ok? && !farm.animals[name].isHungry && !farm.animals[name].isSleepy ==>
      performed.Ok? && performed.value != PerformingAction(name, action)
  {
    var found := farm.GetAnimal(name);
    if found.Err? {
      return Err(found.error), Err(found.error);
    }
    var animal := found.value;
    chosen := animal.SetAction(action);
    performed := animal.PerformAction();
  }

  /** Deleting an animal makes it unknown; deleting it again reports it not found. */
  method DeleteTwice() returns (first: Result<Message>, second: Result<Message>, lookup: Result<Animal>)
    ensures first == Ok(Removed("Rex"))
    ensures second == Err(NotFound("Rex"))
    ensures lookup == Err(NotFoundOnFarm("Rex"))
  {
    var farm := new Farm();
    var _ := farm.CreateDog(Some("Rex"), None, None);
    first := farm.Delete("Rex");
    second := farm.Delete("Rex");
    lookup := farm.GetAnimal("Rex");
  }
}
