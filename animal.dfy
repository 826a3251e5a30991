/**
  The animal state machine: hunger and sleepiness gate the performance of a
  duty (free text) and of an action (one of the species' available actions).
 */
module Animals {

  import opened Outcomes
  import opened Variants

  /** The record `getStatus` returns; `abilities` carries the two species-specific flags. */
  datatype Snapshot = Snapshot(
    name: string,
    typeName: string,
    legs: nat,
    isHungry: bool,
    isSleepy: bool,
    currentDuty: Option<string>,
    currentAction: Option<string>,
    availableActions: seq<string>,
    abilities: Species)

  /** A snapshot whose type tag, legs and actions agree with its species. */
  predicate Coherent(s: Snapshot)
  {
    && s.typeName == s.abilities.TypeName()
    && s.legs == s.abilities.Legs()
    && s.availableActions == ActionsOf(s.abilities)
    && (s.currentAction.Some? ==> s.currentAction.value in s.availableActions)
  }

  /** JavaScript truthiness of an optional string: `null` and `""` are both unset. */
  predicate IsSet(o: Option<string>)
    ensures IsSet(o) <==> o != None && o != Some("")
  {
    o.Some? && o.value != ""
  }

  class Animal {
    const name: string
    const species: Species
    const legs: nat
    const availableActions: seq<string>
    var isHungry: bool
    var isSleepy: bool
    var currentDuty: Option<string>
    var currentAction: Option<string>

    /** The object invariant: the fixed fields match the species, and any action set is available. */
    ghost predicate Valid()
      reads this
    {
      && legs == species.Legs()
      && availableActions == ActionsOf(species)
      && (currentAction.Some? ==> currentAction.value in availableActions)
    }

    /** The state every animal starts in. */
    predicate Pristine()
      reads this
    {
      !isHungry && !isSleepy && currentDuty == None && currentAction == None
    }

    constructor Bird(name: string, canFly: bool, canCrow: bool)
      ensures Valid() && Pristine()
      ensures this.name == name && species == Species.Bird(canFly, canCrow)
      ensures legs == 2
      ensures ("fly" in availableActions <==> canFly) && ("crow" in availableActions <==> canCrow)
    {
      this.name := name;
      species := Species.Bird(canFly, canCrow);
      legs := 2;
      var actions: seq<string> := [];
      if canFly {
        actions := actions + ["fly"];
      }
      if canCrow {
        actions := actions + ["crow"];
      }
      availableActions := actions;
      isHungry, isSleepy := false, false;
      currentDuty, currentAction := None, None;
    }

    constructor Dog(name: string, canBark: bool, canChase: bool)
      ensures Valid() && Pristine()
      ensures this.name == name && species == Species.Dog(canBark, canChase)
      ensures legs == 4
      ensures ("bark" in availableActions <==> canBark) && ("chase" in availableActions <==> canChase)
    {
      this.name := name;
      species := Species.Dog(canBark, canChase);
      legs := 4;
      var actions: seq<string> := [];
      if canBark {
        actions := actions + ["bark"];
      }
      if canChase {
        actions := actions + ["chase"];
      }
      availableActions := actions;
      isHungry, isSleepy := false, false;
      currentDuty, currentAction := None, None;
    }

    /** Feeding only has an effect on a hungry animal. */
    method Eat() returns (m: Message)
      modifies this`isHungry
      ensures !isHungry
      ensures m == if old(isHungry) then Eating(name) else NotHungry(name)
    {
      if !isHungry {
        return NotHungry(name);
      }
      isHungry := false;
      m := Eating(name);
    }

    /** Sleeping only has an effect on a sleepy animal. */
    method Sleep() returns (m: Message)
      modifies this`isSleepy
      ensures !isSleepy
      ensures m == if old(isSleepy) then Sleeping(name) else NotSleepy(name)
    {
      if !isSleepy {
        return NotSleepy(name);
      }
      isSleepy := false;
      m := Sleeping(name);
    }

    method SetHungry(hungry: bool) returns (m: Message)
      modifies this`isHungry
      ensures isHungry == hungry && m == NowHungry(name, hungry)
    {
      isHungry := hungry;
      m := NowHungry(name, hungry);
    }

    method SetSleepy(sleepy: bool) returns (m: Message)
      modifies this`isSleepy
      ensures isSleepy == sleepy && m == NowSleepy(name, sleepy)
    {
      isSleepy := sleepy;
      m := NowSleepy(name, sleepy);
    }

    /** Any text is accepted, the empty one included; it replaces the previous duty. */
    method SetDuty(duty: string) returns (m: Message)
      modifies this`currentDuty
      ensures currentDuty == Some(duty) && m == DutyIs(name, duty)
    {
      currentDuty := Some(duty);
      m := DutyIs(name, duty);
    }

    /** The reason that stops a hungry or sleepy animal; hunger is named first. */
    function Incapacity(): (r: Option<Reason>)
      reads this
      ensures r.None? <==> !isHungry && !isSleepy
      ensures isHungry ==> r == Some(Hungry)
      ensures !isHungry && isSleepy ==> r == Some(Sleepy)
    {
      if isHungry then Some(Hungry) else if isSleepy then Some(Sleepy) else None
    }

    /**
      A missing duty is reported before hunger, hunger before sleepiness;
      only a rested, fed animal with a duty performs it.
     */
    function PerformDuty(): (r: Result<Message>)
      reads this
      ensures !IsSet(currentDuty) ==> r == Err(NoDutyAssigned(name))
      ensures IsSet(currentDuty) && isHungry ==> r == Err(CannotPerform(name, Duty, Hungry))
      ensures IsSet(currentDuty) && !isHungry && isSleepy ==> r == Err(CannotPerform(name, Duty, Sleepy))
      ensures r.Ok? <==> IsSet(currentDuty) && !isHungry && !isSleepy
      ensures r.Ok? ==> r.value == PerformingDuty(name, currentDuty.value)
    {
      if !IsSet(currentDuty) then Err(NoDutyAssigned(name))
      else if Incapacity().Some? then Err(CannotPerform(name, Duty, Incapacity().value))
      else Ok(PerformingDuty(name, currentDuty.value))
    }

    /** An action is accepted exactly when it is one of the available actions. */
    method SetAction(action: string) returns (r: Result<Message>)
      requires Valid()
      modifies this`currentAction
      ensures Valid()
      ensures r.Ok? <==> action in availableActions
      ensures r.Ok? ==> r.value == ActionIs(name, action) && currentAction == Some(action)
      ensures r.Err? ==> r.error == NotAValidAction(action, species.TypeName()) && currentAction == old(currentAction)
    {
      if action !in availableActions {
        return Err(NotAValidAction(action, species.TypeName()));
      }
      currentAction := Some(action);
      r := Ok(ActionIs(name, action));
    }

    /** A bird flies only if it was given the ability. */
    function Fly(): (r: Result<Message>)
      requires species.Bird?
      ensures r.Ok? <==> species.canFly
      ensures r == Ok(Flying(name)) || r == Err(CannotFly(name))
    {
      if !species.canFly then Err(CannotFly(name)) else Ok(Flying(name))
    }

    /** A bird crows only if it was given the ability. */
    function Crow(): (r: Result<Message>)
      requires species.Bird?
      ensures r.Ok? <==> species.canCrow
      ensures r == Ok(Crowing(name)) || r == Err(CannotCrow(name))
    {
      if !species.canCrow then Err(CannotCrow(name)) else Ok(Crowing(name))
    }

    /** A dog barks only if it was given the ability. */
    function Bark(): (r: Result<Message>)
      requires species.Dog?
      ensures r.Ok? <==> species.canBark
      ensures r == Ok(Barking(name)) || r == Err(CannotBark(name))
    {
      if !species.canBark then Err(CannotBark(name)) else Ok(Barking(name))
    }

    /** A dog chases sheep only if it was given the ability. */
    function Chase(): (r: Result<Message>)
      requires species.Dog?
      ensures r.Ok? <==> species.canChase
      ensures r == Ok(ChasingSheep(name)) || r == Err(CannotChaseSheep(name))
    {
      if !species.canChase then Err(CannotChaseSheep(name)) else Ok(ChasingSheep(name))
    }

    /**
      A missing action is reported first, then hunger, then sleepiness.
      Otherwise the action is dispatched to the species' behaviour of that
      name; for a valid animal the dispatch always finds the behaviour and
      its capability guard always passes, so neither the guard's failure nor
      the generic fallback can be returned.
     */
    function PerformAction(): (r: Result<Message>)
      reads this
      ensures !IsSet(currentAction) ==> r == Err(NoActionAssigned(name))
      ensures IsSet(currentAction) && isHungry ==> r == Err(CannotPerform(name, Action, Hungry))
      ensures IsSet(currentAction) && !isHungry && isSleepy ==> r == Err(CannotPerform(name, Action, Sleepy))
      ensures r.Ok? <==> IsSet(currentAction) && !isHungry && !isSleepy && (HasBehaviour(species, currentAction.value) ==> Capable(currentAction.value))
      ensures IsSet(currentAction) && !isHungry && !isSleepy && !HasBehaviour(species, currentAction.value) ==>
        r == Ok(PerformingAction(name, currentAction.value))
      ensures Valid() && IsSet(currentAction) && !isHungry && !isSleepy ==>
        && r.Ok?
        && (currentAction.value == "fly" ==> r.value == Flying(name))
        && (currentAction.value == "crow" ==> r.value == Crowing(name))
        && (currentAction.value == "bark" ==> r.value == Barking(name))
        && (currentAction.value == "chase" ==> r.value == ChasingSheep(name))
    {
      if !IsSet(currentAction) then Err(NoActionAssigned(name))
      else if Incapacity().Some? then Err(CannotPerform(name, Action, Incapacity().value))
      else
        var action := currentAction.value;
        if action == species.FirstAction() then (if species.Bird? then Fly() else Bark())
        else if action == species.SecondAction() then (if species.Bird? then Crow() else Chase())
        else Ok(PerformingAction(name, action))
    }

    /** Whether the capability guarding the behaviour of this name is held. */
    predicate Capable(action: string)
    {
      (action == species.FirstAction() ==> species.FirstAbility())
      && (action == species.SecondAction() ==> species.SecondAbility())
    }

    /** A read-only snapshot of the animal; a valid animal's snapshot is coherent. */
    function GetStatus(): (s: Snapshot)
      reads this
      ensures s.name == name && s.abilities == species && s.typeName == species.TypeName()
      ensures s.legs == legs && s.availableActions == availableActions
      ensures s.isHungry == isHungry && s.isSleepy == isSleepy
      ensures s.currentDuty == currentDuty && s.currentAction == currentAction
      ensures Valid() ==> Coherent(s)
    {
      Snapshot(name, species.TypeName(), legs, isHungry, isSleepy,
               currentDuty, currentAction, availableActions, species)
    }
  }
}
