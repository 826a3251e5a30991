/**
  The two kinds of farm animal. Each kind fixes the leg count and is built
  from two capability flags; each flag unlocks one named action.
 */
module Variants {

  import opened Outcomes

  /** A bird can be able to fly and to crow; a dog to bark and to chase sheep. */
  datatype Species = Bird(canFly: bool, canCrow: bool) | Dog(canBark: bool, canChase: bool)
  {
    /** The class name the source reports as the animal's type. */
    function TypeName(): (t: string)
      ensures t == "Bird" || t == "Dog"
      ensures t == "Bird" <==> Bird?
    {
      if Bird? then "Bird" else "Dog"
    }

    /** Birds stand on two legs, dogs on four. */
    function Legs(): (n: nat)
      ensures Bird? ==> n == 2
      ensures Dog? ==> n == 4
    {
      if Bird? then 2 else 4
    }

    /** The first capability flag (fly, bark) and the action it unlocks. */
    function FirstAbility(): bool { if Bird? then canFly else canBark }
    function FirstAction(): string { if Bird? then "fly" else "bark" }

    /** The second capability flag (crow, chase) and the action it unlocks. */
    function SecondAbility(): bool { if Bird? then canCrow else canChase }
    function SecondAction(): string { if Bird? then "crow" else "chase" }
  }

  /**
    The actions an animal of this species may be given: the first action if
    the first flag is set, then the second if the second flag is set.
   */
  function ActionsOf(sp: Species): (acts: seq<string>)
    ensures forall a :: a in acts <==>
      (a == sp.FirstAction() && sp.FirstAbility()) || (a == sp.SecondAction() && sp.SecondAbility())
    ensures forall i, j :: 0 <= i < j < |acts| ==> acts[i] == sp.FirstAction() && acts[j] == sp.SecondAction()
    ensures forall i, j :: 0 <= i < j < |acts| ==> acts[i] != acts[j]
  {
    (if sp.FirstAbility() then [sp.FirstAction()] else []) +
    (if sp.SecondAbility() then [sp.SecondAction()] else [])
  }

  /**
    Whether the species has a behaviour method of this (lower-case) name: the
    explicit table that replaces the source's lookup of a method by name.
   */
  predicate HasBehaviour(sp: Species, action: string)
  {
    action == sp.FirstAction() || action == sp.SecondAction()
  }

  /**
    Every action an animal may be given names a behaviour of its species,
    and the capability guarding that behaviour is held.
   */
  lemma AvailableActionsHaveBehaviours(sp: Species, action: string)
    requires action in ActionsOf(sp)
    ensures HasBehaviour(sp, action)
    ensures action == sp.FirstAction() ==> sp.FirstAbility()
    ensures action == sp.SecondAction() ==> sp.SecondAbility()
  {
  }

  /** An omitted capability flag defaults to false. */
  function OrFalse(flag: Option<bool>): (b: bool)
    ensures b <==> flag == Some(true)
  {
    match flag
    case None => false
    case Some(b) => b
  }
}
