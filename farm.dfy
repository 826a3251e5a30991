/**
  The farm: an in-memory registry from name to animal that remembers the
  order in which names were inserted, as a JavaScript `Map` does.
 */
module Registry {

  import opened Outcomes
  import opened Variants
  import opened Animals

  /** No name occurs twice. */
  predicate Distinct(keys: seq<string>)
  {
    forall i, j :: 0 <= i < j < |keys| ==> keys[i] != keys[j]
  }

  /** The keys with `k` taken out, the others kept in their order. */
  function Erase(keys: seq<string>, k: string): (r: seq<string>)
    ensures |r| <= |keys|
  {
    if keys == [] then []
    else if keys[0] == k then Erase(keys[1..], k)
    else [keys[0]] + Erase(keys[1..], k)
  }

  /**
    Erasing keeps every other key and only those; it keeps a duplicate-free
    order duplicate-free and, when the key was present, one shorter.
   */
  lemma {:induction false} EraseKeeps(keys: seq<string>, k: string)
    ensures forall x :: x in Erase(keys, k) <==> x in keys && x != k
    ensures Distinct(keys) ==> Distinct(Erase(keys, k))
    ensures Distinct(keys) && k in keys ==> |Erase(keys, k)| == |keys| - 1
  {
    if keys != [] {
      var tail := keys[1..];
      EraseKeeps(tail, k);
      assert forall x :: x in keys <==> x == keys[0] || x in tail;
      if Distinct(keys) {
        assert keys[0] !in tail && Distinct(tail);
        if keys[0] != k {
          var rest := Erase(tail, k);
          assert Erase(keys, k) == [keys[0]] + rest;
          assert keys[0] !in rest;
        } else {
          EraseAbsent(tail, k);
        }
      }
    }
  }

  /** Erasing a key that is absent changes nothing. */
  lemma {:induction false} EraseAbsent(keys: seq<string>, k: string)
    requires k !in keys
    ensures Erase(keys, k) == keys
  {
    if keys != [] {
      EraseAbsent(keys[1..], k);
    }
  }

  /** Erasing distributes over concatenation. */
  lemma {:induction false} EraseAppend(a: seq<string>, b: seq<string>, k: string)
    ensures Erase(a + b, k) == Erase(a, k) + Erase(b, k)
  {
    if a == [] {
      assert a + b == b;
    } else {
      assert (a + b)[1..] == a[1..] + b;
      EraseAppend(a[1..], b, k);
    }
  }

  /** Erasing a name leaves the names before it and after it in place. */
  lemma EraseAt(keys: seq<string>, p: nat)
    requires p < |keys| && Distinct(keys)
    ensures Erase(keys, keys[p]) == keys[..p] + keys[p + 1..]
  {
    var k, before, after := keys[p], keys[..p], keys[p + 1..];
    assert keys[p..] == [k] + after;
    assert keys == before + keys[p..];
    assert k !in before && k !in after;
    EraseAppend(before, [k] + after, k);
    EraseAppend([k], after, k);
    EraseAbsent(before, k);
    EraseAbsent(after, k);
    assert Erase([k], k) == [];
  }

  /** A map whose keys are exactly the names of a duplicate-free sequence has that many entries. */
  lemma {:induction false} KeyCount<V>(m: map<string, V>, keys: seq<string>)
    requires Distinct(keys)
    requires forall k :: k in m <==> k in keys
    ensures |m| == |keys|
  {
    if keys == [] {
      assert m.Keys == {};
    } else {
      var k := keys[|keys| - 1];
      var rest := keys[..|keys| - 1];
      assert k !in rest;
      var m' := m - {k};
      forall x
        ensures x in m' <==> x in rest
      {
        assert x in keys <==> x in rest || x == k;
      }
      KeyCount(m', rest);
      assert m.Keys == m'.Keys + {k};
    }
  }

  /** The counts the metrics report. */
  datatype Metrics = Metrics(
    totalAnimals: nat,
    birds: nat,
    dogs: nat,
    hungryAnimals: nat,
    sleepyAnimals: nat,
    animalsWithDuties: nat,
    animalsWithActions: nat)

  /** The filters the metrics count by. */
  datatype Criterion = IsBird | IsDog | IsHungry | IsSleepy | HasDuty | HasAction

  /**
    The filter callbacks of the metrics: the class name for the two species,
    the flags as they are, and JavaScript truthiness for duty and action.
   */
  predicate Passes(c: Criterion, a: Animal)
    reads a
    ensures c.IsBird? ==> (Passes(c, a) <==> a.species.Bird?)
    ensures c.IsDog? ==> (Passes(c, a) <==> a.species.Dog?)
    ensures c.HasDuty? ==> (Passes(c, a) <==> a.currentDuty != None && a.currentDuty != Some(""))
    ensures c.HasAction? ==> (Passes(c, a) <==> a.currentAction != None && a.currentAction != Some(""))
  {
    match c
    case IsBird => a.species.TypeName() == "Bird"
    case IsDog => a.species.TypeName() == "Dog"
    case IsHungry => a.isHungry
    case IsSleepy => a.isSleepy
    case HasDuty => IsSet(a.currentDuty)
    case HasAction => IsSet(a.currentAction)
  }

  /** How many of the keys, taken in order, are marked: the length of a filtered list. */
  function CountMarked(keys: seq<string>, marked: set<string>): (n: nat)
    ensures n <= |keys|
  {
    if keys == [] then 0
    else CountMarked(keys[..|keys| - 1], marked) + (if keys[|keys| - 1] in marked then 1 else 0)
  }

  /** Along duplicate-free keys, the length of the filtered list is the number of marked keys. */
  lemma {:induction false} CountMarkedIsCard(keys: seq<string>, marked: set<string>)
    requires Distinct(keys)
    ensures CountMarked(keys, marked) == |marked * (set k | k in keys)|
  {
    if keys != [] {
      var last, init := keys[|keys| - 1], keys[..|keys| - 1];
      assert Distinct(init) && last !in init;
      CountMarkedIsCard(init, marked);
      var before := marked * (set k | k in init);
      var added: set<string> := if last in marked then {last} else {};
      forall k
        ensures k in marked * (set k | k in keys) <==> k in before + added
      {
        assert k in keys <==> k in init || k == last;
      }
      assert marked * (set k | k in keys) == before + added;
      assert last !in before;
    }
  }

  /** The response body of the listing: its length and the statuses. */
  datatype Listing = Listing(count: nat, statuses: seq<Snapshot>)

  class Farm {
    var animals: map<string, Animal>
    /** The keys of `animals` in insertion order. */
    var order: seq<string>

    /**
      The farm's invariant: the order lists each key of the map once, every
      animal is stored under its own name, and every animal keeps its own
      invariant.
     */
    ghost predicate Valid()
      reads this, animals.Values
    {
      && Distinct(order)
      && (forall k :: k in animals <==> k in order)
      && (forall k :: k in animals ==> animals[k].name == k && animals[k].Valid())
    }

    /** The farm is empty when the process starts. */
    constructor ()
      ensures Valid() && animals == map[] && order == []
    {
      animals := map[];
      order := [];
    }

    /** The size of the map is the length of the insertion order. */
    lemma SizeIsOrderLength()
      requires Valid()
      ensures |animals| == |order|
    {
      KeyCount(animals, order);
    }

    /** The statuses of the animals under the given keys, in that order. */
    function StatusesOf(keys: seq<string>): (ss: seq<Snapshot>)
      reads this, animals.Values
      requires forall k :: k in keys ==> k in animals
      ensures |ss| == |keys|
      ensures forall i :: 0 <= i < |keys| ==> ss[i] == animals[keys[i]].GetStatus()
    {
      if keys == [] then []
      else StatusesOf(keys[..|keys| - 1]) + [animals[keys[|keys| - 1]].GetStatus()]
    }

    /** Looking up a name fails exactly when no animal has it. */
    function GetAnimal(name: string): (r: Result<Animal>)
      reads this, animals.Values
      ensures r.Ok? <==> name in animals
      ensures r.Ok? ==> r.value == animals[name]
      ensures r.Err? ==> r.error == NotFoundOnFarm(name)
      ensures Valid() && r.Ok? ==> r.value.name == name && r.value.Valid()
    {
      if name in animals then Ok(animals[name]) else Err(NotFoundOnFarm(name))
    }

    /**
      The checks made before an animal is created: a missing or empty name
      is refused first, a name already on the farm next.
     */
    function Admission(name: Option<string>): (r: Result<string>)
      reads this
      ensures r.Ok? <==> IsSet(name) && name.value !in animals
      ensures r.Ok? ==> r.value == name.value
      ensures !IsSet(name) ==> r == Err(NameRequired)
      ensures IsSet(name) && name.value in animals ==> r == Err(AlreadyExists(name.value))
    {
      if !IsSet(name) then Err(NameRequired)
      else if name.value in animals then Err(AlreadyExists(name.value))
      else Ok(name.value)
    }

    /** Adds a new animal under its own name, at the end of the insertion order. */
    method Insert(a: Animal)
      requires Valid() && a.Valid() && a.name !in animals
      modifies this
      ensures Valid()
      ensures animals == old(animals)[a.name := a] && order == old(order) + [a.name]
      ensures |animals| == |old(animals)| + 1
    {
      animals := animals[a.name := a];
      order := order + [a.name];
    }

    method CreateBird(name: Option<string>, canFly: Option<bool>, canCrow: Option<bool>) returns (r: Result<Animal>)
      requires Valid()
      modifies this
      ensures Valid()
      ensures r.Ok? <==> old(Admission(name)).Ok?
      ensures r.Err? ==> r.error == old(Admission(name)).error && animals == old(animals) && order == old(order)
      ensures r.Ok? ==>
        && fresh(r.value) && r.value.Valid() && r.value.Pristine()
        && r.value.name == name.value
        && r.value.species == Species.Bird(OrFalse(canFly), OrFalse(canCrow))
        && animals == old(animals)[name.value := r.value]
        && order == old(order) + [name.value]
        && |animals| == |old(animals)| + 1
        && GetAnimal(name.value) == Ok(r.value)
    {
      var admitted := Admission(name);
      if admitted.Err? {
        return Err(admitted.error);
      }
      var bird := new Animal.Bird(admitted.value, OrFalse(canFly), OrFalse(canCrow));
      Insert(bird);
      r := Ok(bird);
    }

    method CreateDog(name: Option<string>, canBark: Option<bool>, canChase: Option<bool>) returns (r: Result<Animal>)
      requires Valid()
      modifies this
      ensures Valid()
      ensures r.Ok? <==> old(Admission(name)).Ok?
      ensures r.Err? ==> r.error == old(Admission(name)).error && animals == old(animals) && order == old(order)
      ensures r.Ok? ==>
        && fresh(r.value) && r.value.Valid() && r.value.Pristine()
        && r.value.name == name.value
        && r.value.species == Species.Dog(OrFalse(canBark), OrFalse(canChase))
        && animals == old(animals)[name.value := r.value]
        && order == old(order) + [name.value]
        && |animals| == |old(animals)| + 1
        && GetAnimal(name.value) == Ok(r.value)
    {
      var admitted := Admission(name);
      if admitted.Err? {
        return Err(admitted.error);
      }
      var dog := new Animal.Dog(admitted.value, OrFalse(canBark), OrFalse(canChase));
      Insert(dog);
      r := Ok(dog);
    }

    /** Removes exactly the named animal; the others keep their insertion order. */
    method Delete(name: string) returns (r: Result<Message>)
      requires Valid()
      modifies this
      ensures Valid()
      ensures r.Ok? <==> name in old(animals)
      ensures r.Err? ==> r == Err(NotFound(name)) && animals == old(animals) && order == old(order)
      ensures r.Ok? ==>
        && r.value == Removed(name)
        && animals == old(animals) - {name}
        && order == Erase(old(order), name)
        && |animals| == |old(animals)| - 1
      ensures GetAnimal(name) == Err(NotFoundOnFarm(name))
    {
      if name !in animals {
        return Err(NotFound(name));
      }
      SizeIsOrderLength();
      EraseKeeps(order, name);
      animals := animals - {name};
      order := Erase(order, name);
      SizeIsOrderLength();
      r := Ok(Removed(name));
    }

    /** The listing: one status per animal, in insertion order, and how many there are. */
    function List(): (l: Listing)
      reads this, animals.Values
      requires Valid()
      ensures l.count == |animals| == |order| == |l.statuses|
      ensures forall i :: 0 <= i < |l.statuses| ==>
        l.statuses[i].name == order[i] && l.statuses[i] == animals[order[i]].GetStatus()
      ensures forall i :: 0 <= i < |l.statuses| ==> Coherent(l.statuses[i])
    {
      SizeIsOrderLength();
      var statuses := StatusesOf(order);
      Listing(|statuses|, statuses)
    }

    /** The names of the animals that pass the filter. */
    function Passing(c: Criterion): set<string>
      reads this, animals.Values
    {
      set k | k in animals && Passes(c, animals[k])
    }

    /** Counting along the insertion order counts exactly the passing animals. */
    lemma CountsArePassing()
      requires Valid()
      ensures forall c :: CountMarked(order, Passing(c)) == |Passing(c)|
    {
      forall c: Criterion
        ensures CountMarked(order, Passing(c)) == |Passing(c)|
      {
        CountMarkedIsCard(order, Passing(c));
        assert Passing(c) * (set k | k in order) == Passing(c);
      }
    }

    /** Every animal is a bird or a dog, never both. */
    lemma BirdsAndDogs()
      requires Valid()
      ensures |Passing(IsBird)| + |Passing(IsDog)| == |animals|
    {
      var birds, dogs := Passing(IsBird), Passing(IsDog);
      assert birds * dogs == {};
      assert birds + dogs == animals.Keys;
    }

    /**
      The metrics: the size of the farm and, for each filter, how many
      animals on the farm pass it; birds and dogs account for every animal.
     */
    function CollectMetrics(): (m: Metrics)
      reads this, animals.Values
      requires Valid()
      ensures m.totalAnimals == |animals|
      ensures m.birds == |Passing(IsBird)| && m.dogs == |Passing(IsDog)|
      ensures m.hungryAnimals == |Passing(IsHungry)| && m.sleepyAnimals == |Passing(IsSleepy)|
      ensures m.animalsWithDuties == |Passing(HasDuty)| && m.animalsWithActions == |Passing(HasAction)|
      ensures m.birds + m.dogs == m.totalAnimals
      ensures m.birds <= m.totalAnimals && m.dogs <= m.totalAnimals
      ensures m.hungryAnimals <= m.totalAnimals && m.sleepyAnimals <= m.totalAnimals
      ensures m.animalsWithDuties <= m.totalAnimals && m.animalsWithActions <= m.totalAnimals
    {
      SizeIsOrderLength();
      CountsArePassing();
      BirdsAndDogs();
      Metrics(|animals|,
        CountMarked(order, Passing(IsBird)), CountMarked(order, Passing(IsDog)),
        CountMarked(order, Passing(IsHungry)), CountMarked(order, Passing(IsSleepy)),
        CountMarked(order, Passing(HasDuty)), CountMarked(order, Passing(HasAction)))
    }
  }
}
