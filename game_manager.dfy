// ADISGameManager: the registry that maps DIS entity IDs to actors and DIS
// entity types to actor classes, routes each received PDU to the receive
// component of the entity it concerns, spawns an actor for an Entity State
// PDU from an unknown entity, and ticks every entity's dead reckoning.
module GameManagers {
  import opened DisBase
  import opened EntityTypes
  import EI = EntityIds
  import opened OrderedMaps
  import opened Registries
  import ES = EntityStatePdus
  import ESU = EntityStateUpdatePdus
  import FirePdus
  import DetonationPdus
  import StartResumePdus
  import ReceiveComponents

  /**
   * The class SpawnNewEntityFromEntityState picks for type `t`: the exact
   * entry if one is equivalent to `t`, otherwise what the wildcard mappings
   * find for `t`.
   */
  function SpawnClass(classes: seq<Entry<EntityType, SoftClass>>, t: EntityType): Option<SoftClass>
  {
    match Find(classes, Key, t)
    case Some(c) => Some(c)
    case None => Find(WildcardMappings(classes, t, Key), Key, t)
  }

  /**
   * The class picked is the exact mapping when there is one; otherwise the
   * class of the first entry, in key order, whose wildcards filled from `t`
   * give `t`; and none when there is no such entry.
   */
  lemma SpawnClassIsExactThenFirstCandidate(classes: seq<Entry<EntityType, SoftClass>>, t: EntityType, i: int)
    ensures Find(classes, Key, t).Some? ==> SpawnClass(classes, t) == Find(classes, Key, t)
    ensures Find(classes, Key, t).None? ==>
              (SpawnClass(classes, t).None? <==> forall j :: 0 <= j < |classes| ==> !Candidate(classes[j], t, Key))
    ensures Find(classes, Key, t).None? && FirstCandidate(classes, i, t, Key) ==> SpawnClass(classes, t) == Some(classes[i].value)
  {
    WildcardFindsNothingIffNoCandidate(classes, t, Key);
    if FirstCandidate(classes, i, t, Key) {
      WildcardFindsFirstCandidate(classes, t, Key, i);
    }
  }

  /** The Dead Reckoning calls Tick makes: one per mapped actor with a receive component, in key order. */
  function TickDeliveries(actors: seq<Entry<EI.EntityId, ActorRef>>, deltaTime: real, hasComponent: SoftClass -> bool)
    : seq<Delivery>
  {
    if |actors| == 0 then []
    else
      var a := actors[|actors| - 1].value;
      TickDeliveries(actors[..|actors| - 1], deltaTime, hasComponent) +
      (if hasComponent(a.cls) then [Delivery(a, DeadReckon(deltaTime))] else [])
  }

  /** Every actor with a component is ticked with the frame's delta time, and nothing else is. */
  lemma {:induction false} TickReachesEveryComponent(actors: seq<Entry<EI.EntityId, ActorRef>>, deltaTime: real,
                                                     hasComponent: SoftClass -> bool, d: Delivery)
    ensures d in TickDeliveries(actors, deltaTime, hasComponent) <==>
            exists i :: 0 <= i < |actors| && hasComponent(actors[i].value.cls) &&
                        d == Delivery(actors[i].value, DeadReckon(deltaTime))
  {
    if |actors| > 0 {
      var init := actors[..|actors| - 1];
      TickReachesEveryComponent(init, deltaTime, hasComponent, d);
      if exists i :: 0 <= i < |actors| && hasComponent(actors[i].value.cls) &&
                     d == Delivery(actors[i].value, DeadReckon(deltaTime)) {
        var i :| 0 <= i < |actors| && hasComponent(actors[i].value.cls) &&
                 d == Delivery(actors[i].value, DeadReckon(deltaTime));
        if i < |actors| - 1 {
          assert init[i] == actors[i];
        }
      }
    }
  }

  class GameManager {
    var exerciseId: EI.Int32
    var siteId: EI.Int32
    var applicationId: EI.Int32

    /** DISClassMappings (TMap) and RawDISClassMappings (std::map). */
    var classMappings: map<EntityType, SoftClass>
    var rawClassMappings: seq<Entry<EntityType, SoftClass>>
    /** DISActorMappings (TMap) and RawDISActorMappings (std::map). */
    var actorMappings: map<EI.EntityId, ActorRef>
    var rawActorMappings: seq<Entry<EI.EntityId, ActorRef>>
    /** InitialEntityConditions: the Entity State PDU each spawned actor was made from. */
    var initialConditions: map<ActorRef, ES.EntityStatePdu>
    /** How many actors have been spawned; the next one gets this handle. */
    var spawnCount: nat
    /** The calls made on receive components, in order. */
    var deliveries: seq<Delivery>

    /** Which assets LoadSynchronous finds. */
    const loads: nat -> bool
    /** Whether actors of a class carry a DIS receive component. */
    const hasComponent: SoftClass -> bool

    /** Both std::maps are in key order. */
    ghost predicate Valid()
      reads this`rawClassMappings, this`rawActorMappings
    {
      Ordered(rawClassMappings, Key) && Ordered(rawActorMappings, EI.Key)
    }

    /** The header's IDs of 0 and empty maps. */
    constructor(loads: nat -> bool, hasComponent: SoftClass -> bool)
      ensures Valid()
      ensures this.loads == loads && this.hasComponent == hasComponent
      ensures exerciseId == 0 && siteId == 0 && applicationId == 0
      ensures classMappings == map[] && rawClassMappings == [] && actorMappings == map[] && rawActorMappings == []
      ensures initialConditions == map[] && spawnCount == 0 && deliveries == []
    {
      this.loads := loads;
      this.hasComponent := hasComponent;
      exerciseId, siteId, applicationId := 0, 0, 0;
      classMappings, rawClassMappings := map[], [];
      actorMappings, rawActorMappings := map[], [];
      initialConditions, spawnCount, deliveries := map[], 0, [];
    }

    /**
     * BeginPlay's class-map build: with no enumeration mapping set nothing
     * happens; otherwise every (type, class) pair in turn is added to the
     * TMap and insert_or_assign-ed into the std::map, so a later mapping
     * for a type overwrites an earlier one in both.
     */
    method BuildClassMappings(classEnum: Option<seq<ClassMapping>>)
      requires Valid()
      modifies this`classMappings, this`rawClassMappings
      ensures Valid()
      ensures classEnum.None? ==> classMappings == old(classMappings) && rawClassMappings == old(rawClassMappings)
      ensures classEnum.Some? ==> classMappings == Added(old(classMappings), Pairs(classEnum.value)) &&
                                  rawClassMappings == Assigned(old(rawClassMappings), Pairs(classEnum.value), Key)
    {
      if classEnum.None? {
        return;
      }
      var ms := classEnum.value;
      ghost var m0, r0 := classMappings, rawClassMappings;
      var i := 0;
      while i < |ms|
        invariant 0 <= i <= |ms|
        invariant classMappings == Added(m0, Pairs(ms[..i]))
        invariant rawClassMappings == Assigned(r0, Pairs(ms[..i]), Key)
      {
        var j := 0;
        assert Pairs(ms[..i]) + MappingEntries(ms[i])[..0] == Pairs(ms[..i]);
        while j < |ms[i].types|
          invariant 0 <= j <= |ms[i].types|
          invariant classMappings == Added(m0, Pairs(ms[..i]) + MappingEntries(ms[i])[..j])
          invariant rawClassMappings == Assigned(r0, Pairs(ms[..i]) + MappingEntries(ms[i])[..j], Key)
        {
          var t := ms[i].types[j];
          ghost var done := Pairs(ms[..i]) + MappingEntries(ms[i])[..j];
          PairsStep(ms, i, j);
          AddedStep(m0, done, Entry(t, ms[i].entity));
          AssignedStep(r0, done, Entry(t, ms[i].entity), Key);
          classMappings := classMappings[t := ms[i].entity];
          rawClassMappings := InsertOrAssign(rawClassMappings, Key, t, ms[i].entity);
          j := j + 1;
        }
        PairsNext(ms, i);
        i := i + 1;
      }
      assert ms[..i] == ms;
      BuildsStayOrdered(r0, Pairs(ms), Key);
    }

    /** Tick: every mapped actor's receive component dead-reckons over the frame. */
    method Tick(deltaTime: real)
      modifies this`deliveries
      ensures deliveries == old(deliveries) + TickDeliveries(rawActorMappings, deltaTime, hasComponent)
    {
      var i := 0;
      while i < |rawActorMappings|
        invariant 0 <= i <= |rawActorMappings|
        invariant deliveries == old(deliveries) + TickDeliveries(rawActorMappings[..i], deltaTime, hasComponent)
      {
        assert rawActorMappings[..i + 1][..i] == rawActorMappings[..i];
        var actor := rawActorMappings[i].value;
        if hasComponent(actor.cls) {
          deliveries := deliveries + [Delivery(actor, DeadReckon(deltaTime))];
        }
        i := i + 1;
      }
      assert rawActorMappings[..i] == rawActorMappings;
    }

    /** GetAssociatedDISComponent: the actor mapped to an ID equivalent to `id`, if it has a receive component. */
    function ComponentFor(id: EI.EntityId): (r: Option<ActorRef>)
      reads this`rawActorMappings
      ensures r.Some? ==> Has(rawActorMappings, EI.Key, id) && hasComponent(r.value.cls)
      ensures Find(rawActorMappings, EI.Key, id).Some? && hasComponent(Find(rawActorMappings, EI.Key, id).value.cls) ==>
                r == Find(rawActorMappings, EI.Key, id)
    {
      match Find(rawActorMappings, EI.Key, id)
      case Some(a) => if hasComponent(a.cls) then Some(a) else None
      case None => None
    }

    /** The call on `id`'s component, or nothing when it has none. */
    function RoutedTo(id: EI.EntityId, message: Message): seq<Delivery>
      reads this`rawActorMappings
    {
      match ComponentFor(id)
      case Some(a) => [Delivery(a, message)]
      case None => []
    }

    /** A message is delivered only to an actor mapped to an ID equivalent to the one it names. */
    lemma RoutedOnlyToMapped(id: EI.EntityId, message: Message)
      ensures RoutedTo(id, message) != [] ==>
                |RoutedTo(id, message)| == 1 && Find(rawActorMappings, EI.Key, id) == Some(RoutedTo(id, message)[0].actor)
      ensures !Has(rawActorMappings, EI.Key, id) ==> RoutedTo(id, message) == []
    {
    }

    /** Pass `message` on to `id`'s component, if there is one. */
    method Route(id: EI.EntityId, message: Message)
      modifies this`deliveries
      ensures deliveries == old(deliveries) + RoutedTo(id, message)
    {
      var component := ComponentFor(id);
      if component.Some? {
        deliveries := deliveries + [Delivery(component.value, message)];
      }
    }

    /** The spawn of an actor of class `c` for `pdu`, and nothing else. */
    twostate predicate SpawnedFor(pdu: ES.EntityStatePdu, c: SoftClass)
      reads this
    {
      SpawnedFrom(old(spawnCount), old(initialConditions), old(actorMappings), old(rawActorMappings), old(deliveries), pdu, c) &&
      classMappings == old(classMappings) && rawClassMappings == old(rawClassMappings) &&
      exerciseId == old(exerciseId) && siteId == old(siteId) && applicationId == old(applicationId)
    }

    /**
     * The spawn of an actor of class `c` for `pdu`, from the spawn count,
     * initial conditions, actor maps and calls `count`, `conditions`,
     * `actors`, `raw` and `calls`.
     */
    ghost predicate SpawnedFrom(count: nat, conditions: map<ActorRef, ES.EntityStatePdu>, actors: map<EI.EntityId, ActorRef>,
                                raw: seq<Entry<EI.EntityId, ActorRef>>, calls: seq<Delivery>, pdu: ES.EntityStatePdu, c: SoftClass)
      reads this`spawnCount, this`initialConditions, this`actorMappings, this`rawActorMappings, this`deliveries
    {
      var a := ActorRef(count, c);
      spawnCount == count + 1 && initialConditions == conditions[a := pdu] &&
      actorMappings == actors[pdu.entityId := a] &&
      rawActorMappings == InsertOrAssign(raw, EI.Key, pdu.entityId, a) &&
      deliveries == calls + (if hasComponent(c) then [Delivery(a, SpawnedEntityState(pdu))] else [])
    }

    /**
     * SpawnNewEntityFromEntityState: the exact class mapping, else the
     * wildcard mappings built from every entry; a class that does not load
     * stops the spawn; a spawned actor is mapped to the PDU's ID, marked as
     * spawned from the network and handed the PDU.
     */
    method SpawnNewEntityFromEntityState(pdu: ES.EntityStatePdu)
      requires Valid()
      modifies this`spawnCount, this`initialConditions, this`actorMappings, this`rawActorMappings, this`deliveries
      ensures Valid()
      ensures var c := SpawnClass(rawClassMappings, pdu.entityType);
              if c.Some? && Loaded(c.value, loads) then SpawnedFor(pdu, c.value) else unchanged(this)
    {
      var associated := ClassFor(pdu.entityType);
      // A class that does not load ends the spawn, on either path.
      if associated.Some? && Loaded(associated.value, loads) {
        SpawnActor(pdu, associated.value);
      }
    }

    /** The class lookup of the spawn: the exact mapping, else the wildcard mappings built from every entry. */
    method ClassFor(t: EntityType) returns (associated: Option<SoftClass>)
      ensures associated == SpawnClass(rawClassMappings, t)
    {
      var exact := Find(rawClassMappings, Key, t);
      if exact.None? {
        var wildcards := CollectWildcardMappings(rawClassMappings, t, Key);
        associated := Find(wildcards, Key, t);
      } else {
        associated := exact;
      }
    }

    /** Spawn an actor of class `c`, map it to the PDU's ID, and hand the PDU to its component. */
    method SpawnActor(pdu: ES.EntityStatePdu, c: SoftClass)
      requires Valid()
      modifies this`spawnCount, this`initialConditions, this`actorMappings, this`rawActorMappings, this`deliveries
      ensures Valid()
      ensures SpawnedFrom(old(spawnCount), old(initialConditions), old(actorMappings), old(rawActorMappings), old(deliveries), pdu, c)
    {
      var actor := ActorRef(spawnCount, c);
      var _ := AddDisEntityToMap(pdu.entityId, Some(actor));
      spawnCount, initialConditions := spawnCount + 1, initialConditions[actor := pdu];
      deliveries := deliveries + if hasComponent(actor.cls) then [Delivery(actor, SpawnedEntityState(pdu))] else [];
    }

    /**
     * HandleEntityStatePDU: another exercise's PDU is ignored; a known ID's
     * component gets the PDU; an unknown, deactivated entity is ignored; any
     * other unknown entity is spawned.
     */
    method HandleEntityStatePdu(pdu: ES.EntityStatePdu)
      requires Valid()
      modifies this
      ensures Valid()
      ensures pdu.header.exerciseId != exerciseId ==> unchanged(this)
      ensures pdu.header.exerciseId == exerciseId && Has(old(rawActorMappings), EI.Key, pdu.entityId) ==>
                unchanged(this`exerciseId, this`siteId, this`applicationId, this`classMappings, this`rawClassMappings) &&
                unchanged(this`actorMappings, this`rawActorMappings, this`initialConditions, this`spawnCount) &&
                deliveries == old(deliveries) + RoutedTo(pdu.entityId, EntityState(pdu))
      ensures (pdu.header.exerciseId == exerciseId && !Has(old(rawActorMappings), EI.Key, pdu.entityId) &&
               ReceiveComponents.Deactivated(pdu.appearance)) ==> unchanged(this)
      ensures (pdu.header.exerciseId == exerciseId && !Has(old(rawActorMappings), EI.Key, pdu.entityId) &&
               !ReceiveComponents.Deactivated(pdu.appearance)) ==>
                var c := SpawnClass(rawClassMappings, pdu.entityType);
                if c.Some? && Loaded(c.value, loads) then SpawnedFor(pdu, c.value) else unchanged(this)
    {
      if pdu.header.exerciseId == exerciseId {
        var associated := Find(rawActorMappings, EI.Key, pdu.entityId);
        if associated.Some? {
          Route(pdu.entityId, EntityState(pdu));
        } else {
          if ReceiveComponents.Deactivated(pdu.appearance) {
            return;
          }
          SpawnNewEntityFromEntityState(pdu);
        }
      }
    }

    /** HandleEntityStateUpdatePDU: routed within the exercise to a known entity only; it never spawns. */
    method HandleEntityStateUpdatePdu(update: ESU.EntityStateUpdatePdu)
      modifies this`deliveries
      ensures deliveries == old(deliveries) +
                (if update.header.exerciseId == exerciseId then RoutedTo(update.entityId, EntityStateUpdate(update)) else [])
    {
      if update.header.exerciseId == exerciseId {
        Route(update.entityId, EntityStateUpdate(update));
      }
    }

    /** HandleFirePDU: routed within the exercise to the firing entity. */
    method HandleFirePdu(fire: FirePdus.FirePdu)
      modifies this`deliveries
      ensures deliveries == old(deliveries) +
                (if fire.header.exerciseId == exerciseId then RoutedTo(fire.firingEntityId, Fire(fire)) else [])
    {
      if fire.header.exerciseId == exerciseId {
        Route(fire.firingEntityId, Fire(fire));
      }
    }

    /** HandleDetonationPDU: routed within the exercise to the munition. */
    method HandleDetonationPdu(detonation: DetonationPdus.DetonationPdu)
      modifies this`deliveries
      ensures deliveries == old(deliveries) +
                (if detonation.header.exerciseId == exerciseId
                 then RoutedTo(detonation.munitionEntityId, Detonation(detonation)) else [])
    {
      if detonation.header.exerciseId == exerciseId {
        Route(detonation.munitionEntityId, Detonation(detonation));
      }
    }

    /** A simulation management PDU is for this simulation: same exercise, and the receiver's site and application are ours. */
    predicate AddressedHere(exercise: int, receiver: EI.EntityId)
      reads this`exerciseId, this`siteId, this`applicationId
    {
      exercise == exerciseId && receiver.site == siteId && receiver.application == applicationId
    }

    /** HandleRemoveEntityPDU: routed to the receiving entity when addressed here. */
    method HandleRemoveEntityPdu(remove: ManagementPdu)
      modifies this`deliveries
      ensures deliveries == old(deliveries) +
                (if AddressedHere(remove.header.exerciseId, remove.receivingEntityId)
                 then RoutedTo(remove.receivingEntityId, RemoveEntity(remove)) else [])
    {
      if remove.header.exerciseId == exerciseId && remove.receivingEntityId.site == siteId &&
         remove.receivingEntityId.application == applicationId {
        Route(remove.receivingEntityId, RemoveEntity(remove));
      }
    }

    /** HandleStopFreezePDU: routed to the receiving entity when addressed here. */
    method HandleStopFreezePdu(stop: ManagementPdu)
      modifies this`deliveries
      ensures deliveries == old(deliveries) +
                (if AddressedHere(stop.header.exerciseId, stop.receivingEntityId)
                 then RoutedTo(stop.receivingEntityId, StopFreeze(stop)) else [])
    {
      if stop.header.exerciseId == exerciseId && stop.receivingEntityId.site == siteId &&
         stop.receivingEntityId.application == applicationId {
        Route(stop.receivingEntityId, StopFreeze(stop));
      }
    }

    /** HandleStartResumePDU: routed to the receiving entity when addressed here. */
    method HandleStartResumePdu(start: StartResumePdus.StartResumePdu)
      modifies this`deliveries
      ensures deliveries == old(deliveries) +
                (if AddressedHere(start.header.exerciseId, start.receivingEntityId)
                 then RoutedTo(start.receivingEntityId, StartResume(start)) else [])
    {
      if start.header.exerciseId == exerciseId && start.receivingEntityId.site == siteId &&
         start.receivingEntityId.application == applicationId {
        Route(start.receivingEntityId, StartResume(start));
      }
    }

    /** HandleElectromagneticEmissionsPDU: routed within the exercise to the emitting entity. */
    method HandleEmissionsPdu(emissions: EmissionsPdu)
      modifies this`deliveries
      ensures deliveries == old(deliveries) +
                (if emissions.header.exerciseId == exerciseId
                 then RoutedTo(emissions.emittingEntityId, Emissions(emissions)) else [])
    {
      if emissions.header.exerciseId == exerciseId {
        Route(emissions.emittingEntityId, Emissions(emissions));
      }
    }

    /**
     * AddDISEntityToMap: a null actor is refused and nothing changes;
     * otherwise the ID is mapped to the actor in both maps, replacing any
     * earlier actor, and the call succeeds.
     */
    method AddDisEntityToMap(id: EI.EntityId, actor: Option<ActorRef>) returns (successful: bool)
      requires Valid()
      modifies this`actorMappings, this`rawActorMappings
      ensures Valid()
      ensures successful <==> actor.Some?
      ensures actor.None? ==> actorMappings == old(actorMappings) && rawActorMappings == old(rawActorMappings)
      ensures actor.Some? ==> actorMappings == old(actorMappings)[id := actor.value] &&
                              rawActorMappings == InsertOrAssign(old(rawActorMappings), EI.Key, id, actor.value)
    {
      if actor.None? {
        return false;
      }
      actorMappings := actorMappings[id := actor.value];
      InsertOrAssignOrdered(rawActorMappings, EI.Key, id, actor.value);
      rawActorMappings := InsertOrAssign(rawActorMappings, EI.Key, id, actor.value);
      return true;
    }

    /** RemoveDISEntityFromMap: the ID leaves both maps; true exactly when the std::map erased an entry. */
    method RemoveDisEntityFromMap(id: EI.EntityId) returns (removed: bool)
      requires Valid()
      modifies this`actorMappings, this`rawActorMappings
      ensures Valid()
      ensures actorMappings == old(actorMappings) - {id}
      ensures rawActorMappings == Erase(old(rawActorMappings), EI.Key, id)
      ensures removed <==> Erased(old(rawActorMappings), EI.Key, id) > 0
    {
      actorMappings := actorMappings - {id};
      var before := |rawActorMappings|;
      EraseOrdered(rawActorMappings, EI.Key, id);
      rawActorMappings := Erase(rawActorMappings, EI.Key, id);
      removed := before - |rawActorMappings| > 0;
    }

    /**
     * HandleOnDISEntityDestroyed: a destroyed actor's entry is removed under
     * its receive component's entity ID; without a component nothing is
     * removed. Returns whether anything was.
     */
    method HandleOnDisEntityDestroyed(componentEntityId: Option<EI.EntityId>) returns (anyRemoved: bool)
      requires Valid()
      modifies this`actorMappings, this`rawActorMappings
      ensures Valid()
      ensures componentEntityId.None? ==> !anyRemoved && rawActorMappings == old(rawActorMappings) &&
                                          actorMappings == old(actorMappings)
      ensures componentEntityId.Some? ==>
                actorMappings == old(actorMappings) - {componentEntityId.value} &&
                rawActorMappings == Erase(old(rawActorMappings), EI.Key, componentEntityId.value) &&
                (anyRemoved <==> Find(old(rawActorMappings), EI.Key, componentEntityId.value).Some?)
    {
      anyRemoved := false;
      if componentEntityId.Some? {
        ErasedIffPresent(rawActorMappings, EI.Key, componentEntityId.value);
        anyRemoved := RemoveDisEntityFromMap(componentEntityId.value);
      }
    }
  }

  /**
   * After adding an actor, its ID finds it and every ID not equivalent to it
   * finds what it found before; after removing, the ID finds nothing.
   */
  lemma AddThenRemove(m: seq<Entry<EI.EntityId, ActorRef>>, id: EI.EntityId, a: ActorRef, q: EI.EntityId)
    ensures Find(InsertOrAssign(m, EI.Key, id, a), EI.Key, id) == Some(a)
    ensures EI.Key(q) != EI.Key(id) ==> Find(InsertOrAssign(m, EI.Key, id, a), EI.Key, q) == Find(m, EI.Key, q)
    ensures Find(Erase(InsertOrAssign(m, EI.Key, id, a), EI.Key, id), EI.Key, id).None?
    ensures Erased(InsertOrAssign(m, EI.Key, id, a), EI.Key, id) > 0
  {
    InsertOrAssignFind(m, EI.Key, id, a, id);
    InsertOrAssignFind(m, EI.Key, id, a, q);
    EraseFind(InsertOrAssign(m, EI.Key, id, a), EI.Key, id, id);
    ErasedIffPresent(InsertOrAssign(m, EI.Key, id, a), EI.Key, id);
  }
}
