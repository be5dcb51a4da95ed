// ADISGameState: the older registry that the game manager replaced. It keeps
// the same four maps, but reads the std::maps with operator[], which inserts
// a null entry for a missing key; it has no exercise filter; it spawns for
// an Entity State Update PDU as well; and its std::map class build keeps the
// first mapping for a type while its TMap keeps the last.
module GameStates {
  import opened DisBase
  import opened EntityTypes
  import EI = EntityIds
  import opened OrderedMaps
  import opened Registries
  import ES = EntityStatePdus
  import ESU = EntityStateUpdatePdus
  import FirePdus
  import DetonationPdus
  import ReceiveComponents

  /**
   * The class the older spawn loads for type `t`, given the class map after
   * `operator[]` has put a null entry for `t` in it if there was none: the
   * exact entry's class if it loads, otherwise whatever the wildcard mappings
   * hold for `t` (null when nothing).
   */
  function StateSpawnClass(classes: seq<Entry<EntityType, SoftClass>>, t: EntityType, loads: nat -> bool): SoftClass
  {
    var exact := match Find(classes, Key, t) case Some(c) => c case None => NullClass;
    if Loaded(exact, loads) then exact
    else match Find(WildcardMappings(classes, t, Key), Key, t) case Some(c) => c case None => NullClass
  }

  /**
   * What `operator[]` on the actor map yields for `id`: the actor stored
   * under it, or null (None) both when there is no entry and when the entry
   * is null.
   */
  function MappedActor(m: seq<Entry<EI.EntityId, Option<ActorRef>>>, id: EI.EntityId): (a: Option<ActorRef>)
    ensures a.Some? <==> Has(m, EI.Key, id) && Find(m, EI.Key, id).value.Some?
    ensures a.Some? ==> Find(m, EI.Key, id) == Some(a)
  {
    match Find(m, EI.Key, id) case Some(stored) => stored case None => None
  }

  /**
   * The call a lookup of `id` in the actor map leads to: one on the mapped
   * actor's component when the actor is not null and has one, else none.
   */
  function RoutedIn(m: seq<Entry<EI.EntityId, Option<ActorRef>>>, id: EI.EntityId, message: Message,
                    hasComponent: SoftClass -> bool): seq<Delivery>
  {
    var found := Find(m, EI.Key, id);
    if found.Some? && found.value.Some? && hasComponent(found.value.value.cls) then [Delivery(found.value.value, message)]
    else []
  }

  /**
   * Unlike the manager, an exact mapping whose class does not load does not
   * stop the spawn: the first wildcard candidate's class is used instead.
   */
  lemma UnloadableExactFallsBackToWildcard(classes: seq<Entry<EntityType, SoftClass>>, t: EntityType,
                                           loads: nat -> bool, i: int)
    requires Find(classes, Key, t).Some? && !Loaded(Find(classes, Key, t).value, loads)
    requires FirstCandidate(classes, i, t, Key)
    ensures StateSpawnClass(classes, t, loads) == classes[i].value
  {
    WildcardFindsFirstCandidate(classes, t, Key, i);
  }

  /**
   * An Entity State Update PDU carries no entity type, so the PDU it spawns
   * from has the all-wildcard default type, and only a class mapped to that
   * type itself can be loaded for it.
   */
  lemma UpdateSpawnNeedsAllWildcardMapping(classes: seq<Entry<EntityType, SoftClass>>, loads: nat -> bool)
    ensures var c := StateSpawnClass(classes, DefaultEntityType, loads);
            Loaded(c, loads) ==> Find(classes, Key, DefaultEntityType) == Some(c)
  {
    DefaultTypeHasNoWildcardClass(classes, Key);
  }

  /**
   * Looking an unknown ID up leaves a null entry under it, so a later removal
   * of that ID reports success although no actor was ever mapped to it.
   */
  lemma LookupLeavesNullEntry(m: seq<Entry<EI.EntityId, Option<ActorRef>>>, id: EI.EntityId)
    requires !Has(m, EI.Key, id)
    ensures Find(Insert(m, EI.Key, id, None), EI.Key, id) == Some(None)
    ensures Erased(Insert(m, EI.Key, id, None), EI.Key, id) > 0
  {
    InsertFind(m, EI.Key, id, None, id);
    ErasedIffPresent(Insert(m, EI.Key, id, None), EI.Key, id);
  }

  /**
   * Two mappings for the same type: the TMap keeps the second class, the
   * std::map the first, so the two class maps disagree.
   */
  lemma ClassMapsCanDisagree(t: EntityType, first: SoftClass, second: SoftClass)
    requires first != second
    ensures var ps := [Entry(t, first), Entry(t, second)];
            Added(map[], ps)[t] == second && Find(Inserted([], ps, Key), Key, t) == Some(first) &&
            Some(Added(map[], ps)[t]) != Find(Inserted([], ps, Key), Key, t)
  {
    var ps := [Entry(t, first), Entry(t, second)];
    AddedLastWins(map[], ps, t, 1);
    InsertedFirstWins([], ps, Key, t, 0);
  }

  /**
   * The constructor's class-map build: every configured (type, class) pair in
   * turn is added to the TMap and inserted into the std::map.
   */
  method BuildClassMaps(settings: seq<ClassMapping>)
    returns (added: map<EntityType, SoftClass>, inserted: seq<Entry<EntityType, SoftClass>>)
    ensures added == Added(map[], Pairs(settings))
    ensures inserted == Inserted([], Pairs(settings), Key)
    ensures Ordered(inserted, Key)
  {
    added, inserted := map[], [];
    var i := 0;
    while i < |settings|
      invariant 0 <= i <= |settings|
      invariant added == Added(map[], Pairs(settings[..i]))
      invariant inserted == Inserted([], Pairs(settings[..i]), Key)
    {
      added, inserted := AddMapping(settings, i, added, inserted);
      i := i + 1;
    }
    assert settings[..i] == settings;
    BuildsStayOrdered([], Pairs(settings), Key);
  }

  /** The inner loop of the build: every type of mapping `i`, against its class. */
  method AddMapping(settings: seq<ClassMapping>, i: nat, added0: map<EntityType, SoftClass>,
                    inserted0: seq<Entry<EntityType, SoftClass>>)
    returns (added: map<EntityType, SoftClass>, inserted: seq<Entry<EntityType, SoftClass>>)
    requires i < |settings|
    requires added0 == Added(map[], Pairs(settings[..i])) && inserted0 == Inserted([], Pairs(settings[..i]), Key)
    ensures added == Added(map[], Pairs(settings[..i + 1]))
    ensures inserted == Inserted([], Pairs(settings[..i + 1]), Key)
  {
    added, inserted := added0, inserted0;
    var j := 0;
    assert Pairs(settings[..i]) + MappingEntries(settings[i])[..0] == Pairs(settings[..i]);
    while j < |settings[i].types|
      invariant 0 <= j <= |settings[i].types|
      invariant added == Added(map[], Pairs(settings[..i]) + MappingEntries(settings[i])[..j])
      invariant inserted == Inserted([], Pairs(settings[..i]) + MappingEntries(settings[i])[..j], Key)
    {
      var t := settings[i].types[j];
      ghost var done := Pairs(settings[..i]) + MappingEntries(settings[i])[..j];
      PairsStep(settings, i, j);
      AddedStep(map[], done, Entry(t, settings[i].entity));
      InsertedStep([], done, Entry(t, settings[i].entity), Key);
      added := added[t := settings[i].entity];
      inserted := Insert(inserted, Key, t, settings[i].entity);
      j := j + 1;
    }
    PairsNext(settings, i);
  }

  /**
   * The spawn's class choice on the class map that already holds an entry
   * for `t`: the exact class if it loads, else the wildcard mappings' class
   * for `t`, read with operator[] (null when there is none).
   */
  method ChooseSpawnClass(classes: seq<Entry<EntityType, SoftClass>>, t: EntityType, loads: nat -> bool)
    returns (c: SoftClass)
    requires Has(classes, Key, t)
    ensures c == StateSpawnClass(classes, t, loads)
    ensures Loaded(c, loads) ==> Find(classes, Key, t) == Some(c) || Find(WildcardMappings(classes, t, Key), Key, t) == Some(c)
  {
    c := Find(classes, Key, t).value;
    if !Loaded(c, loads) {
      var wildcards := CollectWildcardMappings(classes, t, Key);
      InsertFind(wildcards, Key, t, NullClass, t);
      wildcards := Insert(wildcards, Key, t, NullClass);
      c := Find(wildcards, Key, t).value;
    }
  }

  class GameState {
    var exerciseId: EI.Int32
    var siteId: EI.Int32
    var applicationId: EI.Int32

    /** DISClassMappings (TMap) and RawDISClassMappings (std::map). */
    var classMappings: map<EntityType, SoftClass>
    var rawClassMappings: seq<Entry<EntityType, SoftClass>>
    /** DISActorMappings (TMap) and RawDISActorMappings (std::map); a null actor is None. */
    var actorMappings: map<EI.EntityId, Option<ActorRef>>
    var rawActorMappings: seq<Entry<EI.EntityId, Option<ActorRef>>>
    /** How many actors have been spawned; the next one gets this handle. */
    var spawnCount: nat
    /** The calls made on DIS components, in order. */
    var deliveries: seq<Delivery>

    /** Which assets LoadSynchronous finds. */
    const loads: nat -> bool
    /** Whether actors of a class carry a DIS component. */
    const hasComponent: SoftClass -> bool

    /** Both std::maps are in key order. */
    ghost predicate Valid()
      reads this`rawClassMappings, this`rawActorMappings
    {
      Ordered(rawClassMappings, Key) && Ordered(rawActorMappings, EI.Key)
    }

    /**
     * The constructor: every configured (type, class) pair in turn is added
     * to the TMap and inserted into the std::map; then the IDs are copied
     * from the settings.
     */
    constructor(settings: seq<ClassMapping>, exercise: EI.Int32, site: EI.Int32, application: EI.Int32,
                loads: nat -> bool, hasComponent: SoftClass -> bool)
      ensures Valid()
      ensures this.loads == loads && this.hasComponent == hasComponent
      ensures classMappings == Added(map[], Pairs(settings))
      ensures rawClassMappings == Inserted([], Pairs(settings), Key)
      ensures exerciseId == exercise && siteId == site && applicationId == application
      ensures actorMappings == map[] && rawActorMappings == [] && spawnCount == 0 && deliveries == []
    {
      this.loads := loads;
      this.hasComponent := hasComponent;
      actorMappings, rawActorMappings, spawnCount, deliveries := map[], [], 0, [];
      var added, inserted := BuildClassMaps(settings);
      classMappings, rawClassMappings := added, inserted;
      exerciseId, siteId, applicationId := exercise, site, application;
    }

    /** RawDISActorMappings[id]: the actor under `id`, after inserting a null one if there was none. */
    method ActorAt(id: EI.EntityId) returns (actor: Option<ActorRef>)
      requires Valid()
      modifies this`rawActorMappings
      ensures Valid()
      ensures rawActorMappings == Insert(old(rawActorMappings), EI.Key, id, None)
      ensures actor == MappedActor(old(rawActorMappings), id)
      ensures actor.Some? ==> rawActorMappings == old(rawActorMappings)
    {
      InsertOrdered(rawActorMappings, EI.Key, id, None);
      InsertFind(rawActorMappings, EI.Key, id, None, id);
      rawActorMappings := Insert(rawActorMappings, EI.Key, id, None);
      actor := Find(rawActorMappings, EI.Key, id).value;
    }

    /** Pass `message` on to the actor's component, if the actor is not null and has one. */
    method Deliver(actor: Option<ActorRef>, message: Message)
      modifies this`deliveries
      ensures deliveries == old(deliveries) +
                (if actor.Some? && hasComponent(actor.value.cls) then [Delivery(actor.value, message)] else [])
    {
      if actor.Some? && hasComponent(actor.value.cls) {
        deliveries := deliveries + [Delivery(actor.value, message)];
      }
    }

    /**
     * The spawn of an actor of class `c` for `pdu`, from the spawn count,
     * actor maps and calls `count`, `actors`, `raw` and `calls`.
     */
    ghost predicate SpawnedFrom(count: nat, actors: map<EI.EntityId, Option<ActorRef>>,
                                raw: seq<Entry<EI.EntityId, Option<ActorRef>>>, calls: seq<Delivery>,
                                pdu: ES.EntityStatePdu, c: SoftClass)
      reads this`spawnCount, this`actorMappings, this`rawActorMappings, this`deliveries
    {
      var a := ActorRef(count, c);
      spawnCount == count + 1 &&
      actorMappings == actors[pdu.entityId := Some(a)] &&
      rawActorMappings == InsertOrAssign(raw, EI.Key, pdu.entityId, Some(a)) &&
      deliveries == calls + (if hasComponent(c) then [Delivery(a, SpawnedEntityState(pdu))] else [])
    }

    /**
     * SpawnNewEntityFromEntityState: `operator[]` puts a null class entry
     * for the type in the class map if it had none; the exact class is used
     * if it loads, otherwise the wildcard mappings' class for the type; a
     * loaded class is spawned, mapped to the PDU's ID and handed the PDU.
     */
    method SpawnNewEntityFromEntityState(pdu: ES.EntityStatePdu)
      requires Valid()
      modifies this`rawClassMappings, this`spawnCount, this`actorMappings, this`rawActorMappings, this`deliveries
      ensures Valid()
      ensures rawClassMappings == Insert(old(rawClassMappings), Key, pdu.entityType, NullClass)
      ensures var c := StateSpawnClass(rawClassMappings, pdu.entityType, loads);
              if Loaded(c, loads) then SpawnedFrom(old(spawnCount), old(actorMappings), old(rawActorMappings), old(deliveries), pdu, c)
              else spawnCount == old(spawnCount) && actorMappings == old(actorMappings) &&
                   rawActorMappings == old(rawActorMappings) && deliveries == old(deliveries)
    {
      var associated := SpawnClassFor(pdu.entityType);
      if Loaded(associated, loads) {
        SpawnActor(pdu, associated);
      }
    }

    /** The class lookup of the spawn: the null entry for `t` goes in, then the class is chosen. */
    method SpawnClassFor(t: EntityType) returns (c: SoftClass)
      requires Valid()
      modifies this`rawClassMappings
      ensures Valid()
      ensures rawClassMappings == Insert(old(rawClassMappings), Key, t, NullClass)
      ensures c == StateSpawnClass(rawClassMappings, t, loads)
    {
      ClassAt(t);
      c := ChooseSpawnClass(rawClassMappings, t, loads);
    }

    /** RawDISClassMappings[t]: a null class entry goes in for `t` if there was none. */
    method ClassAt(t: EntityType)
      requires Valid()
      modifies this`rawClassMappings
      ensures Valid()
      ensures rawClassMappings == Insert(old(rawClassMappings), Key, t, NullClass)
      ensures Has(rawClassMappings, Key, t)
    {
      InsertOrdered(rawClassMappings, Key, t, NullClass);
      InsertFind(rawClassMappings, Key, t, NullClass, t);
      rawClassMappings := Insert(rawClassMappings, Key, t, NullClass);
    }

    /** Spawn an actor of class `c`, map it to the PDU's ID, and hand the PDU to its component. */
    method SpawnActor(pdu: ES.EntityStatePdu, c: SoftClass)
      requires Valid()
      modifies this`spawnCount, this`actorMappings, this`rawActorMappings, this`deliveries
      ensures Valid()
      ensures SpawnedFrom(old(spawnCount), old(actorMappings), old(rawActorMappings), old(deliveries), pdu, c)
    {
      var actor := ActorRef(spawnCount, c);
      AddDisEntityToMap(pdu.entityId, Some(actor));
      spawnCount := spawnCount + 1;
      deliveries := deliveries + if hasComponent(actor.cls) then [Delivery(actor, SpawnedEntityState(pdu))] else [];
    }

    /** Nothing spawned: the spawn count, both actor maps and the calls are `count`, `actors`, `raw` and `calls`. */
    ghost predicate Unspawned(count: nat, actors: map<EI.EntityId, Option<ActorRef>>,
                              raw: seq<Entry<EI.EntityId, Option<ActorRef>>>, calls: seq<Delivery>)
      reads this`spawnCount, this`actorMappings, this`rawActorMappings, this`deliveries
    {
      spawnCount == count && actorMappings == actors && rawActorMappings == raw && deliveries == calls
    }

    /**
     * The first half of both handlers: the actor under `id` is looked up
     * and, when there is one, `message` goes to its component; nothing
     * else changes but the lookup's null entry.
     */
    method DeliverToMapped(id: EI.EntityId, message: Message) returns (found: bool)
      requires Valid()
      modifies this`rawActorMappings, this`deliveries
      ensures Valid()
      ensures var a := MappedActor(old(rawActorMappings), id);
              found == a.Some? &&
              (found ==> Unspawned(spawnCount, actorMappings, old(rawActorMappings),
                                   old(deliveries) + (if hasComponent(a.value.cls) then [Delivery(a.value, message)] else [])))
      ensures !found ==> rawActorMappings == Insert(old(rawActorMappings), EI.Key, id, None) && deliveries == old(deliveries)
    {
      var actor := ActorAt(id);
      found := actor.Some?;
      if found {
        Deliver(actor, message);
      }
    }

    /**
     * HandleEntityStatePDU, for every exercise: the looked-up actor's
     * component gets the PDU; with no actor (no entry, or a null one, and
     * the lookup has now left a null entry) a deactivated entity is ignored
     * and any other is spawned when its class loads.
     */
    method HandleEntityStatePdu(pdu: ES.EntityStatePdu)
      requires Valid()
      modifies this`rawClassMappings, this`spawnCount, this`actorMappings, this`rawActorMappings, this`deliveries
      ensures Valid()
      ensures var a := MappedActor(old(rawActorMappings), pdu.entityId);
              a.Some? ==>
                rawClassMappings == old(rawClassMappings) &&
                Unspawned(old(spawnCount), old(actorMappings), old(rawActorMappings),
                          old(deliveries) + (if hasComponent(a.value.cls) then [Delivery(a.value, EntityState(pdu))] else []))
      ensures MappedActor(old(rawActorMappings), pdu.entityId).None? ==>
                SpawnedUnlessDeactivated(old(rawClassMappings), old(spawnCount), old(actorMappings),
                                         Insert(old(rawActorMappings), EI.Key, pdu.entityId, None), old(deliveries), pdu)
    {
      var found := DeliverToMapped(pdu.entityId, EntityState(pdu));
      if !found {
        SpawnUnlessDeactivated(pdu);
      }
    }

    /**
     * What the handlers do for an entity with no actor, from class map
     * `classes` and the other state `count`, `actors`, `raw` and `calls`: a
     * deactivated one changes nothing; any other puts a null class entry
     * under its type and is spawned when the chosen class loads, with
     * nothing but that entry changed otherwise.
     */
    ghost predicate SpawnedUnlessDeactivated(classes: seq<Entry<EntityType, SoftClass>>, count: nat,
                                             actors: map<EI.EntityId, Option<ActorRef>>,
                                             raw: seq<Entry<EI.EntityId, Option<ActorRef>>>, calls: seq<Delivery>,
                                             pdu: ES.EntityStatePdu)
      reads this`rawClassMappings, this`spawnCount, this`actorMappings, this`rawActorMappings, this`deliveries
    {
      if ReceiveComponents.Deactivated(pdu.appearance) then
        rawClassMappings == classes && Unspawned(count, actors, raw, calls)
      else
        rawClassMappings == Insert(classes, Key, pdu.entityType, NullClass) &&
        var c := StateSpawnClass(rawClassMappings, pdu.entityType, loads);
        if Loaded(c, loads) then SpawnedFrom(count, actors, raw, calls, pdu, c)
        else Unspawned(count, actors, raw, calls)
    }

    /** The else branch of both handlers: a deactivated entity is ignored, any other spawned. */
    method SpawnUnlessDeactivated(pdu: ES.EntityStatePdu)
      requires Valid()
      modifies this`rawClassMappings, this`spawnCount, this`actorMappings, this`rawActorMappings, this`deliveries
      ensures Valid()
      ensures SpawnedUnlessDeactivated(old(rawClassMappings), old(spawnCount), old(actorMappings),
                                       old(rawActorMappings), old(deliveries), pdu)
    {
      if ReceiveComponents.Deactivated(pdu.appearance) {
        return;
      }
      SpawnNewEntityFromEntityState(pdu);
    }

    /**
     * HandleEntityStateUpdatePDU: like an Entity State PDU, except that an
     * entity with no actor is spawned from a default Entity State PDU
     * assigned from the update, whose type is the all-wildcard default.
     */
    method HandleEntityStateUpdatePdu(update: ESU.EntityStateUpdatePdu)
      requires Valid()
      modifies this`rawClassMappings, this`spawnCount, this`actorMappings, this`rawActorMappings, this`deliveries
      ensures Valid()
      ensures var a := MappedActor(old(rawActorMappings), update.entityId);
              a.Some? ==>
                rawClassMappings == old(rawClassMappings) &&
                Unspawned(old(spawnCount), old(actorMappings), old(rawActorMappings),
                          old(deliveries) + (if hasComponent(a.value.cls) then [Delivery(a.value, EntityStateUpdate(update))] else []))
      ensures MappedActor(old(rawActorMappings), update.entityId).None? ==>
                SpawnedUnlessDeactivated(old(rawClassMappings), old(spawnCount), old(actorMappings),
                                         Insert(old(rawActorMappings), EI.Key, update.entityId, None), old(deliveries),
                                         ES.AssignFromUpdate(ES.DefaultEntityStatePdu(), update))
    {
      var found := DeliverToMapped(update.entityId, EntityStateUpdate(update));
      if !found {
        SpawnFromUpdate(update);
      }
    }

    /** An update for an entity with no actor: a default Entity State PDU assigned from it goes to the spawn. */
    method SpawnFromUpdate(update: ESU.EntityStateUpdatePdu)
      requires Valid()
      modifies this`rawClassMappings, this`spawnCount, this`actorMappings, this`rawActorMappings, this`deliveries
      ensures Valid()
      ensures SpawnedUnlessDeactivated(old(rawClassMappings), old(spawnCount), old(actorMappings), old(rawActorMappings),
                                       old(deliveries), ES.AssignFromUpdate(ES.DefaultEntityStatePdu(), update))
    {
      var pdu := ES.AssignFromUpdate(ES.DefaultEntityStatePdu(), update);
      SpawnUnlessDeactivated(pdu);
    }

    /** GetAssociatedDISComponent: the component of the actor under `id`, after the lookup's null insert. */
    method GetAssociatedDisComponent(id: EI.EntityId) returns (component: Option<ActorRef>)
      requires Valid()
      modifies this`rawActorMappings
      ensures Valid()
      ensures rawActorMappings == Insert(old(rawActorMappings), EI.Key, id, None)
      ensures component.Some? <==> Has(old(rawActorMappings), EI.Key, id) && Find(old(rawActorMappings), EI.Key, id).value.Some? &&
                                   hasComponent(Find(old(rawActorMappings), EI.Key, id).value.value.cls)
      ensures component.Some? ==> Find(old(rawActorMappings), EI.Key, id) == Some(component)
    {
      var actor := ActorAt(id);
      component := if actor.Some? && hasComponent(actor.value.cls) then actor else None;
    }

    /** HandleFirePDU: routed to the munition, for every exercise. */
    method HandleFirePdu(fire: FirePdus.FirePdu)
      requires Valid()
      modifies this`rawActorMappings, this`deliveries
      ensures Valid()
      ensures rawActorMappings == Insert(old(rawActorMappings), EI.Key, fire.munitionEntityId, None)
      ensures deliveries == old(deliveries) + RoutedIn(old(rawActorMappings), fire.munitionEntityId, Fire(fire), hasComponent)
    {
      var component := GetAssociatedDisComponent(fire.munitionEntityId);
      Deliver(component, Fire(fire));
    }

    /** HandleDetonationPDU: routed to the munition, for every exercise. */
    method HandleDetonationPdu(detonation: DetonationPdus.DetonationPdu)
      requires Valid()
      modifies this`rawActorMappings, this`deliveries
      ensures Valid()
      ensures rawActorMappings == Insert(old(rawActorMappings), EI.Key, detonation.munitionEntityId, None)
      ensures deliveries == old(deliveries) + RoutedIn(old(rawActorMappings), detonation.munitionEntityId, Detonation(detonation), hasComponent)
    {
      var component := GetAssociatedDisComponent(detonation.munitionEntityId);
      Deliver(component, Detonation(detonation));
    }

    /** HandleRemoveEntityPDU: routed to the receiving entity when its site and application are ours, whatever the exercise. */
    method HandleRemoveEntityPdu(remove: ManagementPdu)
      requires Valid()
      modifies this`rawActorMappings, this`deliveries
      ensures Valid()
      ensures !(remove.receivingEntityId.site == siteId && remove.receivingEntityId.application == applicationId) ==>
                rawActorMappings == old(rawActorMappings) && deliveries == old(deliveries)
      ensures remove.receivingEntityId.site == siteId && remove.receivingEntityId.application == applicationId ==>
                rawActorMappings == Insert(old(rawActorMappings), EI.Key, remove.receivingEntityId, None)
      ensures remove.receivingEntityId.site == siteId && remove.receivingEntityId.application == applicationId ==>
                deliveries == old(deliveries) + RoutedIn(old(rawActorMappings), remove.receivingEntityId, RemoveEntity(remove), hasComponent)
    {
      if remove.receivingEntityId.site == siteId && remove.receivingEntityId.application == applicationId {
        var component := GetAssociatedDisComponent(remove.receivingEntityId);
        Deliver(component, RemoveEntity(remove));
      }
    }

    /** AddDISEntityToMap: the ID is mapped to the actor, null or not, in both maps, replacing any earlier one. */
    method AddDisEntityToMap(id: EI.EntityId, actor: Option<ActorRef>)
      requires Valid()
      modifies this`actorMappings, this`rawActorMappings
      ensures Valid()
      ensures actorMappings == old(actorMappings)[id := actor]
      ensures rawActorMappings == InsertOrAssign(old(rawActorMappings), EI.Key, id, actor)
    {
      actorMappings := actorMappings[id := actor];
      InsertOrAssignOrdered(rawActorMappings, EI.Key, id, actor);
      rawActorMappings := InsertOrAssign(rawActorMappings, EI.Key, id, actor);
    }

    /** RemoveDISEntityFromMap: the ID leaves both maps; true exactly when the std::map had an entry, null or not. */
    method RemoveDisEntityFromMap(id: EI.EntityId) returns (removed: bool)
      requires Valid()
      modifies this`actorMappings, this`rawActorMappings
      ensures Valid()
      ensures actorMappings == old(actorMappings) - {id}
      ensures rawActorMappings == Erase(old(rawActorMappings), EI.Key, id)
      ensures removed <==> Find(old(rawActorMappings), EI.Key, id).Some?
    {
      actorMappings := actorMappings - {id};
      var before := |rawActorMappings|;
      EraseOrdered(rawActorMappings, EI.Key, id);
      ErasedIffPresent(rawActorMappings, EI.Key, id);
      rawActorMappings := Erase(rawActorMappings, EI.Key, id);
      removed := before - |rawActorMappings| > 0;
    }

    /** HandleOnDISEntityDestroyed: remove the entry under the destroyed actor's component's ID, if it has a component. */
    method HandleOnDisEntityDestroyed(componentEntityId: Option<EI.EntityId>) returns (anyRemoved: bool)
      requires Valid()
      modifies this`actorMappings, this`rawActorMappings
      ensures Valid()
      ensures componentEntityId.None? ==>
                !anyRemoved && actorMappings == old(actorMappings) && rawActorMappings == old(rawActorMappings)
      ensures componentEntityId.Some? ==>
                actorMappings == old(actorMappings) - {componentEntityId.value} &&
                rawActorMappings == Erase(old(rawActorMappings), EI.Key, componentEntityId.value) &&
                (anyRemoved <==> Find(old(rawActorMappings), EI.Key, componentEntityId.value).Some?)
    {
      anyRemoved := false;
      if componentEntityId.Some? {
        anyRemoved := RemoveDisEntityFromMap(componentEntityId.value);
      }
    }
  }
}
