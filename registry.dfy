// What the two registries (the game manager and the older game state) share:
// the actor and class references they store, the messages they hand to an
// entity's component, the building of the class maps from the configured
// mappings, and the wildcard class lookup.
module Registries {
  import opened DisBase
  import opened EntityTypes
  import EI = EntityIds
  import opened PduHeaders
  import opened OrderedMaps
  import ES = EntityStatePdus
  import ESU = EntityStateUpdatePdus
  import FirePdus
  import DetonationPdus
  import StartResumePdus

  /** A soft class reference: null, or the asset it names. */
  datatype SoftClass = NullClass | ClassRef(asset: nat)

  /** A spawned or registered actor, with the class it was made from. */
  datatype ActorRef = ActorRef(handle: nat, cls: SoftClass)

  /** One configured mapping: an actor class and the entity types it stands for. */
  datatype ClassMapping = ClassMapping(entity: SoftClass, types: seq<EntityType>)

  /** The fields of a Remove Entity or Stop/Freeze PDU the registries read. */
  datatype ManagementPdu = ManagementPdu(header: PduHeader, originatingEntityId: EI.EntityId,
                                         receivingEntityId: EI.EntityId)

  /** The fields of an Electromagnetic Emissions PDU the manager reads. */
  datatype EmissionsPdu = EmissionsPdu(header: PduHeader, emittingEntityId: EI.EntityId)

  /** A call a registry makes on an entity's component. */
  datatype Message =
    | EntityState(es: ES.EntityStatePdu)
    | SpawnedEntityState(spawn: ES.EntityStatePdu)   // SpawnedFromNetwork set, then the Entity State PDU handled
    | EntityStateUpdate(update: ESU.EntityStateUpdatePdu)
    | Fire(fire: FirePdus.FirePdu)
    | Detonation(detonation: DetonationPdus.DetonationPdu)
    | RemoveEntity(remove: ManagementPdu)
    | StopFreeze(stop: ManagementPdu)
    | StartResume(start: StartResumePdus.StartResumePdu)
    | Emissions(emissions: EmissionsPdu)
    | DeadReckon(deltaTime: real)

  datatype Delivery = Delivery(actor: ActorRef, message: Message)

  /** LoadSynchronous yields a class: the reference is not null and its asset loads. */
  predicate Loaded(c: SoftClass, loads: nat -> bool)
  {
    c.ClassRef? && loads(c.asset)
  }

  /** One mapping's (type, class) pairs, in the order its types are listed. */
  function MappingEntries(mapping: ClassMapping): (r: seq<Entry<EntityType, SoftClass>>)
    ensures |r| == |mapping.types|
    ensures forall i :: 0 <= i < |r| ==> r[i] == Entry(mapping.types[i], mapping.entity)
  {
    seq(|mapping.types|, i requires 0 <= i < |mapping.types| => Entry(mapping.types[i], mapping.entity))
  }

  /** Every (type, class) pair of the configured mappings, in the order the nested loops visit them. */
  function Pairs(ms: seq<ClassMapping>): (r: seq<Entry<EntityType, SoftClass>>)
  {
    if |ms| == 0 then [] else Pairs(ms[..|ms| - 1]) + MappingEntries(ms[|ms| - 1])
  }

  /** The TMap after Add of every pair in turn. */
  function Added(m: map<EntityType, SoftClass>, ps: seq<Entry<EntityType, SoftClass>>): map<EntityType, SoftClass>
  {
    if |ps| == 0 then m
    else Added(m, ps[..|ps| - 1])[ps[|ps| - 1].key := ps[|ps| - 1].value]
  }

  /** The std::map after insert_or_assign of every pair in turn, under the key order `rank`. */
  function Assigned(r: seq<Entry<EntityType, SoftClass>>, ps: seq<Entry<EntityType, SoftClass>>, rank: EntityType -> int)
    : seq<Entry<EntityType, SoftClass>>
  {
    if |ps| == 0 then r
    else InsertOrAssign(Assigned(r, ps[..|ps| - 1], rank), rank, ps[|ps| - 1].key, ps[|ps| - 1].value)
  }

  /** The std::map after insert of every pair in turn, under the key order `rank`. */
  function Inserted(r: seq<Entry<EntityType, SoftClass>>, ps: seq<Entry<EntityType, SoftClass>>, rank: EntityType -> int)
    : seq<Entry<EntityType, SoftClass>>
  {
    if |ps| == 0 then r
    else Insert(Inserted(r, ps[..|ps| - 1], rank), rank, ps[|ps| - 1].key, ps[|ps| - 1].value)
  }

  /** `i` is the last pair for type `t` (by TMap equality). */
  predicate LastFor(ps: seq<Entry<EntityType, SoftClass>>, i: int, t: EntityType)
  {
    0 <= i < |ps| && ps[i].key == t && forall j :: i < j < |ps| ==> ps[j].key != t
  }

  /** `i` is the last pair whose type is equivalent to `t` under `rank`. */
  predicate LastEquivalent(ps: seq<Entry<EntityType, SoftClass>>, i: int, t: EntityType, rank: EntityType -> int)
  {
    0 <= i < |ps| && rank(ps[i].key) == rank(t) && forall j :: i < j < |ps| ==> rank(ps[j].key) != rank(t)
  }

  /** `i` is the first pair whose type is equivalent to `t` under `rank`. */
  predicate FirstEquivalent(ps: seq<Entry<EntityType, SoftClass>>, i: int, t: EntityType, rank: EntityType -> int)
  {
    0 <= i < |ps| && rank(ps[i].key) == rank(t) && forall j :: 0 <= j < i ==> rank(ps[j].key) != rank(t)
  }

  /** After the TMap build, a type maps to the class of its last configured pair. */
  lemma {:induction false} AddedLastWins(m: map<EntityType, SoftClass>, ps: seq<Entry<EntityType, SoftClass>>,
                                         t: EntityType, i: int)
    requires LastFor(ps, i, t)
    ensures t in Added(m, ps) && Added(m, ps)[t] == ps[i].value
  {
    if i < |ps| - 1 {
      AddedLastWins(m, ps[..|ps| - 1], t, i);
    }
  }

  /** A type no pair configures keeps its entry, or its absence, through the TMap build. */
  lemma {:induction false} AddedUnconfigured(m: map<EntityType, SoftClass>, ps: seq<Entry<EntityType, SoftClass>>, t: EntityType)
    requires forall i :: 0 <= i < |ps| ==> ps[i].key != t
    ensures t in Added(m, ps) <==> t in m
    ensures t in m ==> Added(m, ps)[t] == m[t]
  {
    if |ps| > 0 {
      AddedUnconfigured(m, ps[..|ps| - 1], t);
    }
  }

  /** After the insert_or_assign build, a type finds the class of its last equivalent pair. */
  lemma {:induction false} AssignedLastWins(r: seq<Entry<EntityType, SoftClass>>, ps: seq<Entry<EntityType, SoftClass>>,
                                            rank: EntityType -> int, t: EntityType, i: int)
    requires LastEquivalent(ps, i, t, rank)
    ensures Find(Assigned(r, ps, rank), rank, t) == Some(ps[i].value)
  {
    var init := ps[..|ps| - 1];
    var last := ps[|ps| - 1];
    InsertOrAssignFind(Assigned(r, init, rank), rank, last.key, last.value, t);
    if i < |ps| - 1 {
      AssignedLastWins(r, init, rank, t, i);
    }
  }

  /** A type no pair is equivalent to finds what it found before the insert_or_assign build. */
  lemma {:induction false} AssignedUnconfigured(r: seq<Entry<EntityType, SoftClass>>, ps: seq<Entry<EntityType, SoftClass>>,
                                                rank: EntityType -> int, t: EntityType)
    requires forall i :: 0 <= i < |ps| ==> rank(ps[i].key) != rank(t)
    ensures Find(Assigned(r, ps, rank), rank, t) == Find(r, rank, t)
  {
    if |ps| > 0 {
      var init := ps[..|ps| - 1];
      var last := ps[|ps| - 1];
      InsertOrAssignFind(Assigned(r, init, rank), rank, last.key, last.value, t);
      AssignedUnconfigured(r, init, rank, t);
    }
  }

  /** After the insert build from a map without `t`, a type finds the class of its first equivalent pair. */
  lemma {:induction false} InsertedFirstWins(r: seq<Entry<EntityType, SoftClass>>, ps: seq<Entry<EntityType, SoftClass>>,
                                             rank: EntityType -> int, t: EntityType, i: int)
    requires Find(r, rank, t).None? && FirstEquivalent(ps, i, t, rank)
    ensures Find(Inserted(r, ps, rank), rank, t) == Some(ps[i].value)
  {
    var init := ps[..|ps| - 1];
    var last := ps[|ps| - 1];
    InsertFind(Inserted(r, init, rank), rank, last.key, last.value, t);
    FindEquivalentBuild(r, init, rank, last.key, t);
    if i < |ps| - 1 {
      InsertedFirstWins(r, init, rank, t, i);
    } else {
      InsertedUnconfigured(r, init, rank, t);
    }
  }

  /** Equivalent keys find the same class in the insert build. */
  lemma FindEquivalentBuild(r: seq<Entry<EntityType, SoftClass>>, ps: seq<Entry<EntityType, SoftClass>>,
                            rank: EntityType -> int, k: EntityType, t: EntityType)
    ensures rank(k) == rank(t) ==> Find(Inserted(r, ps, rank), rank, k) == Find(Inserted(r, ps, rank), rank, t)
  {
    if rank(k) == rank(t) {
      FindEquivalent(Inserted(r, ps, rank), rank, k, t);
    }
  }

  /** A type no pair is equivalent to finds what it found before the insert build. */
  lemma {:induction false} InsertedUnconfigured(r: seq<Entry<EntityType, SoftClass>>, ps: seq<Entry<EntityType, SoftClass>>,
                                                rank: EntityType -> int, t: EntityType)
    requires forall i :: 0 <= i < |ps| ==> rank(ps[i].key) != rank(t)
    ensures Find(Inserted(r, ps, rank), rank, t) == Find(r, rank, t)
  {
    if |ps| > 0 {
      var init := ps[..|ps| - 1];
      var last := ps[|ps| - 1];
      InsertFind(Inserted(r, init, rank), rank, last.key, last.value, t);
      InsertedUnconfigured(r, init, rank, t);
    }
  }

  /** Both builds keep the std::map in order. */
  lemma {:induction false} BuildsStayOrdered(r: seq<Entry<EntityType, SoftClass>>, ps: seq<Entry<EntityType, SoftClass>>,
                                             rank: EntityType -> int)
    requires Ordered(r, rank)
    ensures Ordered(Assigned(r, ps, rank), rank) && Ordered(Inserted(r, ps, rank), rank)
  {
    if |ps| > 0 {
      var init := ps[..|ps| - 1];
      var last := ps[|ps| - 1];
      BuildsStayOrdered(r, init, rank);
      InsertOrAssignOrdered(Assigned(r, init, rank), rank, last.key, last.value);
      InsertOrdered(Inserted(r, init, rank), rank, last.key, last.value);
    }
  }

  /** One more pair appended to the visited pairs. */
  /** One more pair: Add of it on the TMap built so far. */
  lemma AddedStep(m: map<EntityType, SoftClass>, ps: seq<Entry<EntityType, SoftClass>>, e: Entry<EntityType, SoftClass>)
    ensures Added(m, ps + [e]) == Added(m, ps)[e.key := e.value]
  {
    assert (ps + [e])[..|ps|] == ps;
  }

  /** One more pair: insert_or_assign of it on the std::map built so far. */
  lemma AssignedStep(r: seq<Entry<EntityType, SoftClass>>, ps: seq<Entry<EntityType, SoftClass>>,
                     e: Entry<EntityType, SoftClass>, rank: EntityType -> int)
    ensures Assigned(r, ps + [e], rank) == InsertOrAssign(Assigned(r, ps, rank), rank, e.key, e.value)
  {
    assert (ps + [e])[..|ps|] == ps;
  }

  /** One more pair: insert of it on the std::map built so far. */
  lemma InsertedStep(r: seq<Entry<EntityType, SoftClass>>, ps: seq<Entry<EntityType, SoftClass>>,
                     e: Entry<EntityType, SoftClass>, rank: EntityType -> int)
    ensures Inserted(r, ps + [e], rank) == Insert(Inserted(r, ps, rank), rank, e.key, e.value)
  {
    assert (ps + [e])[..|ps|] == ps;
  }

  lemma PairsStep(ms: seq<ClassMapping>, i: nat, j: nat)
    requires i < |ms| && j < |ms[i].types|
    ensures (Pairs(ms[..i]) + MappingEntries(ms[i])[..j]) + [Entry(ms[i].types[j], ms[i].entity)] ==
            Pairs(ms[..i]) + MappingEntries(ms[i])[..j + 1]
  {
    assert MappingEntries(ms[i])[..j + 1] == MappingEntries(ms[i])[..j] + [Entry(ms[i].types[j], ms[i].entity)];
  }

  /** A finished mapping's pairs are the pairs of one more mapping. */
  lemma PairsNext(ms: seq<ClassMapping>, i: nat)
    requires i < |ms|
    ensures Pairs(ms[..i]) + MappingEntries(ms[i])[..|ms[i].types|] == Pairs(ms[..i + 1])
  {
    assert ms[..i + 1][..i] == ms[..i];
    assert MappingEntries(ms[i])[..|ms[i].types|] == MappingEntries(ms[i]);
  }

  /**
   * A class-map entry is a wildcard candidate for `t` when filling its
   * wildcards from `t` changes it and the filled type is equivalent to `t`.
   */
  predicate Candidate(e: Entry<EntityType, SoftClass>, t: EntityType, rank: EntityType -> int)
  {
    Filled(e.key, t) != e.key && rank(Filled(e.key, t)) == rank(t)
  }

  /** `i` is the first candidate for `t`. */
  predicate FirstCandidate(ps: seq<Entry<EntityType, SoftClass>>, i: int, t: EntityType, rank: EntityType -> int)
  {
    0 <= i < |ps| && Candidate(ps[i], t, rank) && forall j :: 0 <= j < i ==> !Candidate(ps[j], t, rank)
  }

  /**
   * WildcardMappings after the loop over the class map's entries: each entry
   * that filling changes is inserted (the first one wins) under its filled key.
   */
  function WildcardMappings(ps: seq<Entry<EntityType, SoftClass>>, t: EntityType, rank: EntityType -> int)
    : seq<Entry<EntityType, SoftClass>>
  {
    if |ps| == 0 then []
    else
      var w := WildcardMappings(ps[..|ps| - 1], t, rank);
      var e := ps[|ps| - 1];
      if Filled(e.key, t) != e.key then Insert(w, rank, Filled(e.key, t), e.value) else w
  }

  /** The wildcard mappings find, for `t`, what they found before one more entry, unless that entry is the first candidate. */
  lemma WildcardStep(ps: seq<Entry<EntityType, SoftClass>>, t: EntityType, rank: EntityType -> int)
    requires |ps| > 0
    ensures var w := WildcardMappings(ps[..|ps| - 1], t, rank);
            var e := ps[|ps| - 1];
            Find(WildcardMappings(ps, t, rank), rank, t) ==
              if Candidate(e, t, rank) && Find(w, rank, t).None? then Some(e.value) else Find(w, rank, t)
  {
    var w := WildcardMappings(ps[..|ps| - 1], t, rank);
    var e := ps[|ps| - 1];
    if Filled(e.key, t) != e.key {
      InsertFind(w, rank, Filled(e.key, t), e.value, t);
      if rank(Filled(e.key, t)) == rank(t) {
        FindEquivalent(w, rank, Filled(e.key, t), t);
      }
    }
  }

  /** Looking `t` up in the wildcard mappings finds nothing exactly when no entry is a candidate. */
  lemma {:induction false} WildcardFindsNothingIffNoCandidate(ps: seq<Entry<EntityType, SoftClass>>, t: EntityType,
                                                              rank: EntityType -> int)
    ensures Find(WildcardMappings(ps, t, rank), rank, t).None? <==> forall i :: 0 <= i < |ps| ==> !Candidate(ps[i], t, rank)
  {
    if |ps| > 0 {
      WildcardFindsNothingIffNoCandidate(ps[..|ps| - 1], t, rank);
      WildcardStep(ps, t, rank);
    }
  }

  /** Looking `t` up in the wildcard mappings finds the class of the first candidate in the class map's order. */
  lemma {:induction false} WildcardFindsFirstCandidate(ps: seq<Entry<EntityType, SoftClass>>, t: EntityType,
                                                       rank: EntityType -> int, i: int)
    requires FirstCandidate(ps, i, t, rank)
    ensures Find(WildcardMappings(ps, t, rank), rank, t) == Some(ps[i].value)
  {
    var init := ps[..|ps| - 1];
    WildcardStep(ps, t, rank);
    if i < |ps| - 1 {
      WildcardFindsFirstCandidate(init, t, rank, i);
    } else {
      WildcardFindsNothingIffNoCandidate(init, t, rank);
    }
  }

  /** A mapped type with wildcards that matches `t` everywhere else is a candidate for it. */
  lemma MatchingPatternIsCandidate(e: Entry<EntityType, SoftClass>, t: EntityType, rank: EntityType -> int)
    requires Matches(e.key, t) && e.key != t
    ensures Candidate(e, t, rank)
  {
    FilledIsTargetIffMatches(e.key, t);
  }

  /** The all-wildcard default type fills every entry to itself, so no entry is ever its candidate. */
  lemma DefaultTypeHasNoWildcardClass(ps: seq<Entry<EntityType, SoftClass>>, rank: EntityType -> int)
    ensures Find(WildcardMappings(ps, DefaultEntityType, rank), rank, DefaultEntityType).None?
  {
    forall i | 0 <= i < |ps|
      ensures !Candidate(ps[i], DefaultEntityType, rank)
    {
      assert Filled(ps[i].key, DefaultEntityType) == ps[i].key;
    }
    WildcardFindsNothingIffNoCandidate(ps, DefaultEntityType, rank);
  }

  /** The loop that builds WildcardMappings from the class map. */
  method CollectWildcardMappings(classes: seq<Entry<EntityType, SoftClass>>, t: EntityType, rank: EntityType -> int)
    returns (w: seq<Entry<EntityType, SoftClass>>)
    ensures w == WildcardMappings(classes, t, rank)
  {
    w := [];
    var i := 0;
    while i < |classes|
      invariant 0 <= i <= |classes|
      invariant w == WildcardMappings(classes[..i], t, rank)
    {
      assert classes[..i + 1][..i] == classes[..i];
      var filled := FillWildcards(classes[i].key, t);
      if classes[i].key != filled {
        w := Insert(w, rank, filled, classes[i].value);
      }
      i := i + 1;
    }
    assert classes[..i] == classes;
  }
}
