/** Invariants of the entity store that every physics operation keeps. */
module Store {
  import opened Wrappers
  import opened Entities

  /** Every entity has positive mass and size, and a ground reference names an entity of the store. */
  predicate WellFormed(ents: seq<Ent>) {
    forall j :: 0 <= j < |ents| ==>
      ents[j].mass > 0.0 && ents[j].rect.w > 0 && ents[j].rect.h > 0 &&
      (ents[j].ground.Some? ==> ents[j].ground.value < |ents|)
  }

  /** Every Brick (and Brick subclass) sits at its spawn point at rest. */
  predicate BricksAtSpawn(ents: seq<Ent>) {
    forall j :: 0 <= j < |ents| && IsBrick(ents[j].kind) ==> AtSpawn(ents[j])
  }

  /** Every sliding platform moves at speed one along its row. */
  predicate PlatformsSliding(ents: seq<Ent>) {
    forall j :: 0 <= j < |ents| && ents[j].kind == SlidingBrick ==> Sliding(ents[j])
  }

  /** Every sliding platform is on its fixed row. */
  predicate PlatformsOnRow(ents: seq<Ent>) {
    forall j :: 0 <= j < |ents| && ents[j].kind == SlidingBrick ==> ents[j].rect.y == ents[j].initY
  }

  /** The invariants together. */
  predicate Good(ents: seq<Ent>) {
    WellFormed(ents) && BricksAtSpawn(ents) && PlatformsSliding(ents) && PlatformsOnRow(ents)
  }

  /** `b` is `a` after some physics: the same entities, each with the same body. */
  predicate SameBodies(a: seq<Ent>, b: seq<Ent>) {
    |a| == |b| && forall j :: 0 <= j < |a| ==> SameBody(a[j], b[j])
  }
}
