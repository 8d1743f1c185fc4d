/** Moving one object between the local storage tiers, with rollback when the metadata rename fails. */
module Tiers {
  import opened Base

  datatype Tier = Hot | Warm | Cold

  // One object's files by tier: the object itself, and the .meta file beside it.
  datatype Placement = Placement(objects: map<Tier, Bytes>, metas: map<Tier, Bytes>)

  // Whether each rename succeeds; the last is the one that rolls back.
  datatype Renames = Renames(objectOk: bool, metaOk: bool, rollbackOk: bool)

  // GetObjectTier: the first tier that has the object, Cold if none has.
  function TierOf(p: Placement): Tier {
    if Hot in p.objects then Hot else if Warm in p.objects then Warm else Cold
  }

  function Renamed(files: map<Tier, Bytes>, from: Tier, to: Tier): map<Tier, Bytes>
    requires from in files
  {
    (files - {from})[to := files[from]]
  }

  // A failed rollback throws out of move_object_to_tier.
  datatype MoveResult = Done(ok: bool) | Thrown

  function Moved(p: Placement, from: Tier, to: Tier, r: Renames): (Placement, MoveResult) {
    if from !in p.objects || !r.objectOk then (p, Done(false))
    else
      var objects := Renamed(p.objects, from, to);
      if from !in p.metas then (p.(objects := objects), Done(true))
      else if r.metaOk then (Placement(objects, Renamed(p.metas, from, to)), Done(true))
      else if r.rollbackOk then (p.(objects := Renamed(objects, to, from)), Done(false))
      else (p.(objects := objects), Thrown)
  }

  function Promoted(p: Placement, r: Renames): (Placement, MoveResult) {
    if TierOf(p) == Hot then (p, Done(true)) else Moved(p, TierOf(p), Hot, r)
  }

  function Demoted(p: Placement, r: Renames): (Placement, MoveResult) {
    if TierOf(p) == Cold then (p, Done(true))
    else Moved(p, TierOf(p), if TierOf(p) == Hot then Warm else Cold, r)
  }

  datatype Op = Promote(r: Renames) | Demote(r: Renames)

  function Apply(p: Placement, op: Op): (Placement, MoveResult) {
    match op
    case Promote(r) => Promoted(p, r)
    case Demote(r) => Demoted(p, r)
  }

  function ApplyAll(p: Placement, ops: seq<Op>): Placement
    decreases |ops|
  {
    if ops == [] then p else ApplyAll(Apply(p, ops[0]).0, ops[1..])
  }

  // Exactly one tier holds the object, with its metadata, if it has any, beside it.
  predicate At(p: Placement, tier: Tier, data: Bytes, meta: Option<Bytes>) {
    p == Placement(map[tier := data], if meta.Some? then map[tier := meta.value] else map[])
  }

  function NextTier(tier: Tier, op: Op): Tier {
    match op
    case Promote(_) => Hot
    case Demote(_) => if tier == Hot then Warm else Cold
  }

  function Rank(tier: Tier): nat {
    match tier
    case Hot => 0
    case Warm => 1
    case Cold => 2
  }

  // With copies in any tiers: no tier before the answer holds the object, and the answer does unless
  // no tier does.
  lemma TierIsFirst(p: Placement)
    ensures forall t :: t in p.objects ==> Rank(TierOf(p)) <= Rank(t)
    ensures TierOf(p) in p.objects || (p.objects == map[] && TierOf(p) == Cold)
  {
    if TierOf(p) !in p.objects {
      forall t: Tier
        ensures t !in p.objects
      {
        assert t == Hot || t == Warm || t == Cold;
      }
    }
  }

  // The file of one tier has become that of another, and the other tiers' files are as they were.
  predicate WentOver(before: map<Tier, Bytes>, after: map<Tier, Bytes>, from: Tier, to: Tier) {
    && from in before && from !in after && to in after && after[to] == before[from]
    && forall t: Tier :: t != from && t != to ==> (t in after <==> t in before) && (t in before ==> after[t] == before[t])
  }

  // One operation on any placement, with copies in several tiers and with or without metadata. It
  // succeeds without a move when the first tier is the one to go to, and otherwise exactly when the
  // object can be renamed and so can its metadata, if there is any; then both have gone over.
  lemma MoveEffect(p: Placement, op: Op)
    ensures var from := TierOf(p);
            var to := NextTier(from, op);
            var (q, result) := Apply(p, op);
            var renames := from != to && from in p.objects && op.r.objectOk;
            && (result == Done(true) <==> from == to || (renames && (from in p.metas ==> op.r.metaOk)))
            && (result == Thrown <==> renames && from in p.metas && !op.r.metaOk && !op.r.rollbackOk)
            && (result == Thrown || (result == Done(true) && from != to) ==> WentOver(p.objects, q.objects, from, to))
            && (result == Done(true) && from != to && from in p.metas ==> WentOver(p.metas, q.metas, from, to))
            && (result != Done(true) || from == to || from !in p.metas ==> q.metas == p.metas)
            && (from == to || !renames ==> q == p)
            && (result == Done(false) && to !in p.objects ==> q == p)
  {
    var from := TierOf(p);
    var to := NextTier(from, op);
    if from != to && from in p.objects && to !in p.objects {
      assert Renamed(Renamed(p.objects, from, to), to, from) == p.objects;
    }
  }

  // From a whole placement: success moves every file, a reported failure leaves them as they were, and
  // they are separated if and only if the metadata rename and the rollback both fail.
  lemma StepPlacement(p: Placement, op: Op, tier: Tier, data: Bytes, meta: Option<Bytes>)
    requires At(p, tier, data, meta)
    ensures var (q, result) := Apply(p, op);
            && (result == Done(true) <==>
                 NextTier(tier, op) == tier || (op.r.objectOk && (meta.Some? ==> op.r.metaOk)))
            && (result == Thrown <==>
                 NextTier(tier, op) != tier && op.r.objectOk && meta.Some? && !op.r.metaOk && !op.r.rollbackOk)
            && (result == Done(true) ==> At(q, NextTier(tier, op), data, meta))
            && (result == Done(false) ==> q == p)
            && ((exists t :: At(q, t, data, meta)) <==> result != Thrown)
  {
    var (q, result) := Apply(p, op);
    var to := NextTier(tier, op);
    assert TierOf(p) == tier;
    if to != tier {
      assert p.objects - {tier} == map[] && p.metas - {tier} == map[];
      var moved := Renamed(p.objects, tier, to);
      assert moved == map[to := data] && moved - {to} == map[];
      assert Renamed(moved, to, tier) == p.objects;
      if result == Thrown {
        assert to in q.objects && to !in q.metas;
        assert forall t :: At(q, t, data, meta) ==> (to in q.objects <==> to in q.metas);
      } else {
        assert At(q, to, data, meta) || At(q, tier, data, meta);
      }
    } else {
      assert At(q, tier, data, meta);
    }
  }

  // Over every run of promotes and demotes with failing renames, the object is in exactly one tier
  // with its bytes and its metadata.
  lemma {:induction false} RunKeepsObject(p: Placement, ops: seq<Op>, tier: Tier, data: Bytes, meta: Option<Bytes>)
    requires At(p, tier, data, meta)
    requires forall op :: op in ops ==> op.r.rollbackOk
    ensures exists t :: At(ApplyAll(p, ops), t, data, meta)
    decreases |ops|
  {
    if ops == [] {
      assert At(ApplyAll(p, ops), tier, data, meta);
    } else {
      assert ops[0] in ops;
      StepPlacement(p, ops[0], tier, data, meta);
      var q := Apply(p, ops[0]).0;
      var t :| At(q, t, data, meta);
      RunKeepsObject(q, ops[1..], t, data, meta);
      assert ApplyAll(p, ops) == ApplyAll(q, ops[1..]);
    }
  }

  lemma TwoDemotesEndCold(p: Placement, r1: Renames, r2: Renames, tier: Tier, data: Bytes, meta: Option<Bytes>)
    requires At(p, tier, data, meta)
    requires Demoted(p, r1).1 == Done(true) && Demoted(Demoted(p, r1).0, r2).1 == Done(true)
    ensures At(Demoted(Demoted(p, r1).0, r2).0, Cold, data, meta)
  {
    StepPlacement(p, Demote(r1), tier, data, meta);
    StepPlacement(Demoted(p, r1).0, Demote(r2), NextTier(tier, Demote(r1)), data, meta);
  }

  // A demotion undone by promotions: from any tier, a successful promote after any run returns the
  // object to Hot.
  lemma PromoteReachesHot(p: Placement, ops: seq<Op>, r: Renames, tier: Tier, data: Bytes, meta: Option<Bytes>)
    requires At(p, tier, data, meta)
    requires forall op :: op in ops ==> op.r.rollbackOk
    requires Promoted(ApplyAll(p, ops), r).1 == Done(true)
    ensures At(Promoted(ApplyAll(p, ops), r).0, Hot, data, meta)
  {
    RunKeepsObject(p, ops, tier, data, meta);
    var t :| At(ApplyAll(p, ops), t, data, meta);
    StepPlacement(ApplyAll(p, ops), Promote(r), t, data, meta);
  }

  class TieredObject {
    var objects: map<Tier, Bytes>
    var metas: map<Tier, Bytes>

    ghost function Snapshot(): Placement
      reads this
    {
      Placement(objects, metas)
    }

    constructor (tier: Tier, data: Bytes, meta: Option<Bytes>)
      ensures At(Snapshot(), tier, data, meta)
    {
      objects := map[tier := data];
      metas := if meta.Some? then map[tier := meta.value] else map[];
    }

    method GetObjectTier() returns (tier: Tier)
      ensures tier == TierOf(Snapshot())
    {
      var tiers := [Hot, Warm, Cold];
      for i := 0 to 3
        invariant forall j :: 0 <= j < i ==> tiers[j] !in objects
      {
        if tiers[i] in objects {
          assert i > 0 ==> tiers[0] !in objects;
          assert i > 1 ==> tiers[1] !in objects;
          return tiers[i];
        }
      }
      assert tiers[0] !in objects && tiers[1] !in objects;
      return Cold;
    }

    method MoveObjectToTier(from: Tier, to: Tier, r: Renames) returns (result: MoveResult)
      modifies this
      ensures (Snapshot(), result) == Moved(old(Snapshot()), from, to, r)
    {
      if from !in objects || !r.objectOk {
        return Done(false);
      }
      objects := Renamed(objects, from, to);
      if from in metas {
        if r.metaOk {
          metas := Renamed(metas, from, to);
        } else if r.rollbackOk {
          objects := Renamed(objects, to, from);
          return Done(false);
        } else {
          return Thrown;
        }
      }
      return Done(true);
    }

    method PromoteObject(r: Renames) returns (result: MoveResult)
      modifies this
      ensures (Snapshot(), result) == Promoted(old(Snapshot()), r)
    {
      var current := GetObjectTier();
      if current == Hot {
        return Done(true);
      }
      result := MoveObjectToTier(current, Hot, r);
    }

    method DemoteObject(r: Renames) returns (result: MoveResult)
      modifies this
      ensures (Snapshot(), result) == Demoted(old(Snapshot()), r)
    {
      var current := GetObjectTier();
      if current == Cold {
        return Done(true);
      }
      result := MoveObjectToTier(current, if current == Hot then Warm else Cold, r);
    }
  }
}
