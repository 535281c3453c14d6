/**
 Passes for different names do not interfere: undisturbed they commute on the store, whichever of their
 own calls fail, and each does the same whether or not the other ran first.
 */
module Independence {
  import opened Api
  import opened Kube
  import opened Names
  import opened InstancePass
  import opened Fleet

  ghost predicate SameAt(s: Store, t: Store, k: Key) {
    (k in s <==> k in t) && (k in s ==> s[k] == t[k])
  }

  ghost predicate AgreeOn(s: Store, t: Store, id: Id) {
    forall k | InstanceOwns(id, k) :: SameAt(s, t, k)
  }

  /** Nobody else acts; calls may fail. */
  ghost predicate Undisturbed(turns: seq<Turn>) {
    forall i | 0 <= i < |turns| :: turns[i].others == []
  }

  lemma ApplyLocal(s: Store, t: Store, req: Request, k: Key)
    requires SameAt(s, t, req.key)
    ensures Apply(s, req).1 == Apply(t, req).1
    ensures SameAt(s, t, k) ==> SameAt(Apply(s, req).0, Apply(t, req).0, k)
    ensures k != req.key ==> SameAt(Apply(s, req).0, s, k)
  {
  }

  lemma AnswerLocal(s: Store, t: Store, p: Pass, turns: seq<Turn>)
    requires !p.pc.Done? && AgreeOn(s, t, p.id) && Undisturbed(turns)
    ensures var (s', r) := Answer(s, Ask(p), Next(turns)); var (t', r') := Answer(t, Ask(p), Next(turns));
            r == r' && AgreeOn(s', t', p.id)
    ensures forall k | !InstanceOwns(p.id, k) :: SameAt(Answer(s, Ask(p), Next(turns)).0, s, k)
  {
    hide InstanceOwns, Ask, Apply, SameAt;
    AskOwned(p);
    assert ApplyAll(s, Next(turns).others) == s && ApplyAll(t, Next(turns).others) == t;
    forall k ensures InstanceOwns(p.id, k) ==> SameAt(Apply(s, Ask(p)).0, Apply(t, Ask(p)).0, k)
             ensures !InstanceOwns(p.id, k) ==> SameAt(Apply(s, Ask(p)).0, s, k)
    {
      ApplyLocal(s, t, Ask(p), k);
    }
    ApplyLocal(s, t, Ask(p), Ask(p).key);
    forall k ensures SameAt(s, s, k) { SameHere(s, k); }
  }

  lemma SameHere(s: Store, k: Key)
    ensures SameAt(s, s, k)
  {
  }

  lemma SameOver(s: Store, t: Store, u: Store, k: Key)
    requires SameAt(s, t, k) && SameAt(t, u, k)
    ensures SameAt(s, u, k)
  {
  }

  lemma Join(s: Store, sx: Store, sy: Store, u: Store, v: Store, x: Id, y: Id)
    requires forall k | !InstanceOwns(x, k) :: SameAt(sx, s, k) && SameAt(v, sy, k)
    requires forall k | !InstanceOwns(y, k) :: SameAt(sy, s, k) && SameAt(u, sx, k)
    requires forall k | InstanceOwns(x, k) :: !InstanceOwns(y, k)
    requires AgreeOn(v, sx, x) && AgreeOn(u, sy, y)
    ensures u == v
  {
    hide InstanceOwns;
    forall k ensures SameAt(u, v, k) {
      if InstanceOwns(x, k) {
        assert SameAt(u, sx, k) && SameAt(v, sx, k);
      } else if InstanceOwns(y, k) {
        assert SameAt(u, sy, k) && SameAt(v, sy, k);
      } else {
        assert SameAt(u, sx, k) && SameAt(sx, s, k) && SameAt(v, sy, k) && SameAt(sy, s, k);
      }
    }
    SameEverywhere(u, v);
  }

  lemma SameEverywhere(u: Store, v: Store)
    requires forall k :: SameAt(u, v, k)
    ensures u == v
  {
    forall k ensures k in u.Keys <==> k in v.Keys {
      assert SameAt(u, v, k);
    }
    forall k | k in u ensures u[k] == v[k] {
      assert SameAt(u, v, k);
    }
  }

  /** A pass depends on the keys it owns and changes no others. */
  lemma {:induction false} RunLocal(s: Store, t: Store, p: Pass, turns: seq<Turn>)
    requires AgreeOn(s, t, p.id) && Undisturbed(turns)
    ensures Run(s, p, turns).1 == Run(t, p, turns).1
    ensures AgreeOn(Run(s, p, turns).0, Run(t, p, turns).0, p.id)
    ensures forall k | !InstanceOwns(p.id, k) :: SameAt(Run(s, p, turns).0, s, k)
    decreases Stage(p.pc), ClaimsLeft(p)
  {
    hide InstanceOwns, Ask, Apply, Resume, Answer, SameAt, Stage, ClaimsLeft;
    if p.pc.Done? {
      forall k ensures SameAt(s, s, k) { SameHere(s, k); }
    } else {
      var (s', reply) := Answer(s, Ask(p), Next(turns));
      var (t', reply') := Answer(t, Ask(p), Next(turns));
      AnswerLocal(s, t, p, turns);
      ResumeDescends(p, reply);
      ResumeId(p, reply);
      RunLocal(s', t', Resume(p, reply), Rest(turns));
      forall k | !InstanceOwns(p.id, k) ensures SameAt(Run(s, p, turns).0, s, k) {
        SameOver(Run(s', Resume(p, reply), Rest(turns)).0, s', s, k);
      }
    }
  }

  /** After the other name's pass, a name's keys are as they were. */
  lemma RunElsewhere(s: Store, x: Id, y: Id, turns: seq<Turn>)
    requires DnsName(x.name) && DnsName(y.name) && x != y && Undisturbed(turns)
    ensures AgreeOn(Run(s, Begin(y), turns).0, s, x)
  {
    hide InstanceOwns, Run, SameAt;
    forall k ensures SameAt(s, s, k) { SameHere(s, k); }
    RunLocal(s, s, Begin(y), turns);
    forall k | InstanceOwns(x, k) ensures SameAt(Run(s, Begin(y), turns).0, s, k) {
      if InstanceOwns(y, k) { InstancesOwnApart(x, y, k); }
    }
  }

  /** Passes of two SingleInstances commute on the store, and neither notices the other. */
  lemma PassesCommute(s: Store, x: Id, y: Id, turns: seq<Turn>, others: seq<Turn>)
    requires DnsName(x.name) && DnsName(y.name) && x != y && Undisturbed(turns) && Undisturbed(others)
    ensures var (sx, px) := Run(s, Begin(x), turns); var (sy, py) := Run(s, Begin(y), others);
            Run(sx, Begin(y), others) == (Run(sy, Begin(x), turns).0, py) && Run(sy, Begin(x), turns).1 == px
  {
    hide InstanceOwns, Run, SameAt;
    var sx, sy := Run(s, Begin(x), turns).0, Run(s, Begin(y), others).0;
    var u, v := Run(sx, Begin(y), others).0, Run(sy, Begin(x), turns).0;
    forall k ensures SameAt(s, s, k) { SameHere(s, k); }
    RunElsewhere(s, y, x, turns);
    RunElsewhere(s, x, y, others);
    RunLocal(sx, s, Begin(y), others);
    RunLocal(sy, s, Begin(x), turns);
    RunLocal(s, s, Begin(x), turns);
    RunLocal(s, s, Begin(y), others);
    forall k | InstanceOwns(x, k) ensures !InstanceOwns(y, k) {
      if InstanceOwns(y, k) { InstancesOwnApart(x, y, k); }
    }
    Join(s, sx, sy, u, v, x, y);
  }
}
