/** Single passes of the overlay reconciler against calls that answer by name: which policies are
    applied, that no policy depends on another, and that one pass without faults is enough. */
module OverlayPasses {
  import opened Status
  import opened Paging
  import opened Overlay
  import opened OverlayGuarantees
  import OverlayOrigins

  /** How each call of a pass ends, by the name it is about. */
  datatype Oracle = Oracle(services: string -> Reply, lookups: string -> Reply, policies: string -> Reply)

  /** The answer to the pending call; a save is left pending. */
  function Says(o: Oracle, pc: Pc): Reply {
    match pc
    case Ensuring(obj, sdone) =>
        if |sdone| < |obj.spec.services| then o.services(obj.spec.services[|sdone|].name) else Accepted
    case Resolving(obj, _, pdone, _, resolved) =>
      if |pdone| < |obj.spec.policies| && |resolved| < |obj.spec.policies[|pdone|].serviceRoles| then
        var role := obj.spec.policies[|pdone|].serviceRoles[|resolved|];
        if Named(role).Some? then o.lookups(Named(role).value) else Accepted
      else Accepted
    case Creating(obj, _, pdone, _, _) =>
        if |pdone| < |obj.spec.policies| then o.policies(obj.spec.policies[|pdone|].name) else Accepted
    case _ => Accepted
  }

  // ---- A pass comes to its save ----

  function Work(policies: seq<Policy>, from: nat): nat
    decreases |policies| - from
  {
    if from >= |policies| then 0 else |policies[from].serviceRoles| + 2 + Work(policies, from + 1)
  }

  /** A bound on the calls left before the save. */
  function CallsLeft(pc: Pc): nat {
    match pc
    case Ensuring(obj, sdone) =>
        (if |sdone| < |obj.spec.services| then |obj.spec.services| - |sdone| else 0) + Work(obj.spec.policies, 0)
    case Resolving(obj, _, pdone, _, resolved) =>
      Work(obj.spec.policies, |pdone| + 1) + 1 +
      if |pdone| < |obj.spec.policies| && |resolved| < |obj.spec.policies[|pdone|].serviceRoles|
      then |obj.spec.policies[|pdone|].serviceRoles| - |resolved| else 0
    case Creating(obj, _, pdone, _, _) => Work(obj.spec.policies, |pdone| + 1) + 1
    case _ => 0
  }

  lemma WalkIsLess(obj: Object, sdone: seq<bool>, pdone: seq<bool>, cache: Cache, resolved: seq<string>)
    requires |pdone| < |obj.spec.policies| && |resolved| <= |obj.spec.policies[|pdone|].serviceRoles|
    ensures CallsLeft(Walk(obj, sdone, pdone, cache, resolved)) <=
            Work(obj.spec.policies, |pdone| + 1) + 1 + |obj.spec.policies[|pdone|].serviceRoles|
  {
    ReachStays(obj.spec.policies[|pdone|].serviceRoles, cache, resolved);
  }

  lemma NextIsLess(obj: Object, sdone: seq<bool>, pdone: seq<bool>, cache: Cache)
    requires |pdone| <= |obj.spec.policies|
    ensures CallsLeft(NextPolicy(obj, sdone, pdone, cache)) <= Work(obj.spec.policies, |pdone|)
  {
    if |pdone| < |obj.spec.policies| && ServicePolicyType(obj.spec.policies[|pdone|].kind).Some? {
      var roles := obj.spec.policies[|pdone|].serviceRoles;
      WalkIsLess(obj, sdone, pdone, cache, []);
      assert Work(obj.spec.policies, |pdone|) == |roles| + 2 + Work(obj.spec.policies, |pdone| + 1);
      assert NextPolicy(obj, sdone, pdone, cache) == Walk(obj, sdone, pdone, cache, []);
    }
  }

  lemma LookUpIsLess(s: State, reply: Reply)
    requires s.pc.Resolving? && View(s, s.pc)
    ensures CallsLeft(LookUp(s, reply).pc) < CallsLeft(s.pc)
  {
    var Resolving(obj, sdone, pdone, cache, resolved) := s.pc;
    var roles := obj.spec.policies[|pdone|].serviceRoles;
    var name := Named(roles[|resolved|]).value;
    if reply.Accepted? && name in s.mesh.services {
      var known := cache[name := s.mesh.services[name].id];
      ReachStays(roles, known, resolved + ["@" + known[name]]);
    } else {
      NextIsLess(obj, sdone, pdone + [false], cache);
    }
  }

  lemma CallsRunOut(s: State, reply: Reply, id: string)
    requires Inv(s) && !s.pc.Idle? && !s.pc.Saving?
    ensures CallsLeft(Continue(s, reply, id).pc) < CallsLeft(s.pc)
  {
    match s.pc
    case Ensuring(obj, sdone) =>
      var sdone' := sdone + [reply.Accepted?];
      if |sdone'| == |obj.spec.services| {
        NextIsLess(obj.(status := obj.status.(services := Applied(ServiceNames(obj.spec), sdone'))), sdone', [], map[]);
      }
    case Resolving(_, _, _, _, _) => LookUpIsLess(s, reply);
    case Creating(obj, sdone, pdone, cache, _) => NextIsLess(obj, sdone, pdone + [reply.Accepted?], cache);
  }

  /** Answers the calls of a pass up to its save. */
  ghost function RunToSave(s: State, o: Oracle, id: string): (e: State)
    requires Inv(s)
    ensures Inv(e) && (e.pc.Idle? || e.pc.Saving?)
    decreases CallsLeft(s.pc)
  {
    if s.pc.Idle? || s.pc.Saving? then s
    else
      CallsRunOut(s, Says(o, s.pc), id);
      StepKeepsInv(s, Answer(Says(o, s.pc), id));
      RunToSave(Continue(s, Says(o, s.pc), id), o, id)
  }

  /** A declaration an idle worker can take up. */
  predicate AboutToRun(s: State) { s.pc.Idle? && s.declared.Some? && !s.declared.value.deleting }

  /** The pass, up to its save. */
  ghost function Pass(s: State, o: Oracle, id: string): (e: State)
    requires Inv(s)
    ensures Inv(e) && (e.pc.Idle? || e.pc.Saving?)
  {
    StepKeepsInv(s, Begin);
    RunToSave(Apply(s, Begin), o, id)
  }

  // ---- What each answer led to ----

  predicate RoleOk(o: Oracle, services: map<string, Hosted>, role: string) {
    Named(role).Some? ==> Named(role).value in services && o.lookups(Named(role).value).Accepted?
  }

  /** All of the policy's names resolve and its own create succeeds: nothing about other policies. */
  predicate Applies(o: Oracle, services: map<string, Hosted>, policy: Policy) {
    && (forall k :: 0 <= k < |policy.serviceRoles| ==> RoleOk(o, services, policy.serviceRoles[k]))
    && o.policies(policy.name).Accepted?
  }

  predicate Heard(o: Oracle, services: map<string, Hosted>, spec: Spec, sdone: seq<bool>, pdone: seq<bool>) {
    && |sdone| <= |spec.services| && |pdone| <= |spec.policies|
    && (forall i :: 0 <= i < |sdone| ==> sdone[i] == o.services(spec.services[i].name).Accepted?)
    && (forall i :: 0 <= i < |pdone| ==> pdone[i] == Applies(o, services, spec.policies[i]))
  }

  /** The services after the first `n` creates: those before, and those whose create took effect. */
  ghost predicate Hosts(base: map<string, Hosted>, services: map<string, Hosted>, o: Oracle, spec: Spec, n: nat)
    requires n <= |spec.services|
  {
    forall name :: name in services <==>
      name in base || exists i :: 0 <= i < n && spec.services[i].name == name && o.services(name).TookEffect()
  }

  predicate Trusts(o: Oracle, cache: Cache, roles: seq<string>, resolved: seq<string>, services: map<string, Hosted>) {
    && (forall name :: name in cache ==> o.lookups(name).Accepted?)
    && |resolved| <= |roles| && (forall k :: 0 <= k < |resolved| ==> RoleOk(o, services, roles[k]))
  }

  /** The worker holds the declaration as it is stored. */
  predicate Carries(s: State, obj: Object) {
    s.declared.Some? && obj == s.declared.value.(status := obj.status)
  }

  /** After the services, whatever the next policy turns out to be. */
  ghost predicate Readied(s: State, o: Oracle, base: map<string, Hosted>, obj: Object, sdone: seq<bool>,
      pdone: seq<bool>) {
    Carries(s, obj) && Heard(o, s.mesh.services, obj.spec, sdone, pdone) &&
        Hosts(base, s.mesh.services, o, obj.spec, |obj.spec.services|)
  }

  ghost predicate Told(s: State, o: Oracle, base: map<string, Hosted>) {
    match s.pc
    case Idle(_) => true
    case Ensuring(obj, sdone) =>
      Carries(s, obj) && Heard(o, s.mesh.services, obj.spec, sdone, []) &&
          Hosts(base, s.mesh.services, o, obj.spec, |sdone|)
    case Resolving(obj, sdone, pdone, cache, resolved) =>
      && Readied(s, o, base, obj, sdone, pdone)
      && |pdone| < |obj.spec.policies| &&
          Trusts(o, cache, obj.spec.policies[|pdone|].serviceRoles, resolved, s.mesh.services)
    case Creating(obj, sdone, pdone, cache, resolved) =>
      && Readied(s, o, base, obj, sdone, pdone)
      && |pdone| < |obj.spec.policies| &&
          Trusts(o, cache, obj.spec.policies[|pdone|].serviceRoles, resolved, s.mesh.services)
    case Saving(obj, _, sdone, pdone) => Readied(s, o, base, obj, sdone, pdone)
  }

  lemma {:induction false} ReachTrusts(o: Oracle, cache: Cache, roles: seq<string>, resolved: seq<string>,
      services: map<string, Hosted>)
    requires Trusts(o, cache, roles, resolved, services) && forall name :: name in cache ==> name in services
    ensures Trusts(o, cache, roles, Reach(roles, cache, resolved), services)
    decreases |roles| - |resolved|
  {
    if |resolved| < |roles| {
      match Named(roles[|resolved|])
      case None => ReachTrusts(o, cache, roles, resolved + [roles[|resolved|]], services);
      case Some(name) => if name in cache { ReachTrusts(o, cache, roles, resolved + ["@" + cache[name]], services); }
    }
  }

  lemma NextIsTold(s: State, o: Oracle, base: map<string, Hosted>, obj: Object, sdone: seq<bool>, pdone: seq<bool>,
      cache: Cache)
    requires Readied(s, o, base, obj, sdone, pdone) && s.pc == NextPolicy(obj, sdone, pdone, cache)
    requires forall name :: name in cache ==> name in s.mesh.services && o.lookups(name).Accepted?
    ensures Told(s, o, base)
  {
    if |pdone| < |obj.spec.policies| {
      ReachTrusts(o, cache, obj.spec.policies[|pdone|].serviceRoles, [], s.mesh.services);
    }
  }

  lemma EnsureIsTold(s: State, o: Oracle, base: map<string, Hosted>, id: string)
    requires Inv(s) && Told(s, o, base) && s.pc.Ensuring?
    ensures Told(Continue(s, Says(o, s.pc), id), o, base)
  {
    var Ensuring(obj, sdone) := s.pc;
    var reply := Says(o, s.pc);
    var e := EnsureService(s, reply, id);
    HostsGrow(base, s.mesh.services, e.mesh.services, o, obj.spec, |sdone|);
    ServicesAreTold(e, o, base, obj, sdone + [reply.Accepted?]);
  }

  lemma ServicesAreTold(s: State, o: Oracle, base: map<string, Hosted>, obj: Object, sdone: seq<bool>)
    requires Carries(s, obj) && Heard(o, s.mesh.services, obj.spec, sdone, []) &&
             Hosts(base, s.mesh.services, o, obj.spec, |sdone|)
    requires s.pc == AfterServices(obj, sdone)
    ensures Told(s, o, base)
  {
    if |sdone| == |obj.spec.services| {
      NextIsTold(s, o, base, obj.(status := obj.status.(services := Applied(ServiceNames(obj.spec), sdone))), sdone, [],
          map[]);
    }
  }

  lemma HostsGrow(base: map<string, Hosted>, before: map<string, Hosted>, after: map<string, Hosted>, o: Oracle,
      spec: Spec, n: nat)
    requires n < |spec.services| && Hosts(base, before, o, spec, n)
    requires after.Keys == before.Keys + if o.services(spec.services[n].name).TookEffect() then {spec.services[n].name}
             else {}
    ensures Hosts(base, after, o, spec, n + 1)
  {
    forall name ensures name in after <==>
        name in base || exists i :: 0 <= i < n + 1 && spec.services[i].name == name && o.services(name).TookEffect()
    {
      assert name in after <==> name in before || (spec.services[n].name == name && o.services(name).TookEffect());
    }
  }

  lemma LookUpIsTold(s: State, o: Oracle, base: map<string, Hosted>, id: string)
    requires Inv(s) && Told(s, o, base) && s.pc.Resolving?
    ensures Told(Continue(s, Says(o, s.pc), id), o, base)
  {
    var Resolving(obj, sdone, pdone, cache, resolved) := s.pc;
    var roles := obj.spec.policies[|pdone|].serviceRoles;
    var name := Named(roles[|resolved|]).value;
    var e := Continue(s, Says(o, s.pc), id);
    if o.lookups(name).Accepted? && name in s.mesh.services {
      ReachTrusts(o, cache[name := s.mesh.services[name].id], roles, resolved, s.mesh.services);
    } else {
      assert !RoleOk(o, s.mesh.services, roles[|resolved|]);
      NextIsTold(e, o, base, obj, sdone, pdone + [false], cache);
    }
  }

  lemma CreateIsTold(s: State, o: Oracle, base: map<string, Hosted>, id: string)
    requires Inv(s) && Told(s, o, base) && s.pc.Creating?
    ensures Told(Continue(s, Says(o, s.pc), id), o, base)
  {
    var Creating(obj, sdone, pdone, cache, resolved) := s.pc;
    var reply := Says(o, s.pc);
    NextIsTold(CreatePolicy(s, reply), o, base, obj, sdone, pdone + [reply.Accepted?], cache);
  }

  lemma {:induction false} RunToSaveIsTold(s: State, o: Oracle, base: map<string, Hosted>, id: string)
    requires Inv(s) && Told(s, o, base)
    ensures var e := RunToSave(s, o, id);
            Told(e, o, base) && e.declared == s.declared && (s.pc.Idle? <==> e.pc.Idle?)
    decreases CallsLeft(s.pc)
  {
    if !s.pc.Idle? && !s.pc.Saving? {
      CallsRunOut(s, Says(o, s.pc), id);
      StepKeepsInv(s, Answer(Says(o, s.pc), id));
      match s.pc {
        case Ensuring(_, _) => EnsureIsTold(s, o, base, id);
        case Resolving(_, _, _, _, _) => LookUpIsTold(s, o, base, id);
        case Creating(_, _, _, _, _) => CreateIsTold(s, o, base, id);
      }
      StaysUnderWay(s, Says(o, s.pc), id);
      RunToSaveIsTold(Continue(s, Says(o, s.pc), id), o, base, id);
    }
  }

  lemma StaysUnderWay(s: State, reply: Reply, id: string)
    requires Inv(s) && !s.pc.Idle? && !s.pc.Saving?
    ensures !Continue(s, reply, id).pc.Idle? && Continue(s, reply, id).declared == s.declared
  {
  }

  lemma BeginIsTold(s: State, o: Oracle)
    requires Inv(s) && AboutToRun(s)
    ensures Told(Apply(s, Begin), o, s.mesh.services) && !Apply(s, Begin).pc.Idle?
  {
    var obj := s.declared.value;
    ServicesAreTold(Apply(s, Begin), o, s.mesh.services, obj, []);
  }

  predicate ValidTypes(spec: Spec) {
    forall i :: 0 <= i < |spec.policies| ==> ServicePolicyType(spec.policies[i].kind).Some?
  }

  function Verdicts(o: Oracle, services: map<string, Hosted>, spec: Spec): seq<bool> {
    seq(|spec.policies|, i requires 0 <= i < |spec.policies| => Applies(o, services, spec.policies[i]))
  }

  lemma PassIsTold(s: State, o: Oracle, id: string)
    requires Inv(s) && AboutToRun(s) && ValidTypes(s.declared.value.spec)
    ensures var spec, e := s.declared.value.spec, Pass(s, o, id);
            && e.pc.Saving? && e.declared == s.declared && Carries(e, e.pc.obj)
            && |e.pc.sdone| == |spec.services| && |e.pc.pdone| == |spec.policies|
            && Heard(o, e.mesh.services, spec, e.pc.sdone, e.pc.pdone)
            && Hosts(s.mesh.services, e.mesh.services, o, spec, |spec.services|)
            && e.pc.obj.status.policies == Applied(PolicyNames(spec), e.pc.pdone)
  {
    BeginIsTold(s, o);
    StepKeepsInv(s, Begin);
    RunToSaveIsTold(Apply(s, Begin), o, s.mesh.services, id);
    assert View(Pass(s, o, id), Pass(s, o, id).pc);
  }

  /** The recorded policies are the declared ones that apply, in order; which services there were to
      resolve names against is what was there and what the pass created. */
  lemma AppliedIsAFilter(s: State, o: Oracle, id: string)
    requires Inv(s) && AboutToRun(s) && ValidTypes(s.declared.value.spec)
    ensures var spec, e := s.declared.value.spec, Pass(s, o, id);
            && e.pc.Saving? && e.pc.pdone == Verdicts(o, e.mesh.services, spec)
            && e.pc.obj.status.policies == Applied(PolicyNames(spec), Verdicts(o, e.mesh.services, spec))
            && Hosts(s.mesh.services, e.mesh.services, o, spec, |spec.services|)
            && Carries(e, e.pc.obj) && e.declared == s.declared
            && |e.pc.sdone| == |spec.services|
            && (forall i :: 0 <= i < |e.pc.sdone| ==> e.pc.sdone[i] == o.services(spec.services[i].name).Accepted?)
  {
    PassIsTold(s, o, id);
    var spec, e := s.declared.value.spec, Pass(s, o, id);
    assert e.pc.pdone == Verdicts(o, e.mesh.services, spec);
  }

  /** Adding, failing or removing other policies never changes what becomes of a policy, although the
      policies of a pass share one cache. */
  lemma PoliciesAreIndependent(s: State, t: State, o: Oracle, p: Oracle, id: string, jd: string, i: nat, j: nat)
    requires Inv(s) && AboutToRun(s) && ValidTypes(s.declared.value.spec) && Inv(t) && AboutToRun(t) &&
             ValidTypes(t.declared.value.spec)
    requires s.mesh.services.Keys == t.mesh.services.Keys &&
             s.declared.value.spec.services == t.declared.value.spec.services
    requires forall name :: o.services(name) == p.services(name) && o.lookups(name) == p.lookups(name)
    requires i < |s.declared.value.spec.policies| && j < |t.declared.value.spec.policies|
    requires s.declared.value.spec.policies[i] == t.declared.value.spec.policies[j]
    requires var name := s.declared.value.spec.policies[i].name; o.policies(name) == p.policies(name)
    ensures var d, e := Pass(s, o, id), Pass(t, p, jd);
            d.pc.Saving? && e.pc.Saving? && i < |d.pc.pdone| && j < |e.pc.pdone| && d.pc.pdone[i] == e.pc.pdone[j]
  {
    AppliedIsAFilter(s, o, id);
    AppliedIsAFilter(t, p, jd);
    var d, e := Pass(s, o, id), Pass(t, p, jd);
    forall name ensures name in d.mesh.services <==> name in e.mesh.services {
      var services := s.declared.value.spec.services;
      assert name in d.mesh.services <==>
        (name in s.mesh.services ||
         exists k :: 0 <= k < |services| && services[k].name == name && o.services(name).TookEffect());
    }
    var policy := s.declared.value.spec.policies[i];
    assert forall k :: 0 <= k < |policy.serviceRoles| ==>
      (RoleOk(o, d.mesh.services, policy.serviceRoles[k]) <==> RoleOk(p, e.mesh.services, policy.serviceRoles[k]));
  }

  // ---- One pass is enough ----

  const WELL := Oracle(name => Accepted, name => Accepted, name => Accepted)

  /** Every "@name" is declared with the policies, or already on the overlay. */
  ghost predicate NamesKnown(mesh: Mesh, spec: Spec) {
    forall i, k :: 0 <= i < |spec.policies| && 0 <= k < |spec.policies[i].serviceRoles| ==>
      var name := Named(spec.policies[i].serviceRoles[k]);
      name.None? || name.value in mesh.services || name.value in ServiceNames(spec)
  }

  /** The pass without faults, its save included. */
  ghost function FullPass(s: State, id: string): State
    requires Inv(s)
  {
    Continue(Pass(s, WELL, id), Accepted, id)
  }

  lemma AllVerdicts(s: State, id: string)
    requires Inv(s) && AboutToRun(s) && ValidTypes(s.declared.value.spec) && NamesKnown(s.mesh, s.declared.value.spec)
    ensures Pass(s, WELL, id).pc.Saving? && All(Pass(s, WELL, id).pc.sdone) && All(Pass(s, WELL, id).pc.pdone)
  {
    AppliedIsAFilter(s, WELL, id);
    var spec, e := s.declared.value.spec, Pass(s, WELL, id);
    forall i | 0 <= i < |spec.policies| ensures Applies(WELL, e.mesh.services, spec.policies[i]) {
      forall k | 0 <= k < |spec.policies[i].serviceRoles|
          ensures RoleOk(WELL, e.mesh.services, spec.policies[i].serviceRoles[k]) {
        var name := Named(spec.policies[i].serviceRoles[k]);
        if name.Some? && name.value !in s.mesh.services {
          var n :| 0 <= n < |ServiceNames(spec)| && ServiceNames(spec)[n] == name.value;
          assert spec.services[n].name == name.value;
        }
      }
    }
  }

  /** From any overlay, one pass without faults ends Ready with every declared service and policy
      there, and nothing that was there altered. */
  lemma OnePassConverges(s: State, id: string)
    requires Inv(s) && AboutToRun(s) && ValidTypes(s.declared.value.spec) && NamesKnown(s.mesh, s.declared.value.spec)
    ensures var o, e := s.declared.value, FullPass(s, id);
            && e.pc == Idle(Again(Done)) && e.declared.Some? && e.declared.value.spec == o.spec
            && e.declared.value.status == Standing(ServiceNames(o.spec), PolicyNames(o.spec), Set(Reconciled),
                o.generation)
            && (forall name :: name in ServiceNames(o.spec) ==> name in e.mesh.services)
            && (forall name :: name in PolicyNames(o.spec) ==> name in e.mesh.policies)
            && Inv(e)
  {
    AllVerdicts(s, id);
    AppliedIsAFilter(s, WELL, id);
    var o, e := s.declared.value, Pass(s, WELL, id);
    NonePending(ServiceNames(o.spec), e.pc.sdone);
    NonePending(PolicyNames(o.spec), e.pc.pdone);
    assert ServiceNames(o.spec)[..|o.spec.services|] == ServiceNames(o.spec);
    assert PolicyNames(o.spec)[..|o.spec.policies|] == PolicyNames(o.spec);
    StepKeepsInv(e, Answer(Accepted, id));
  }

  /** Every declared name is on the overlay. */
  ghost predicate Full(mesh: Mesh, spec: Spec) {
    && (forall i :: 0 <= i < |spec.services| ==> spec.services[i].name in mesh.services)
    && (forall i :: 0 <= i < |spec.policies| ==> spec.policies[i].name in mesh.policies)
  }

  lemma StaysHeld(s: State, reply: Reply, id: string)
    requires Inv(s) && !s.pc.Idle? && !s.pc.Saving? && Carries(s, s.pc.obj)
    ensures !Continue(s, reply, id).pc.Idle? && Carries(Continue(s, reply, id), Continue(s, reply, id).pc.obj)
  {
    match s.pc
    case Ensuring(obj, sdone) =>
      var sdone' := sdone + [reply.Accepted?];
      if |sdone'| == |obj.spec.services| {
        OverlayOrigins.NextKeepsSpec(obj.(status := obj.status.(services := Applied(ServiceNames(obj.spec), sdone'))),
            sdone', [], map[]);
      }
    case Resolving(obj, sdone, pdone, cache, _) => OverlayOrigins.NextKeepsSpec(obj, sdone, pdone + [false], cache);
    case Creating(obj, sdone, pdone, cache, _) =>
        OverlayOrigins.NextKeepsSpec(obj, sdone, pdone + [reply.Accepted?], cache);
  }

  lemma {:induction false} RunToSaveAddsNothing(s: State, o: Oracle, id: string)
    requires Inv(s) && s.declared.Some? && (!s.pc.Idle? ==> Carries(s, s.pc.obj)) && Full(s.mesh, s.declared.value.spec)
    ensures RunToSave(s, o, id).mesh == s.mesh
    decreases CallsLeft(s.pc)
  {
    if !s.pc.Idle? && !s.pc.Saving? {
      CallsRunOut(s, Says(o, s.pc), id);
      StepKeepsInv(s, Answer(Says(o, s.pc), id));
      StaysUnderWay(s, Says(o, s.pc), id);
      StaysHeld(s, Says(o, s.pc), id);
      AddsNothing(s, Says(o, s.pc), id);
      RunToSaveAddsNothing(Continue(s, Says(o, s.pc), id), o, id);
    }
  }

  /** A repeat pass leaves the overlay unchanged, whatever its calls answer. */
  lemma RepeatPassIsQuiet(s: State, id: string, o: Oracle, jd: string)
    requires Inv(s) && AboutToRun(s) && ValidTypes(s.declared.value.spec) && NamesKnown(s.mesh, s.declared.value.spec)
    ensures Inv(FullPass(s, id)) && Pass(FullPass(s, id), o, jd).mesh == FullPass(s, id).mesh
  {
    OnePassConverges(s, id);
    var e := FullPass(s, id);
    var spec := s.declared.value.spec;
    forall i | 0 <= i < |spec.services| ensures spec.services[i].name in e.mesh.services {
      assert ServiceNames(spec)[i] in ServiceNames(spec);
    }
    forall i | 0 <= i < |spec.policies| ensures spec.policies[i].name in e.mesh.policies {
      assert PolicyNames(spec)[i] in PolicyNames(spec);
    }
    StepKeepsInv(e, Begin);
    RunToSaveAddsNothing(Apply(e, Begin), o, jd);
  }
}
