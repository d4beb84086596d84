/** What every run of the overlay reconciler keeps, whatever fails, crashes or interferes. */
module OverlayGuarantees {
  import opened Strings
  import opened Status
  import opened Paging
  import opened Overlay

  // ---- The split into applied and pending ----

  function Not(done: seq<bool>): seq<bool> { seq(|done|, i requires 0 <= i < |done| => !done[i]) }

  /** Applied and pending split the declared names. */
  lemma {:induction false} AppliedPartitions(names: seq<string>, done: seq<bool>)
    requires |done| <= |names|
    ensures multiset(Applied(names, done)) + multiset(Applied(names, Not(done))) == multiset(names[..|done|])
  {
    if done == [] {
      assert Applied(names, done) == [] && Applied(names, Not(done)) == [] && names[..|done|] == [];
    } else {
      var k := |done| - 1;
      AppliedPartitions(names, done[..k]);
      assert Not(done)[..k] == Not(done[..k]);
      assert names[..k + 1] == names[..k] + [names[k]];
    }
  }

  /** Nothing is pending exactly when everything was applied. */
  lemma {:induction false} NonePending(names: seq<string>, done: seq<bool>)
    requires |done| <= |names|
    ensures Applied(names, Not(done)) == [] <==> All(done)
    ensures All(done) ==> Applied(names, done) == names[..|done|]
  {
    if done != [] {
      var k := |done| - 1;
      NonePending(names, done[..k]);
      assert Not(done)[..k] == Not(done[..k]);
      assert All(done) <==> All(done[..k]) && done[k];
    }
  }

  lemma {:induction false} AppliedNames(names: seq<string>, done: seq<bool>, name: string)
    requires |done| <= |names| && name in Applied(names, done)
    ensures exists i :: 0 <= i < |done| && done[i] && names[i] == name
  {
    var k := |done| - 1;
    if done[k] && names[k] == name {
    } else {
      AppliedNames(names, done[..k], name);
      var i :| 0 <= i < k && done[..k][i] && names[i] == name;
      assert done[i];
    }
  }

  // ---- The invariant ----

  /** Every name a status lists is on the overlay. */
  ghost predicate Exists(mesh: Mesh, status: Standing) {
    && (forall name :: name in status.services ==> name in mesh.services)
    && (forall name :: name in status.policies ==> name in mesh.policies)
  }

  ghost predicate Sees(s: State, obj: Object) {
    && obj.version <= s.clock && obj.status.observed <= obj.generation && Exists(s.mesh, obj.status)
    && (s.Writable(obj.version) ==> s.declared.value == obj.(status := s.declared.value.status))
    && (s.Writable(obj.version) ==> s.declared.value.status.observed <= obj.status.observed)
  }

  /** What was applied so far exists, and every policy reached has a valid type. */
  ghost predicate Did(mesh: Mesh, spec: Spec, sdone: seq<bool>, pdone: seq<bool>) {
    && |sdone| <= |spec.services| && |pdone| <= |spec.policies|
    && (forall i :: 0 <= i < |sdone| && sdone[i] ==> spec.services[i].name in mesh.services)
    && (forall i :: 0 <= i < |pdone| && pdone[i] ==> spec.policies[i].name in mesh.policies)
    && (forall i :: 0 <= i < |pdone| ==> ServicePolicyType(spec.policies[i].kind).Some?)
  }

  /** The cache holds what a direct lookup would answer, and each name in it was looked up once. */
  ghost predicate Cached(s: State, cache: Cache) {
    && (forall name :: name in cache ==> name in s.mesh.services && cache[name] == s.mesh.services[name].id)
    && Distinct(s.log.found) && Elements(s.log.found) == cache.Keys
  }

  /** The roles resolved so far agree with direct lookups. */
  ghost predicate ResolvesAs(services: map<string, Hosted>, roles: seq<string>, resolved: seq<string>) {
    |resolved| <= |roles| && IsDirect(services, roles[..|resolved|], resolved)
  }

  /** The policies recorded by an earlier pass are not touched before the end. */
  predicate KeepsPolicies(s: State, obj: Object) {
    s.Writable(obj.version) ==> obj.status.policies == s.declared.value.status.policies
  }

  ghost predicate Reached(s: State, obj: Object, sdone: seq<bool>, pdone: seq<bool>) {
    && Sees(s, obj) && Did(s.mesh, obj.spec, sdone, pdone)
    && |sdone| == |obj.spec.services| && obj.status.services == Applied(ServiceNames(obj.spec), sdone)
  }

  ghost predicate View(s: State, pc: Pc) {
    match pc
    case Idle(_) => true
    case Ensuring(obj, sdone) =>
      Sees(s, obj) && KeepsPolicies(s, obj) && Did(s.mesh, obj.spec, sdone, []) && |sdone| < |obj.spec.services| &&
          s.log.found == []
    case Resolving(obj, sdone, pdone, cache, resolved) =>
      && Reached(s, obj, sdone, pdone) && KeepsPolicies(s, obj) && Cached(s, cache) && |pdone| < |obj.spec.policies|
      && var policy := obj.spec.policies[|pdone|];
         && ServicePolicyType(policy.kind).Some? && |resolved| < |policy.serviceRoles|
         && ResolvesAs(s.mesh.services, policy.serviceRoles, resolved)
         && Named(policy.serviceRoles[|resolved|]).Some? && Named(policy.serviceRoles[|resolved|]).value !in cache
    case Creating(obj, sdone, pdone, cache, resolved) =>
      && Reached(s, obj, sdone, pdone) && KeepsPolicies(s, obj) && Cached(s, cache) && |pdone| < |obj.spec.policies|
      && var policy := obj.spec.policies[|pdone|];
         ServicePolicyType(policy.kind).Some? && IsDirect(s.mesh.services, policy.serviceRoles, resolved)
    case Saving(obj, retry, sdone, pdone) =>
      && Reached(s, obj, sdone, pdone) && Distinct(s.log.found) && obj.status.observed == obj.generation
      && Ending(obj, retry, sdone, pdone) && (|pdone| < |obj.spec.policies| ==> KeepsPolicies(s, obj))
  }

  /** How a pass ends: with both splits recorded, Ready exactly when nothing is pending; or early, at
      the first policy with an unknown type, with the policies recorded earlier left in place. */
  predicate Ending(obj: Object, retry: Retry, sdone: seq<bool>, pdone: seq<bool>)
    requires |pdone| <= |obj.spec.policies|
  {
    if |pdone| == |obj.spec.policies| then
      && obj.status.policies == Applied(PolicyNames(obj.spec), pdone)
      && obj.status.verdict == (if All(sdone) && All(pdone) then Set(Reconciled) else Set(Pending))
      && retry == (if All(sdone) && All(pdone) then Done else Requeue)
    else
      && ServicePolicyType(obj.spec.policies[|pdone|].kind).None?
      && obj.status.verdict == Set(Rejected) && retry == Done
  }

  /** A port range for each declared one, from its low to its high port. */
  predicate SamePorts(declared: seq<PortRange>, hosted: seq<WireRange>) {
    |hosted| == |declared| &&
    forall k :: 0 <= k < |declared| ==> hosted[k].low == declared[k].low && hosted[k].high == declared[k].high
  }

  predicate SameIntercept(asked: Intercept, given: WireIntercept) {
    given.protocols == asked.protocols && given.addresses == asked.addresses && SamePorts(asked.ports, given.ports)
  }

  /** The controller's services are as declared, the intercept included. */
  ghost predicate WellHosted(mesh: Mesh, hosted: map<string, Service>) {
    forall name :: name in hosted ==>
      && name in mesh.services && mesh.services[name].attributes == hosted[name].attributes
      && (hosted[name].intercept.None? <==> mesh.services[name].intercept.None?)
      && (hosted[name].intercept.Some? && mesh.services[name].intercept.Some? ==>
            SameIntercept(hosted[name].intercept.value, mesh.services[name].intercept.value))
  }

  /** The controller's policies have the declared type, and carry the ids of the services they were
      declared with. */
  ghost predicate WellMade(mesh: Mesh, made: map<string, Policy>) {
    forall name :: name in made ==>
      && name in mesh.policies && (made[name].kind == "Dial" || made[name].kind == "Bind")
      && (made[name].kind == "Dial" ==> mesh.policies[name].kind == Dial)
      && (made[name].kind == "Bind" ==> mesh.policies[name].kind == Bind)
      && mesh.policies[name].identityRoles == made[name].identityRoles
      && IsDirect(mesh.services, made[name].serviceRoles, mesh.policies[name].serviceRoles)
  }

  ghost predicate Inv(s: State) {
    && (s.declared.Some? ==> Truthful(s, s.declared.value))
    && WellHosted(s.mesh, s.log.hosted) && WellMade(s.mesh, s.log.made) && View(s, s.pc)
  }

  ghost predicate Truthful(s: State, obj: Object) {
    obj.version <= s.clock && obj.status.observed <= obj.generation && Exists(s.mesh, obj.status)
  }

  // ---- The overlay only grows ----

  lemma StepExtends(s: State, l: Label)
    ensures Extends(s.mesh, Apply(s, l).mesh)
  {
  }

  lemma ExtendsTrans(a: Mesh, b: Mesh, c: Mesh)
    requires Extends(a, b) && Extends(b, c)
    ensures Extends(a, c)
  {
  }

  /** Nothing on the overlay is ever altered or removed. */
  lemma {:induction false} NothingIsAltered(s: State, labels: seq<Label>)
    ensures Extends(s.mesh, Exec(s, labels).mesh)
  {
    if labels != [] {
      NothingIsAltered(s, labels[..|labels| - 1]);
      StepExtends(Exec(s, labels[..|labels| - 1]), labels[|labels| - 1]);
      ExtendsTrans(s.mesh, Exec(s, labels[..|labels| - 1]).mesh, Exec(s, labels).mesh);
    }
  }

  // ---- Between two calls ----

  /** The cache takes the place of the lookups. */
  lemma {:induction false} ReachAgrees(services: map<string, Hosted>, cache: Cache, roles: seq<string>,
      resolved: seq<string>)
    requires ResolvesAs(services, roles, resolved)
    requires forall name :: name in cache ==> name in services && cache[name] == services[name].id
    ensures ResolvesAs(services, roles, Reach(roles, cache, resolved))
    decreases |roles| - |resolved|
  {
    if |resolved| < |roles| {
      var role := roles[|resolved|];
      assert roles[..|resolved| + 1] == roles[..|resolved|] + [role];
      match Named(role)
      case None => ReachAgrees(services, cache, roles, resolved + [role]);
      case Some(name) => if name in cache { ReachAgrees(services, cache, roles, resolved + ["@" + cache[name]]); }
    }
  }

  lemma WalkKeepsView(s: State, obj: Object, sdone: seq<bool>, pdone: seq<bool>, cache: Cache, resolved: seq<string>)
    requires Reached(s, obj, sdone, pdone) && KeepsPolicies(s, obj) && Cached(s, cache) && |pdone| < |obj.spec.policies|
    requires ServicePolicyType(obj.spec.policies[|pdone|].kind).Some?
    requires ResolvesAs(s.mesh.services, obj.spec.policies[|pdone|].serviceRoles, resolved)
    ensures View(s, Walk(obj, sdone, pdone, cache, resolved))
  {
    var roles := obj.spec.policies[|pdone|].serviceRoles;
    ReachStays(roles, cache, resolved);
    ReachAgrees(s.mesh.services, cache, roles, resolved);
    var reached := Reach(roles, cache, resolved);
    if |reached| == |roles| { assert roles[..|reached|] == roles; }
  }

  lemma NextKeepsView(s: State, obj: Object, sdone: seq<bool>, pdone: seq<bool>, cache: Cache)
    requires Reached(s, obj, sdone, pdone) && KeepsPolicies(s, obj) && Cached(s, cache)
    ensures View(s, NextPolicy(obj, sdone, pdone, cache))
  {
    if |pdone| == |obj.spec.policies| {
      forall name | name in Applied(PolicyNames(obj.spec), pdone) ensures name in s.mesh.policies {
        AppliedNames(PolicyNames(obj.spec), pdone, name);
      }
    } else if ServicePolicyType(obj.spec.policies[|pdone|].kind).Some? {
      WalkKeepsView(s, obj, sdone, pdone, cache, []);
    }
  }

  lemma ServicesKeepView(s: State, obj: Object, sdone: seq<bool>)
    requires Sees(s, obj) && KeepsPolicies(s, obj) && Did(s.mesh, obj.spec, sdone, []) && s.log.found == []
    ensures View(s, AfterServices(obj, sdone))
  {
    if |sdone| == |obj.spec.services| {
      forall name | name in Applied(ServiceNames(obj.spec), sdone) ensures name in s.mesh.services {
        AppliedNames(ServiceNames(obj.spec), sdone, name);
      }
      NextKeepsView(s, obj.(status := obj.status.(services := Applied(ServiceNames(obj.spec), sdone))), sdone, [],
          map[]);
    }
  }

  // ---- Steps ----

  /** A worker's view survives whatever only adds to the overlay and leaves old versions be. */
  lemma ViewStays(s: State, e: State)
    requires View(s, s.pc) && e.log.found == s.log.found && Extends(s.mesh, e.mesh) && s.clock <= e.clock
    requires forall version: nat :: version <= s.clock && e.Writable(version) ==>
             s.Writable(version) && e.declared == s.declared
    ensures View(e, s.pc)
  {
  }

  lemma WellMadeStays(a: Mesh, b: Mesh, made: map<string, Policy>)
    requires WellMade(a, made) && Extends(a, b)
    ensures WellMade(b, made)
  {
  }

  lemma WellHostedStays(a: Mesh, b: Mesh, hosted: map<string, Service>)
    requires WellHosted(a, hosted) && Extends(a, b)
    ensures WellHosted(b, hosted)
  {
  }

  lemma EnsuredIsWellHosted(s: State, reply: Reply, id: string)
    requires WellHosted(s.mesh, s.log.hosted) && s.pc.Ensuring? && |s.pc.sdone| < |s.pc.obj.spec.services|
    ensures WellHosted(EnsureService(s, reply, id).mesh, EnsureService(s, reply, id).log.hosted)
  {
    WellHostedStays(s.mesh, EnsureService(s, reply, id).mesh, s.log.hosted);
  }

  lemma EnsureKeepsInv(s: State, reply: Reply, id: string)
    requires Inv(s) && s.pc.Ensuring?
    ensures Inv(Continue(s, reply, id))
  {
    var Ensuring(obj, sdone) := s.pc;
    var e := EnsureService(s, reply, id);
    EnsuredIsWellHosted(s, reply, id);
    WellMadeStays(s.mesh, e.mesh, s.log.made);
    ViewStays(s, e.(pc := s.pc));
    ServicesKeepView(e, obj, sdone + [reply.Accepted?]);
  }

  lemma LookUpKeepsInv(s: State, reply: Reply, id: string)
    requires Inv(s) && s.pc.Resolving?
    ensures Inv(Continue(s, reply, id))
  {
    var Resolving(obj, sdone, pdone, cache, resolved) := s.pc;
    var name := Named(obj.spec.policies[|pdone|].serviceRoles[|resolved|]).value;
    var e := LookUp(s, reply);
    if reply.Accepted? && name in s.mesh.services {
      assert name !in s.log.found by { assert name !in Elements(s.log.found); }
      WalkKeepsView(e, obj, sdone, pdone, cache[name := s.mesh.services[name].id], resolved);
    } else {
      NextKeepsView(e, obj, sdone, pdone + [false], cache);
    }
  }

  lemma CreatedIsWellMade(s: State, reply: Reply)
    requires WellMade(s.mesh, s.log.made) && s.pc.Creating? && |s.pc.pdone| < |s.pc.obj.spec.policies|
    requires IsDirect(s.mesh.services, s.pc.obj.spec.policies[|s.pc.pdone|].serviceRoles, s.pc.resolved)
    ensures WellMade(CreatePolicy(s, reply).mesh, CreatePolicy(s, reply).log.made)
  {
    WellMadeStays(s.mesh, CreatePolicy(s, reply).mesh, s.log.made);
  }

  lemma CreateKeepsInv(s: State, reply: Reply, id: string)
    requires Inv(s) && s.pc.Creating?
    ensures Inv(Continue(s, reply, id))
  {
    var e := CreatePolicy(s, reply);
    CreatedIsWellMade(s, reply);
    CreatedIsViewed(s, reply);
    WellHostedStays(s.mesh, e.mesh, s.log.hosted);
  }

  lemma CreatedIsViewed(s: State, reply: Reply)
    requires View(s, s.pc) && s.pc.Creating?
    ensures View(CreatePolicy(s, reply), CreatePolicy(s, reply).pc)
  {
    var Creating(obj, sdone, pdone, cache, resolved) := s.pc;
    var e := CreatePolicy(s, reply);
    ViewStays(s, e.(pc := s.pc, log := s.log));
    NextKeepsView(e, obj, sdone, pdone + [reply.Accepted?], cache);
  }

  lemma SaveKeepsInv(s: State, reply: Reply, id: string)
    requires Inv(s) && s.pc.Saving?
    ensures Inv(Continue(s, reply, id))
  {
  }

  lemma StepKeepsInv(s: State, l: Label)
    requires Inv(s)
    ensures Inv(Apply(s, l))
  {
    match l
    case Begin =>
      if s.pc.Idle? && s.declared.Some? && !s.declared.value.deleting {
        ServicesKeepView(Apply(s, l), s.declared.value, []);
      }
    case Answer(reply, id) =>
      match s.pc {
        case Idle(_) =>
        case Ensuring(_, _) => EnsureKeepsInv(s, reply, id);
        case Resolving(_, _, _, _, _) => LookUpKeepsInv(s, reply, id);
        case Creating(_, _, _, _, _) => CreateKeepsInv(s, reply, id);
        case Saving(_, _, _, _) => SaveKeepsInv(s, reply, id);
      }
    case Crash =>
    case _ =>
      StepExtends(s, l);
      WellMadeStays(s.mesh, Apply(s, l).mesh, s.log.made);
      WellHostedStays(s.mesh, Apply(s, l).mesh, s.log.hosted);
      ViewStays(s, Apply(s, l));
  }

  lemma {:induction false} Reachable(s: State, labels: seq<Label>)
    requires Init(s)
    ensures Inv(Exec(s, labels))
  {
    if labels != [] {
      Reachable(s, labels[..|labels| - 1]);
      StepKeepsInv(Exec(s, labels[..|labels| - 1]), labels[|labels| - 1]);
    }
  }

  // ---- What it means ----

  /** Over all runs: a recorded service or policy is on the overlay; a service the controller made has
      the declared attributes and intercept; a policy it made has the declared type and carries, role by
      role, what a direct lookup of its declaration answers. */
  lemma RecordedExists(s: State, labels: seq<Label>)
    requires Init(s)
    ensures var e := Exec(s, labels);
            && (e.declared.Some? ==> Exists(e.mesh, e.declared.value.status))
            && WellHosted(e.mesh, e.log.hosted) && WellMade(e.mesh, e.log.made)
  {
    Reachable(s, labels);
  }

  /** The cached resolver agrees with plain lookup: when a policy is about to be created its roles are
      the direct ones, though each name was asked for, with success, only once in the pass. */
  lemma ResolverIsDirect(s: State, labels: seq<Label>)
    requires Init(s)
    ensures var e := Exec(s, labels);
            && (e.pc.Creating? ==>
                  && |e.pc.pdone| < |e.pc.obj.spec.policies|
                  && IsDirect(e.mesh.services, e.pc.obj.spec.policies[|e.pc.pdone|].serviceRoles, e.pc.resolved))
            && (!e.pc.Idle? ==> Distinct(e.log.found))
            && (e.pc.Creating? || e.pc.Resolving? ==> Elements(e.log.found) == e.pc.cache.Keys)
  {
    Reachable(s, labels);
  }

  /** What a pass saves: both splits exactly, Ready if and only if neither leaves anything pending. */
  lemma SavedIsTheSplit(s: State, labels: seq<Label>)
    requires Init(s) && Exec(s, labels).pc.Saving?
    ensures var Saving(obj, retry, sdone, pdone) := Exec(s, labels).pc;
            && |sdone| == |obj.spec.services| && |pdone| <= |obj.spec.policies|
            && (forall i :: 0 <= i < |pdone| ==>
                  obj.spec.policies[i].kind == "Dial" || obj.spec.policies[i].kind == "Bind")
            && obj.status.services == Applied(ServiceNames(obj.spec), sdone)
            && multiset(obj.status.services) +
                multiset(Applied(ServiceNames(obj.spec), Not(sdone))) == multiset(ServiceNames(obj.spec))
            && if |pdone| == |obj.spec.policies| then
                 && obj.status.policies == Applied(PolicyNames(obj.spec), pdone)
                 && multiset(obj.status.policies) +
                     multiset(Applied(PolicyNames(obj.spec), Not(pdone))) == multiset(PolicyNames(obj.spec))
                 && (obj.status.verdict == Set(Reconciled) <==>
                       Applied(ServiceNames(obj.spec), Not(sdone)) == [] &&
                           Applied(PolicyNames(obj.spec), Not(pdone)) == [])
                 && (retry == Done <==> obj.status.verdict == Set(Reconciled))
               else obj.status.verdict == Set(Rejected) && retry == Done
                    && obj.spec.policies[|pdone|].kind != "Dial" && obj.spec.policies[|pdone|].kind != "Bind"
                    && (Exec(s, labels).Writable(obj.version) ==>
                          obj.status.policies == Exec(s, labels).declared.value.status.policies)
  {
    Reachable(s, labels);
    var Saving(obj, retry, sdone, pdone) := Exec(s, labels).pc;
    assert ServiceNames(obj.spec)[..|sdone|] == ServiceNames(obj.spec);
    AppliedPartitions(ServiceNames(obj.spec), sdone);
    NonePending(ServiceNames(obj.spec), sdone);
    assert PolicyNames(obj.spec)[..|PolicyNames(obj.spec)|] == PolicyNames(obj.spec);
    if |pdone| == |obj.spec.policies| {
      AppliedPartitions(PolicyNames(obj.spec), pdone);
      NonePending(PolicyNames(obj.spec), pdone);
    }
  }

  /** The observed generation never goes back and never runs ahead. */
  lemma ObservedNeverGoesBack(s: State, labels: seq<Label>, l: Label)
    requires Init(s) && Exec(s, labels).declared.Some? && Apply(Exec(s, labels), l).declared.Some?
    ensures var o, o' := Exec(s, labels).declared.value, Apply(Exec(s, labels), l).declared.value;
            o.status.observed <= o'.status.observed <= o'.generation
  {
    Reachable(s, labels);
    StepKeepsInv(Exec(s, labels), l);
  }

  /** Once every declared name is on the overlay, no step of the controller changes the overlay,
      whatever its calls answer. */
  lemma AddsNothing(s: State, reply: Reply, id: string)
    requires Inv(s)
    requires !s.pc.Idle? ==>
               && (forall i :: 0 <= i < |s.pc.obj.spec.services| ==> s.pc.obj.spec.services[i].name in s.mesh.services)
               && (forall i :: 0 <= i < |s.pc.obj.spec.policies| ==> s.pc.obj.spec.policies[i].name in s.mesh.policies)
    ensures Continue(s, reply, id).mesh == s.mesh
  {
  }
}
