/** internal/controller/overlaypolicy_controller.go, as code over the store and the overlay. Every call
    lets the rest of the world act first, ends however it likes, and is recorded; each method is proved
    to perform a run of the machine in Overlay. */
module OverlayReconciler {
  import opened Runs
  import opened Status
  import opened Paging
  import opened Overlay
  import opened OverlayGuarantees

  predicate Foreign(l: Label) { !l.Begin? && !l.Answer? && !l.Crash? }

  predicate Begins(l: Label) { l.Begin? }

  /** portRanges: a copy, range by range. */
  method PortRanges(ranges: seq<PortRange>) returns (converted: seq<WireRange>)
    ensures |converted| == |ranges|
    ensures forall k :: 0 <= k < |ranges| ==> converted[k].low == ranges[k].low && converted[k].high == ranges[k].high
  {
    converted := [];
    for i := 0 to |ranges|
      invariant |converted| == i
      invariant forall k :: 0 <= k < i ==> converted[k].low == ranges[k].low && converted[k].high == ranges[k].high
    {
      converted := converted + [WireRange(ranges[i].low, ranges[i].high)];
    }
  }

  lemma AppliedSnoc(names: seq<string>, done: seq<bool>, ok: bool)
    requires |done| < |names|
    ensures Applied(names, done + [ok]) == if ok then Applied(names, done) + [names[|done|]] else Applied(names, done)
    ensures Applied(names, Not(done + [ok])) == if ok then Applied(names, Not(done))
            else Applied(names, Not(done)) + [names[|done|]]
  {
    assert (done + [ok])[..|done|] == done;
    assert Not(done + [ok])[..|done|] == Not(done);
  }

  lemma HistoryGrows(s: State, history: seq<Label>, l: Label)
    requires Crash !in history && !l.Crash?
    ensures Exec(s, history + [l]) == Apply(Exec(s, history), l) && Crash !in history + [l]
    ensures Times(history + [l], Begins) == if l.Begin? then Times(history, Begins) + 1 else Times(history, Begins)
  {
    ExecSnoc(s, history, l);
    TimesSnoc(history, l, Begins);
  }

  /** The worker, in the shared world. Whatever happens is a step of the machine; the code itself takes
      up passes one by one, and does not crash. */
  class Reconciler {
    ghost const origin: State
    ghost var history: seq<Label>
    ghost var passes: nat
    var s: State

    ghost predicate Valid()
      reads this
    {
      && Init(origin) && s == Exec(origin, history)
      && passes == Times(history, Begins) && Crash !in history
    }

    constructor (start: State)
      requires Init(start)
      ensures Valid() && s == origin == start && passes == 0
    {
      origin, history, passes, s := start, [], 0, start;
    }

    method Perform(l: Label)
      requires Valid() && !l.Crash?
      modifies this
      ensures Valid() && s == Apply(old(s), l)
      ensures passes == if l.Begin? then old(passes) + 1 else old(passes)
    {
      HistoryGrows(origin, history, l);
      s := Apply(s, l);
      history := history + [l];
      passes := if l.Begin? then passes + 1 else passes;
    }

    /** Any number of foreign actions. */
    method Interfere()
      requires Valid()
      modifies this
      ensures Valid() && s.pc == old(s.pc) && passes == old(passes)
    {
      var rounds: nat :| 0 <= rounds;
      for i := 0 to rounds
        invariant Valid() && s.pc == old(s.pc) && passes == old(passes)
      {
        var l: Label := *;
        if Foreign(l) {
          Perform(l);
        }
      }
    }

    // ---- Calls ----

    method Get() returns (found: bool, obj: Object)
      requires Valid() && s.pc.Idle?
      modifies this
      ensures Valid()
      ensures passes == if found then old(passes) + 1 else old(passes)
      ensures found ==> s.pc == if obj.deleting then Idle(Nothing) else AfterServices(obj, [])
      ensures !found ==> s.declared.None? && s.pc.Idle?
    {
      Interfere();
      found := s.declared.Some?;
      if found {
        obj := s.declared.value;
        Perform(Begin);
      } else {
        obj := Object(0, 0, false, Spec([], []), Standing([], [], Unset, 0));
      }
    }

    method CreateService(obj: Object, request: Hosted, ghost sdone: seq<bool>) returns (created: bool)
      requires Valid() && |sdone| < |obj.spec.services| && s.pc == Ensuring(obj, sdone)
      requires var service := obj.spec.services[|sdone|];
               && request.attributes == service.attributes && (request.intercept.Some? <==> service.intercept.Some?)
               && (service.intercept.Some? && request.intercept.Some? ==>
                     SameIntercept(service.intercept.value, request.intercept.value))
      modifies this
      ensures Valid() && passes == old(passes) && s.pc == AfterServices(obj, sdone + [created])
    {
      Interfere();
      var reply: Reply, id: string := *, *;
      Perform(Answer(reply, id));
      created := reply.Accepted?;
    }

    /** ListServices by name: the id of the first match. */
    method ListServices(ghost obj: Object, name: string, ghost sdone: seq<bool>, ghost pdone: seq<bool>,
                        ghost cache: Cache, ghost resolved: seq<string>)
      returns (failed: bool, ids: seq<string>)
      requires Valid() && s.pc == Resolving(obj, sdone, pdone, cache, resolved)
      requires |pdone| < |obj.spec.policies| && |resolved| < |obj.spec.policies[|pdone|].serviceRoles|
      requires Named(obj.spec.policies[|pdone|].serviceRoles[|resolved|]) == Some(name)
      modifies this
      ensures Valid() && passes == old(passes)
      ensures s.pc == if failed || ids == [] then NextPolicy(obj, sdone, pdone + [false], cache)
                      else Walk(obj, sdone, pdone, cache[name := ids[0]], resolved)
    {
      Interfere();
      var reply: Reply := *;
      failed := !reply.Accepted?;
      ids := if name in s.mesh.services then [s.mesh.services[name].id] else [];
      Perform(Answer(reply, ""));
    }

    method CreateServicePolicy(ghost obj: Object, ghost policy: Policy, request: Rule, ghost sdone: seq<bool>,
                               ghost pdone: seq<bool>, ghost cache: Cache)
      returns (created: bool)
      requires Valid() && s.pc == Creating(obj, sdone, pdone, cache, request.serviceRoles)
      requires |pdone| < |obj.spec.policies| && policy == obj.spec.policies[|pdone|]
      requires (policy.kind == "Dial" && request.kind == Dial) || (policy.kind == "Bind" && request.kind == Bind)
      requires request.identityRoles == policy.identityRoles
      requires IsDirect(s.mesh.services, policy.serviceRoles, request.serviceRoles)
      modifies this
      ensures Valid() && passes == old(passes) && s.pc == NextPolicy(obj, sdone, pdone + [created], cache)
    {
      Interfere();
      var reply: Reply := *;
      Perform(Answer(reply, ""));
      created := reply.Accepted?;
    }

    /** What a save that answered so has left: the status stored, or a newer version than the pass read. */
    predicate Left(result: WriteResult, obj: Object)
      reads this
    {
      match result
      case Written => s.declared.Some? && s.declared.value.status == obj.status
      case Conflict => s.declared.Some? && !s.Writable(obj.version)
      case Error => true
    }

    /** setReady, setPending or setFailed, then save: Status().Update and what the pass returns: the
        intended schedule if the status was stored, the short retry on a conflict, otherwise the error. */
    method Finish(obj: Object, reason: Reason, retry: Retry) returns (outcome: Outcome)
      requires Valid() && s.pc.Saving? && s.pc.obj == Mark(obj, reason) && s.pc.retry == retry
      modifies this
      ensures Valid() && passes == old(passes) && s.pc == Idle(outcome)
      ensures exists result :: outcome == AfterWrite(result, Again(retry)) && Left(result, Mark(obj, reason))
    {
      Interfere();
      var reply: Reply :| reply.Accepted? || reply.Failed?;
      var result := s.Answered(obj.version, reply);
      Perform(Answer(reply, ""));
      assert Left(result, Mark(obj, reason));
      match result
      case Written => outcome := Again(retry);
      case Conflict => outcome := Again(Requeue);
      case Error => outcome := Errored;
    }

    // ---- The reconciler ----

    /** ensureServices: every declared service asked for, whatever became of the others. */
    method EnsureServices(obj: Object) returns (applied: seq<string>, pending: seq<string>, ghost sdone: seq<bool>)
      requires Valid() && s.pc == AfterServices(obj, [])
      modifies this
      ensures Valid() && passes == old(passes) && |sdone| == |obj.spec.services|
      ensures s.pc == NextPolicy(obj.(status := obj.status.(services := applied)), sdone, [], map[])
      ensures applied == Applied(ServiceNames(obj.spec), sdone) &&
              pending == Applied(ServiceNames(obj.spec), Not(sdone))
    {
      applied, pending, sdone := [], [], [];
      var services := obj.spec.services;
      for i := 0 to |services|
        invariant Valid() && passes == old(passes) && |sdone| == i && s.pc == AfterServices(obj, sdone)
        invariant applied == Applied(ServiceNames(obj.spec), sdone) &&
                  pending == Applied(ServiceNames(obj.spec), Not(sdone))
      {
        var service := services[i];
        var intercept := None;
        if service.intercept.Some? {
          var ports := PortRanges(service.intercept.value.ports);
          intercept := Some(WireIntercept(service.intercept.value.protocols, service.intercept.value.addresses, ports));
        }
        var created := CreateService(obj, Hosted("", service.attributes, intercept), sdone);
        AppliedSnoc(ServiceNames(obj.spec), sdone, created);
        sdone := sdone + [created];
        if created {
          applied := applied + [service.name];
        } else {
          pending := pending + [service.name];
        }
      }
    }

    /** One policy of a known type: its roles resolved, then the policy created; pending if either fails. */
    method ApplyPolicy(ghost obj: Object, policy: Policy, kind: PolicyType, resolver: ServiceNameResolver,
                       ghost sdone: seq<bool>, ghost pdone: seq<bool>)
      returns (created: bool)
      requires |pdone| < |obj.spec.policies| && policy == obj.spec.policies[|pdone|]
      requires Valid() && resolver.reconciler == this && s.pc == NextPolicy(obj, sdone, pdone, resolver.cache)
      requires ServicePolicyType(policy.kind) == Some(kind)
      modifies this, resolver
      ensures Valid() && passes == old(passes) && s.pc == NextPolicy(obj, sdone, pdone + [created], resolver.cache)
    {
      var failed, resolved := resolver.Resolve(obj, policy.serviceRoles, sdone, pdone);
      if failed {
        return false;
      }
      var request := Rule(kind, policy.identityRoles, resolved);
      created := CreateServicePolicy(obj, policy, request, sdone, pdone, resolver.cache);
    }

    method Reconcile() returns (outcome: Outcome)
      requires Valid() && s.pc.Idle?
      modifies this
      ensures Valid()
      ensures (passes == old(passes) + 1 && s.pc == Idle(outcome)) ||
              (passes == old(passes) && s.pc.Idle? && s.declared.None? && outcome == Nothing)
    {
      var found, declaration := Get();
      if !found || declaration.deleting {
        return Nothing;
      }
      var spec := declaration.spec;

      var appliedServices, pending, sdone := EnsureServices(declaration);
      declaration := declaration.(status := declaration.status.(services := appliedServices));

      var applied: seq<string> := [];
      var waiting: seq<string> := [];
      var resolver := new ServiceNameResolver(this);
      ghost var pdone: seq<bool> := [];
      for i := 0 to |spec.policies|
        invariant Valid() && passes == old(passes) + 1 && fresh(resolver) && resolver.reconciler == this
        invariant |pdone| == i && declaration.spec == spec &&
                  s.pc == NextPolicy(declaration, sdone, pdone, resolver.cache)
        invariant applied == Applied(PolicyNames(spec), pdone) && waiting == Applied(PolicyNames(spec), Not(pdone))
      {
        var policy := spec.policies[i];
        var kind := ServicePolicyType(policy.kind);
        if kind.None? {
          outcome := Finish(declaration, Rejected, Done);
          return;
        }

        var created := ApplyPolicy(declaration, policy, kind.value, resolver, sdone, pdone);
        AppliedSnoc(PolicyNames(spec), pdone, created);
        pdone := pdone + [created];
        if created {
          applied := applied + [policy.name];
        } else {
          waiting := waiting + [policy.name];
        }
      }

      declaration := declaration.(status := declaration.status.(policies := applied));
      pending := pending + waiting;
      NonePending(ServiceNames(spec), sdone);
      NonePending(PolicyNames(spec), pdone);
      if |pending| > 0 {
        outcome := Finish(declaration, Pending, Requeue);
        return;
      }
      outcome := Finish(declaration, Reconciled, Done);
    }
  }

  /** serviceNameResolver: turns "@name" into "@id", with one cache for the pass. */
  class ServiceNameResolver {
    const reconciler: Reconciler
    var cache: map<string, string>

    constructor (reconciler: Reconciler)
      ensures this.reconciler == reconciler && cache == map[]
    {
      this.reconciler, cache := reconciler, map[];
    }

    /** Agrees with looking every name up directly, or fails at a name whose lookup errs or finds
        nothing. */
    method Resolve(ghost obj: Object, roles: seq<string>, ghost sdone: seq<bool>, ghost pdone: seq<bool>)
      returns (failed: bool, resolved: seq<string>)
      requires reconciler.Valid() && |pdone| < |obj.spec.policies| && roles == obj.spec.policies[|pdone|].serviceRoles
      requires reconciler.s.pc == Walk(obj, sdone, pdone, cache, [])
      modifies this, reconciler
      ensures reconciler.Valid() && reconciler.passes == old(reconciler.passes)
      ensures failed ==> reconciler.s.pc == NextPolicy(obj, sdone, pdone + [false], cache)
      ensures !failed ==> reconciler.s.pc == Creating(obj, sdone, pdone, cache, resolved)
      ensures !failed ==> IsDirect(reconciler.s.mesh.services, roles, resolved)
      ensures forall name :: name in old(cache) ==> name in cache && cache[name] == old(cache)[name]
    {
      resolved := [];
      for k := 0 to |roles|
        invariant reconciler.Valid() && reconciler.passes == old(reconciler.passes) && |resolved| == k
        invariant reconciler.s.pc == Walk(obj, sdone, pdone, cache, resolved)
        invariant forall name :: name in old(cache) ==> name in cache && cache[name] == old(cache)[name]
      {
        var name := Named(roles[k]);
        if name.None? {
          resolved := resolved + [roles[k]];
          continue;
        }
        if name.value !in cache {
          var err, ids := reconciler.ListServices(obj, name.value, sdone, pdone, cache, resolved);
          if err || ids == [] {
            return true, [];
          }
          cache := cache[name.value := ids[0]];
        }
        resolved := resolved + ["@" + cache[name.value]];
      }
      failed := false;
      Reachable(reconciler.origin, reconciler.history);
    }
  }
}
