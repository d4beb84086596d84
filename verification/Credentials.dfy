/** Service tokens over every run: a token is minted once, its Secret is the only copy, and a lost one
    is reported rather than replaced. */
module Credentials {
  import opened Status
  import opened Paging
  import opened Provisioning
  import Registration

  // ---- Hypotheses ----

  /** The part of a declaration that says which record and which Secret it is about. */
  datatype Anchor =
    | OrganizationAnchor(slug: string)
    | ImageAnchor(organization: string, name: string)
    | AppAnchor(organization: string, slug: string, secret: string)
    | RunnerAnchor(name: string, secret: string)
  {
    predicate Minting() { AppAnchor? || RunnerAnchor? }
    function Kind(): Kind {
      match this
      case OrganizationAnchor(_) => Organization
      case ImageAnchor(_, _) => Image
      case AppAnchor(_, _, _) => App
      case RunnerAnchor(_, _) => Runner
    }
  }

  function AnchorOf(spec: Spec): Anchor {
    match spec
    case OrganizationSpec(slug, _) => OrganizationAnchor(slug)
    case ImageSpec(organization, name, _, _, _, _, _, _) => ImageAnchor(organization, name)
    case AppSpec(organization, slug, _, _, _, secret) => AppAnchor(organization, slug, secret)
    case RunnerSpec(name, _, _, secret) => RunnerAnchor(name, secret)
  }

  /** The declarations a claim is about, and what each stands for throughout a run. All others do as
      they like: share Secrets, change keys, find foreign Secrets, lose records. */
  type Plan = map<Name, Anchor>

  /** No two of them share a token Secret, and the organization of a dependent one is among them. */
  ghost predicate Disjoint(plan: Plan) {
    && (forall a :: a in plan ==> plan[a].Kind() == a.kind)
    && (forall a :: a in plan && (plan[a].ImageAnchor? || plan[a].AppAnchor?) ==>
          Name(Organization, plan[a].organization) in plan)
    && (forall a, b :: a in plan && b in plan && a != b && plan[a].Minting() && plan[b].Minting() ==>
          plan[a].secret != plan[b].secret)
  }

  /** A declaration outside the plan names none of its token Secrets. */
  ghost predicate Clear(plan: Plan, spec: Spec) {
    spec.Minting() ==> forall name :: name in plan && plan[name].Minting() ==> plan[name].secret != spec.tokenSecret
  }

  /** A record a planned declaration may be about. */
  predicate Concerns(anchor: Anchor, key: Key) {
    match anchor
    case OrganizationAnchor(slug) => key == OrganizationKey(slug)
    case ImageAnchor(_, name) => key.ImageKey? && key.name == name
    case AppAnchor(_, slug, _) => key.AppKey? && key.slug == slug
    case RunnerAnchor(name, _) => key == RunnerKey(name)
  }

  ghost predicate Bears(plan: Plan, key: Key) { exists name :: name in plan && Concerns(plan[name], key) }

  ghost predicate Fits(plan: Plan, name: Name, spec: Spec) {
    if name in plan then AnchorOf(spec) == plan[name] else Clear(plan, spec)
  }

  /** Planned declarations come and go and are edited, but keep their anchor; nobody else writes their
      token Secrets; their records are not removed. Everything else is allowed. */
  ghost predicate Admissible(plan: Plan, l: Label) {
    match l
    case Declare(name, spec) => Fits(plan, name, spec)
    case Edit(name, spec) => Fits(plan, name, spec)
    case PutSecret(secret, _) => forall name :: name in plan && plan[name].Minting() ==> plan[name].secret != secret
    case Forget(key) => !Bears(plan, key)
    case _ => true
  }

  /** The platform key a declaration is about, once its organization exists there. */
  function PlannedKey(plan: Plan, s: State, name: Name): Option<Key> {
    if name !in plan then None
    else match plan[name]
      case OrganizationAnchor(slug) => Some(OrganizationKey(slug))
      case RunnerAnchor(runner, _) => Some(RunnerKey(runner))
      case ImageAnchor(organization, image) =>
        if Founded(plan, s, organization)
            then Some(ImageKey(s.records[OrganizationRecord(plan, organization)].id, image)) else None
      case AppAnchor(organization, slug, _) =>
        if Founded(plan, s, organization) then Some(AppKey(s.records[OrganizationRecord(plan, organization)].id, slug))
            else None
  }

  function OrganizationRecord(plan: Plan, organization: string): Key {
    var name := Name(Organization, organization);
    OrganizationKey(if name in plan && plan[name].OrganizationAnchor? then plan[name].slug else "")
  }

  predicate Founded(plan: Plan, s: State, organization: string) {
    && Name(Organization, organization) in plan
    && plan[Name(Organization, organization)].OrganizationAnchor?
    && OrganizationRecord(plan, organization) in s.records
  }

  // ---- The invariant ----

  /** A Secret holds the credential of a record. */
  predicate Holds(data: Data, record: Record, anchor: Anchor) {
    && Entry(data, "token") == record.token
    && (anchor.AppAnchor? ==> Entry(data, "app_id") == record.id)
  }

  /** An Organization's recorded id, if any, is the platform's. */
  predicate Recorded(plan: Plan, s: State, name: Name, obj: Object) {
    name.kind.Organization? && obj.status.platformId != "" ==>
      Founded(plan, s, name.name) && s.records[OrganizationRecord(plan, name.name)].id == obj.status.platformId
  }

  ghost predicate Anchored(plan: Plan, s: State, name: Name, obj: Object) {
    && Fits(plan, name, obj.spec) && obj.spec.Kind() == name.kind
    && (name in plan ==> Recorded(plan, s, name, obj))
  }

  predicate AtItsKey(plan: Plan, s: State, name: Name, obj: Object, key: Key) {
    PlannedKey(plan, s, name) == Some(key) && WellFormed(obj.spec)
  }

  /** What a worker may rely on between two calls. */
  ghost predicate Knows(plan: Plan, s: State, kind: Kind) {
    Accurate(plan, s, kind, s.Pc(kind))
  }

  ghost predicate Accurate(plan: Plan, s: State, kind: Kind, pc: Pc) {
    pc.Idle? ||
    (pc.name.kind == kind && Anchored(plan, s, pc.name, pc.obj) && (pc.name in plan ==>
     match pc
     case Resolving(_, obj) => obj.spec.ImageSpec? || obj.spec.AppSpec?
     case ReadingCredentials(name, obj, organization) =>
       obj.spec.ImageSpec? && AtItsKey(plan, s, name, obj, ImageKey(organization, obj.spec.name))
     case Looking(name, obj, key, _) => AtItsKey(plan, s, name, obj, key)
     case Checking(name, obj, key, _, found) =>
       && AtItsKey(plan, s, name, obj, key) && obj.spec.Minting() && HasRecord(s, key, found.id, found.token)
       && obj.status.platformId == found.id
     case Updating(name, obj, key, _, id, token) =>
       && AtItsKey(plan, s, name, obj, key) && key in s.records && s.records[key].id == id
       && (obj.spec.Minting() ==>
             s.records[key].token == token && obj.status.tokenRef == obj.spec.tokenSecret)
     case Creating(name, obj, key, _) => AtItsKey(plan, s, name, obj, key) && key !in s.records
     case Storing(name, obj, key, _, id, token) =>
       && AtItsKey(plan, s, name, obj, key) && obj.spec.Minting() && HasRecord(s, key, id, token)
       && obj.spec.tokenSecret !in s.secrets
     case Saving(name, obj, retry, basis) =>
       && obj.status.verdict.Set? && obj.status.observed == obj.generation
       && (basis.Agreed? <==> obj.status.verdict == Set(Reconciled))
       && (obj.status.verdict == Set(Pending) ==> retry == Requeue)
       && (obj.status.verdict == Set(Reconciled) || obj.status.verdict == Set(CredentialMissing) ==> retry == Done)
       && (basis.Agreed? ==>
             && AtItsKey(plan, s, name, obj, basis.key) && basis.key in s.records
             && obj.status.platformId == s.records[basis.key].id
             && (obj.spec.Minting() ==>
                   s.records[basis.key].token == basis.token && obj.status.tokenRef == obj.spec.tokenSecret))
     case Idle(_) => true))
  }

  ghost predicate Objects(plan: Plan, s: State) {
    forall name :: name in s.objects ==> Anchored(plan, s, name, s.objects[name])
  }

  /** Every token Secret that exists holds the token its record was registered with. */
  ghost predicate Agreement(plan: Plan, s: State) {
    forall name :: name in plan && plan[name].Minting() && plan[name].secret in s.secrets ==>
      Vouched(plan, s, name)
  }

  predicate Vouched(plan: Plan, s: State, name: Name)
    requires name in plan && plan[name].Minting() && plan[name].secret in s.secrets
  {
    var key := PlannedKey(plan, s, name);
    key.Some? && key.value in s.records && Holds(s.secrets[plan[name].secret], s.records[key.value], plan[name])
  }

  ghost predicate Inv(plan: Plan, s: State) {
    && Disjoint(plan) && Objects(plan, s) && Agreement(plan, s)
    && forall kind :: Knows(plan, s, kind)
  }

  /** Where runs begin: nothing in flight, and whatever records, Secrets and recorded ids the planned
      declarations already have agree. */
  ghost predicate Init(plan: Plan, s: State) {
    && Disjoint(plan) && Objects(plan, s) && Agreement(plan, s)
    && forall kind :: s.Pc(kind).Idle?
  }

  // ---- What other actors' steps leave alone ----

  /** The planned declarations' records keep their id and token. */
  ghost predicate Keeps(plan: Plan, s: State, s': State) {
    forall key :: key in s.records && Bears(plan, key) ==>
      HasRecord(s', key, s.records[key].id, s.records[key].token)
  }

  /** Nothing of a kind's own appears. */
  ghost predicate NothingAppears(plan: Plan, s: State, s': State, kind: Kind) {
    && (forall key: Key :: key.Of(kind) && key in s'.records ==> key in s.records)
    && (forall name :: name in plan && name.kind == kind && plan[name].Minting() && plan[name].secret in s'.secrets ==>
          plan[name].secret in s.secrets)
  }

  lemma PlannedKeyStays(plan: Plan, s: State, s': State, name: Name)
    requires Keeps(plan, s, s') && PlannedKey(plan, s, name).Some?
    ensures PlannedKey(plan, s', name) == PlannedKey(plan, s, name)
    ensures Bears(plan, PlannedKey(plan, s, name).value)
  {
    assert Concerns(plan[name], PlannedKey(plan, s, name).value);
    if plan[name].ImageAnchor? || plan[name].AppAnchor? {
      var organization := Name(Organization, plan[name].organization);
      assert Concerns(plan[organization], OrganizationRecord(plan, plan[name].organization));
    }
  }

  lemma RecordedStays(plan: Plan, s: State, s': State, name: Name, obj: Object)
    requires Keeps(plan, s, s') && name in plan && Recorded(plan, s, name, obj)
    ensures Recorded(plan, s', name, obj)
  {
    if name.kind.Organization? && obj.status.platformId != "" {
      assert Concerns(plan[Name(Organization, name.name)], OrganizationRecord(plan, name.name));
    }
  }

  lemma AnchoredStays(plan: Plan, s: State, s': State, name: Name, obj: Object)
    requires Keeps(plan, s, s') && Anchored(plan, s, name, obj)
    ensures Anchored(plan, s', name, obj)
  {
    if name in plan { RecordedStays(plan, s, s', name, obj); }
  }

  lemma KnowsStays(plan: Plan, s: State, s': State, kind: Kind)
    requires Disjoint(plan) && Knows(plan, s, kind) && Keeps(plan, s, s') && NothingAppears(plan, s, s', kind) &&
             s'.Pc(kind) == s.Pc(kind)
    ensures Knows(plan, s', kind)
  {
    var pc := s.Pc(kind);
    if !pc.Idle? {
      AnchoredStays(plan, s, s', pc.name, pc.obj);
      if pc.name in plan && PlannedKey(plan, s, pc.name).Some? { PlannedKeyStays(plan, s, s', pc.name); }
    }
  }

  lemma AccurateMoves(plan: Plan, s: State, s': State, kind: Kind, pc: Pc)
    requires Accurate(plan, s, kind, pc) && s'.records == s.records && s'.secrets == s.secrets
    ensures Accurate(plan, s', kind, pc)
  {
    if !pc.Idle? {
      assert PlannedKey(plan, s', pc.name) == PlannedKey(plan, s, pc.name);
    }
  }

  /** A step that adds no record, no owned Secret and no stored object. */
  lemma KnowsMove(plan: Plan, s: State, kind: Kind, pc: Pc)
    requires Inv(plan, s) && Accurate(plan, s, kind, pc)
    ensures Inv(plan, s.Move(kind, pc))
  {
    var s' := s.Move(kind, pc);
    AccurateMoves(plan, s, s', kind, pc);
    forall other ensures Knows(plan, s', other) {
      if other != kind { KnowsStays(plan, s, s', other); }
    }
    forall name | name in s.objects ensures Anchored(plan, s', name, s'.objects[name]) {
      assert Anchored(plan, s, name, s.objects[name]);
    }
    forall name | name in plan && plan[name].Minting() && plan[name].secret in s.secrets
        ensures Vouched(plan, s', name) {
      assert Vouched(plan, s, name);
    }
  }

  // ---- Steps of the environment ----

  lemma StoreKeepsInv(plan: Plan, s: State, name: Name, obj: Object)
    requires Inv(plan, s) && Anchored(plan, s, name, obj)
    ensures Inv(plan, s.Store(name, obj))
  {
    var s' := s.Store(name, obj);
    forall other ensures Knows(plan, s', other) { KnowsStays(plan, s, s', other); }
    forall n | n in s'.objects ensures Anchored(plan, s', n, s'.objects[n]) {
      if n != name { assert Anchored(plan, s, n, s.objects[n]); }
    }
    forall n | n in plan && plan[n].Minting() && plan[n].secret in s.secrets ensures Vouched(plan, s', n) {
      assert Vouched(plan, s, n);
    }
  }

  lemma WorldKeepsInv(plan: Plan, s: State, s': State)
    requires Inv(plan, s) && s'.workers == s.workers && s'.objects.Keys <= s.objects.Keys
    requires forall name :: name in s'.objects ==> s'.objects[name] == s.objects[name]
    requires s'.records.Keys <= s.records.Keys && Keeps(plan, s, s')
    requires forall name :: name in plan && plan[name].Minting() && plan[name].secret in s'.secrets ==>
               plan[name].secret in s.secrets && s'.secrets[plan[name].secret] == s.secrets[plan[name].secret]
    ensures Inv(plan, s')
  {
    forall other ensures Knows(plan, s', other) { KnowsStays(plan, s, s', other); }
    forall n | n in s'.objects ensures Anchored(plan, s', n, s'.objects[n]) {
      AnchoredStays(plan, s, s', n, s.objects[n]);
    }
    forall n | n in plan && plan[n].Minting() && plan[n].secret in s'.secrets ensures Vouched(plan, s', n) {
      assert Vouched(plan, s, n);
      PlannedKeyStays(plan, s, s', n);
    }
  }

  lemma DeclareKeepsInv(plan: Plan, s: State, name: Name, spec: Spec)
    requires Inv(plan, s) && Admissible(plan, Declare(name, spec))
    ensures Inv(plan, Apply(s, Declare(name, spec)))
  {
    if name !in s.objects && spec.Kind() == name.kind {
      StoreKeepsInv(plan, s, name, Object(0, 1, false, spec, Standing("", "", Unset, 0)));
    }
  }

  lemma EditKeepsInv(plan: Plan, s: State, l: Label)
    requires Inv(plan, s) && Admissible(plan, l) && (l.Edit? || l.Touch? || l.MarkDeleted?)
    ensures Inv(plan, Apply(s, l))
  {
    if l.name in s.objects {
      var o := s.objects[l.name];
      assert Anchored(plan, s, l.name, o);
      match l {
        case Edit(name, spec) =>
          if spec.Kind() == name.kind {
            assert Anchored(plan, s, name, o.(spec := spec));
            StoreKeepsInv(plan, s, name, o.(spec := spec, generation := o.generation + 1));
          }
        case Touch(name) => StoreKeepsInv(plan, s, name, o);
        case MarkDeleted(name) => StoreKeepsInv(plan, s, name, o.(deleting := true, generation := o.generation + 1));
      }
    }
  }

  lemma BeginKeepsInv(plan: Plan, s: State, name: Name)
    requires Inv(plan, s)
    ensures Inv(plan, Apply(s, Begin(name)))
  {
    if s.Pc(name.kind).Idle? && name in s.objects {
      assert Anchored(plan, s, name, s.objects[name]);
      var s1 := s.Move(name.kind, AfterRead(name, s.objects[name]));
      KnowsMove(plan, s, name.kind, AfterRead(name, s.objects[name]));
      WorldKeepsInv(plan, s1, Apply(s, Begin(name)));
    }
  }

  lemma EnvironmentKeepsInv(plan: Plan, s: State, l: Label)
    requires Inv(plan, s) && Admissible(plan, l) && !l.Answer?
    ensures Inv(plan, Apply(s, l))
  {
    match l {
      case Begin(name) => BeginKeepsInv(plan, s, name);
      case Crash(kind) => KnowsMove(plan, s, kind, Idle(Nothing));
      case Declare(name, spec) => DeclareKeepsInv(plan, s, name, spec);
      case Edit(_, _) => EditKeepsInv(plan, s, l);
      case Touch(_) => EditKeepsInv(plan, s, l);
      case MarkDeleted(_) => EditKeepsInv(plan, s, l);
      case _ => WorldKeepsInv(plan, s, Apply(s, l));
    }
  }

  // ---- Steps of the workers ----

  lemma ResolveKeepsInv(plan: Plan, s: State, kind: Kind, reply: Reply)
    requires Inv(plan, s) && s.Pc(kind).Resolving? && s.Pc(kind).name in plan
    ensures Inv(plan, Continue(s, kind, reply, "", ""))
  {
    assert Knows(plan, s, kind);
    var Resolving(name, obj) := s.Pc(kind);
    var organization := Name(Organization, Reference(obj.spec));
    if organization in s.objects { assert Anchored(plan, s, organization, s.objects[organization]); }
    KnowsMove(plan, s, kind, AfterOrganization(name, obj, if reply.Accepted? then OrganizationId(s, Reference(obj.spec))
        else None));
  }

  lemma CredentialsKeepInv(plan: Plan, s: State, kind: Kind, reply: Reply)
    requires Inv(plan, s) && s.Pc(kind).ReadingCredentials? && s.Pc(kind).name in plan
    ensures Inv(plan, Continue(s, kind, reply, "", ""))
  {
    assert Knows(plan, s, kind);
    KnowsMove(plan, s, kind, Continue(s, kind, reply, "", "").Pc(kind));
  }

  lemma LookupKeepsInv(plan: Plan, s: State, kind: Kind, reply: Reply)
    requires Inv(plan, s) && s.Pc(kind).Looking? && s.Pc(kind).name in plan
    ensures Inv(plan, Continue(s, kind, reply, "", ""))
  {
    assert Knows(plan, s, kind);
    KnowsMove(plan, s, kind, Continue(s, kind, reply, "", "").Pc(kind));
  }

  lemma CheckKeepsInv(plan: Plan, s: State, kind: Kind, reply: Reply)
    requires Inv(plan, s) && s.Pc(kind).Checking? && s.Pc(kind).name in plan
    ensures Inv(plan, Continue(s, kind, reply, "", ""))
  {
    assert Knows(plan, s, kind);
    var pc := s.Pc(kind);
    if pc.obj.spec.tokenSecret in s.secrets { assert Vouched(plan, s, pc.name); }
    KnowsMove(plan, s, kind, Continue(s, kind, reply, "", "").Pc(kind));
  }

  lemma UpdatedIsAccurate(plan: Plan, s: State, kind: Kind, reply: Reply)
    requires Knows(plan, s, kind) && s.Pc(kind).Updating? && s.Pc(kind).name in plan
    ensures var pc := s.Pc(kind);
            Accurate(plan, s, kind, AfterUpdate(pc.name, pc.obj, pc.key, pc.login, pc.id, pc.token, reply))
  {
  }

  lemma UpdateOnlyCorrects(s: State, kind: Kind, reply: Reply)
    requires s.Pc(kind).Updating? && s.Pc(kind).key in s.records && s.records[s.Pc(kind).key].id == s.Pc(kind).id
    ensures var pc, s' := s.Pc(kind), Update(s, kind, reply);
            && s'.workers == s.workers[kind := AfterUpdate(pc.name, pc.obj, pc.key, pc.login, pc.id, pc.token, reply)]
            && s'.objects == s.objects && s'.secrets == s.secrets && s'.records.Keys == s.records.Keys
            && forall key :: key in s.records ==> HasRecord(s', key, s.records[key].id, s.records[key].token)
  {
  }

  lemma UpdateKeepsInv(plan: Plan, s: State, kind: Kind, reply: Reply)
    requires Inv(plan, s) && s.Pc(kind).Updating? && s.Pc(kind).name in plan
    ensures Inv(plan, Update(s, kind, reply))
  {
    assert Knows(plan, s, kind);
    var Updating(name, obj, key, login, id, token) := s.Pc(kind);
    var next := AfterUpdate(name, obj, key, login, id, token, reply);
    UpdatedIsAccurate(plan, s, kind, reply);
    KnowsMove(plan, s, kind, next);
    UpdateOnlyCorrects(s, kind, reply);
    WorldKeepsInv(plan, s.Move(kind, next), Update(s, kind, reply));
  }

  /** A record appears under a key of an idle worker's kind. */
  lemma RecordKeepsInv(plan: Plan, s: State, kind: Kind, key: Key, record: Record)
    requires Inv(plan, s) && s.Pc(kind).Idle? && key.Of(kind) && key !in s.records
    ensures Inv(plan, s.(records := s.records[key := record],
                         log := s.log.(created := s.log.created + [Minted(key, record.id, record.token)])))
  {
    var s' := s.(records := s.records[key := record],
                 log := s.log.(created := s.log.created + [Minted(key, record.id, record.token)]));
    assert Keeps(plan, s, s');
    forall other ensures Knows(plan, s', other) {
      if other != kind { KnowsStays(plan, s, s', other); }
    }
    forall n | n in s'.objects ensures Anchored(plan, s', n, s'.objects[n]) {
      AnchoredStays(plan, s, s', n, s.objects[n]);
    }
    forall n | n in plan && plan[n].Minting() && plan[n].secret in s'.secrets ensures Vouched(plan, s', n) {
      assert Vouched(plan, s, n);
      PlannedKeyStays(plan, s, s', n);
    }
  }

  /** A token Secret cannot exist before its record. */
  lemma SecretNeedsRecord(plan: Plan, s: State, name: Name)
    requires Agreement(plan, s) && name in plan && plan[name].Minting() && PlannedKey(plan, s, name).Some?
    ensures plan[name].secret in s.secrets ==> PlannedKey(plan, s, name).value in s.records
  {
    if plan[name].secret in s.secrets { assert Vouched(plan, s, name); }
  }

  /** A create with the worker set aside. */
  function Made(s: State, kind: Kind, reply: Reply, id: string, token: string): State
    requires s.Pc(kind).Creating?
  {
    var Creating(name, obj, key, login) := s.Pc(kind);
    var idle := s.Move(kind, Idle(Nothing));
    Issue(if reply.TookEffect() && WellFormed(obj.spec)
          then idle.(records := s.records[key := Record(id, Declared(obj.spec, login), token)],
                     log := s.log.(created := s.log.created + [Minted(key, id, token)]))
          else idle)
  }

  lemma MadeThenMoved(s: State, kind: Kind, reply: Reply, id: string, token: string)
    requires s.Pc(kind).Creating?
    ensures var pc := s.Pc(kind);
            Create(s, kind, reply, id, token) ==
            Made(s, kind, reply, id, token).Move(kind, AfterCreate(pc.name, pc.obj, pc.key, pc.login, id, token, reply))
  {
    var made, next := Made(s, kind, reply, id, token), Create(s, kind, reply, id, token).Pc(kind);
    assert made.Move(kind, next).workers == s.workers[kind := next];
  }

  lemma MadeKeepsInv(plan: Plan, s: State, kind: Kind, reply: Reply, id: string, token: string)
    requires Inv(plan, s) && s.Pc(kind).Creating? && s.Pc(kind).name in plan
    ensures Inv(plan, Made(s, kind, reply, id, token))
  {
    assert Knows(plan, s, kind);
    var Creating(name, obj, key, login) := s.Pc(kind);
    KnowsMove(plan, s, kind, Idle(Nothing));
    var made := s.Move(kind, Idle(Nothing));
    if reply.TookEffect() {
      RecordKeepsInv(plan, made, kind, key, Record(id, Declared(obj.spec, login), token));
      made := made.(records := s.records[key := Record(id, Declared(obj.spec, login), token)],
                    log := s.log.(created := s.log.created + [Minted(key, id, token)]));
    }
    WorldKeepsInv(plan, made, Issue(made));
  }

  lemma CreateKeepsInv(plan: Plan, s: State, kind: Kind, reply: Reply, id: string, token: string)
    requires Inv(plan, s) && s.Pc(kind).Creating? && s.Pc(kind).name in plan
    ensures Inv(plan, Create(s, kind, reply, id, token))
  {
    assert Knows(plan, s, kind);
    var Creating(name, obj, key, login) := s.Pc(kind);
    if obj.spec.Minting() { SecretNeedsRecord(plan, s, name); }
    var made, next := Made(s, kind, reply, id, token), AfterCreate(name, obj, key, login, id, token, reply);
    MadeKeepsInv(plan, s, kind, reply, id, token);
    CreatedIsAccurate(plan, s, made, kind, reply, id, token);
    MadeThenMoved(s, kind, reply, id, token);
    KnowsMove(plan, made, kind, next);
  }

  lemma CreatedIsAccurate(plan: Plan, s: State, made: State, kind: Kind, reply: Reply, id: string, token: string)
    requires Knows(plan, s, kind) && s.Pc(kind).Creating? && s.Pc(kind).name in plan && Keeps(plan, s, made) &&
             made.secrets == s.secrets
    requires s.Pc(kind).obj.spec.Minting() ==> s.Pc(kind).obj.spec.tokenSecret !in s.secrets
    requires reply.TookEffect() ==> HasRecord(made, s.Pc(kind).key, id, token)
    ensures var pc := s.Pc(kind);
            Accurate(plan, made, kind, AfterCreate(pc.name, pc.obj, pc.key, pc.login, id, token, reply))
  {
    PlannedKeyStays(plan, s, made, s.Pc(kind).name);
  }

  /** The token Secret of an idle worker's declaration appears, with the token of its record. */
  lemma SecretKeepsInv(plan: Plan, s: State, name: Name, data: Data)
    requires Inv(plan, s) && s.Pc(name.kind).Idle? && name in plan && plan[name].Minting()
    requires PlannedKey(plan, s, name).Some? && PlannedKey(plan, s, name).value in s.records
    requires Holds(data, s.records[PlannedKey(plan, s, name).value], plan[name])
    ensures Inv(plan, s.(secrets := s.secrets[plan[name].secret := data]))
  {
    var s' := s.(secrets := s.secrets[plan[name].secret := data]);
    assert Keeps(plan, s, s');
    forall n ensures PlannedKey(plan, s', n) == PlannedKey(plan, s, n) {}
    forall other ensures Knows(plan, s', other) {
      if other != name.kind { KnowsStays(plan, s, s', other); }
    }
    forall n | n in s'.objects ensures Anchored(plan, s', n, s'.objects[n]) {
      AnchoredStays(plan, s, s', n, s.objects[n]);
    }
    forall n | n in plan && plan[n].Minting() && plan[n].secret in s'.secrets ensures Vouched(plan, s', n) {
      if n != name { assert Vouched(plan, s, n); }
    }
  }

  /** A Secret write with the worker set aside. */
  function Written(s: State, kind: Kind, reply: Reply): State
    requires s.Pc(kind).Storing?
  {
    var Storing(name, obj, key, login, id, token) := s.Pc(kind);
    var idle := s.Move(kind, Idle(Nothing));
    if reply.TookEffect() && TokenSecret(obj.spec) !in s.secrets
    then idle.(secrets := s.secrets[TokenSecret(obj.spec) := TokenData(obj.spec, id, token)]) else idle
  }

  lemma WrittenKeepsInv(plan: Plan, s: State, kind: Kind, reply: Reply)
    requires Inv(plan, s) && s.Pc(kind).Storing? && s.Pc(kind).name in plan
    ensures Inv(plan, Written(s, kind, reply))
  {
    assert Knows(plan, s, kind);
    var Storing(name, obj, key, login, id, token) := s.Pc(kind);
    KnowsMove(plan, s, kind, Idle(Nothing));
    if reply.TookEffect() {
      SecretKeepsInv(plan, s.Move(kind, Idle(Nothing)), name, TokenData(obj.spec, id, token));
    }
  }

  lemma WriteSecretKeepsInv(plan: Plan, s: State, kind: Kind, reply: Reply)
    requires Inv(plan, s) && s.Pc(kind).Storing? && s.Pc(kind).name in plan
    ensures Inv(plan, WriteSecret(s, kind, reply))
  {
    assert Knows(plan, s, kind);
    var Storing(name, obj, key, login, id, token) := s.Pc(kind);
    var next := AfterStore(name, obj, key, login, id, token, reply.Accepted?);
    WrittenKeepsInv(plan, s, kind, reply);
    StoredIsAccurate(plan, s, kind, reply);
    WrittenThenMoved(s, kind, reply);
    KnowsMove(plan, Written(s, kind, reply), kind, next);
  }

  lemma WrittenThenMoved(s: State, kind: Kind, reply: Reply)
    requires s.Pc(kind).Storing?
    ensures var Storing(name, obj, key, login, id, token) := s.Pc(kind);
            WriteSecret(s, kind, reply) ==
            Written(s, kind, reply).Move(kind, AfterStore(name, obj, key, login, id, token, reply.Accepted?))
  {
    var written, next := Written(s, kind, reply), WriteSecret(s, kind, reply).Pc(kind);
    assert written.Move(kind, next).workers == s.workers[kind := next];
  }

  lemma StoredIsAccurate(plan: Plan, s: State, kind: Kind, reply: Reply)
    requires Knows(plan, s, kind) && s.Pc(kind).Storing? && s.Pc(kind).name in plan
    ensures var Storing(name, obj, key, login, id, token) := s.Pc(kind);
            Accurate(plan, Written(s, kind, reply), kind,
                     AfterStore(name, obj, key, login, id, token, reply.Accepted?))
  {
    assert PlannedKey(plan, Written(s, kind, reply), s.Pc(kind).name) == PlannedKey(plan, s, s.Pc(kind).name);
  }

  lemma SaveKeepsInv(plan: Plan, s: State, kind: Kind, reply: Reply)
    requires Inv(plan, s) && s.Pc(kind).Saving?
    ensures Inv(plan, SaveStatus(s, kind, reply))
  {
    assert Knows(plan, s, kind);
    var Saving(name, obj, retry, basis) := s.Pc(kind);
    var s' := SaveStatus(s, kind, reply);
    if s.Writable(name, obj.version) && reply.TookEffect() {
      assert Anchored(plan, s, name, s.objects[name]);
      var stored := s.Store(name, s.objects[name].(status := obj.status));
      StoreKeepsInv(plan, s, name, s.objects[name].(status := obj.status));
      KnowsMove(plan, stored, kind, s'.Pc(kind));
    } else {
      KnowsMove(plan, s, kind, s'.Pc(kind));
    }
  }

  lemma OutsideIsAccurate(plan: Plan, s: State, l: Label)
    requires l.Answer? && Knows(plan, s, l.kind) && !s.Pc(l.kind).Idle? && s.Pc(l.kind).name !in plan
    ensures Accurate(plan, Apply(s, l), l.kind, Apply(s, l).Pc(l.kind))
  {
    var pc, next := s.Pc(l.kind), Apply(s, l).Pc(l.kind);
    AnswerMovesItsWorker(s, l);
    if !next.Idle? {
      AnswerKeepsSpec(s, l);
      assert Anchored(plan, s, pc.name, pc.obj);
      assert Anchored(plan, Apply(s, l), next.name, next.obj);
    }
  }

  lemma OutsideLeavesSecrets(plan: Plan, s: State, l: Label, name: Name)
    requires l.Answer? && Knows(plan, s, l.kind) && Registration.InPlace(s, l.kind, s.Pc(l.kind))
    requires !s.Pc(l.kind).Idle? && s.Pc(l.kind).name !in plan
    requires name in plan && plan[name].Minting() && plan[name].secret in Apply(s, l).secrets
    ensures plan[name].secret in s.secrets && Apply(s, l).secrets[plan[name].secret] == s.secrets[plan[name].secret]
  {
    AnswerWritesItsSecret(s, l);
  }

  /** A worker about a declaration outside the plan, short of its save. */
  lemma OutsideKeepsInv(plan: Plan, s: State, l: Label)
    requires l.Answer? && Inv(plan, s) && Registration.InPlace(s, l.kind, s.Pc(l.kind))
    requires !s.Pc(l.kind).Idle? && !s.Pc(l.kind).Saving? && s.Pc(l.kind).name !in plan
    ensures Inv(plan, Apply(s, l))
  {
    var e := Apply(s, l);
    assert Knows(plan, s, l.kind);
    OutsideIsAccurate(plan, s, l);
    AnswerMovesItsWorker(s, l);
    AnswerSettles(s, l);
    Registration.AnswerKeepsRecords(s, l);
    forall name | name in plan && plan[name].Minting() && plan[name].secret in e.secrets
      ensures plan[name].secret in s.secrets && e.secrets[plan[name].secret] == s.secrets[plan[name].secret]
    {
      OutsideLeavesSecrets(plan, s, l, name);
    }
    OthersKeepInv(plan, s, e, l.kind);
  }

  /** Whatever a worker of one kind does to records of its kind and to Secrets that are not planned. */
  lemma OthersKeepInv(plan: Plan, s: State, e: State, kind: Kind)
    requires Inv(plan, s) && e.objects == s.objects && Accurate(plan, e, kind, e.Pc(kind))
    requires forall other :: other != kind ==> e.Pc(other) == s.Pc(other)
    requires forall key :: key in s.records ==> HasRecord(e, key, s.records[key].id, s.records[key].token)
    requires forall key: Key :: key in e.records && key !in s.records ==> key.Of(kind)
    requires forall name :: name in plan && plan[name].Minting() && plan[name].secret in e.secrets ==>
               plan[name].secret in s.secrets && e.secrets[plan[name].secret] == s.secrets[plan[name].secret]
    ensures Inv(plan, e)
  {
    assert Keeps(plan, s, e);
    forall other ensures Knows(plan, e, other) {
      if other != kind {
        forall key: Key | key.Of(other) && key in e.records ensures key in s.records {
          if key !in s.records { Registration.OfOneKind(key, kind, other); }
        }
        KnowsStays(plan, s, e, other);
      }
    }
    forall n | n in e.objects ensures Anchored(plan, e, n, e.objects[n]) {
      AnchoredStays(plan, s, e, n, s.objects[n]);
    }
    forall n | n in plan && plan[n].Minting() && plan[n].secret in e.secrets ensures Vouched(plan, e, n) {
      assert Vouched(plan, s, n);
      PlannedKeyStays(plan, s, e, n);
    }
  }

  /** Every admissible step of every actor keeps the invariant. */
  lemma StepKeepsInv(plan: Plan, s: State, l: Label)
    requires Registration.Inv(s) && Inv(plan, s) && Admissible(plan, l)
    ensures Inv(plan, Apply(s, l))
  {
    if !l.Answer? {
      EnvironmentKeepsInv(plan, s, l);
    } else if !s.Pc(l.kind).Idle? && !s.Pc(l.kind).Saving? && s.Pc(l.kind).name !in plan {
      assert Registration.InPlace(s, l.kind, s.Pc(l.kind));
      OutsideKeepsInv(plan, s, l);
    } else {
      match s.Pc(l.kind) {
        case Idle(_) =>
        case Checking(_, _, _, _, _) => CheckKeepsInv(plan, s, l.kind, l.reply);
        case Updating(_, _, _, _, _, _) => UpdateKeepsInv(plan, s, l.kind, l.reply);
        case Creating(_, _, _, _) => CreateKeepsInv(plan, s, l.kind, l.reply, l.id, l.token);
        case Storing(_, _, _, _, _, _) => WriteSecretKeepsInv(plan, s, l.kind, l.reply);
        case Saving(_, _, _, _) => SaveKeepsInv(plan, s, l.kind, l.reply);
        case Resolving(_, _) => ResolveKeepsInv(plan, s, l.kind, l.reply);
        case ReadingCredentials(_, _, _) => CredentialsKeepInv(plan, s, l.kind, l.reply);
        case Looking(_, _, _, _) => LookupKeepsInv(plan, s, l.kind, l.reply);
      }
    }
  }

  lemma {:induction false} RunKeepsInv(plan: Plan, s: State, labels: seq<Label>)
    requires Registration.Inv(s) && Inv(plan, s) && forall l :: l in labels ==> Admissible(plan, l)
    ensures Registration.Inv(Exec(s, labels)) && Inv(plan, Exec(s, labels))
  {
    if labels != [] {
      var before, l := labels[..|labels| - 1], labels[|labels| - 1];
      RunKeepsInv(plan, s, before);
      Registration.StepKeepsInv(Exec(s, before), l);
      StepKeepsInv(plan, Exec(s, before), l);
    }
  }
}
