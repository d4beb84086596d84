/** Runs without faults over a declared world, the workers' calls interleaving freely: where each
    worker is, and what every step keeps. */
module FaultFree {
  import opened Status
  import opened Paging
  import opened Provisioning
  import opened Declarations
  import Reporting

  // ---- Runs without faults ----

  predicate Under(key: Key, organization: string) {
    (key.ImageKey? || key.AppKey?) && key.organization == organization
  }

  /** A worker takes up a declaration, or its pending call is accepted. The platform hands out ids
      that are new, and neither ids nor tokens are empty. */
  ghost predicate Smooth(s: State, l: Label) {
    match l
    case Begin(_) => true
    case Answer(_, reply, id, token) =>
      && reply.Accepted? && id != "" && token != ""
      && (forall key :: key in s.records ==> s.records[key].id != id && !Under(key, id))
    case _ => false
  }

  ghost predicate Undisturbed(s0: State, labels: seq<Label>) {
    forall i :: 0 <= i < |labels| ==> Smooth(Exec(s0, labels[..i]), labels[i])
  }

  /** The worker of a name's kind is at it. */
  predicate At(s: State, name: Name) { !s.Pc(name.kind).Idle? && s.Pc(name.kind).name == name }

  /** A minting declaration's Secret holds a token if it exists, and exists if its record does, but
      for the moment between the registration and the write. */
  predicate Provided(s: State, name: Name)
    requires name in s.objects
  {
    var spec := s.objects[name].spec;
    spec.Minting() ==>
      && (spec.tokenSecret in s.secrets ==> HasToken(s, spec))
      && (Home(s, spec).Some? && Home(s, spec).value in s.records ==>
            HasToken(s, spec) || (At(s, name) && s.Pc(name.kind).Storing?))
  }

  /** Where a run starts: a declared world, the workers at rest, no credential lost. */
  ghost predicate Town(s: State) {
    && World(s) && (forall kind :: s.Pc(kind).Idle?)
    && (forall name :: name in s.objects ==> Provided(s, name))
  }

  ghost predicate IsHome(s: State, key: Key) {
    exists name :: name in s.objects && Home(s, s.objects[name].spec) == Some(key)
  }

  // ---- Where the workers are ----

  predicate Held(s: State, kind: Kind, name: Name, obj: Object) {
    name.kind == kind && name in s.objects && obj == s.objects[name].(status := obj.status) && WellFormed(obj.spec)
  }

  predicate Aimed(s: State, name: Name, key: Key, login: Login) {
    name in s.objects && var spec := s.objects[name].spec;
    Unblocked(s, spec) && key == KeyOf(s, spec) && login == LoginOf(s, spec)
  }

  predicate Referring(s: State, name: Name, obj: Object)
    requires name in s.objects
  {
    obj.status.tokenRef == if obj.spec.Minting() then obj.spec.tokenSecret else s.objects[name].status.tokenRef
  }

  /** The status a finished pass saves, and what it says is so. */
  predicate Finished(s0: State, s: State, name: Name, status: Standing)
    requires name in s.objects && WellFormed(s.objects[name].spec)
  {
    var o := s.objects[name];
    && Unblocked(s, o.spec) && KeyOf(s, o.spec) in s.records
    && s.records[KeyOf(s, o.spec)].body == Target(s0, o.spec) && HasToken(s, o.spec)
    && status == Standing(s.records[KeyOf(s, o.spec)].id,
                          if o.spec.Minting() then o.spec.tokenSecret
                              else o.status.tokenRef, Set(Reconciled), o.generation)
  }

  /** A worker's place in its pass, against the state as it is now. */
  predicate Track(s0: State, s: State, kind: Kind) {
    match s.Pc(kind)
    case Idle(_) => true
    case Resolving(name, obj) => Held(s, kind, name, obj) && obj == s.objects[name] && Dependent(obj.spec)
    case ReadingCredentials(name, obj, organization) =>
      && Held(s, kind, name, obj) && obj == s.objects[name] && obj.spec.ImageSpec? && obj.spec.credentials.Some?
      && organization == Organized(s, obj.spec) != ""
    case Looking(name, obj, key, login) =>
      Held(s, kind, name, obj) && obj == s.objects[name] && Aimed(s, name, key, login)
    case Checking(name, obj, key, login, found) =>
      && Held(s, kind, name, obj) && Aimed(s, name, key, login) && key in s.records && s.records[key] == found
      && obj.spec.Minting() && obj == WithId(s.objects[name], found.id)
    case Updating(name, obj, key, login, id, token) =>
      && Held(s, kind, name, obj) && Aimed(s, name, key, login) && key in s.records && s.records[key].id == id
      && !Matches(obj.spec, login, s.records[key].body) && Referring(s, name, obj) && HasToken(s, obj.spec)
    case Creating(name, obj, key, login) =>
      Held(s, kind, name, obj) && obj == s.objects[name] && Aimed(s, name, key, login) && key !in s.records
    case Storing(name, obj, key, login, id, token) =>
      && Held(s, kind, name, obj) && obj == s.objects[name] && Aimed(s, name, key, login) && key in s.records
      && s.records[key].id == id && s.records[key].body == Target(s0, obj.spec) && token != "" && obj.spec.Minting()
    case Saving(name, obj, retry, basis) =>
      && Held(s, kind, name, obj)
      && (obj.status == s.objects[name].status.(verdict := Set(Pending), observed := obj.generation) ||
          Finished(s0, s, name, obj.status))
  }

  /** What every run without faults keeps. */
  ghost predicate Sound(s0: State, s: State) {
    && World(s0) && World(s) && Kept(s0, s)
    && (forall name :: name in s.objects ==> Provided(s, name))
    && (forall name :: name in s.objects ==> WellFormed(s.objects[name].spec) && Midway(s0, s, s.objects[name].spec))
    && (forall key :: key in s.records ==> IsHome(s, key) || Untouched(s0, s, key))
    && (forall kind :: Track(s0, s, kind))
  }

  // ---- What a step may touch ----

  /** From `s` to `e` only a worker at `name` acted. */
  ghost predicate Grown(s: State, e: State, name: Name, id: string)
    requires name in s.objects
  {
    var spec := s.objects[name].spec;
    && Kept(s, e)
    && (forall kind :: kind != name.kind ==> e.Pc(kind) == s.Pc(kind))
    && (forall key :: key in e.records && key !in s.records ==> e.records[key].id == id)
    && (forall key :: key in e.records && !(Unblocked(s, spec) && key == KeyOf(s, spec)) ==>
          key in s.records && e.records[key] == s.records[key])
    && (forall secret :: secret in e.secrets && secret !in s.secrets ==>
          spec.Minting() && secret == spec.tokenSecret && Entry(e.secrets[secret], "token") != "")
    && (forall n :: n in s.objects && n != name ==> e.objects[n] == s.objects[n])
    && e.objects[name].deleting == s.objects[name].deleting && Firm(s, e, name)
  }

  /** An organization's id, once recorded, is not dropped. */
  predicate Firm(s: State, e: State, name: Name)
    requires name in s.objects && name in e.objects
  {
    name.kind.Organization? && s.objects[name].status.platformId != "" ==> e.objects[name].status.platformId != ""
  }

  /** What a step at one declaration needs to know about the rest. */
  predicate Local(s0: State, s: State, name: Name) {
    && name in s.objects && Declarable(s, name) && Provided(s, name)
    && var spec := s.objects[name].spec;
       Unblocked(s, spec) ==> Home(s, spec) == Some(KeyOf(s, spec)) && BodyAfter(s, spec) == Target(s0, spec)
  }

  lemma SoundIsLocal(s0: State, s: State, name: Name)
    requires Sound(s0, s) && name in s.objects
    ensures Local(s0, s, name)
  {
    if Unblocked(s, s.objects[name].spec) {
      KeyIsHome(s, name);
      TargetIsNext(s0, s, name);
    }
  }

  /** A worker on its way at a declaration, and an answer for it. */
  predicate Due(s0: State, s: State, l: Label) {
    && l.Answer? && l.reply.Accepted? && l.id != "" && l.token != ""
    && !s.Pc(l.kind).Idle? && Local(s0, s, s.Pc(l.kind).name) && Track(s0, s, l.kind)
  }

  lemma SmoothIsDue(s0: State, s: State, l: Label)
    requires Sound(s0, s) && Smooth(s, l) && l.Answer? && !s.Pc(l.kind).Idle?
    ensures Due(s0, s, l)
  {
    assert Track(s0, s, l.kind);
    SoundIsLocal(s0, s, s.Pc(l.kind).name);
  }

  /** How a turn comes out: the worker's own place, and that its pass goes on. */
  ghost predicate Comes(s0: State, s: State, e: State, kind: Kind) {
    && Track(s0, e, kind) && !s.Pc(kind).Idle?
    && if s.Pc(kind).Saving? then e.Pc(kind).Idle?
       else !e.Pc(kind).Idle? && e.Pc(kind).name == s.Pc(kind).name
  }

  /** What a save that is due says. */
  predicate Pends(pc: Pc) { pc.Saving? && pc.obj.status.verdict != Set(Reconciled) }

  lemma ResolveComes(s0: State, s: State, l: Label)
    requires Due(s0, s, l) && s.Pc(l.kind).Resolving?
    ensures var e := Apply(s, l); e == s.Move(l.kind, e.Pc(l.kind)) && Comes(s0, s, e, l.kind)
    ensures Pends(Apply(s, l).Pc(l.kind)) ==> !Unblocked(s, s.Pc(l.kind).obj.spec)
  {
  }

  lemma ReadComes(s0: State, s: State, l: Label)
    requires Due(s0, s, l) && s.Pc(l.kind).ReadingCredentials?
    ensures var e := Apply(s, l); e == s.Move(l.kind, e.Pc(l.kind)) && Comes(s0, s, e, l.kind) && !Pends(e.Pc(l.kind))
  {
  }

  lemma FoundComes(s0: State, s: State, l: Label)
    requires Due(s0, s, l) && s.Pc(l.kind).Looking? && s.Pc(l.kind).key in s.records && !s.Pc(l.kind).obj.spec.Minting()
    ensures var e := Apply(s, l); e == s.Move(l.kind, e.Pc(l.kind)) && Comes(s0, s, e, l.kind) && !Pends(e.Pc(l.kind))
  {
    var Looking(name, obj, key, login) := s.Pc(l.kind);
    var obj' := if obj.spec.ImageSpec? then WithId(obj, s.records[key].id) else obj;
    assert Apply(s, l).Pc(l.kind) == Compare(name, obj', key, login, s.records[key], "");
  }

  lemma LookComes(s0: State, s: State, l: Label)
    requires Due(s0, s, l) && s.Pc(l.kind).Looking?
    ensures var e := Apply(s, l); e == s.Move(l.kind, e.Pc(l.kind)) && Comes(s0, s, e, l.kind) && !Pends(e.Pc(l.kind))
  {
    var Looking(name, obj, key, login) := s.Pc(l.kind);
    if key in s.records && !obj.spec.Minting() {
      FoundComes(s0, s, l);
    } else {
      assert Apply(s, l).Pc(l.kind) == if key in s.records
          then Checking(name, WithId(obj, s.records[key].id), key, login, s.records[key])
                                       else Creating(name, obj, key, login);
    }
  }

  lemma CheckComes(s0: State, s: State, l: Label)
    requires Due(s0, s, l) && s.Pc(l.kind).Checking? && s.Pc(l.kind).obj.spec.RunnerSpec?
    requires s.Pc(l.kind).found.body.RunnerBody?
    ensures var e := Apply(s, l); e == s.Move(l.kind, e.Pc(l.kind)) && Comes(s0, s, e, l.kind) && !Pends(e.Pc(l.kind))
  {
  }

  lemma CheckAppComes(s0: State, s: State, l: Label)
    requires Due(s0, s, l) && s.Pc(l.kind).Checking? && s.Pc(l.kind).obj.spec.AppSpec?
    ensures var e := Apply(s, l); e == s.Move(l.kind, e.Pc(l.kind)) && Comes(s0, s, e, l.kind) && !Pends(e.Pc(l.kind))
  {
  }

  /** A write to the platform leaves the target at the worker's key. */
  predicate Hits(s: State, e: State, name: Name)
    requires name in s.objects && WellFormed(s.objects[name].spec)
  {
    var spec := s.objects[name].spec; var key := KeyOf(s, spec);
    && Unblocked(s, spec) && key in e.records && e.records == s.records[key := e.records[key]]
    && e.records[key].body == BodyAfter(s, spec)
    && e.objects == s.objects && e.secrets == s.secrets
  }

  lemma CreateComes(s0: State, s: State, l: Label)
    requires Due(s0, s, l) && s.Pc(l.kind).Creating?
    ensures var e := Apply(s, l); Comes(s0, s, e, l.kind) && !Pends(e.Pc(l.kind)) && Hits(s, e, s.Pc(l.kind).name)
    ensures var pc := s.Pc(l.kind); pc.key !in s.records && Apply(s, l).records[pc.key].id == l.id
    ensures s.Pc(l.kind).obj.spec.Minting() ==> Apply(s, l).Pc(l.kind).Storing?
    ensures forall kind :: kind != l.kind ==> Apply(s, l).Pc(kind) == s.Pc(kind)
  {
    assert Apply(s, l) == Create(s, l.kind, l.reply, l.id, l.token);
  }

  lemma UpdateComes(s0: State, s: State, l: Label)
    requires Due(s0, s, l) && s.Pc(l.kind).Updating?
    ensures var e := Apply(s, l); Comes(s0, s, e, l.kind) && !Pends(e.Pc(l.kind)) && Hits(s, e, s.Pc(l.kind).name)
    ensures var pc := s.Pc(l.kind);
            && pc.key in s.records
            && Apply(s, l).records[pc.key] == s.records[pc.key].(body := Apply(s, l).records[pc.key].body)
    ensures forall kind :: kind != l.kind ==> Apply(s, l).Pc(kind) == s.Pc(kind)
  {
    assert Apply(s, l) == Update(s, l.kind, l.reply);
  }

  lemma StoreWrites(s: State, l: Label)
    requires l.Answer? && l.reply.Accepted? && l.token != "" && s.Pc(l.kind).Storing?
    requires var pc := s.Pc(l.kind);
             && pc.obj.spec.Minting() && pc.token != ""
             && (pc.obj.spec.tokenSecret in s.secrets ==> HasToken(s, pc.obj.spec))
    ensures var e := Apply(s, l); var spec := s.Pc(l.kind).obj.spec;
            && e.records == s.records && e.objects == s.objects && e.log == s.log && HasToken(e, spec)
            && e.secrets == s.secrets[spec.tokenSecret := e.secrets[spec.tokenSecret]]
            && (spec.tokenSecret in s.secrets ==> e.secrets == s.secrets)
    ensures forall kind :: kind != l.kind ==> Apply(s, l).Pc(kind) == s.Pc(kind)
  {
    assert Apply(s, l) == WriteSecret(s, l.kind, l.reply);
  }

  lemma StoreComes(s0: State, s: State, l: Label)
    requires Due(s0, s, l) && s.Pc(l.kind).Storing?
    ensures var e := Apply(s, l); Comes(s0, s, e, l.kind) && !Pends(e.Pc(l.kind))
  {
    StoreWrites(s, l);
  }

  lemma SaveComes(s0: State, s: State, l: Label)
    requires Due(s0, s, l) && s.Pc(l.kind).Saving?
    ensures var e := Apply(s, l); var pc := s.Pc(l.kind);
            && Comes(s0, s, e, l.kind) && e.records == s.records && e.secrets == s.secrets && e.log == s.log
            && e.objects == s.objects[pc.name := e.objects[pc.name]]
            && e.objects[pc.name] == s.objects[pc.name].(status := pc.obj.status, version := e.objects[pc.name].version)
    ensures forall kind :: kind != l.kind ==> Apply(s, l).Pc(kind) == s.Pc(kind)
  {
    assert Apply(s, l) == SaveStatus(s, l.kind, l.reply);
  }

  // ---- From one declaration to all ----

  /** Only a worker at `name` has moved, or written what is `name`'s to write. */
  lemma MoveGrows(s: State, e: State, name: Name, id: string)
    requires name in s.objects && e == s.Move(name.kind, e.Pc(name.kind))
    ensures Grown(s, e, name, id)
  {
  }

  lemma HitGrows(s: State, e: State, name: Name, id: string)
    requires name in s.objects && WellFormed(s.objects[name].spec) && Hits(s, e, name)
    requires forall kind :: kind != name.kind ==> e.Pc(kind) == s.Pc(kind)
    requires var key := KeyOf(s, s.objects[name].spec);
             if key in s.records then e.records[key] == s.records[key].(body := e.records[key].body)
                 else e.records[key].id == id
    ensures Grown(s, e, name, id)
  {
  }

  lemma StoreGrows(s: State, e: State, name: Name, id: string)
    requires name in s.objects && e.records == s.records && e.objects == s.objects
    requires forall kind :: kind != name.kind ==> e.Pc(kind) == s.Pc(kind)
    requires var spec := s.objects[name].spec;
             && spec.Minting() && HasToken(e, spec)
             && e.secrets == s.secrets[spec.tokenSecret := e.secrets[spec.tokenSecret]]
             && (spec.tokenSecret in s.secrets ==> e.secrets == s.secrets)
    ensures Grown(s, e, name, id)
  {
  }

  lemma SaveGrows(s: State, e: State, name: Name, id: string)
    requires name in s.objects && e.records == s.records && e.secrets == s.secrets
    requires forall kind :: kind != name.kind ==> e.Pc(kind) == s.Pc(kind)
    requires name in e.objects && e.objects == s.objects[name := e.objects[name]]
    requires e.objects[name] == s.objects[name].(status := e.objects[name].status, version := e.objects[name].version)
    requires Firm(s, e, name)
    ensures Grown(s, e, name, id)
  {
  }

  /** What is left to show about the declaration a step is at. */
  ghost predicate Settles(s0: State, e: State, name: Name) {
    && name in e.objects && Declarable(e, name) && Provided(e, name) && Midway(s0, e, e.objects[name].spec)
    && Track(s0, e, name.kind)
  }

  predicate New(s: State, id: string) {
    id != "" && forall key :: key in s.records ==> s.records[key].id != id && !Under(key, id)
  }

  /** A home that appears with the step is empty. */
  lemma NewHomeIsEmpty(s: State, e: State, name: Name, id: string, other: Name)
    requires World(s) && name in s.objects && New(s, id) && Grown(s, e, name, id) && other in s.objects
    requires Home(s, s.objects[other].spec).None? && Home(e, s.objects[other].spec).Some?
    ensures Home(e, s.objects[other].spec).value !in e.records
  {
    var spec := s.objects[other].spec;
    assert Host(e, spec) == Host(s, spec) && Host(s, spec) !in s.records;
    assert Under(Home(e, spec).value, id);
  }

  /** The record at another declaration's home is not touched. */
  lemma OtherHome(s: State, e: State, name: Name, id: string, other: Name)
    requires World(s) && name in s.objects && New(s, id) && Grown(s, e, name, id) && other in s.objects && other != name
    requires Home(e, s.objects[other].spec).Some? && Home(e, s.objects[other].spec).value in e.records
    ensures var home := Home(e, s.objects[other].spec);
            home == Home(s, s.objects[other].spec) && home.value in s.records &&
                e.records[home.value] == s.records[home.value]
  {
    var spec := s.objects[other].spec;
    if Home(s, spec).None? {
      NewHomeIsEmpty(s, e, name, id, other);
    } else {
      HomeStays(s, e, spec);
      if Unblocked(s, s.objects[name].spec) {
        KeyIsHome(s, name);
        HomesDiffer(s, other, name);
      }
    }
  }

  lemma OthersProvided(s0: State, s: State, e: State, name: Name, id: string, other: Name)
    requires World(s) && Kept(s0, s) && name in s.objects && New(s, id) && Grown(s, e, name, id)
    requires other in s.objects && other != name && (!At(s, other) || other.kind != name.kind)
    requires WellFormed(s.objects[other].spec) && Provided(s, other) && Midway(s0, s, s.objects[other].spec)
    ensures Provided(e, other) && Midway(s0, e, s.objects[other].spec)
  {
    if Home(e, s.objects[other].spec).Some? && Home(e, s.objects[other].spec).value in e.records {
      OtherHome(s, e, name, id, other);
    }
  }

  /** An organization's id, once known, is known for good. */
  lemma OrganizedStays(s: State, e: State, name: Name, id: string, spec: Spec)
    requires World(s) && name in s.objects && Grown(s, e, name, id) && Declarable(e, name) && Unblocked(s, spec)
    ensures Unblocked(e, spec) && KeyOf(e, spec) == KeyOf(s, spec)
  {
    if Dependent(spec) {
      var organization := Name(Organization, Reference(spec));
      assert Declarable(s, organization);
    }
  }

  /** What a worker at `other` knows is still so. */
  predicate Alike(s: State, e: State, other: Name) {
    && other in s.objects && other in e.objects && e.objects[other] == s.objects[other]
    && var spec := s.objects[other].spec; var key := KeyOf(s, spec);
       && (HasToken(s, spec) ==> HasToken(e, spec))
       && (Unblocked(s, spec) ==>
             && Unblocked(e, spec) && KeyOf(e, spec) == key && LoginOf(e, spec) == LoginOf(s, spec)
             && (key in e.records <==> key in s.records) && (key in s.records ==> e.records[key] == s.records[key]))
  }

  lemma AlikeTracks(s0: State, s: State, e: State, kind: Kind)
    requires Track(s0, s, kind) && e.Pc(kind) == s.Pc(kind) && (!s.Pc(kind).Idle? ==> Alike(s, e, s.Pc(kind).name))
    ensures Track(s0, e, kind)
  {
  }

  /** What another worker is about is not touched. */
  lemma OtherAlike(s: State, e: State, name: Name, id: string, other: Name)
    requires World(s) && name in s.objects && New(s, id) && Grown(s, e, name, id) && Declarable(e, name)
    requires other in s.objects && other != name
    ensures Alike(s, e, other)
  {
    var spec := s.objects[other].spec;
    assert Declarable(s, other);
    if Unblocked(s, spec) {
      OrganizedStays(s, e, name, id, spec);
      LoginStays(s, e, other);
      KeyIsHome(s, other);
      HomeStays(s, e, spec);
      if KeyOf(s, spec) in e.records { OtherHome(s, e, name, id, other); }
    }
  }

  /** The rest of the platform. */
  lemma RestStays(s0: State, s: State, e: State, name: Name, id: string, key: Key)
    requires World(s) && name in s.objects && Grown(s, e, name, id) && key in e.records
    requires key in s.records ==> IsHome(s, key) || Untouched(s0, s, key)
    ensures IsHome(e, key) || Untouched(s0, e, key)
  {
    var spec := s.objects[name].spec;
    if Unblocked(s, spec) && key == KeyOf(s, spec) {
      KeyIsHome(s, name);
      HomeStays(s, e, spec);
      assert Home(e, e.objects[name].spec) == Some(key);
    } else if IsHome(s, key) {
      var other :| other in s.objects && Home(s, s.objects[other].spec) == Some(key);
      HomeStays(s, e, s.objects[other].spec);
      assert Home(e, e.objects[other].spec) == Some(key);
    }
  }

  lemma WorldStays(s: State, e: State, name: Name, id: string)
    requires World(s) && name in s.objects && New(s, id) && Grown(s, e, name, id) && Declarable(e, name)
    requires var key := KeyOf(s, s.objects[name].spec);
             Unblocked(s, s.objects[name].spec) && key in e.records ==> Reporting.Typed(key, e.records[key].body)
    ensures World(e)
  {
    forall other | other in e.objects ensures Declarable(e, other) {
      assert Declarable(s, other);
    }
    IdsStay(s, e, name, id);
  }

  lemma IdsStay(s: State, e: State, name: Name, id: string)
    requires Identified(s) && name in s.objects && New(s, id) && Grown(s, e, name, id)
    ensures Identified(e)
  {
    forall a: Key, b: Key | a.OrganizationKey? && b.OrganizationKey? && a != b && a in e.records && b in e.records
      ensures e.records[a].id != e.records[b].id
    {
      assert a in s.records || b in s.records;
    }
  }

  /** The other workers keep their place. */
  lemma TracksStay(s0: State, s: State, e: State, name: Name, id: string, kind: Kind)
    requires World(s) && name in s.objects && New(s, id) && Grown(s, e, name, id) && Declarable(e, name)
    requires kind != name.kind && Track(s0, s, kind)
    ensures Track(s0, e, kind)
  {
    if !s.Pc(kind).Idle? { OtherAlike(s, e, name, id, s.Pc(kind).name); }
    AlikeTracks(s0, s, e, kind);
  }

  /** A step that settles its own declaration keeps everything. */
  lemma SoundStays(s0: State, s: State, e: State, name: Name, id: string)
    requires Sound(s0, s) && name in s.objects && New(s, id) && Grown(s, e, name, id) && Settles(s0, e, name)
    requires At(s, name) || s.Pc(name.kind).Idle?
    requires var key := KeyOf(s, s.objects[name].spec);
             Unblocked(s, s.objects[name].spec) && key in e.records ==> Reporting.Typed(key, e.records[key].body)
    ensures Sound(s0, e)
  {
    WorldStays(s, e, name, id);
    KeptTrans(s0, s, e);
    forall other | other in e.objects
      ensures Provided(e, other) && WellFormed(e.objects[other].spec) && Midway(s0, e, e.objects[other].spec)
    {
      if other != name { OthersProvided(s0, s, e, name, id, other); }
    }
    forall key | key in e.records ensures IsHome(e, key) || Untouched(s0, e, key) {
      RestStays(s0, s, e, name, id, key);
    }
    forall kind: Kind ensures Track(s0, e, kind) {
      if kind != name.kind { TracksStay(s0, s, e, name, id, kind); }
    }
  }

  // ---- Every step ----

  /** A step that moves a worker and nothing else. */
  lemma MoveSettles(s0: State, s: State, e: State, name: Name)
    requires Local(s0, s, name) && Midway(s0, s, s.objects[name].spec)
    requires e == s.Move(name.kind, e.Pc(name.kind)) && Track(s0, e, name.kind) && !s.Pc(name.kind).Storing?
    ensures Settles(s0, e, name)
  {
    assert Home(e, s.objects[name].spec) == Home(s, s.objects[name].spec);
  }

  lemma HitSettles(s0: State, s: State, e: State, name: Name)
    requires Local(s0, s, name) && Midway(s0, s, s.objects[name].spec) && Hits(s, e, name) && Kept(s0, s) && Kept(s, e)
    requires Track(s0, e, name.kind) && !s.Pc(name.kind).Storing?
    requires HasToken(s, s.objects[name].spec) || (At(e, name) && e.Pc(name.kind).Storing?)
    ensures Settles(s0, e, name)
  {
    HomeStays(s, e, s.objects[name].spec);
  }

  lemma StoreSettles(s0: State, s: State, e: State, name: Name)
    requires Local(s0, s, name) && Midway(s0, s, s.objects[name].spec)
    requires e.records == s.records && e.objects == s.objects && HasToken(e, s.objects[name].spec) && Kept(s, e)
    requires Track(s0, e, name.kind)
    ensures Settles(s0, e, name)
  {
    assert Home(e, s.objects[name].spec) == Home(s, s.objects[name].spec);
  }

  lemma SaveSettles(s0: State, s: State, e: State, name: Name)
    requires Local(s0, s, name) && Midway(s0, s, s.objects[name].spec) && Track(s0, s, name.kind)
    requires At(s, name) && s.Pc(name.kind).Saving? && e.Pc(name.kind).Idle?
    requires e.records == s.records && e.secrets == s.secrets && name in e.objects &&
             e.objects == s.objects[name := e.objects[name]]
    requires e.objects[name] == s.objects[name].(status := s.Pc(name.kind).obj.status,
             version := e.objects[name].version)
    requires name.kind.Organization? && Place(s.objects[name].spec) in s.records ==>
             s.records[Place(s.objects[name].spec)].id != ""
    ensures Settles(s0, e, name) && Firm(s, e, name)
  {
    assert Home(e, s.objects[name].spec) == Home(s, s.objects[name].spec);
  }

  /** What a step of a worker establishes. */
  ghost predicate Advances(s0: State, s: State, e: State, kind: Kind, id: string) {
    && !s.Pc(kind).Idle? && s.Pc(kind).name.kind == kind && s.Pc(kind).name in s.objects
    && Grown(s, e, s.Pc(kind).name, id) && Sound(s0, e)
  }

  lemma WriteKeepsSound(s0: State, s: State, l: Label)
    requires Sound(s0, s) && Smooth(s, l) && l.Answer? && (s.Pc(l.kind).Creating? || s.Pc(l.kind).Updating?)
    ensures Advances(s0, s, Apply(s, l), l.kind, l.id)
  {
    SmoothIsDue(s0, s, l);
    var name, e := s.Pc(l.kind).name, Apply(s, l);
    if s.Pc(l.kind).Creating? { CreateComes(s0, s, l); } else { UpdateComes(s0, s, l); }
    HitGrows(s, e, name, l.id);
    assert Midway(s0, s, s.objects[name].spec);
    HitSettles(s0, s, e, name);
    BodyAfterIsTyped(s, s.objects[name].spec);
    SoundStays(s0, s, e, name, l.id);
  }

  lemma StoreKeepsSound(s0: State, s: State, l: Label)
    requires Sound(s0, s) && Smooth(s, l) && l.Answer? && s.Pc(l.kind).Storing?
    ensures Advances(s0, s, Apply(s, l), l.kind, l.id)
  {
    SmoothIsDue(s0, s, l);
    var name, e := s.Pc(l.kind).name, Apply(s, l);
    StoreWrites(s, l);
    StoreComes(s0, s, l);
    StoreGrows(s, e, name, l.id);
    assert Midway(s0, s, s.objects[name].spec);
    StoreSettles(s0, s, e, name);
    SoundStays(s0, s, e, name, l.id);
  }

  lemma SaveKeepsSound(s0: State, s: State, l: Label)
    requires Sound(s0, s) && Smooth(s, l) && l.Answer? && s.Pc(l.kind).Saving?
    ensures Advances(s0, s, Apply(s, l), l.kind, l.id)
  {
    SmoothIsDue(s0, s, l);
    var name, e := s.Pc(l.kind).name, Apply(s, l);
    SaveComes(s0, s, l);
    SaveSettles(s0, s, e, name);
    SaveGrows(s, e, name, l.id);
    SoundStays(s0, s, e, name, l.id);
  }

  predicate Reads(pc: Pc) { pc.Resolving? || pc.ReadingCredentials? || pc.Looking? || pc.Checking? }

  /** A read moves its worker; it is on its way to a Pending save only if the declaration is blocked. */
  lemma ReadAdvances(s0: State, s: State, l: Label)
    requires Due(s0, s, l) && Reads(s.Pc(l.kind))
    requires s.Pc(l.kind).Checking? && s.Pc(l.kind).obj.spec.RunnerSpec? ==> s.Pc(l.kind).found.body.RunnerBody?
    ensures var e := Apply(s, l); e == s.Move(l.kind, e.Pc(l.kind)) && Comes(s0, s, e, l.kind)
    ensures Pends(Apply(s, l).Pc(l.kind)) ==> !Unblocked(s, s.Pc(l.kind).obj.spec)
  {
    match s.Pc(l.kind) {
      case Resolving(_, _) => ResolveComes(s0, s, l);
      case ReadingCredentials(_, _, _) => ReadComes(s0, s, l);
      case Looking(_, _, _, _) => LookComes(s0, s, l);
      case Checking(_, obj, _, _, _) =>
        if obj.spec.AppSpec? { CheckAppComes(s0, s, l); } else { CheckComes(s0, s, l); }
    }
  }

  lemma ReadKeepsSound(s0: State, s: State, l: Label)
    requires Sound(s0, s) && Smooth(s, l) && l.Answer? && Reads(s.Pc(l.kind))
    ensures Advances(s0, s, Apply(s, l), l.kind, l.id)
  {
    SmoothIsDue(s0, s, l);
    CheckedIsTyped(s0, s, l.kind);
    ReadAdvances(s0, s, l);
    MoveKeepsSound(s0, s, Apply(s, l), s.Pc(l.kind).name, l.id);
  }

  lemma CheckedIsTyped(s0: State, s: State, kind: Kind)
    requires World(s) && Track(s0, s, kind)
    ensures s.Pc(kind).Checking? && s.Pc(kind).obj.spec.RunnerSpec? ==> s.Pc(kind).found.body.RunnerBody?
  {
    if s.Pc(kind).Checking? { assert Reporting.Typed(s.Pc(kind).key, s.records[s.Pc(kind).key].body); }
  }

  lemma MoveKeepsSound(s0: State, s: State, e: State, name: Name, id: string)
    requires Sound(s0, s) && New(s, id) && Local(s0, s, name) && At(s, name) && !s.Pc(name.kind).Storing?
    requires e == s.Move(name.kind, e.Pc(name.kind)) && Track(s0, e, name.kind)
    ensures Grown(s, e, name, id) && Sound(s0, e)
  {
    MoveGrows(s, e, name, id);
    assert Midway(s0, s, s.objects[name].spec);
    MoveSettles(s0, s, e, name);
    SoundStays(s0, s, e, name, id);
  }

  lemma BeginTracks(s0: State, s: State, name: Name)
    requires Local(s0, s, name) && s.Pc(name.kind).Idle?
    ensures Track(s0, Apply(s, Begin(name)), name.kind) && At(Apply(s, Begin(name)), name)
    ensures !Apply(s, Begin(name)).Pc(name.kind).Saving?
  {
  }

  /** The store, the platform and the Secrets are as they were. */
  predicate Same(s: State, e: State) { e.objects == s.objects && e.records == s.records && e.secrets == s.secrets }

  lemma WorldSame(s0: State, s: State, e: State)
    requires World(s) && Kept(s0, s) && Same(s, e)
    ensures World(e) && Kept(s0, e)
  {
    forall name | name in e.objects ensures Declarable(e, name) { assert Declarable(s, name); }
  }

  lemma RestSame(s0: State, s: State, e: State, key: Key)
    requires Same(s, e) && (IsHome(s, key) || Untouched(s0, s, key))
    ensures IsHome(e, key) || Untouched(s0, e, key)
  {
    if IsHome(s, key) {
      var name :| name in s.objects && Home(s, s.objects[name].spec) == Some(key);
      assert Home(e, e.objects[name].spec) == Some(key);
    }
  }

  lemma SameSettles(s0: State, s: State, e: State, other: Name)
    requires Same(s, e) && other in s.objects && (At(s, other) ==> At(e, other) && e.Pc(other.kind) == s.Pc(other.kind))
    requires WellFormed(s.objects[other].spec) && Provided(s, other) && Midway(s0, s, s.objects[other].spec)
    ensures Provided(e, other) && Midway(s0, e, s.objects[other].spec)
  {
    assert Home(e, s.objects[other].spec) == Home(s, s.objects[other].spec);
  }

  lemma SameTracks(s0: State, s: State, e: State, kind: Kind)
    requires Same(s, e) && e.Pc(kind) == s.Pc(kind) && Track(s0, s, kind)
    ensures Track(s0, e, kind)
  {
    AlikeTracks(s0, s, e, kind);
  }

  lemma BeginKeepsSound(s0: State, s: State, name: Name)
    requires Sound(s0, s)
    ensures Sound(s0, Apply(s, Begin(name)))
  {
    var e := Apply(s, Begin(name));
    if s.Pc(name.kind).Idle? && name in s.objects {
      assert Same(s, e) && forall kind :: kind != name.kind ==> e.Pc(kind) == s.Pc(kind);
      SoundIsLocal(s0, s, name);
      BeginTracks(s0, s, name);
      SameKeepsSound(s0, s, e, name.kind);
    }
  }

  lemma SameKeepsSound(s0: State, s: State, e: State, kind: Kind)
    requires Sound(s0, s) && Same(s, e) && s.Pc(kind).Idle? && Track(s0, e, kind)
    requires forall other :: other != kind ==> e.Pc(other) == s.Pc(other)
    ensures Sound(s0, e)
  {
    WorldSame(s0, s, e);
    forall other: Kind ensures Track(s0, e, other) {
      if other != kind { SameTracks(s0, s, e, other); }
    }
    forall name | name in e.objects
      ensures Provided(e, name) && WellFormed(e.objects[name].spec) && Midway(s0, e, e.objects[name].spec)
    {
      SameSettles(s0, s, e, name);
    }
    forall key | key in e.records ensures IsHome(e, key) || Untouched(s0, e, key) { RestSame(s0, s, e, key); }
  }
}
