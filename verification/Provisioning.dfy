/** Organizations, images, apps and runners as one machine, one step per external call.

    Each kind has one serial worker; the workers, the platform, the Secrets and whoever edits the
    declarations act in any order. `Apply` is total, a label that is not possible leaves the state
    alone, so every list of labels is a run: calls may fail, take effect and still report an error,
    meet a newer version, and a worker may crash between any two of them. */
module Provisioning {
  import opened Status
  import opened Paging

  // ---- Declarations ----

  datatype Kind = Organization | Image | App | Runner

  datatype Spec =
    | OrganizationSpec(slug: string, displayName: string)
    | ImageSpec(organization: string, name: string, description: string, imageType: string,
                repository: string, visibility: string, tagFilter: string, credentials: Option<string>)
    | AppSpec(organization: string, slug: string, name: string, visibility: string,
              permissions: seq<string>, tokenSecret: string)
    | RunnerSpec(name: string, labels: map<string, string>, capabilities: seq<string>, tokenSecret: string)
  {
    function Kind(): Kind {
      match this
      case OrganizationSpec(_, _) => Organization
      case ImageSpec(_, _, _, _, _, _, _, _) => Image
      case AppSpec(_, _, _, _, _, _) => App
      case RunnerSpec(_, _, _, _) => Runner
    }
    /** Whether registering mints a service token. */
    predicate Minting() { AppSpec? || RunnerSpec? }
  }

  datatype Name = Name(kind: Kind, name: string)

  datatype Standing = Standing(platformId: string, tokenRef: string, verdict: Verdict, observed: nat)

  datatype Object = Object(version: nat, generation: nat, deleting: bool, spec: Spec, status: Standing)

  // ---- The platform ----

  datatype Key =
    | OrganizationKey(slug: string)
    | ImageKey(organization: string, name: string)
    | AppKey(organization: string, slug: string)
    | RunnerKey(name: string)
    | OrganizationRunnerKey(organization: string, name: string)   // never the controller's
  {
    predicate Of(kind: Kind) {
      match this
      case OrganizationKey(_) => kind.Organization?
      case ImageKey(_, _) => kind.Image?
      case AppKey(_, _) => kind.App?
      case RunnerKey(_) => kind.Runner?
      case OrganizationRunnerKey(_, _) => false
    }
  }

  datatype Visibility = Public | Internal
  datatype ImageType = Workspace | AgentRuntime | Mcp

  datatype Body =
    | OrganizationBody(name: string)
    | ImageBody(description: string, visibility: Visibility, tagFilter: string, username: string,
                password: string, imageType: ImageType, repository: string)
    | AppBody(name: string, visibility: Visibility, permissions: seq<string>)
    | RunnerBody(labels: map<string, string>, capabilities: seq<string>)

  /** A platform record. The platform keeps the token only as a hash and returns it once. */
  datatype Record = Record(id: string, body: Body, token: string)

  datatype Login = Login(username: string, password: string)

  const NO_LOGIN := Login("", "")

  function ImageEnums(imageType: string, visibility: string): Option<(ImageType, Visibility)> {
    var kind := match imageType
      case "workspace" => Some(Workspace)
      case "agent_runtime" => Some(AgentRuntime)
      case "mcp" => Some(Mcp)
      case _ => None;
    var reach := match visibility
      case "" => Some(Public)
      case "public" => Some(Public)
      case "internal" => Some(Visibility.Internal)
      case _ => None;
    if kind.Some? && reach.Some? then Some((kind.value, reach.value)) else None
  }

  function AppVisibility(visibility: string): Option<Visibility> {
    match visibility
    case "" => Some(Visibility.Internal)
    case "internal" => Some(Visibility.Internal)
    case "public" => Some(Public)
    case _ => None
  }

  function DisplayName(spec: Spec): string
    requires spec.OrganizationSpec?
  {
    if spec.displayName != "" then spec.displayName else spec.slug
  }

  /** The enumerated values of a declaration are ones the product knows. */
  predicate WellFormed(spec: Spec) {
    match spec
    case ImageSpec(_, _, _, imageType, _, visibility, _, _) => ImageEnums(imageType, visibility).Some?
    case AppSpec(_, _, _, visibility, _, _) => AppVisibility(visibility).Some?
    case _ => true
  }

  /** The record a declaration asks to create. */
  function Declared(spec: Spec, login: Login): Body
    requires WellFormed(spec)
  {
    match spec
    case OrganizationSpec(_, _) => OrganizationBody(DisplayName(spec))
    case ImageSpec(_, _, description, imageType, repository, visibility, tagFilter, _) =>
      var (kind, reach) := ImageEnums(imageType, visibility).value;
      ImageBody(description, reach, tagFilter, login.username, login.password, kind, repository)
    case AppSpec(_, _, name, visibility, permissions, _) =>
      AppBody(name, AppVisibility(visibility).value, permissions)
    case RunnerSpec(_, labels, capabilities, _) => RunnerBody(labels, capabilities)
  }

  /** The compared fields agree. */
  predicate Matches(spec: Spec, login: Login, body: Body)
    requires WellFormed(spec)
  {
    match (spec, body)
    case (OrganizationSpec(_, _), OrganizationBody(name)) => name == DisplayName(spec)
    case (ImageSpec(_, _, d, t, _, v, f, _), ImageBody(description, visibility, tagFilter, username, _, _, _)) =>
      description == d && visibility == ImageEnums(t, v).value.1 && tagFilter == f && username == login.username
    case (AppSpec(_, _, n, v, _, _), AppBody(name, visibility, _)) =>
      name == n && visibility == AppVisibility(v).value
    case (RunnerSpec(_, _, _, _), RunnerBody(_, _)) => true
    case _ => false
  }

  /** The record after an update: the compared fields, and a password only when one is declared. */
  function Corrected(spec: Spec, login: Login, body: Body): Body
    requires WellFormed(spec)
  {
    match (spec, body)
    case (OrganizationSpec(_, _), OrganizationBody(_)) => OrganizationBody(DisplayName(spec))
    case (ImageSpec(_, _, d, t, _, v, f, _), ImageBody(_, _, _, _, password, kind, repository)) =>
      ImageBody(d, ImageEnums(t, v).value.1, f, login.username,
                if login.password != "" then login.password else password, kind, repository)
    case (AppSpec(_, _, n, v, _, _), AppBody(_, _, permissions)) => AppBody(n, AppVisibility(v).value, permissions)
    case _ => body
  }

  // ---- Secrets ----

  type Data = map<string, string>

  function Entry(data: Data, field: string): string {
    if field in data then data[field] else ""
  }

  /** What the controller writes into a token Secret. */
  function TokenData(spec: Spec, id: string, token: string): Data {
    if spec.AppSpec? then map["token" := token, "app_id" := id] else map["token" := token]
  }

  // ---- Workers ----

  /** What a Ready verdict rests on: the record's key, the login it was compared with, and for a
      minting kind the token the pass saw or wrote. */
  datatype Basis = NoBasis | Agreed(key: Key, login: Login, token: string)

  /** Where a worker is between two calls; `obj` is its local copy of the declaration. */
  datatype Pc =
    | Idle(outcome: Outcome)
    | Resolving(name: Name, obj: Object)
    | ReadingCredentials(name: Name, obj: Object, organization: string)
    | Looking(name: Name, obj: Object, key: Key, login: Login)
    | Checking(name: Name, obj: Object, key: Key, login: Login, found: Record)
    | Updating(name: Name, obj: Object, key: Key, login: Login, id: string, token: string)
    | Creating(name: Name, obj: Object, key: Key, login: Login)
    | Storing(name: Name, obj: Object, key: Key, login: Login, id: string, token: string)
    | Saving(name: Name, obj: Object, retry: Retry, basis: Basis)

  datatype Minted = Minted(key: Key, id: string, token: string)

  /** History: every create that took effect, the create and update calls issued, and the workers
      whose running pass has seen no hand edit of the platform. */
  datatype Log = Log(created: seq<Minted>, writes: nat, calm: set<Kind>)

  datatype State = State(
    objects: map<Name, Object>,
    records: map<Key, Record>,
    secrets: map<string, Data>,
    workers: map<Kind, Pc>,
    clock: nat,              // the last version the store handed out
    log: Log)
  {
    function Pc(kind: Kind): Pc { if kind in workers then workers[kind] else Idle(Nothing) }
    function Move(kind: Kind, pc: Pc): State { this.(workers := workers[kind := pc]) }
    function Store(name: Name, obj: Object): State {
      this.(objects := objects[name := obj.(version := clock + 1)], clock := clock + 1)
    }
    /** The version check of a write to a declaration. */
    predicate Writable(name: Name, version: nat) { name in objects && objects[name].version == version }
    function Answered(name: Name, version: nat, reply: Reply): WriteResult {
      if reply.Failed? || name !in objects then Error else if Writable(name, version) then Written else Conflict
    }
  }

  datatype Label =
    | Begin(name: Name)                                          // the kind's worker takes up a declaration
    | Answer(kind: Kind, reply: Reply, id: string, token: string) // its pending call ends
    | Crash(kind: Kind)
    | Declare(name: Name, spec: Spec)
    | Edit(name: Name, spec: Spec)
    | Touch(name: Name)
    | MarkDeleted(name: Name)
    | Remove(name: Name)
    | DropSecret(secret: string)
    | PutSecret(secret: string, data: Data)
    | Drift(key: Key, body: Body)                                // a record changed by hand
    | Forget(key: Key)                                           // a record removed by hand

  // ---- The controllers' moves ----

  function Conclude(name: Name, obj: Object, reason: Reason, retry: Retry): Pc {
    Saving(name, obj.(status := obj.status.(verdict := Set(reason), observed := obj.generation)), retry, NoBasis)
  }

  function Ready(name: Name, obj: Object, key: Key, login: Login, token: string): Pc {
    Saving(name, obj.(status := obj.status.(verdict := Set(Reconciled), observed := obj.generation)), Done,
           Agreed(key, login, token))
  }

  function WithId(obj: Object, id: string): Object { obj.(status := obj.status.(platformId := id)) }
  function WithRef(obj: Object, ref: string): Object { obj.(status := obj.status.(tokenRef := ref)) }

  function AfterRead(name: Name, obj: Object): Pc {
    if obj.deleting then Idle(Nothing)
    else match obj.spec
      case OrganizationSpec(slug, _) => Looking(name, obj, OrganizationKey(slug), NO_LOGIN)
      case RunnerSpec(runner, _, _, _) => Looking(name, obj, RunnerKey(runner), NO_LOGIN)
      case _ => Resolving(name, obj)
  }

  /** resolveOrganization answered with an id, or nothing if the organization is not declared. */
  function AfterOrganization(name: Name, obj: Object, organization: Option<string>): Pc {
    if organization.None? then Conclude(name, obj, Rejected, Requeue)
    else if organization.value == "" then Conclude(name, obj, Pending, Requeue)
    else if !WellFormed(obj.spec) then Conclude(name, obj, Rejected, Done)
    else match obj.spec
      case ImageSpec(_, image, _, _, _, _, _, credentials) =>
        if credentials.Some? then ReadingCredentials(name, obj, organization.value)
        else Looking(name, obj, ImageKey(organization.value, image), NO_LOGIN)
      case AppSpec(_, slug, _, _, _, _) => Looking(name, obj, AppKey(organization.value, slug), NO_LOGIN)
      case _ => Conclude(name, obj, Rejected, Done)
  }

  function AfterCredentials(name: Name, obj: Object, organization: string, data: Option<Data>): Pc {
    if data.None? || !obj.spec.ImageSpec? then Conclude(name, obj, Pending, Requeue)
    else Looking(name, obj, ImageKey(organization, obj.spec.name),
                 Login(Entry(data.value, "username"), Entry(data.value, "password")))
  }

  function AfterLookup(name: Name, obj: Object, key: Key, login: Login, found: Option<Record>): Pc {
    if found.None? then Creating(name, obj, key, login)
    else if obj.spec.Minting() then Checking(name, WithId(obj, found.value.id), key, login, found.value)
    else
      var obj' := if obj.spec.ImageSpec? then WithId(obj, found.value.id) else obj;
      Compare(name, obj', key, login, found.value, "")
  }

  /** Corrects a record that drifted; otherwise the pass is over. */
  function Compare(name: Name, obj: Object, key: Key, login: Login, found: Record, token: string): Pc {
    if WellFormed(obj.spec) && Matches(obj.spec, login, found.body)
    then Ready(name, WithId(obj, found.id), key, login, token)
    else Updating(name, obj, key, login, found.id, token)
  }

  function TokenSecret(spec: Spec): string { if spec.Minting() then spec.tokenSecret else "" }

  /** serviceTokenPresent answered with the token it saw, "" if there is none. */
  function AfterCheck(name: Name, obj: Object, key: Key, login: Login, found: Record, token: string): Pc {
    if token == "" then Conclude(name, WithRef(obj, ""), CredentialMissing, Done)
    else
      var obj' := WithRef(obj, TokenSecret(obj.spec));
      if obj.spec.AppSpec? then Compare(name, obj', key, login, found, token)
      else Ready(name, obj', key, login, token)
  }

  function AfterUpdate(name: Name, obj: Object, key: Key, login: Login, id: string, token: string, reply: Reply): Pc {
    if reply.Accepted? then Ready(name, WithId(obj, id), key, login, token)
    else if reply.Refused() && !obj.spec.OrganizationSpec? then Conclude(name, obj, Rejected, Done)
    else Conclude(name, obj, Pending, Requeue)
  }

  function AfterCreate(name: Name, obj: Object, key: Key, login: Login, id: string, token: string, reply: Reply): Pc {
    if reply.Refused() then Conclude(name, obj, Rejected, Done)
    else if !reply.Accepted? then Conclude(name, obj, Pending, Requeue)
    else if obj.spec.Minting() then Storing(name, obj, key, login, id, token)
    else Ready(name, WithId(obj, id), key, login, "")
  }

  /** writeServiceToken returned; an existing Secret counts as success. */
  function AfterStore(name: Name, obj: Object, key: Key, login: Login, id: string, token: string, stored: bool): Pc {
    if stored then Ready(name, WithRef(WithId(obj, id), TokenSecret(obj.spec)), key, login, token)
    else Conclude(name, WithId(obj, id), CredentialMissing, Done)
  }

  /** The organization id a dependent resolves to: None if the Organization is not declared. */
  function OrganizationId(s: State, organization: string): Option<string> {
    var name := Name(Organization, organization);
    if name in s.objects then Some(s.objects[name].status.platformId) else None
  }

  function Reference(spec: Spec): string {
    match spec
    case ImageSpec(organization, _, _, _, _, _, _, _) => organization
    case AppSpec(organization, _, _, _, _, _) => organization
    case _ => ""
  }

  // ---- What a pass works with ----

  predicate Dependent(spec: Spec) { spec.ImageSpec? || spec.AppSpec? }

  /** The id of the organization a dependent names, "" while there is none. */
  function Organized(s: State, spec: Spec): string {
    var organization := Name(Organization, Reference(spec));
    if organization in s.objects then s.objects[organization].status.platformId else ""
  }

  /** Nothing keeps a pass from the platform. */
  predicate Unblocked(s: State, spec: Spec) { Dependent(spec) ==> Organized(s, spec) != "" }

  /** The key a pass looks up. */
  function KeyOf(s: State, spec: Spec): Key {
    match spec
    case OrganizationSpec(slug, _) => OrganizationKey(slug)
    case RunnerSpec(name, _, _, _) => RunnerKey(name)
    case ImageSpec(_, name, _, _, _, _, _, _) => ImageKey(Organized(s, spec), name)
    case AppSpec(_, slug, _, _, _, _) => AppKey(Organized(s, spec), slug)
  }

  function LoginOf(s: State, spec: Spec): Login {
    if spec.ImageSpec? && spec.credentials.Some? && spec.credentials.value in s.secrets then
      var data := s.secrets[spec.credentials.value];
      Login(Entry(data, "username"), Entry(data, "password"))
    else NO_LOGIN
  }

  /** The Secret a declaration reads its login from, if it names one, is there. */
  predicate Readable(s: State, spec: Spec) {
    spec.ImageSpec? && spec.credentials.Some? ==> spec.credentials.value in s.secrets
  }

  predicate HasRecord(s: State, key: Key, id: string, token: string) {
    key in s.records && s.records[key].id == id && s.records[key].token == token
  }

  predicate HasToken(s: State, spec: Spec) {
    spec.Minting() ==> spec.tokenSecret in s.secrets && Entry(s.secrets[spec.tokenSecret], "token") != ""
  }

  // ---- Steps ----

  function Apply(s: State, l: Label): State {
    match l
    case Begin(name) =>
      if s.Pc(name.kind).Idle? && name in s.objects then
        s.Move(name.kind, AfterRead(name, s.objects[name])).(log := s.log.(calm := s.log.calm + {name.kind}))
      else s
    case Answer(kind, reply, id, token) => Continue(s, kind, reply, id, token)
    case Crash(kind) => s.Move(kind, Idle(Nothing))
    case Declare(name, spec) =>
      if name in s.objects || spec.Kind() != name.kind then s
      else s.Store(name, Object(0, 1, false, spec, Standing("", "", Unset, 0)))
    case Edit(name, spec) =>
      if name !in s.objects || spec.Kind() != name.kind then s
      else s.Store(name, s.objects[name].(spec := spec, generation := s.objects[name].generation + 1))
    case Touch(name) => if name in s.objects then s.Store(name, s.objects[name]) else s
    case MarkDeleted(name) =>
      if name in s.objects
      then s.Store(name, s.objects[name].(deleting := true, generation := s.objects[name].generation + 1))
      else s
    case Remove(name) => s.(objects := s.objects - {name})
    case DropSecret(secret) => s.(secrets := s.secrets - {secret})
    case PutSecret(secret, data) => s.(secrets := s.secrets[secret := data])
    case Drift(key, body) =>
      if key in s.records
      then s.(records := s.records[key := s.records[key].(body := body)], log := s.log.(calm := {}))
      else s
    case Forget(key) => s.(records := s.records - {key}, log := s.log.(calm := {}))
  }

  /** A worker's pending call ends. `id` and `token` are what a create returns. */
  function Continue(s: State, kind: Kind, reply: Reply, id: string, token: string): State {
    match s.Pc(kind)
    case Idle(_) => s
    case Resolving(name, obj) =>
      s.Move(kind, AfterOrganization(name, obj, if reply.Accepted? then OrganizationId(s, Reference(obj.spec))
          else None))
    case ReadingCredentials(name, obj, organization) =>
      var secret := if obj.spec.ImageSpec? && obj.spec.credentials.Some? then obj.spec.credentials.value else "";
      s.Move(kind, AfterCredentials(name, obj, organization,
                                    if reply.Accepted? && secret in s.secrets then Some(s.secrets[secret]) else None))
    case Looking(name, obj, key, login) =>
      s.Move(kind, if !reply.Accepted? then Conclude(name, obj, Pending, Requeue)
                   else AfterLookup(name, obj, key, login, if key in s.records then Some(s.records[key]) else None))
    case Checking(name, obj, key, login, found) =>
      var secret := TokenSecret(obj.spec);
      s.Move(kind, if !reply.Accepted? then Conclude(name, obj, Pending, Requeue)
                   else AfterCheck(name, obj, key, login, found,
                                   if secret in s.secrets then Entry(s.secrets[secret], "token") else ""))
    case Updating(name, obj, key, login, target, seen) => Update(s, kind, reply)
    case Creating(name, obj, key, login) => Create(s, kind, reply, id, token)
    case Storing(name, obj, key, login, target, minted) => WriteSecret(s, kind, reply)
    case Saving(name, obj, retry, basis) => SaveStatus(s, kind, reply)
  }

  function Issue(s: State): State { s.(log := s.log.(writes := s.log.writes + 1)) }

  /** UpdateOrganization, UpdateImage, UpdateApp. A record that is gone answers NotFound. */
  function Update(s: State, kind: Kind, reply: Reply): State
    requires s.Pc(kind).Updating?
  {
    var Updating(name, obj, key, login, target, seen) := s.Pc(kind);
    var there := key in s.records && s.records[key].id == target;
    var answer := if reply.Accepted? && !there then Failed(NotFound, false) else reply;
    var s' := if there && answer.TookEffect() && WellFormed(obj.spec)
              then
                var body := Corrected(obj.spec, login, s.records[key].body);
                s.(records := s.records[key := s.records[key].(body := body)])
              else s;
    Issue(s').Move(kind, AfterUpdate(name, obj, key, login, target, seen, answer))
  }

  /** CreateOrganization, CreateImage, CreateApp, RegisterRunner. */
  function Create(s: State, kind: Kind, reply: Reply, id: string, token: string): State
    requires s.Pc(kind).Creating?
  {
    var Creating(name, obj, key, login) := s.Pc(kind);
    var s' := if reply.TookEffect() && WellFormed(obj.spec)
              then s.(records := s.records[key := Record(id, Declared(obj.spec, login), token)],
                      log := s.log.(created := s.log.created + [Minted(key, id, token)]))
              else s;
    Issue(s').Move(kind, AfterCreate(name, obj, key, login, id, token, reply))
  }

  /** writeServiceToken: the store refuses to create a Secret that exists, and that is success. */
  function WriteSecret(s: State, kind: Kind, reply: Reply): State
    requires s.Pc(kind).Storing?
  {
    var Storing(name, obj, key, login, id, token) := s.Pc(kind);
    var secret := TokenSecret(obj.spec);
    var s' := if reply.TookEffect() && secret !in s.secrets
              then s.(secrets := s.secrets[secret := TokenData(obj.spec, id, token)]) else s;
    s'.Move(kind, AfterStore(name, obj, key, login, id, token, reply.Accepted?))
  }

  /** Status().Update, and what the pass returns. */
  function SaveStatus(s: State, kind: Kind, reply: Reply): State
    requires s.Pc(kind).Saving?
  {
    var Saving(name, obj, retry, basis) := s.Pc(kind);
    var end := Idle(AfterWrite(s.Answered(name, obj.version, reply), Again(retry)));
    if s.Writable(name, obj.version) && reply.TookEffect()
    then s.Store(name, s.objects[name].(status := obj.status)).Move(kind, end)
    else s.Move(kind, end)
  }

  // ---- What an answer leaves alone ----

  /** An answer moves its own worker only, and within the same pass. */
  lemma AnswerMovesItsWorker(s: State, l: Label)
    requires l.Answer?
    ensures forall other :: other != l.kind ==> Apply(s, l).Pc(other) == s.Pc(other)
    ensures !Apply(s, l).Pc(l.kind).Idle? ==> !s.Pc(l.kind).Idle? && Apply(s, l).Pc(l.kind).name == s.Pc(l.kind).name
  {
    match s.Pc(l.kind) {
      case Updating(_, _, _, _, _, _) => assert Apply(s, l) == Update(s, l.kind, l.reply);
      case Creating(_, _, _, _) => assert Apply(s, l) == Create(s, l.kind, l.reply, l.id, l.token);
      case Storing(_, _, _, _, _, _) => assert Apply(s, l) == WriteSecret(s, l.kind, l.reply);
      case Saving(_, _, _, _) => assert Apply(s, l) == SaveStatus(s, l.kind, l.reply);
      case _ =>
    }
  }

  /** It goes on about the same declaration. */
  lemma AnswerKeepsSpec(s: State, l: Label)
    requires l.Answer? && !Apply(s, l).Pc(l.kind).Idle?
    ensures !s.Pc(l.kind).Idle? && Apply(s, l).Pc(l.kind).obj.spec == s.Pc(l.kind).obj.spec
  {
    match s.Pc(l.kind) {
      case Updating(_, _, _, _, _, _) => assert Apply(s, l) == Update(s, l.kind, l.reply);
      case Creating(_, _, _, _) => assert Apply(s, l) == Create(s, l.kind, l.reply, l.id, l.token);
      case Storing(_, _, _, _, _, _) => assert Apply(s, l) == WriteSecret(s, l.kind, l.reply);
      case Saving(_, _, _, _) => assert false;
      case _ =>
    }
  }

  /** And it writes at most its own Secret. */
  lemma AnswerWritesItsSecret(s: State, l: Label)
    requires l.Answer?
    ensures forall secret :: secret in s.secrets ==>
              secret in Apply(s, l).secrets && Apply(s, l).secrets[secret] == s.secrets[secret]
    ensures forall secret :: secret in Apply(s, l).secrets ==>
              secret in s.secrets || (s.Pc(l.kind).Storing? && secret == TokenSecret(s.Pc(l.kind).obj.spec))
  {
    match s.Pc(l.kind) {
      case Storing(_, _, _, _, _, _) =>
      case Saving(_, _, _, _) =>
      case _ =>
    }
  }

  /** And at most the declaration it is saving, and there only the status. */
  lemma AnswerSettles(s: State, l: Label)
    requires l.Answer?
    ensures Apply(s, l).objects.Keys == s.objects.Keys && Apply(s, l).log.calm == s.log.calm
    ensures s.Pc(l.kind).Saving? || Apply(s, l).objects == s.objects
    ensures forall n :: n in s.objects ==>
              var o, o' := s.objects[n], Apply(s, l).objects[n];
              o' == o || (s.Pc(l.kind).Saving? && s.Pc(l.kind).name == n && o'.spec == o.spec &&
                  o'.deleting == o.deleting)
  {
    if s.Pc(l.kind).Saving? {
      var pc := s.Pc(l.kind);
      assert Apply(s, l) == SaveStatus(s, l.kind, l.reply);
    }
  }

  /** A bound on the calls left in a pass. */
  function Remaining(pc: Pc): nat {
    match pc
    case Idle(_) => 0
    case Saving(_, _, _, _) => 1
    case Updating(_, _, _, _, _, _) => 2
    case Storing(_, _, _, _, _, _) => 2
    case Checking(_, _, _, _, _) => 3
    case Creating(_, _, _, _) => 3
    case Looking(_, _, _, _) => 4
    case ReadingCredentials(_, _, _) => 5
    case Resolving(_, _) => 6
  }

  /** Whatever its calls answer, a pass ends after at most six answers; a paged lookup counts as one. */
  lemma PassesAreShort(s: State, l: Label)
    requires l.Answer? && !s.Pc(l.kind).Idle?
    ensures Remaining(Apply(s, l).Pc(l.kind)) < Remaining(s.Pc(l.kind)) <= 6
  {
    match s.Pc(l.kind) {
      case Updating(_, _, _, _, _, _) => assert Apply(s, l) == Update(s, l.kind, l.reply);
      case Creating(_, _, _, _) => assert Apply(s, l) == Create(s, l.kind, l.reply, l.id, l.token);
      case Storing(_, _, _, _, _, _) => assert Apply(s, l) == WriteSecret(s, l.kind, l.reply);
      case Saving(_, _, _, _) => assert Apply(s, l) == SaveStatus(s, l.kind, l.reply);
      case _ => CallsAreShort(s, l);
    }
  }

  lemma CallsAreShort(s: State, l: Label)
    requires l.Answer? && !s.Pc(l.kind).Idle?
    requires var pc := s.Pc(l.kind); !pc.Updating? && !pc.Creating? && !pc.Storing? && !pc.Saving?
    ensures Remaining(Apply(s, l).Pc(l.kind)) < Remaining(s.Pc(l.kind)) <= 6
  {
  }

  // ---- Runs ----

  function Exec(s: State, labels: seq<Label>): State {
    if labels == [] then s else Apply(Exec(s, labels[..|labels| - 1]), labels[|labels| - 1])
  }

  lemma ExecSnoc(s: State, labels: seq<Label>, l: Label)
    ensures Exec(s, labels + [l]) == Apply(Exec(s, labels), l)
  {
    assert (labels + [l])[..|labels|] == labels;
  }

  lemma {:induction false} ExecConcat(s: State, a: seq<Label>, b: seq<Label>)
    ensures Exec(s, a + b) == Exec(Exec(s, a), b)
  {
    if b == [] {
      assert a + b == a;
    } else {
      ExecConcat(s, a, b[..|b| - 1]);
      assert (a + b)[..|a + b| - 1] == a + b[..|b| - 1];
    }
  }

  /** The state before label `i` of a run. */
  function Before(s: State, labels: seq<Label>, i: nat): State
    requires i <= |labels|
  {
    Exec(s, labels[..i])
  }

  lemma BeforeNext(s: State, labels: seq<Label>, i: nat)
    requires i < |labels|
    ensures Before(s, labels, i + 1) == Apply(Before(s, labels, i), labels[i])
  {
    assert labels[..i + 1] == labels[..i] + [labels[i]];
    ExecSnoc(s, labels[..i], labels[i]);
  }

  /** The same label, over and over. */
  function Settle(s: State, l: Label, n: nat): State { if n == 0 then s else Apply(Settle(s, l, n - 1), l) }

  lemma {:induction false} SettleIsARun(s: State, labels: seq<Label>, l: Label, n: nat)
    ensures Exec(s, labels + seq(n, _ => l)) == Settle(Exec(s, labels), l, n)
  {
    if n == 0 {
      assert labels + seq(0, _ => l) == labels;
    } else {
      SettleIsARun(s, labels, l, n - 1);
      ExecSnoc(s, labels + seq(n - 1, _ => l), l);
      assert labels + seq(n, _ => l) == labels + seq(n - 1, _ => l) + [l];
    }
  }

  lemma SettleAdds(s: State, l: Label, m: nat, n: nat)
    ensures Settle(s, l, m + n) == Settle(Settle(s, l, m), l, n)
  {
  }

  lemma OneStep(s: State, l: Label)
    ensures Exec(s, [l]) == Apply(s, l)
  {
    ExecSnoc(s, [], l);
    assert [] + [l] == [l];
  }
}
