/** What the words of a declaration ask of the platform, spelled out: the visibility and type words, the
    name an organization is shown by, the fields of a credentials Secret. */
module Words {
  import opened Status
  import opened Paging
  import opened Provisioning

  // ---- Which words are known ----

  /** The product knows the declaration's words. */
  predicate Known(spec: Spec) {
    match spec
    case ImageSpec(_, _, _, imageType, _, visibility, _, _) =>
      && (imageType == "workspace" || imageType == "agent_runtime" || imageType == "mcp")
      && (visibility == "" || visibility == "public" || visibility == "internal")
    case AppSpec(_, _, _, visibility, _, _) => visibility == "" || visibility == "internal" || visibility == "public"
    case _ => true
  }

  lemma KnownIsWellFormed(spec: Spec)
    ensures Known(spec) <==> WellFormed(spec)
  {
  }

  // ---- What a record says ----

  /** Every field a pass compares is as the declaration's words have it. An image is public unless it
      says otherwise, an app is internal unless it says otherwise. */
  predicate AsWritten(spec: Spec, login: Login, body: Body) {
    match (spec, body)
    case (OrganizationSpec(slug, displayName), OrganizationBody(name)) =>
      (displayName != "" ==> name == displayName) && (displayName == "" ==> name == slug)
    case (ImageSpec(_, _, words, _, _, reach, filter, _),
        ImageBody(description, visibility, tagFilter, username, _, _, _)) =>
      && description == words && tagFilter == filter && username == login.username
      && (visibility == Visibility.Internal <==> reach == "internal")
      && (visibility == Public <==> reach == "" || reach == "public")
    case (AppSpec(_, _, title, reach, _, _), AppBody(name, visibility, _)) =>
      && name == title
      && (visibility == Visibility.Internal <==> reach == "" || reach == "internal")
      && (visibility == Public <==> reach == "public")
    case (RunnerSpec(_, _, _, _), RunnerBody(_, _)) => true
    case _ => false
  }

  /** And every field it does not compare. */
  predicate RestAsWritten(spec: Spec, login: Login, body: Body) {
    match (spec, body)
    case (OrganizationSpec(_, _), OrganizationBody(_)) => true
    case (ImageSpec(_, _, _, word, source, _, _, _), ImageBody(_, _, _, _, password, imageType, repository)) =>
      && (imageType == Workspace <==> word == "workspace") && (imageType == AgentRuntime <==> word == "agent_runtime")
      && (imageType == Mcp <==> word == "mcp") && repository == source && password == login.password
    case (AppSpec(_, _, _, _, asked, _), AppBody(_, _, permissions)) => permissions == asked
    case (RunnerSpec(_, marks, skills, _), RunnerBody(labels, capabilities)) =>
        labels == marks && capabilities == skills
    case _ => false
  }

  lemma MatchesAsWritten(spec: Spec, login: Login, body: Body)
    requires WellFormed(spec)
    ensures Matches(spec, login, body) <==> AsWritten(spec, login, body)
  {
  }

  lemma DeclaredAsWritten(spec: Spec, login: Login, body: Body)
    requires WellFormed(spec)
    ensures body == Declared(spec, login) <==> AsWritten(spec, login, body) && RestAsWritten(spec, login, body)
  {
    match (spec, body)
    case (OrganizationSpec(_, _), OrganizationBody(_)) =>
    case (ImageSpec(_, _, _, _, _, _, _, _), ImageBody(_, _, _, _, _, _, _)) =>
    case (AppSpec(_, _, _, _, _, _), AppBody(_, _, _)) =>
    case (RunnerSpec(_, _, _, _), RunnerBody(_, _)) =>
    case _ =>
  }

  /** What a pass reads from the credentials Secret an image names, a field that is missing as the
      empty string; nothing if it names none. */
  predicate LoginRead(s: State, spec: Spec, login: Login) {
    if spec.ImageSpec? && spec.credentials.Some? then
      && spec.credentials.value in s.secrets
      && var data := s.secrets[spec.credentials.value];
         && (if "username" in data then login.username == data["username"] else login.username == "")
         && (if "password" in data then login.password == data["password"] else login.password == "")
    else login == Login("", "")
  }

  lemma LoginIsRead(s: State, spec: Spec)
    requires Readable(s, spec)
    ensures LoginRead(s, spec, LoginOf(s, spec))
  {
  }

  // ---- What the platform's records come to say ----

  /** A record appears only when a create is answered, under the key the pass looked up, with exactly
      what the declaration asks for in each of its fields. */
  lemma CreatedAsWritten(s: State, l: Label, key: Key)
    requires key !in s.records && key in Apply(s, l).records
    ensures l.Answer? && s.Pc(l.kind).Creating? && key == s.Pc(l.kind).key
    ensures var spec, login, record := s.Pc(l.kind).obj.spec, s.Pc(l.kind).login, Apply(s, l).records[key];
            && Known(spec) && AsWritten(spec, login, record.body) && RestAsWritten(spec, login, record.body)
            && record.id == l.id && record.token == l.token
  {
    if l.Answer? && s.Pc(l.kind).Creating? {
      assert Apply(s, l) == Create(s, l.kind, l.reply, l.id, l.token);
      DeclaredAsWritten(s.Pc(l.kind).obj.spec, s.Pc(l.kind).login, Apply(s, l).records[key].body);
    }
  }

  /** The body a correction may leave: the compared fields as written, the type, the repository and the
      permissions as they were, the password replaced only by one that is not empty. */
  predicate CorrectedAsWritten(spec: Spec, login: Login, before: Body, after: Body) {
    && AsWritten(spec, login, after)
    && match (before, after)
       case (OrganizationBody(_), OrganizationBody(_)) => true
       case (ImageBody(_, _, _, _, password, imageType, repository),
           ImageBody(_, _, _, _, password', imageType', repository')) =>
         && imageType' == imageType && repository' == repository
         && (login.password == "" ==> password' == password) && (login.password != "" ==> password' == login.password)
       case (AppBody(_, _, permissions), AppBody(_, _, permissions')) => permissions' == permissions
       case _ => false
  }

  /** A record that is there changes only by a hand edit, or when an update is answered: then it is the
      pass's own, keeps id and token, and is corrected to what is written. */
  lemma ChangedAsWritten(s: State, l: Label, key: Key)
    requires key in s.records && key in Apply(s, l).records && s.records[key] != Apply(s, l).records[key]
    requires l.Answer? && s.Pc(l.kind).Creating? ==> s.Pc(l.kind).key !in s.records
    ensures l.Drift? || (l.Answer? && s.Pc(l.kind).Updating? && key == s.Pc(l.kind).key)
    ensures Apply(s, l).records[key].id == s.records[key].id && Apply(s, l).records[key].token == s.records[key].token
    ensures l.Answer? ==>
              var spec, login, before := s.Pc(l.kind).obj.spec, s.Pc(l.kind).login, s.records[key].body;
              Comparable(spec, before) ==> CorrectedAsWritten(spec, login, before, Apply(s, l).records[key].body)
  {
    if l.Answer? && s.Pc(l.kind).Updating? {
      assert Apply(s, l) == Update(s, l.kind, l.reply);
      MatchesAsWritten(s.Pc(l.kind).obj.spec, s.Pc(l.kind).login, Apply(s, l).records[key].body);
    }
  }

  /** A record's body is of the kind its declaration is. */
  predicate Comparable(spec: Spec, body: Body) {
    match spec
    case OrganizationSpec(_, _) => body.OrganizationBody?
    case ImageSpec(_, _, _, _, _, _, _, _) => body.ImageBody?
    case AppSpec(_, _, _, _, _, _) => body.AppBody?
    case RunnerSpec(_, _, _, _) => body.RunnerBody?
  }
}
