/**
 * The fourteen operations of the middleware. Each validates its arguments, builds the URL, the
 * JSON body, the headers and the status table, and hands them to `makeRequest`. The callback
 * and the background task are left out: an operation returns the result the callback would
 * receive, together with the call it made (`None` when validation refused the arguments).
 * `net` stands for what the server and the network do with that call.
 */
module Middleware {
  import opened Outcomes
  import opened Models
  import opened Bodies
  import opened Executor
  import opened StatusTables
  import Endpoints
  import ProjectQuery

  const IllegalArguments: string := "Please provide valid arguments"
  const MissingTitleOrPrivacy: string := "Please provide valid title and privacy fields"
  const AuthorizationHeader: string := "Authorization"
  const ContentTypeHeader: string := "Content-type"
  const JsonHeaderValue: string := "application/json"

  /** The result of an operation whose arguments are refused. */
  const Rejected: Result := Failure(IllegalArgument, IllegalArguments)

  method Authenticate(email: Option<string>, password: Option<string>, net: Exchange)
    returns (r: Result, sent: Option<Call>)
    ensures sent == if Given(email) && Given(password) then
                      Some(Call("POST", Http(Endpoints.ApiRoute + "auth/"), true,
                                Some(Collect(CredentialsFields(email.value, password.value))),
                                map[ContentTypeHeader := JsonHeaderValue], AppendAll(AuthenticateEntries)))
                    else None
    ensures sent.None? ==> r == Rejected
    ensures sent.Some? ==> r == Execute(sent.value, net)
  {
    if email.None? || password.None? || |email.value| == 0 || |password.value| == 0 {
      return Rejected, None;
    }
    var op := Endpoints.Endpoint(Endpoints.Authenticate);
    var body := PutPresent(CredentialsFields(email.value, password.value));
    var headers := map[ContentTypeHeader := JsonHeaderValue];
    var table := AppendAll(AuthenticateEntries);
    var call := Call(op.httpMethod, Http(op.route), true, Some(body), headers, table);
    r := MakeRequest(call, net);
    sent := Some(call);
  }

  method Register(username: Option<string>, email: Option<string>, password: Option<string>,
                  confirmation: Option<string>, net: Exchange)
    returns (r: Result, sent: Option<Call>)
    ensures sent == if Given(username) && Given(email) && Given(password) && Given(confirmation) then
                      Some(Call("POST", Http(Endpoints.ApiRoute + "register/"), true,
                                Some(Collect(RegistrationFields(username.value, email.value,
                                                                password.value, confirmation.value))),
                                map[ContentTypeHeader := JsonHeaderValue], AppendAll(RegisterEntries)))
                    else None
    ensures sent.None? ==> r == Rejected
    ensures sent.Some? ==> r == Execute(sent.value, net)
  {
    if username.None? || email.None? || password.None? || confirmation.None?
       || |username.value| == 0 || |email.value| == 0 || |password.value| == 0
       || |confirmation.value| == 0
    {
      return Rejected, None;
    }
    var op := Endpoints.Endpoint(Endpoints.Register);
    var body := PutPresent(RegistrationFields(username.value, email.value, password.value,
                                              confirmation.value));
    var headers := map[ContentTypeHeader := JsonHeaderValue];
    var table := AppendAll(RegisterEntries);
    var call := Call(op.httpMethod, Http(op.route), true, Some(body), headers, table);
    r := MakeRequest(call, net);
    sent := Some(call);
  }

  method GetOwnProjects(token: Option<string>, net: Exchange)
    returns (r: Result, sent: Option<Call>)
    ensures sent == if Given(token) then
                      Some(Call("GET", Http(Endpoints.ApiRoute + "accounts/projects/"), true, None,
                                map[AuthorizationHeader := token.value], AppendAll(GetOwnProjectsEntries)))
                    else None
    ensures sent.None? ==> r == Rejected
    ensures sent.Some? ==> r == Execute(sent.value, net)
  {
    if token.None? || |token.value| == 0 {
      return Rejected, None;
    }
    var op := Endpoints.Endpoint(Endpoints.GetOwnProjects);
    var headers := map[AuthorizationHeader := token.value];
    var table := AppendAll(GetOwnProjectsEntries);
    var call := Call(op.httpMethod, Http(op.route), true, None, headers, table);
    r := MakeRequest(call, net);
    sent := Some(call);
  }

  /**
   * Refuses a missing token or project with the generic message, then a missing title or
   * privacy flag with its own message; an empty title is accepted.
   */
  method CreateNewProject(token: Option<string>, project: Option<Project>, net: Exchange)
    returns (r: Result, sent: Option<Call>)
    ensures (!Given(token) || project.None?) ==> sent.None? && r == Rejected
    ensures (Given(token) && project.Some?
             && (project.value.title.None? || project.value.isPrivate.None?)) ==>
              sent.None? && r == Failure(IllegalArgument, MissingTitleOrPrivacy)
    ensures sent.Some? <==> Given(token) && project.Some?
                            && project.value.title.Some? && project.value.isPrivate.Some?
    ensures sent.Some? ==>
              var p := project.value;
              sent.value == Call("POST", Http(Endpoints.ApiRoute + "project/"), true,
                                 Some(Collect(NewProjectFields(p.title.value, p.isPrivate.value, p))),
                                 map[ContentTypeHeader := JsonHeaderValue,
                                     AuthorizationHeader := token.value],
                                 AppendAll(CreateNewProjectEntries))
              && r == Execute(sent.value, net)
  {
    if token.None? || project.None? || |token.value| == 0 {
      return Rejected, None;
    }
    var p := project.value;
    if p.title.None? || p.isPrivate.None? {
      return Failure(IllegalArgument, MissingTitleOrPrivacy), None;
    }
    var op := Endpoints.Endpoint(Endpoints.CreateNewProject);
    var body := PutPresent(NewProjectFields(p.title.value, p.isPrivate.value, p));
    var headers := map[ContentTypeHeader := JsonHeaderValue, AuthorizationHeader := token.value];
    var table := AppendAll(CreateNewProjectEntries);
    var call := Call(op.httpMethod, Http(op.route), true, Some(body), headers, table);
    r := MakeRequest(call, net);
    sent := Some(call);
  }

  method GetProjectById(token: Option<string>, projectId: Option<string>, net: Exchange)
    returns (r: Result, sent: Option<Call>)
    ensures sent == if Given(token) && Given(projectId) then
                      Some(Call("GET", Http(Endpoints.ApiRoute + "project/" + projectId.value), true,
                                None, map[AuthorizationHeader := token.value], AppendAll(GetProjectByIdEntries)))
                    else None
    ensures sent.None? ==> r == Rejected
    ensures sent.Some? ==> r == Execute(sent.value, net)
  {
    if token.None? || projectId.None? || |token.value| == 0 || |projectId.value| == 0 {
      return Rejected, None;
    }
    var op := Endpoints.Endpoint(Endpoints.GetProjectById);
    var url := Endpoints.WithId(Endpoints.GetProjectById, projectId.value);
    var headers := map[AuthorizationHeader := token.value];
    var table := AppendAll(GetProjectByIdEntries);
    var call := Call(op.httpMethod, Http(url), true, None, headers, table);
    r := MakeRequest(call, net);
    sent := Some(call);
  }

  /** No validation and no headers: the null header map is the empty one here. */
  method GetAllProjects(filter: ProjectFilter, net: Exchange) returns (r: Result, sent: Call)
    ensures sent == Call("GET", Http(ProjectQuery.AllProjectsUrl(filter)), true, None, map[],
                         AppendAll(GetAllProjectsEntries))
    ensures r == Execute(sent, net)
  {
    var op := Endpoints.Endpoint(Endpoints.GetAllProjects);
    var url := ProjectQuery.BuildAllProjectsUrl(filter);
    var table := AppendAll(GetAllProjectsEntries);
    sent := Call(op.httpMethod, Http(url), true, None, map[], table);
    r := MakeRequest(sent, net);
  }

  /** A project with no field given is still sent, as an empty JSON object. */
  method UpdateProject(token: Option<string>, projectId: Option<string>, project: Option<Project>,
                       net: Exchange)
    returns (r: Result, sent: Option<Call>)
    ensures sent == if Given(token) && Given(projectId) && project.Some? then
                      Some(Call("PUT", Http(Endpoints.ApiRoute + "project/" + projectId.value), true,
                                Some(Collect(ProjectUpdateFields(project.value))),
                                map[AuthorizationHeader := token.value,
                                    ContentTypeHeader := JsonHeaderValue],
                                AppendAll(UpdateProjectEntries)))
                    else None
    ensures sent.None? ==> r == Rejected
    ensures sent.Some? ==> r == Execute(sent.value, net)
  {
    if token.None? || projectId.None? || project.None? || |token.value| == 0
       || |projectId.value| == 0
    {
      return Rejected, None;
    }
    var op := Endpoints.Endpoint(Endpoints.UpdateProject);
    var url := Endpoints.WithId(Endpoints.UpdateProject, projectId.value);
    var body := PutPresent(ProjectUpdateFields(project.value));
    var headers := map[AuthorizationHeader := token.value, ContentTypeHeader := JsonHeaderValue];
    var table := AppendAll(UpdateProjectEntries);
    var call := Call(op.httpMethod, Http(url), true, Some(body), headers, table);
    r := MakeRequest(call, net);
    sent := Some(call);
  }

  method DeleteProject(token: Option<string>, projectId: Option<string>, net: Exchange)
    returns (r: Result, sent: Option<Call>)
    ensures sent == if Given(token) && Given(projectId) then
                      Some(Call("DELETE", Http(Endpoints.ApiRoute + "project/" + projectId.value),
                                true, None, map[AuthorizationHeader := token.value],
                                AppendAll(DeleteProjectEntries)))
                    else None
    ensures sent.None? ==> r == Rejected
    ensures sent.Some? ==> r == Execute(sent.value, net)
  {
    if token.None? || projectId.None? || |token.value| == 0 || |projectId.value| == 0 {
      return Rejected, None;
    }
    var op := Endpoints.Endpoint(Endpoints.DeleteProject);
    var url := Endpoints.WithId(Endpoints.DeleteProject, projectId.value);
    var headers := map[AuthorizationHeader := token.value];
    var table := AppendAll(DeleteProjectEntries);
    var call := Call(op.httpMethod, Http(url), true, None, headers, table);
    r := MakeRequest(call, net);
    sent := Some(call);
  }

  /** The only operation whose table is filled with `put`; the keys come in ascending order. */
  method JoinProject(token: Option<string>, projectId: Option<string>, net: Exchange)
    returns (r: Result, sent: Option<Call>)
    ensures sent == if Given(token) && Given(projectId) then
                      Some(Call("POST", Http(Endpoints.ApiRoute + "project/join/" + projectId.value),
                                true, None, map[AuthorizationHeader := token.value],
                                PutAll(JoinProjectEntries)))
                    else None
    ensures sent.None? ==> r == Rejected
    ensures sent.Some? ==> r == Execute(sent.value, net)
  {
    if token.None? || projectId.None? || |token.value| == 0 || |projectId.value| == 0 {
      return Rejected, None;
    }
    var op := Endpoints.Endpoint(Endpoints.JoinProject);
    var url := Endpoints.WithId(Endpoints.JoinProject, projectId.value);
    var headers := map[AuthorizationHeader := token.value];
    var table := PutAll(JoinProjectEntries);
    var call := Call(op.httpMethod, Http(url), true, None, headers, table);
    r := MakeRequest(call, net);
    sent := Some(call);
  }

  const RequestClassName: string := "com.federlizer.servermiddleware.Request"

  /**
   * The default `Object.toString` of a `Request`: the class name, `@`, and the hash code in
   * lower-case hexadecimal.
   */
  predicate DefaultObjectText(s: string) {
    |s| > |RequestClassName| + 1 && s[..|RequestClassName| + 1] == RequestClassName + "@"
    && forall i :: |RequestClassName| + 1 <= i < |s| ==> s[i] in "0123456789abcdef"
  }

  /**
   * The URL is the endpoint object's own text followed by the id, not its route. That text,
   * `requestText`, is the default `Object.toString` of the endpoint. Its `@` comes before any
   * `:`, so no valid scheme can be read from it, whatever the id: the URL is `NoScheme`.
   */
  method LeaveProject(requestText: string, token: Option<string>, projectId: Option<string>,
                      net: Exchange)
    returns (r: Result, sent: Option<Call>)
    requires DefaultObjectText(requestText)
    ensures sent == if Given(token) && Given(projectId) then
                      Some(Call("POST", NoScheme(requestText + projectId.value), true, None,
                                map[AuthorizationHeader := token.value], AppendAll(LeaveProjectEntries)))
                    else None
    ensures sent.None? ==> r == Rejected
    ensures sent.Some? ==> r == Failure(MalformedUrl, "no protocol: " + requestText + projectId.value)
  {
    if token.None? || projectId.None? || |token.value| == 0 || |projectId.value| == 0 {
      return Rejected, None;
    }
    var op := Endpoints.Endpoint(Endpoints.LeaveProject);
    var headers := map[AuthorizationHeader := token.value];
    var table := AppendAll(LeaveProjectEntries);
    var call := Call(op.httpMethod, NoScheme(requestText + projectId.value), true, None, headers,
                     table);
    r := MakeRequest(call, net);
    sent := Some(call);
  }

  method GetOwnProfile(token: Option<string>, net: Exchange)
    returns (r: Result, sent: Option<Call>)
    ensures sent == if Given(token) then
                      Some(Call("GET", Http(Endpoints.ApiRoute + "profile/"), true, None,
                                map[AuthorizationHeader := token.value], AppendAll(GetOwnProfileEntries)))
                    else None
    ensures sent.None? ==> r == Rejected
    ensures sent.Some? ==> r == Execute(sent.value, net)
  {
    if token.None? || |token.value| == 0 {
      return Rejected, None;
    }
    var op := Endpoints.Endpoint(Endpoints.GetOwnProfile);
    var headers := map[AuthorizationHeader := token.value];
    var table := AppendAll(GetOwnProfileEntries);
    var call := Call(op.httpMethod, Http(op.route), true, None, headers, table);
    r := MakeRequest(call, net);
    sent := Some(call);
  }

  /** No token is needed and no headers are sent. */
  method GetProfileByAccountId(accountId: Option<string>, net: Exchange)
    returns (r: Result, sent: Option<Call>)
    ensures sent == if Given(accountId) then
                      Some(Call("GET", Http(Endpoints.ApiRoute + "profile/" + accountId.value), true,
                                None, map[], AppendAll(GetProfileByAccountIdEntries)))
                    else None
    ensures sent.None? ==> r == Rejected
    ensures sent.Some? ==> r == Execute(sent.value, net)
  {
    if accountId.None? || |accountId.value| == 0 {
      return Rejected, None;
    }
    var op := Endpoints.Endpoint(Endpoints.GetProfileByAccountId);
    var url := Endpoints.WithId(Endpoints.GetProfileByAccountId, accountId.value);
    var table := AppendAll(GetProfileByAccountIdEntries);
    var call := Call(op.httpMethod, Http(url), true, None, map[], table);
    r := MakeRequest(call, net);
    sent := Some(call);
  }

  method CreateOwnProfile(token: Option<string>, profile: Option<Profile>, net: Exchange)
    returns (r: Result, sent: Option<Call>)
    ensures sent == if Given(token) && profile.Some? then
                      Some(Call("POST", Http(Endpoints.ApiRoute + "profile/"), true,
                                Some(Collect(ProfileFields(profile.value))),
                                map[ContentTypeHeader := JsonHeaderValue,
                                    AuthorizationHeader := token.value],
                                AppendAll(CreateOwnProfileEntries)))
                    else None
    ensures sent.None? ==> r == Rejected
    ensures sent.Some? ==> r == Execute(sent.value, net)
  {
    if token.None? || |token.value| == 0 || profile.None? {
      return Rejected, None;
    }
    var op := Endpoints.Endpoint(Endpoints.CreateOwnProfile);
    var body := PutPresent(ProfileFields(profile.value));
    var headers := map[ContentTypeHeader := JsonHeaderValue, AuthorizationHeader := token.value];
    var table := AppendAll(CreateOwnProfileEntries);
    var call := Call(op.httpMethod, Http(op.route), true, Some(body), headers, table);
    r := MakeRequest(call, net);
    sent := Some(call);
  }

  /** The two 404 entries leave a one-entry table holding the second message. */
  method UpdateOwnProfile(token: Option<string>, profile: Option<Profile>, net: Exchange)
    returns (r: Result, sent: Option<Call>)
    ensures sent == if Given(token) && profile.Some? then
                      Some(Call("PUT", Http(Endpoints.ApiRoute + "profile/"), true,
                                Some(Collect(ProfileFields(profile.value))),
                                map[ContentTypeHeader := JsonHeaderValue,
                                    AuthorizationHeader := token.value],
                                AppendAll(UpdateOwnProfileEntries)))
                    else None
    ensures sent.None? ==> r == Rejected
    ensures sent.Some? ==> r == Execute(sent.value, net)
  {
    if token.None? || |token.value| == 0 || profile.None? {
      return Rejected, None;
    }
    var op := Endpoints.Endpoint(Endpoints.UpdateOwnProfile);
    var body := PutPresent(ProfileFields(profile.value));
    var headers := map[ContentTypeHeader := JsonHeaderValue, AuthorizationHeader := token.value];
    var table := AppendAll(UpdateOwnProfileEntries);
    var call := Call(op.httpMethod, Http(op.route), true, Some(body), headers, table);
    r := MakeRequest(call, net);
    sent := Some(call);
  }
}
