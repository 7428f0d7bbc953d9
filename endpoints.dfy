/** The fixed table of (HTTP method, route) pairs, one per operation. */
module Endpoints {

  const ApiRoute: string := "http://developool.com/api/"

  /** An endpoint: the HTTP method and the route the request is sent to. */
  datatype Request = Request(httpMethod: string, route: string)

  datatype Operation =
    | Authenticate
    | Register
    | CreateNewProject
    | GetOwnProjects
    | GetProjectById
    | GetAllProjects
    | UpdateProject
    | DeleteProject
    | JoinProject
    | LeaveProject
    | GetOwnProfile
    | GetProfileByAccountId
    | CreateOwnProfile
    | UpdateOwnProfile

  /** The route suffix below ApiRoute and the method of each operation. */
  function Endpoint(op: Operation): (r: Request)
    ensures r.httpMethod in {"GET", "POST", "PUT", "DELETE"}
    ensures |r.route| > |ApiRoute| && r.route[..|ApiRoute|] == ApiRoute
    ensures r.route[|r.route| - 1] == '/'
  {
    match op
    case Authenticate          => Request("POST", ApiRoute + "auth/")
    case Register              => Request("POST", ApiRoute + "register/")
    case CreateNewProject      => Request("POST", ApiRoute + "project/")
    case GetOwnProjects        => Request("GET", ApiRoute + "accounts/projects/")
    case GetProjectById        => Request("GET", ApiRoute + "project/")
    case GetAllProjects        => Request("GET", ApiRoute + "project/")
    case UpdateProject         => Request("PUT", ApiRoute + "project/")
    case DeleteProject         => Request("DELETE", ApiRoute + "project/")
    case JoinProject           => Request("POST", ApiRoute + "project/join/")
    case LeaveProject          => Request("POST", ApiRoute + "project/leave/")
    case GetOwnProfile         => Request("GET", ApiRoute + "profile/")
    case GetProfileByAccountId => Request("GET", ApiRoute + "profile/")
    case CreateOwnProfile      => Request("POST", ApiRoute + "profile/")
    case UpdateOwnProfile      => Request("PUT", ApiRoute + "profile/")
  }

  /** The URL of an id-taking operation: the route followed by the id as its last path segment. */
  function WithId(op: Operation, id: string): (url: string)
    ensures |url| == |Endpoint(op).route| + |id|
    ensures url[..|Endpoint(op).route|] == Endpoint(op).route
    ensures url[|Endpoint(op).route|..] == id
  {
    Endpoint(op).route + id
  }
}
