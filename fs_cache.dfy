/**
 * The filesystem cache both app states keep: the current and default paths,
 * the pending directory listing and the pending default-path request, with
 * the once-per-frame step that adopts the backend's default path
 * (src/common_data.rs `update`, duplicated in src/app.rs `update`).
 */
module FsCache {
  import opened Wrappers
  import opened BackendTalk

  datatype Paths = Paths(
    currentPath: string,
    defaultPath: string,
    fsListPromise: Option<Promise<ListResponse>>,
    dPathPromise: Option<Promise<PathMessage>>)

  /** At startup both paths are "/", and a listing of "/" and the default path are requested. */
  function Startup(): (p: Paths)
    ensures p.currentPath == "/" && p.defaultPath == "/"
    ensures p.fsListPromise.Some? && p.fsListPromise.value.poll.Pending?
    ensures p.fsListPromise.value.request == ListRequest(PathMessage("/"))
    ensures p.dPathPromise.Some? && p.dPathPromise.value.poll.Pending?
    ensures p.dPathPromise.value.request == DefaultPathRequest
  {
    Paths("/", "/", Some(RequestList("/")), Some(RequestDefaultPath()))
  }

  predicate DefaultPathFailed(p: Paths) {
    p.dPathPromise.Some? && p.dPathPromise.value.poll.Ready? && p.dPathPromise.value.poll.result.Failure?
  }

  /**
   * The default-path step. `None` is the panic of `unwrap` on a failed call;
   * a ready path becomes both the current and the default path and is listed.
   */
  function ResolveDefaultPath(p: Paths): (r: Option<Paths>)
    ensures r.None? <==> DefaultPathFailed(p)
    ensures p.dPathPromise.Some? && p.dPathPromise.value.poll.Ready? && r.Some? ==>
      var path := p.dPathPromise.value.poll.result.value.path;
      && r.value.currentPath == path && r.value.defaultPath == path
      && r.value.fsListPromise == Some(RequestList(path))
      && r.value.dPathPromise.None?
    ensures (p.dPathPromise.None? || p.dPathPromise.value.poll.Pending?) ==> r == Some(p)
  {
    if p.dPathPromise.Some? && p.dPathPromise.value.poll.Ready? then
      match p.dPathPromise.value.poll.result
      case Failure(_) => None
      case Success(m) => Some(Paths(m.path, m.path, Some(RequestList(m.path)), None))
    else Some(p)
  }

  /** Once adopted, the default path is not adopted again: a second step changes nothing. */
  lemma ResolveSettles(p: Paths)
    requires !DefaultPathFailed(p)
    ensures ResolveDefaultPath(ResolveDefaultPath(p).value) == ResolveDefaultPath(p)
  {
  }
}
