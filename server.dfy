/**
 * The running server: the process-wide redirection table `pathsToUrls`, updated in
 * place by the creation handler and read by the redirect handler. Requests are
 * handled one at a time.
 */
module Server {
  import opened Json
  import opened Http
  import Handlers

  class Shortener {
    /** Short key to resource URL; starts empty and only ever grows or is overwritten. */
    var pathsToUrls: map<string, string>

    constructor ()
      ensures pathsToUrls == map[]
    {
      pathsToUrls := map[];
    }

    /** Inserts or overwrites the entry for `key`; every other entry is kept. */
    method Put(key: string, resource: string)
      modifies this
      ensures pathsToUrls == old(pathsToUrls)[key := resource]
    {
      pathsToUrls := pathsToUrls[key := resource];
    }

    /** The comma-ok read of the map: the stored resource and `true`, or `""` and `false`. */
    method Get(path: string) returns (resource: string, found: bool)
      ensures found <==> path in pathsToUrls
      ensures found ==> resource == pathsToUrls[path]
      ensures !found ==> resource == ""
    {
      found := path in pathsToUrls;
      resource := if found then pathsToUrls[path] else "";
    }

    /** `createRedirection`: the store changes only when every check passes. */
    method CreateRedirection(contentType: string, body: Body) returns (resp: Response)
      modifies this
      ensures Handlers.Outcome(resp, pathsToUrls) == Handlers.CreateRedirection(contentType, body, old(pathsToUrls))
    {
      if contentType != "" {
        if contentType != Handlers.JsonContentType {
          resp := Error(Handlers.ContentTypeMsg, StatusBadRequest);
          return;
        }
      } else {
        resp := Error(Handlers.ContentTypeMsg, StatusBadRequest);
        return;
      }
      if body.first.Failed? {
        resp := Handlers.ClassifyDecodeError(body.first.err);
        return;
      }
      var redirection := body.first.value;
      if body.second != EndOfInput {
        resp := Error(Handlers.SingleObjectMsg, StatusBadRequest);
        return;
      }
      Put(redirection.shortKey, redirection.resource);
      resp := Written(StatusOK, "");
    }

    /** The catch-all route: redirect to the stored resource or write "Not found". */
    method Redirect(path: string) returns (resp: Response)
      ensures resp == Handlers.Lookup(path, pathsToUrls)
      ensures resp.Redirected? <==> path in pathsToUrls
    {
      var resource, found := Get(path);
      if found {
        resp := Redirected(StatusSeeOther, resource);
      } else {
        resp := Written(StatusOK, Handlers.NotFoundBody);
      }
    }

    /** Dispatches a request to one of the two routes. */
    method Handle(req: Request) returns (resp: Response)
      modifies this
      ensures Handlers.Outcome(resp, pathsToUrls) == Handlers.Serve(req, old(pathsToUrls))
    {
      if req.path == Handlers.CreatePath {
        if req.verb == MethodPost {
          resp := CreateRedirection(req.contentType, req.body);
        } else {
          resp := Error(Handlers.NotAllowedMsg, StatusBadRequest);
        }
      } else {
        resp := Redirect(req.path);
      }
    }
  }
}
