/** The call into the REST helper `make_api_request`: its arguments as a
    record, and the helper itself as a client that sends one request per
    call and hands back whatever the remote platform answers. */
module Transport {
  import opened Json

  datatype HttpMethod = GET | POST | PUT | DELETE

  /** The arguments of one `make_api_request(method, path, params=..., data=...)`
      call (`verb` is its method); `Null` stands for an argument left at its
      default `None`. */
  datatype Request = Request(verb: HttpMethod, path: string, params: JsonValue, data: JsonValue)

  /** The helper, seen from its callers. `sent` is every request issued so
      far, oldest first. What the platform answers is not modelled: `remote`
      gives the answer (a decoded JSON value, or the message of the raised
      error) for a request, given everything sent before it. */
  class Client {
    var sent: seq<Request>
    const remote: (seq<Request>, Request) -> Result

    constructor (remote: (seq<Request>, Request) -> Result)
      ensures sent == [] && this.remote == remote
    {
      this.remote := remote;
      sent := [];
    }

    /** One outbound request; its answer is returned unchanged. */
    method MakeApiRequest(req: Request) returns (r: Result)
      modifies this
      ensures sent == old(sent) + [req]
      ensures r == remote(old(sent), req)
    {
      r := remote(sent, req);
      sent := sent + [req];
    }
  }
}
