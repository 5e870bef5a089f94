/**
 * The collaborators the middleware talks to: the request it reads, the
 * response it writes, the `next` continuation it may call, the logger it
 * appends to, and the runtime mode taken from `NODE_ENV`.
 */
module Http {
  import opened Json
  import opened ApiErrors

  /** `process.env.NODE_ENV`: None when the variable is unset. */
  type NodeEnv = Option<string>

  predicate IsDevelopment(env: NodeEnv) {
    env == Some("development")
  }

  predicate IsProduction(env: NodeEnv) {
    env == Some("production")
  }

  /** The parts of an Express request the core reads. */
  datatype Request = Request(originalUrl: string, httpMethod: string, body: Value, query: Value, params: Value)

  /** An Express response: whether headers are already on the wire, the
      status last set with `status(...)`, and every body written with
      `json(...)`, in order. */
  class Response {
    var headersSent: bool
    var statusCode: Option<int>
    var bodies: seq<Value>

    constructor (headersSent: bool)
      ensures this.headersSent == headersSent && statusCode == None && bodies == []
    {
      this.headersSent := headersSent;
      statusCode := None;
      bodies := [];
    }

    /** `response.status(code)`. */
    method Status(code: int)
      modifies this
      ensures statusCode == Some(code)
      ensures headersSent == old(headersSent) && bodies == old(bodies)
    {
      statusCode := Some(code);
    }

    /** `response.json(body)`: writes the body, which commits the headers. */
    method Json(body: Value)
      modifies this
      ensures bodies == old(bodies) + [body]
      ensures headersSent && statusCode == old(statusCode)
    {
      bodies := bodies + [body];
      headersSent := true;
    }
  }

  /** The `next` continuation: every call, None standing for `next()` with
      no argument. */
  class Next {
    var calls: seq<Option<Thrown>>

    constructor ()
      ensures calls == []
    {
      calls := [];
    }

    method Call(arg: Option<Thrown>)
      modifies this
      ensures calls == old(calls) + [arg]
    {
      calls := calls + [arg];
    }
  }

  /** The logger, seen as the sequence of records passed to `logger.error`. */
  class Logger {
    var records: seq<Value>

    constructor ()
      ensures records == []
    {
      records := [];
    }

    method Error(record: Value)
      modifies this
      ensures records == old(records) + [record]
    {
      records := records + [record];
    }
  }
}
