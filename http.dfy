/** The part of net/http the handlers use: a response writer and the JSON envelope. */
module Http {
  import opened Wrappers

  const StatusOK: int := 200
  const StatusCreated: int := 201
  const StatusBadRequest: int := 400
  const StatusUnauthorized: int := 401
  const StatusNotFound: int := 404
  const StatusInternalServerError: int := 500

  /** utils.ApiResponse: a message and optional data (nil when absent). */
  datatype ApiResponse<D> = ApiResponse(message: string, data: Option<D>)

  /** What a handler answers: a status code and one envelope. */
  datatype Reply<D> = Reply(status: int, body: ApiResponse<D>)

  /** An http.ResponseWriter that records the status and every body written.
      Status 0 means that no header has been written yet. */
  class ResponseWriter<D(==)> {
    var status: int
    var body: seq<ApiResponse<D>>

    constructor ()
      ensures status == 0 && body == []
    {
      status := 0;
      body := [];
    }

    /** Nothing has been written to this response yet. */
    predicate Unwritten()
      reads this
    {
      status == 0 && body == []
    }

    /** Exactly `reply` has been written. */
    predicate Sent(reply: Reply<D>)
      reads this
    {
      status == reply.status && body == [reply.body]
    }

    /** Only the first WriteHeader call takes effect. */
    method WriteHeader(code: int)
      modifies this
      ensures status == (if old(status) == 0 then code else old(status))
      ensures body == old(body)
    {
      if status == 0 {
        status := code;
      }
    }

    /** A Write before any WriteHeader implies status 200. */
    method Write(b: ApiResponse<D>)
      modifies this
      ensures status == (if old(status) == 0 then StatusOK else old(status))
      ensures body == old(body) + [b]
    {
      if status == 0 {
        status := StatusOK;
      }
      body := body + [b];
    }
  }

  /** `w.WriteHeader(code)` followed by `w.Write(res)`, the closing two lines of every handler branch. */
  method Respond<D(==)>(w: ResponseWriter<D>, reply: Reply<D>)
    requires w.Unwritten() && reply.status != 0
    modifies w
    ensures w.Sent(reply)
  {
    w.WriteHeader(reply.status);
    w.Write(reply.body);
  }
}
