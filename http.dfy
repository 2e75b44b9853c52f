/**
 * The behaviour of net/http's ResponseWriter that the handler depends on.
 * The status line is fixed by the first WriteHeader; the server ignores
 * later calls and logs each as superfluous. Writing a body without a prior
 * WriteHeader commits 200 first.
 */
module Http {

  const StatusOK := 200
  const StatusBadRequest := 400
  const StatusInternalServerError := 500

  class ResponseWriter<T> {
    var wroteHeader: bool
    var status: int
    /** The values encoded into the response body, in order. */
    var body: seq<T>
    /**
     * WriteHeader calls that came after the status was fixed and so had no
     * effect.
     */
    var superfluous: nat

    constructor ()
      ensures !wroteHeader && status == 0 && body == [] && superfluous == 0
    {
      wroteHeader := false;
      status := 0;
      body := [];
      superfluous := 0;
    }

    /** The status the client receives; a handler that writes nothing gets 200. */
    function Status(): int
      reads this
    {
      if wroteHeader then status else StatusOK
    }

    /** Sets the status if none is set yet; otherwise has no effect on it. */
    method WriteHeader(code: int)
      requires 200 <= code <= 999
      modifies this
      ensures wroteHeader
      ensures status == if old(wroteHeader) then old(status) else code
      ensures superfluous == old(superfluous) + (if old(wroteHeader) then 1 else 0)
      ensures body == old(body)
    {
      if wroteHeader {
        superfluous := superfluous + 1;
      } else {
        wroteHeader := true;
        status := code;
      }
    }

    /**
     * json.NewEncoder(w).Encode(v): the write commits the status (200 if
     * none was set) and, when it goes through (`delivered`), appends v to
     * the body. Returns whether it failed.
     */
    method Encode(v: T, delivered: bool) returns (failed: bool)
      modifies this
      ensures failed == !delivered
      ensures wroteHeader
      ensures status == if old(wroteHeader) then old(status) else StatusOK
      ensures superfluous == old(superfluous)
      ensures body == if delivered then old(body) + [v] else old(body)
    {
      if !wroteHeader {
        wroteHeader := true;
        status := StatusOK;
      }
      if delivered {
        body := body + [v];
      }
      failed := !delivered;
    }
  }
}
