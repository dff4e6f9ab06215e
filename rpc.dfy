/** The XML-RPC client as the driver sees it: a call either returns a decoded
    reply or an error. The remote service is an oracle: a finite script of
    replies, consumed one per call, and a log of the requests sent. When the
    script runs out, the call never returns within it (verdict `Hang`). */
module Rpc {
  import opened Wire

  datatype Option<T> = None | Some(value: T)
  {
    function GetOr(default: T): T
    {
      match this
      case Some(v) => v
      case None => default
    }
  }

  /** Every error the driver can return (or, for `IndexOutOfRange`, the Go
      runtime panic it can raise) */
  datatype Error =
    | CallFailed(message: string)                 // a fault or transport error of the XML-RPC call
    | Undecodable(procedure: string)              // a reply that does not decode into the expected result type
    | NotFound(what: string)                      // "Vm not found", "Datacenter not found", "Image not found"
    | BadOperationStatus(op: int, status: string) // "Bad operation status for <op> : <status>"
    | MissingApiKey                               // "gandi driver requires the -gandi-api-key option"
    | IpNotSet                                    // "IP address is not set"
    | SshKeyFailed(message: string)               // key generation or reading the public key failed
    | IndexOutOfRange(index: int, length: int)    // a Go runtime panic on a slice index

  /** The Go pair (value, error) */
  datatype Result<T> = Success(value: T) | Failure(error: Error)

  /** How an operation ends on a given script: it returns a value, returns an
      error, or has not returned when the script runs out */
  datatype Verdict<T> = Ok(value: T) | Fail(error: Error) | Hang

  /** An operation's verdict, the requests it sent in order, and the replies left over */
  datatype Run<T> = Run(verdict: Verdict<T>, sent: seq<Request>, rest: seq<Reply>)

  /** Each request consumes exactly one reply of the script, except a last,
      unanswered request when the script runs out */
  predicate Accounted<T>(replies: seq<Reply>, r: Run<T>)
  {
    if r.verdict.Hang? then r.rest == [] && |r.sent| == |replies| + 1
    else |r.sent| <= |replies| && r.rest == replies[|r.sent|..]
  }

  /** The verdict of an operation that stops at a failure (or a hang) of one of its steps */
  function Abort<A, B>(v: Verdict<A>): (w: Verdict<B>)
    requires !v.Ok?
    ensures w.Hang? == v.Hang? && (v.Fail? ==> w == Fail(v.error))
  {
    if v.Hang? then Hang else Fail(v.error)
  }

  /** A run that stops at its first step, which did not return a value */
  function Propagate<A, B>(r: Run<A>): (p: Run<B>)
    requires !r.verdict.Ok?
    ensures p.sent == r.sent && p.rest == r.rest && !p.verdict.Ok?
    ensures forall replies :: Accounted(replies, r) ==> Accounted(replies, p)
  {
    Run(Abort(r.verdict), r.sent, r.rest)
  }

  /** The run of step `b` on what step `a` left, after `a` */
  function Chain<A, B>(ghost replies: seq<Reply>, a: Run<A>, b: Run<B>): (r: Run<B>)
    requires Accounted(replies, a) && !a.verdict.Hang? && Accounted(a.rest, b)
    ensures Accounted(replies, r)
    ensures r.verdict == b.verdict && r.sent == a.sent + b.sent && r.rest == b.rest
  {
    Run(b.verdict, a.sent + b.sent, b.rest)
  }

  /** One call: the next reply of the script, a fault turned into an error,
      a reply of the wrong shape refused */
  function Exchange(req: Request, replies: seq<Reply>): (r: Run<Reply>)
    ensures Accounted(replies, r) && r.sent == [req]
    ensures r.verdict.Hang? <==> replies == []
    ensures r.verdict.Ok? <==> replies != [] && !replies[0].Fault? && Fits(req.call, replies[0])
    ensures r.verdict.Ok? ==> r.verdict.value == replies[0]
    ensures replies != [] && replies[0].Fault? ==> r.verdict == Fail(CallFailed(replies[0].message))
  {
    if replies == [] then Run(Hang, [req], [])
    else if replies[0].Fault? then Run(Fail(CallFailed(replies[0].message)), [req], replies[1..])
    else if !Fits(req.call, replies[0]) then Run(Fail(Undecodable(ProcedureName(req.call))), [req], replies[1..])
    else Run(Ok(replies[0]), [req], replies[1..])
  }

  lemma AppendAssoc<T>(a: seq<T>, b: seq<T>, c: seq<T>)
    ensures a + b + c == a + (b + c)
  {
  }

  /** The remote service */
  class Api {
    var replies: seq<Reply>
    var sent: seq<Request>

    constructor (script: seq<Reply>)
      ensures replies == script && sent == []
    {
      replies := script;
      sent := [];
    }

    method Call(req: Request) returns (v: Verdict<Reply>)
      modifies this
      ensures var r := Exchange(req, old(replies));
              v == r.verdict && sent == old(sent) + r.sent && replies == r.rest
    {
      sent := sent + [req];
      if replies == [] {
        return Hang;
      }
      var reply := replies[0];
      replies := replies[1..];
      if reply.Fault? {
        v := Fail(CallFailed(reply.message));
      } else if !Fits(req.call, reply) {
        v := Fail(Undecodable(ProcedureName(req.call)));
      } else {
        v := Ok(reply);
      }
    }
  }

  /** The state of `api` is what run `r` leaves after the requests `before`,
      and `v` is the run's verdict */
  ghost predicate Performs<T>(api: Api, before: seq<Request>, v: Verdict<T>, r: Run<T>)
    reads api
  {
    v == r.verdict && api.sent == before + r.sent && api.replies == r.rest
  }
}
