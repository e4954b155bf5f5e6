/**
 * The collaborators of the file provider, reduced to what it observes: an HTTP
 * client whose n-th request receives a fixed n-th response, and a session
 * manager that issues service tickets.
 */
module Http {
  import opened Wrappers

  type Bytes = seq<bv8>

  /** A header value: a string, or the integer that `Content-Length` is set to. */
  datatype HeaderValue = StringHeader(s: string) | IntegerHeader(n: nat)

  type Headers = map<string, HeaderValue>

  /** A request as the client receives it; a nil body is `None`. */
  datatype Request =
    | Get(url: string, headers: Headers)
    | Post(url: string, body: Option<Bytes>, headers: Headers)
    | Put(url: string, body: Option<Bytes>, headers: Headers)

  datatype Response = Response(code: nat, body: Bytes)

  class HttpClient {
    /** Every request received, in order. */
    var sent: seq<Request>
    /** The response to the n-th request (counting from 0). */
    const reply: nat -> Response

    constructor (reply: nat -> Response)
      ensures sent == [] && this.reply == reply
    {
      sent := [];
      this.reply := reply;
    }

    method Send(request: Request) returns (response: Response)
      modifies this
      ensures sent == old(sent) + [request]
      ensures response == reply(|old(sent)|)
    {
      response := reply(|sent|);
      sent := sent + [request];
    }
  }

  /** The `HttpServiceRequestSpec` a ticket is requested for: a URL and an HTTP method name. */
  datatype TicketRequest = TicketRequest(url: string, httpMethod: string)

  datatype Ticket = Ticket(id: string)

  class SessionManager {
    /** Every ticket request received, in order. */
    var requested: seq<TicketRequest>
    /** The id of the n-th ticket issued. */
    const ticketId: nat -> string

    constructor (ticketId: nat -> string)
      ensures requested == [] && this.ticketId == ticketId
    {
      requested := [];
      this.ticketId := ticketId;
    }

    method AcquireGenericServiceTicket(spec: TicketRequest) returns (ticket: Ticket)
      modifies this
      ensures requested == old(requested) + [spec]
      ensures ticket == Ticket(ticketId(|old(requested)|))
    {
      ticket := Ticket(ticketId(|requested|));
      requested := requested + [spec];
    }
  }
}
