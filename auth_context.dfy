/**
 * The session provider of the web client (frontend/contexts/auth-context.tsx):
 * the token and loading flag in React state, the `token` entry of
 * `localStorage`, and the router's navigations.
 *
 * The verification request is outside the model: each operation that makes
 * it takes the server's answer as a parameter.
 */
module AuthContext {
  import opened Wrappers

  /**
   * `string | null`: `None` is `null` (signed out); the provider starts from
   * `Some("")`, a falsy value meaning "not known yet"; any other value is a
   * token the server accepted.
   */
  type Token = Option<string>

  /** JavaScript truthiness of a token: present and non-empty. */
  predicate Truthy(t: Token) {
    t.Some? && t.value != ""
  }

  /** An HTTP error response as axios reports it. */
  datatype HttpResponse = HttpResponse(status: int, detail: string)

  /** The outcome of `POST /auth/verify`. */
  datatype VerifyReply =
    | Accepted
    | AxiosRejected(response: Option<HttpResponse>)
    | OtherFailure(message: string)

  /** What `verifyToken` throws on: the response of an axios error, else the error itself. */
  datatype Thrown = ThrownResponse(response: Option<HttpResponse>) | ThrownError(message: string)

  function Rethrown(reply: VerifyReply): (t: Thrown)
    requires !reply.Accepted?
    ensures reply.AxiosRejected? <==> t.ThrownResponse?
    ensures reply.AxiosRejected? ==> t.response == reply.response
    ensures reply.OtherFailure? ==> t.message == reply.message
  {
    match reply
    case AxiosRejected(response) => ThrownResponse(response)
    case OtherFailure(message) => ThrownError(message)
  }

  class AuthProvider {
    /** `useState<string | null>("")` */
    var token: Token
    /** `useState(true)` */
    var isLoading: bool
    /** `localStorage.getItem('token')`, kept across page loads. */
    var stored: Option<string>
    /** The paths passed to `router.push`, in order. */
    var navigations: seq<string>

    /** A fresh provider over whatever `localStorage` already holds. */
    constructor (persisted: Option<string>)
      ensures token == Some("") && isLoading
      ensures stored == persisted && navigations == []
    {
      token := Some("");
      isLoading := true;
      stored := persisted;
      navigations := [];
    }

    /**
     * `verifyToken`: on acceptance the token is set and stored; on refusal the
     * stored token is removed, the token becomes `null` and the failure is
     * rethrown. Either way loading ends.
     */
    method VerifyToken(t: string, reply: VerifyReply) returns (thrown: Option<Thrown>)
      modifies this`token, this`stored, this`isLoading
      ensures reply.Accepted? ==> thrown.None? && token == Some(t) && stored == Some(t)
      ensures !reply.Accepted? ==> thrown == Some(Rethrown(reply)) && token.None? && stored.None?
      ensures !isLoading
    {
      if reply.Accepted? {
        token := Some(t);
        stored := Some(t);
        thrown := None;
      } else {
        stored := None;
        token := None;
        thrown := Some(Rethrown(reply));
      }
      isLoading := false;
    }

    /**
     * The mount effect: a stored (truthy) token goes through `verifyToken`,
     * whose rejection nobody catches; with none stored the session is signed
     * out at once. `reply` answers the verification when one is made.
     */
    method Startup(reply: VerifyReply)
      modifies this`token, this`stored, this`isLoading
      ensures Truthy(old(stored)) && reply.Accepted? ==> token == old(stored) && stored == old(stored)
      ensures Truthy(old(stored)) && !reply.Accepted? ==> token.None? && stored.None?
      ensures !Truthy(old(stored)) ==> token.None? && stored == old(stored)
      ensures !isLoading
    {
      if stored.Some? && stored.value != "" {
        var _ := VerifyToken(stored.value, reply);
      } else {
        token := None;
        isLoading := false;
      }
    }

    /**
     * `login`: navigates to `/` only once verification succeeded; a refusal
     * propagates before any navigation.
     */
    method Login(t: string, reply: VerifyReply) returns (thrown: Option<Thrown>)
      modifies this`token, this`stored, this`isLoading, this`navigations
      ensures thrown.None? <==> reply.Accepted?
      ensures reply.Accepted? ==> token == Some(t) && stored == Some(t) && navigations == old(navigations) + ["/"]
      ensures !reply.Accepted? ==> thrown == Some(Rethrown(reply)) && token.None? && stored.None? && navigations == old(navigations)
      ensures !isLoading
    {
      thrown := VerifyToken(t, reply);
      if thrown.None? {
        navigations := navigations + ["/"];
      }
    }

    /** `logout`: forget the stored token, sign out and go to `/login`. */
    method Logout()
      modifies this`token, this`stored, this`navigations
      ensures stored.None? && token.None?
      ensures navigations == old(navigations) + ["/login"]
    {
      stored := None;
      token := None;
      navigations := navigations + ["/login"];
    }
  }
}
