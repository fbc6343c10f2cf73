/** The client's profile state (client/src/features/user/userSlice.js): the
    error-message fallback, the four profile requests with their no-token
    guard, and the reducers. A request's network round trip is a parameter:
    the reply it would get. */
module UserSlice {
  import opened Common

  /** The parts of an axios error the client reads. */
  datatype ErrorData = ErrorData(message: Option<string>, error: Option<string>)
  datatype ErrorResponse = ErrorResponse(data: Option<ErrorData>)
  datatype RequestError = RequestError(response: Option<ErrorResponse>, message: Option<string>)

  /** A request's outcome: the reply's data, or the error it threw. */
  datatype Http<T> = Success(data: T) | Failure(error: RequestError)

  function DataMessage(e: RequestError): Option<string> {
    if e.response.Some? && e.response.value.data.Some? then e.response.value.data.value.message else None
  }

  function DataError(e: RequestError): Option<string> {
    if e.response.Some? && e.response.value.data.Some? then e.response.value.data.value.error else None
  }

  const FALLBACK_ERROR: string := "An unexpected error occurred"

  /** getErrorMessage: the first truthy of the server's message, the server's
      error, the error's own message, and a fixed text; never empty. */
  function GetErrorMessage(e: RequestError): (r: string)
    ensures r != ""
    ensures Truthy(DataMessage(e)) ==> r == DataMessage(e).value
    ensures !Truthy(DataMessage(e)) && Truthy(DataError(e)) ==> r == DataError(e).value
    ensures !Truthy(DataMessage(e)) && !Truthy(DataError(e)) && Truthy(e.message) ==> r == e.message.value
    ensures !Truthy(DataMessage(e)) && !Truthy(DataError(e)) && !Truthy(e.message) ==> r == FALLBACK_ERROR
  {
    OrElse(Or(Or(DataMessage(e), DataError(e)), e.message), FALLBACK_ERROR)
  }

  /** The actions a request dispatches into the authentication state. */
  datatype AuthAction = UpdateAuthUser(payload: JsonObject) | Logout

  /** How a request settles, which auth actions it dispatched, and whether a
      network request was sent at all. */
  datatype Settled<T> = Fulfilled(value: T) | Rejected(message: string)
  datatype Outcome<T> = Outcome(result: Settled<T>, dispatched: seq<AuthAction>, requested: bool)

  const NO_TOKEN: string := "No authentication token found"

  /** `authUser?.token` is truthy. */
  function HasToken(authUser: Option<JsonObject>): (r: bool)
    ensures r <==> authUser.Some? && "token" in authUser.value && authUser.value["token"] != ""
  {
    authUser.Some? && Truthy(Get(authUser.value, "token"))
  }

  /** getUserProfile: the profile read from the server. */
  function GetUserProfile(authUser: Option<JsonObject>, reply: Http<JsonObject>): (r: Outcome<JsonObject>)
    ensures !HasToken(authUser) ==> r == Outcome(Rejected(NO_TOKEN), [], false)
    ensures HasToken(authUser) ==> r.requested && r.dispatched == []
    ensures HasToken(authUser) && reply.Success? ==> r.result == Fulfilled(reply.data)
    ensures HasToken(authUser) && reply.Failure? ==> r.result == Rejected(GetErrorMessage(reply.error))
  {
    if !HasToken(authUser) then Outcome(Rejected(NO_TOKEN), [], false)
    else match reply
      case Success(data) => Outcome(Fulfilled(data), [], true)
      case Failure(err) => Outcome(Rejected(GetErrorMessage(err)), [], true)
  }

  /** updateUserProfile: on success the reply is also merged into the auth user. */
  function UpdateUserProfile(authUser: Option<JsonObject>, reply: Http<JsonObject>): (r: Outcome<JsonObject>)
    ensures !HasToken(authUser) ==> r == Outcome(Rejected(NO_TOKEN), [], false)
    ensures HasToken(authUser) && reply.Success? ==>
      r == Outcome(Fulfilled(reply.data), [UpdateAuthUser(reply.data)], true)
    ensures HasToken(authUser) && reply.Failure? ==>
      r == Outcome(Rejected(GetErrorMessage(reply.error)), [], true)
  {
    if !HasToken(authUser) then Outcome(Rejected(NO_TOKEN), [], false)
    else match reply
      case Success(data) => Outcome(Fulfilled(data), [UpdateAuthUser(data)], true)
      case Failure(err) => Outcome(Rejected(GetErrorMessage(err)), [], true)
  }

  /** changePassword: fulfils with the server's message, or a fixed text when it has none. */
  function ChangePassword(authUser: Option<JsonObject>, reply: Http<Option<string>>): (r: Outcome<string>)
    ensures !HasToken(authUser) ==> r == Outcome(Rejected(NO_TOKEN), [], false)
    ensures HasToken(authUser) && reply.Success? ==>
      r == Outcome(Fulfilled(OrElse(reply.data, "Password changed successfully")), [], true)
    ensures HasToken(authUser) && reply.Failure? ==>
      r == Outcome(Rejected(GetErrorMessage(reply.error)), [], true)
  {
    if !HasToken(authUser) then Outcome(Rejected(NO_TOKEN), [], false)
    else match reply
      case Success(message) => Outcome(Fulfilled(OrElse(message, "Password changed successfully")), [], true)
      case Failure(err) => Outcome(Rejected(GetErrorMessage(err)), [], true)
  }

  /** deleteAccount: on success the user is logged out. */
  function DeleteAccount(authUser: Option<JsonObject>, reply: Http<()>): (r: Outcome<string>)
    ensures !HasToken(authUser) ==> r == Outcome(Rejected(NO_TOKEN), [], false)
    ensures HasToken(authUser) && reply.Success? ==>
      r == Outcome(Fulfilled("Account deleted successfully"), [Logout], true)
    ensures HasToken(authUser) && reply.Failure? ==>
      r == Outcome(Rejected(GetErrorMessage(reply.error)), [], true)
  {
    if !HasToken(authUser) then Outcome(Rejected(NO_TOKEN), [], false)
    else match reply
      case Success(_) => Outcome(Fulfilled("Account deleted successfully"), [Logout], true)
      case Failure(err) => Outcome(Rejected(GetErrorMessage(err)), [], true)
  }

  /** Without a token every request rejects with the same message whatever
      the server would have answered, and none is sent. */
  lemma NoTokenNoRequest(authUser: Option<JsonObject>, p1: Http<JsonObject>, p2: Http<JsonObject>,
                         c1: Http<Option<string>>, c2: Http<Option<string>>, d1: Http<()>, d2: Http<()>)
    requires !HasToken(authUser)
    ensures GetUserProfile(authUser, p1) == GetUserProfile(authUser, p2)
    ensures UpdateUserProfile(authUser, p1) == UpdateUserProfile(authUser, p2)
    ensures ChangePassword(authUser, c1) == ChangePassword(authUser, c2)
    ensures DeleteAccount(authUser, d1) == DeleteAccount(authUser, d2)
    ensures !GetUserProfile(authUser, p1).requested && !DeleteAccount(authUser, d1).requested
  {
  }

  /** A rejection's message is never empty. */
  lemma RejectionsHaveMessages(authUser: Option<JsonObject>, p: Http<JsonObject>)
    ensures GetUserProfile(authUser, p).result.Rejected? ==> GetUserProfile(authUser, p).result.message != ""
  {
  }

  datatype UserView = UserView(
    profile: Option<JsonObject>, isLoading: bool, isError: bool, isSuccess: bool, message: string)

  const INITIAL: UserView := UserView(None, false, false, false, "")

  class UserState {
    var profile: Option<JsonObject>
    var isLoading: bool
    var isError: bool
    var isSuccess: bool
    var message: string

    ghost function View(): UserView
      reads this
    {
      UserView(profile, isLoading, isError, isSuccess, message)
    }

    constructor ()
      ensures View() == INITIAL
    {
      profile, isLoading, isError, isSuccess, message := None, false, false, false, "";
    }

    /** reset: back to the initial state. */
    method Reset()
      modifies this
      ensures View() == INITIAL
    {
      profile, isLoading, isError, isSuccess, message := None, false, false, false, "";
    }

    /** getUserProfile.pending also clears the previous outcome. */
    method GetProfilePending()
      modifies this
      ensures View() == old(View()).(isLoading := true, isError := false, isSuccess := false, message := "")
    {
      isLoading := true;
      isError := false;
      isSuccess := false;
      message := "";
    }

    /** updateUserProfile.pending, changePassword.pending and deleteAccount.pending. */
    method OtherPending()
      modifies this
      ensures View() == old(View()).(isLoading := true)
    {
      isLoading := true;
    }

    /** getUserProfile.fulfilled and updateUserProfile.fulfilled. */
    method ProfileFulfilled(payload: JsonObject)
      modifies this
      ensures View() == old(View()).(isLoading := false, isSuccess := true, profile := Some(payload))
    {
      isLoading := false;
      isSuccess := true;
      profile := Some(payload);
    }

    /** changePassword.fulfilled: the message only; the profile is untouched. */
    method ChangePasswordFulfilled(payload: string)
      modifies this
      ensures View() == old(View()).(isLoading := false, isSuccess := true, message := payload)
    {
      isLoading := false;
      isSuccess := true;
      message := payload;
    }

    /** deleteAccount.fulfilled: the profile is gone. */
    method DeleteAccountFulfilled(payload: string)
      modifies this
      ensures View() == old(View()).(isLoading := false, isSuccess := true, message := payload, profile := None)
    {
      isLoading := false;
      isSuccess := true;
      message := payload;
      profile := None;
    }

    /** Every rejected case. */
    method Rejected(payload: string)
      modifies this
      ensures View() == old(View()).(isLoading := false, isError := true, message := payload)
    {
      isLoading := false;
      isError := true;
      message := payload;
    }
  }
}
