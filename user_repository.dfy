/** `createUser`: one POST to the user-creation endpoint and the mapping of
    its response to a result or a thrown error. The network call itself is
    the parameter `fetch`. */
module UserRepository {
  import opened Wrappers

  /** The `userData` argument: the body sent to the API. */
  datatype UserData = UserData(name: string, email: string, password: string, status: string)

  /** The arguments `fetchData(endpoint, data, method)` receives (`verb` is the HTTP method). */
  datatype FetchRequest = FetchRequest(endpoint: string, body: UserData, verb: string)

  /** What `await fetchData(...)` yields: `undefined` when `fetch` threw
      (fetchData catches it), a JSON body whose `message` is absent or a
      string, or the rejection of `response.json()`, which fetchData returns
      without catching. */
  datatype FetchResult = Undefined | Body(message: Option<string>) | Rejected(error: Thrown)

  /** The value `createUser` returns. */
  datatype CreateUserResponse = CreateUserResponse(success: bool, message: string)

  const CreateEndpoint: string := "/user/create"
  const OkMessage: string := "ok"
  const CreatedMessage: string := "User created successfully"
  const CreateFailedMessage: string := "Failed to create user"

  /** The request `createUser` sends: POST to `/user/create` with `userData`
      unchanged. */
  function CreateUserRequest(userData: UserData): (r: FetchRequest)
    ensures r.endpoint == CreateEndpoint && r.verb == "POST"
    ensures r.body == userData
  {
    FetchRequest(CreateEndpoint, userData, "POST")
  }

  /** `response?.message` */
  function MessageOf(response: FetchResult): Option<string> {
    if response.Body? then response.message else None
  }

  /** The body of `createUser` after the `await`: success exactly for the
      message "ok"; otherwise the error carries the response's message, or
      "Failed to create user" when there is none or it is empty; a rejection
      is rethrown unchanged. */
  function InterpretCreateUser(response: FetchResult): (r: Result<CreateUserResponse>)
    ensures r.Ok? <==> response == Body(Some(OkMessage))
    ensures r.Ok? ==> r.value == CreateUserResponse(true, CreatedMessage)
    ensures response.Rejected? ==> r == Err(response.error)
    ensures !response.Rejected? && !Truthy(MessageOf(response)) ==> r == Err(Error(CreateFailedMessage))
    ensures !response.Rejected? && Truthy(MessageOf(response)) && MessageOf(response) != Some(OkMessage) ==>
      r == Err(Error(MessageOf(response).value))
  {
    if response.Rejected? then Err(response.error)
    else
      var message := MessageOf(response);
      if message != Some(OkMessage) then
        Err(Error(if Truthy(message) then message.value else CreateFailedMessage))
      else
        Ok(CreateUserResponse(true, CreatedMessage))
  }

  /** `createUser(userData)` with the network as `fetch`. */
  function CreateUser(userData: UserData, fetch: FetchRequest -> FetchResult): Result<CreateUserResponse> {
    InterpretCreateUser(fetch(CreateUserRequest(userData)))
  }

  /** `createUser` never returns `success: false`: whatever it returns has
      `success` set, and any failure is thrown. */
  lemma CreateUserNeverReportsFailure(userData: UserData, fetch: FetchRequest -> FetchResult)
    ensures CreateUser(userData, fetch).Ok? ==> CreateUser(userData, fetch).value.success
    ensures CreateUser(userData, fetch).Ok? <==> fetch(CreateUserRequest(userData)) == Body(Some(OkMessage))
  {
  }

  /** Every error `createUser` produces itself has a non-empty message. */
  lemma CreateUserErrorsHaveMessages(response: FetchResult)
    requires !response.Rejected?
    requires InterpretCreateUser(response).Err?
    ensures InterpretCreateUser(response).error.Error?
    ensures InterpretCreateUser(response).error.message != ""
  {
  }
}
