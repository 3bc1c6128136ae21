/** The interaction and user-management handlers (src/routes.ts). The two
    interaction handlers are decisions: from what the engine reports about
    the pending interaction, the request body and the directory, to one
    outcome (finish the interaction, render a view, or do nothing). The three
    user handlers call the directory and answer with a status and a JSON body. */
module Routes {
  import opened Wrappers
  import opened Types
  import opened Accounts

  /** What `provider.interactionDetails` reports: the interaction uid, the
      pending prompt's name and details, the authorization parameters, and
      the session's account id (`session?.accountId`). */
  datatype Interaction = Interaction(
    uid: string,
    promptName: string,
    promptDetails: map<string, string>,
    params: map<string, string>,
    sessionAccountId: Option<string>)

  /** The result handed to `provider.interactionFinished`. */
  datatype InteractionResult = SelectAccount(accountId: string) | Login(accountId: string)

  /** The views the handlers render. `client` is what the engine's client
      lookup returned for `params.client_id`. */
  datatype View =
    | SignIn(client: Option<string>, uid: string, details: map<string, string>, params: map<string, string>)
    | SignInError(uid: string)

  datatype Outcome =
    | Finished(result: InteractionResult, mergeWithLastSubmission: bool)
    | Rendered(view: View)
    | NoResponse

  /* ---------------------------------------------------------------------
     GET /interaction/:uid (src/routes.ts:19-54)
     --------------------------------------------------------------------- */

  /** A `select_account` prompt with a session account is finished with that
      account and without merging; a `login` prompt, or a `select_account`
      prompt without one, renders the sign-in form; any other prompt gets no
      response from this handler: nothing is rendered and nothing is
      finished. */
  function ShowInteraction(it: Interaction, client: Option<string>): (o: Outcome)
    ensures o.Finished? <==> it.promptName == "select_account" && IsTruthy(it.sessionAccountId)
    ensures o.Finished? ==> o == Finished(SelectAccount(it.sessionAccountId.value), false)
    ensures o.Rendered? <==> it.promptName == "login" || (it.promptName == "select_account" && !IsTruthy(it.sessionAccountId))
    ensures o.Rendered? ==> o.view == SignIn(client, it.uid, it.promptDetails, it.params)
    ensures o.NoResponse? <==> it.promptName != "login" && it.promptName != "select_account"
  {
    if it.promptName == "select_account" && IsTruthy(it.sessionAccountId) then
      Finished(SelectAccount(it.sessionAccountId.value), false)
    else if it.promptName == "select_account" || it.promptName == "login" then
      Rendered(SignIn(client, it.uid, it.promptDetails, it.params))
    else
      NoResponse
  }

  /* ---------------------------------------------------------------------
     POST /interaction/:uid/login (src/routes.ts:56-94)
     --------------------------------------------------------------------- */

  /** A submission finishes the interaction exactly when the pending prompt is
      `login`, the body is a valid login payload, and the first account with
      that username has exactly that password; the result is that account's
      id, without merging. Every other submission renders the error view and
      leaves the interaction pending. */
  function SubmitLogin(it: Interaction, body: Json, s: Store): (o: Outcome)
    ensures o.Finished? <==>
      && it.promptName == "login"
      && ParseLogin(body).Some?
      && exists k: nat :: s.IsFirstMatch(ParseLogin(body).value.login, k) &&
           s.profiles[s.order[k]].password == ParseLogin(body).value.password
    ensures o.Finished? ==>
      && o.result.Login? && !o.mergeWithLastSubmission
      && s.FindByLogin(ParseLogin(body).value.login).Ok?
      && o.result.accountId == s.FindByLogin(ParseLogin(body).value.login).value.accountId
    ensures !o.Finished? ==> o == Rendered(SignInError(it.uid))
  {
    var validation := ParseLogin(body);
    if it.promptName != "login" || validation.None? then
      Rendered(SignInError(it.uid))
    else
      match s.ValidateCredentials(validation.value.login, validation.value.password)
      case Ok(account) => Finished(Login(account.accountId), false)
      case Err(_) => Rendered(SignInError(it.uid))
  }

  /** A finished login names an account the directory holds, whose username
      and password are the submitted ones; so the engine's later lookup of
      that id finds it. */
  lemma FinishedLoginNamesStoredAccount(it: Interaction, body: Json, s: Store)
    requires SubmitLogin(it, body, s).Finished?
    ensures var id := SubmitLogin(it, body, s).result.accountId;
      && s.FindAccount(id).Ok?
      && s.FindAccount(id).value.profile.username == ParseLogin(body).value.login
      && s.FindAccount(id).value.profile.password == ParseLogin(body).value.password
  {
    var login := ParseLogin(body).value.login;
    var password := ParseLogin(body).value.password;
    assert s.ValidateCredentials(login, password).Ok?;
  }

  /** A `select_account` prompt without a session account shows the sign-in
      form, but no submission of that form can finish the interaction: the
      login handler accepts only a pending `login` prompt. */
  lemma SelectAccountFormNeverFinishes(it: Interaction, client: Option<string>, body: Json, s: Store)
    requires it.promptName == "select_account" && !IsTruthy(it.sessionAccountId)
    ensures ShowInteraction(it, client).Rendered?
    ensures SubmitLogin(it, body, s) == Rendered(SignInError(it.uid))
  {
  }

  /* ---------------------------------------------------------------------
     User management (src/routes.ts:96-139)
     --------------------------------------------------------------------- */

  datatype Response = Response(status: nat, body: Json)

  const Success := Response(200, JObject(map["success" := JBool(true)]))
  const InvalidRequest :=
    Response(400, JObject(map["success" := JBool(false), "error" := JString("Invalid request")]))
  const UpdateNotFound :=
    Response(404, JObject(map["success" := JBool(false), "error" := JString("User not found")]))
  const LookupNotFound := Response(404, JObject(map["error" := JString("User not found")]))

  /** PUT /user/:sub: 400 and no change for an empty `sub` or an invalid
      body; 404 and no change for an unknown id; otherwise 200, the supplied
      fields merged into that account and nothing else changed. */
  method PutUser(dir: Directory, sub: string, body: Json) returns (resp: Response)
    requires dir.Valid()
    modifies dir.accounts.Values
    ensures dir.Valid()
    ensures sub == "" || ParsePartialProfile(body).None? ==>
      resp == InvalidRequest && dir.View() == old(dir.View())
    ensures sub != "" && ParsePartialProfile(body).Some? && sub !in dir.accounts ==>
      resp == UpdateNotFound && dir.View() == old(dir.View())
    ensures sub != "" && ParsePartialProfile(body).Some? && sub in dir.accounts ==>
      resp == Success && dir.View() == old(dir.View()).Update(sub, ParsePartialProfile(body).value)
  {
    var validation := ParsePartialProfile(body);
    if sub == "" || validation.None? {
      return InvalidRequest;
    }
    var r := dir.UpdateUser(sub, validation.value);
    if r.Ok? {
      resp := Success;
    } else {
      resp := UpdateNotFound;
    }
  }

  /** POST /user: a valid full profile is stored under its username (an
      existing account with that id is replaced); an invalid body gives 400
      and changes nothing. */
  method PostUser(dir: Directory, body: Json) returns (resp: Response)
    requires dir.Valid()
    modifies dir
    ensures dir.Valid()
    ensures ParseUserProfile(body).None? ==> resp == InvalidRequest && dir.View() == old(dir.View())
    ensures ParseUserProfile(body).Some? ==>
      && resp == Success
      && dir.View() == old(dir.View()).Insert(ParseUserProfile(body).value.username, ParseUserProfile(body).value)
  {
    var validation := ParseUserProfile(body);
    if validation.None? {
      return InvalidRequest;
    }
    var p := validation.value;
    var _ := dir.CreateMockAccount(UserRecord(p.username, p));
    resp := Success;
  }

  /** GET /user/:username: 200 with the first account of that username,
      password included, or 404. */
  method GetUser(dir: Directory, username: string) returns (resp: Response)
    requires dir.Valid()
    ensures match dir.View().FindByLogin(username)
      case Ok(a) => resp == Response(200, AccountToJson(a))
      case Err(_) => resp == LookupNotFound
  {
    var found := dir.FindByLogin(username);
    if found.Ok? {
      resp := Response(200, AccountToJson(found.value.Snapshot()));
    } else {
      resp := LookupNotFound;
    }
  }
}
