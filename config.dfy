/** The provider rules this system plugs into the authorization engine
    (src/config.ts): the `select_account_prompt` check, the account lookup
    callback, and the grant reuse of `loadExistingGrant`. What the engine
    itself holds (prompts, session, stored grants) comes in as inputs. */
module Config {
  import opened Wrappers
  import opened Types
  import opened Accounts

  /* ---------------------------------------------------------------------
     The select_account_prompt check (src/config.ts:11-26)
     --------------------------------------------------------------------- */

  /** The prompts the engine lists for the request, and those still pending. */
  datatype PromptState = PromptState(prompts: set<string>, pending: set<string>)

  /** The check raises the `select_account` prompt exactly when that prompt
      is among the listed prompts and still pending; it adds no other
      condition. */
  predicate SelectAccountPromptCheck(ctx: PromptState)
  {
    "select_account" in ctx.prompts && "select_account" in ctx.pending
  }

  /* ---------------------------------------------------------------------
     The findAccount callback (src/config.ts:91-94)
     --------------------------------------------------------------------- */

  /** The engine's account lookup: the stored account for a known id, and
      nothing (`undefined`) otherwise; the account found has that id as its
      `sub` claim. */
  method FindAccountCallback(dir: Directory, id: string) returns (r: MockAccount?)
    requires dir.Valid()
    ensures r != null <==> id in dir.accounts
    ensures r != null ==> r == dir.accounts[id] && r.accountId == id && r.Claims()["sub"] == JString(id)
  {
    var result := dir.FindAccount(id);
    r := if result.Ok? then result.value else null;
  }

  /* ---------------------------------------------------------------------
     loadExistingGrant (src/config.ts:60-90)
     --------------------------------------------------------------------- */

  /** The engine's grant record, reduced to what `loadExistingGrant` reads
      and writes. `saves` counts the calls of `save()`. */
  class Grant {
    var clientId: Option<string>
    var accountId: Option<string>
    var exp: Option<int>
    var oidcScopes: seq<string>
    var saves: nat

    constructor (clientId: Option<string>, accountId: Option<string>)
      ensures this.clientId == clientId && this.accountId == accountId
      ensures exp == None && oidcScopes == [] && saves == 0
    {
      this.clientId := clientId;
      this.accountId := accountId;
      exp := None;
      oidcScopes := [];
      saves := 0;
    }

    method AddOidcScope(scope: string)
      modifies this
      ensures oidcScopes == old(oidcScopes) + [scope]
      ensures clientId == old(clientId) && accountId == old(accountId)
      ensures exp == old(exp) && saves == old(saves)
    {
      oidcScopes := oidcScopes + [scope];
    }

    method Save()
      modifies this
      ensures saves == old(saves) + 1
      ensures clientId == old(clientId) && accountId == old(accountId)
      ensures exp == old(exp) && oidcScopes == old(oidcScopes)
    {
      saves := saves + 1;
    }
  }

  /** The session as `loadExistingGrant` sees it: its account, its expiry and
      the grant id it keeps per client (`grantIdFor`). */
  datatype Session = Session(accountId: Option<string>, exp: Option<int>, grantIds: map<string, string>) {
    function GrantIdFor(clientId: string): Option<string>
    {
      if clientId in grantIds then Some(grantIds[clientId]) else None
    }
  }

  /** The parts of the request context `loadExistingGrant` reads: the grant id
      of the interaction result's consent, the session, the client id, and
      whether an account is attached. */
  datatype GrantContext = GrantContext(
    consentGrantId: Option<string>,
    session: Option<Session>,
    clientId: Option<string>,
    hasAccount: bool)

  predicate IsTruthyNumber(n: Option<int>)
  {
    n.Some? && n.value != 0
  }

  function SessionExp(ctx: GrantContext): Option<int>
  {
    if ctx.session.Some? then ctx.session.value.exp else None
  }

  function SessionAccountId(ctx: GrantContext): Option<string>
  {
    if ctx.session.Some? then ctx.session.value.accountId else None
  }

  /** The session's grant for the request's client (the empty client id when
      there is no client). */
  function SessionGrantId(ctx: GrantContext): Option<string>
  {
    if ctx.session.Some? then
      ctx.session.value.GrantIdFor(if IsTruthy(ctx.clientId) then ctx.clientId.value else "")
    else None
  }

  /** `result?.consent?.grantId || session?.grantIdFor(clientId || '')`, kept
      only when it is a non-empty id: the consent's grant id wins; the
      session's grant for the client is used only when the consent has none. */
  function ChooseGrantId(ctx: GrantContext): (r: Option<string>)
    ensures r.Some? ==> r.value != []
    ensures IsTruthy(ctx.consentGrantId) ==> r == ctx.consentGrantId
    ensures !IsTruthy(ctx.consentGrantId) && IsTruthy(SessionGrantId(ctx)) ==> r == SessionGrantId(ctx)
    ensures r.None? <==> !IsTruthy(ctx.consentGrantId) && !IsTruthy(SessionGrantId(ctx))
  {
    if IsTruthy(ctx.consentGrantId) then ctx.consentGrantId
    else if IsTruthy(SessionGrantId(ctx)) then SessionGrantId(ctx)
    else None
  }

  /** The grant's expiry after the extension rule: raised to the session's
      expiry when an account is present, both expiries are set (non-zero)
      and the grant's is the earlier; otherwise unchanged. It never
      shortens the grant. */
  function ExtendedExp(hasAccount: bool, grantExp: Option<int>, sessionExp: Option<int>): (r: Option<int>)
    ensures grantExp.Some? ==> r.Some? && r.value >= grantExp.value
    ensures grantExp.None? ==> r.None?
    ensures r != grantExp <==>
      hasAccount && IsTruthyNumber(grantExp) && IsTruthyNumber(sessionExp) && grantExp.value < sessionExp.value
    ensures r != grantExp ==> r == sessionExp
  {
    if hasAccount && IsTruthyNumber(grantExp) && IsTruthyNumber(sessionExp) && grantExp.value < sessionExp.value then
      sessionExp
    else
      grantExp
  }

  /** Applying the rule again changes nothing. */
  lemma ExtendedExpIdempotent(hasAccount: bool, grantExp: Option<int>, sessionExp: Option<int>)
    ensures ExtendedExp(hasAccount, ExtendedExp(hasAccount, grantExp, sessionExp), sessionExp)
         == ExtendedExp(hasAccount, grantExp, sessionExp)
  {
  }

  /** The grant `Grant.find(id)` would return, if any. */
  function FoundGrant(ctx: GrantContext, grants: map<string, Grant>): set<Grant>
  {
    var id := ChooseGrantId(ctx);
    if id.Some? && id.value in grants then {grants[id.value]} else {}
  }

  /** `loadExistingGrant`. With a grant id, the stored grant of that id (or
      none), its expiry extended by `ExtendedExp` and saved exactly when the
      expiry changed; no other field and no other grant changes. Without a
      grant id, a new grant for the client and the session's account, with
      OIDC scope `openid email profile`, saved once. */
  method LoadExistingGrant(ctx: GrantContext, grants: map<string, Grant>) returns (g: Grant?)
    modifies FoundGrant(ctx, grants)
    ensures ChooseGrantId(ctx).Some? && ChooseGrantId(ctx).value !in grants ==> g == null
    ensures ChooseGrantId(ctx).Some? && ChooseGrantId(ctx).value in grants ==>
      && g == grants[ChooseGrantId(ctx).value]
      && g.exp == ExtendedExp(ctx.hasAccount, old(g.exp), SessionExp(ctx))
      && g.saves == old(g.saves) + (if g.exp != old(g.exp) then 1 else 0)
      && g.clientId == old(g.clientId) && g.accountId == old(g.accountId)
      && g.oidcScopes == old(g.oidcScopes)
    ensures ChooseGrantId(ctx).None? ==>
      && g != null && fresh(g)
      && g.clientId == ctx.clientId && g.accountId == SessionAccountId(ctx)
      && g.exp == None && g.oidcScopes == ["openid email profile"] && g.saves == 1
  {
    var grantId := ChooseGrantId(ctx);
    if grantId.Some? {
      g := if grantId.value in grants then grants[grantId.value] else null;
      if ctx.hasAccount && g != null && IsTruthyNumber(g.exp) && IsTruthyNumber(SessionExp(ctx))
         && g.exp.value < SessionExp(ctx).value {
        g.exp := SessionExp(ctx);
        g.Save();
      }
      return g;
    }
    g := new Grant(ctx.clientId, SessionAccountId(ctx));
    g.AddOidcScope("openid email profile");
    g.Save();
  }
}
