/** Ticket issuance (`issue`): checks its arguments, resolves and checks the
    scope, stamps the expiry and grant linkage, then finalises the draft. */
module Issuer {
  import opened JsValues
  import opened Model
  import opened Finalizer

  /** `options.scope || (grant && grant.scope) || app.scope || []`; arrays
      are truthy even when empty, so a defined scope is always taken. */
  function ResolveScope(app: App, grant: Option<Grant>, options: Options): Scope
  {
    if options.scope.Some? then options.scope.value
    else if grant.Some? && grant.value.scope.Some? then grant.value.scope.value
    else if app.scope.Some? then app.scope.value
    else []
  }

  /** The argument checks of issue, in order; None when all pass. */
  function IssueArgumentError(app: Option<App>, grant: Option<Grant>, password: string,
                              options: Option<Options>): Option<ErrorKind>
  {
    if app.None? || !TruthyStr(app.value.id) then Some(Internal)
    else if grant.Some? && !GrantComplete(grant.value) then Some(Internal)
    else if password == "" then Some(Internal)
    else if options.None? then Some(Internal)
    else None
  }

  /** Both the app and the grant give a scope, and the grant's is not within the app's. */
  predicate GrantScopeConflict(app: App, grant: Option<Grant>, scopes: ScopeModule)
  {
    grant.Some? && grant.value.scope.Some? && app.scope.Some? &&
    !scopes.isSubset(app.scope, grant.value.scope.value)
  }

  /** The ticket issue builds and hands to generate. */
  function IssueDraft(app: Option<App>, grant: Option<Grant>, password: string, options: Option<Options>,
                      scopes: ScopeModule, now: int): (r: Result<Ticket>)
    // argument checks, each failing before anything is built
    ensures app.None? || !TruthyStr(app.value.id) ==> r == Err(Internal)
    ensures grant.Some? && !GrantComplete(grant.value) ==> r == Err(Internal)
    ensures password == "" || options.None? ==> r == Err(Internal)
    ensures r.Err? ==> r.error == Internal || r.error == ScopeInvalid
    ensures r == Err(ScopeInvalid) ==>
              IssueArgumentError(app, grant, password, options).None? &&
              !scopes.validate(ResolveScope(app.value, grant, options.value))
    ensures (IssueArgumentError(app, grant, password, options).None? &&
             !scopes.validate(ResolveScope(app.value, grant, options.value))) ==> r == Err(ScopeInvalid)
    // a draft is built exactly when every check passes
    ensures r.Ok? <==> IssueArgumentError(app, grant, password, options).None? &&
                       scopes.validate(ResolveScope(app.value, grant, options.value)) &&
                       !GrantScopeConflict(app.value, grant, scopes)
    // scope: resolved, valid, and a given grant scope lies within a given app scope
    ensures r.Ok? ==> IssueArgumentError(app, grant, password, options).None?
    ensures r.Ok? ==> r.value.scope == Some(ResolveScope(app.value, grant, options.value)) &&
                      scopes.validate(r.value.scope.value)
    ensures r.Ok? && grant.Some? && grant.value.scope.Some? && app.value.scope.Some? ==>
              scopes.isSubset(app.value.scope, grant.value.scope.value)
    ensures (IssueArgumentError(app, grant, password, options).None? &&
             scopes.validate(ResolveScope(app.value, grant, options.value)) &&
             GrantScopeConflict(app.value, grant, scopes)) ==> r == Err(Internal)
    // expiry and grant linkage
    ensures r.Ok? ==> r.value.exp.Some? && r.value.exp.value <= now + TicketLifetime(options.value.ttl)
    ensures r.Ok? ==> r.value.exp.value == now + TicketLifetime(options.value.ttl) ||
                      (grant.Some? && r.value.exp == grant.value.exp)
    ensures r.Ok? && grant.Some? ==>
              r.value.exp.value <= grant.value.exp.value &&
              r.value.grant == grant.value.id && r.value.user == grant.value.user &&
              r.value.grantExp == grant.value.exp
    ensures r.Ok? && grant.None? ==> r.value.exp == Some(now + TicketLifetime(options.value.ttl)) &&
                                     r.value.grant.None? && r.value.user.None? && r.value.grantExp.None?
    // the remaining fields
    ensures r.Ok? ==> r.value.app == app.value.id && TruthyStr(r.value.app)
    ensures r.Ok? ==> (r.value.delegate == Some(false) <==> options.value.delegate == Some(false)) &&
                      r.value.delegate != Some(true)
    ensures r.Ok? ==> r.value.dlg == IfTruthy(options.value.dlg)
    ensures r.Ok? ==> r.value.key.None? && r.value.algorithm.None? && r.value.ext.None? && r.value.id.None?
  {
    match IssueArgumentError(app, grant, password, options)
    case Some(e) => Err(e)
    case None =>
      var a, o := app.value, options.value;
      var scope := ResolveScope(a, grant, o);
      if !scopes.validate(scope) then Err(ScopeInvalid)
      else if GrantScopeConflict(a, grant, scopes) then Err(Internal)
      else
        Ok(Ticket(
          exp := Some(Expiry(now, o.ttl, grant)),
          app := a.id,
          scope := Some(scope),
          grant := if grant.Some? then grant.value.id else None,
          user := if grant.Some? then grant.value.user else None,
          grantExp := if grant.Some? then grant.value.exp else None,
          delegate := if o.delegate == Some(false) then Some(false) else None,
          dlg := IfTruthy(o.dlg),
          key := None, algorithm := None, ext := None, id := None))
  }

  /** issue: the checked draft, finalised. */
  function Issue(app: Option<App>, grant: Option<Grant>, password: string, options: Option<Options>,
                 scopes: ScopeModule, iron: Iron, now: int, randomString: int -> Option<string>): (r: Result<Ticket>)
    ensures r.Ok? ==> IssueDraft(app, grant, password, options, scopes, now).Ok? &&
                      SameClaims(r.value, IssueDraft(app, grant, password, options, scopes, now).value)
    ensures r.Ok? ==> r.value.key.Some? && r.value.id.Some? &&
                      r.value.key == randomString(KeyBytes(options.value))
    ensures r.Ok? ==> r.value.algorithm == Some(Algorithm(options.value)) &&
                      r.value.id == iron.seal(TicketBody(Prepare(IssueDraft(app, grant, password, options, scopes, now).value,
                                                                 options.value, r.value.key.value)), password)
    ensures r.Ok? && grant.Some? ==> r.value.exp.value <= grant.value.exp.value
    ensures r.Ok? ==> r.value.ext == if TruthyJson(options.value.ext) then Field(options.value.ext.value, "public") else None
    ensures r == Err(Crypto) ==> IssueDraft(app, grant, password, options, scopes, now).Ok?
    // a failed check is issue's failure; once the checks pass, issue succeeds
    // exactly when the random source and the seal do
    ensures IssueDraft(app, grant, password, options, scopes, now).Err? ==>
              r == Err(IssueDraft(app, grant, password, options, scopes, now).error)
    ensures IssueDraft(app, grant, password, options, scopes, now).Ok? && r.Err? ==> r.error == Crypto
    ensures IssueDraft(app, grant, password, options, scopes, now).Ok? ==>
              var draft := IssueDraft(app, grant, password, options, scopes, now).value;
              var key := randomString(KeyBytes(options.value));
              (r.Ok? <==> key.Some? && iron.seal(TicketBody(Prepare(draft, options.value, key.value)), password).Some?)
  {
    match IssueDraft(app, grant, password, options, scopes, now)
    case Err(e) => Err(e)
    case Ok(draft) => Generate(draft, password, options.value, randomString, iron)
  }

  /** The scope precedence of issue: options, then grant, then app, then empty. */
  lemma IssueScopePrecedence(app: Option<App>, grant: Option<Grant>, password: string, options: Option<Options>,
                             scopes: ScopeModule, now: int, t: Ticket)
    requires IssueDraft(app, grant, password, options, scopes, now) == Ok(t)
    ensures options.value.scope.Some? ==> t.scope == options.value.scope
    ensures options.value.scope.None? && grant.Some? && grant.value.scope.Some? ==> t.scope == grant.value.scope
    ensures options.value.scope.None? && (grant.None? || grant.value.scope.None?) && app.value.scope.Some? ==>
              t.scope == app.value.scope
    ensures options.value.scope.None? && (grant.None? || grant.value.scope.None?) && app.value.scope.None? ==>
              t.scope == Some([])
  {
  }

  /** Every check runs before the random source or Iron is used: a request
      that fails validation fails the same way whatever they would do. */
  lemma IssueValidatesFirst(app: Option<App>, grant: Option<Grant>, password: string, options: Option<Options>,
                            scopes: ScopeModule, iron1: Iron, iron2: Iron, now: int,
                            random1: int -> Option<string>, random2: int -> Option<string>)
    requires IssueDraft(app, grant, password, options, scopes, now).Err?
    ensures Issue(app, grant, password, options, scopes, iron1, now, random1) ==
            Issue(app, grant, password, options, scopes, iron2, now, random2)
    ensures Issue(app, grant, password, options, scopes, iron1, now, random1).error != Crypto
  {
  }

  /** parse(issue(...).id) recovers the full issued ticket: the draft's claims,
      the key, and both parts of ext. */
  lemma IssueRoundTrip(app: Option<App>, grant: Option<Grant>, password: string, options: Option<Options>,
                       scopes: ScopeModule, iron: Iron, now: int, randomString: int -> Option<string>, t: Ticket)
    requires Inverts(iron)
    requires Issue(app, grant, password, options, scopes, iron, now, randomString) == Ok(t)
    ensures t.id.Some? && t.key.Some?
    ensures var draft := IssueDraft(app, grant, password, options, scopes, now).value;
            Parse(t.id.value, password, options, iron) == Ok(Prepare(draft, options.value, t.key.value).(id := t.id))
  {
    var draft := IssueDraft(app, grant, password, options, scopes, now).value;
    ParseInvertsGenerate(draft, password, options.value, randomString, iron, t);
  }
}
