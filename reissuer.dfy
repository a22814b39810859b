/** Ticket reissuance (`reissue`): renewal or one-hop delegation of a parent
    ticket, under scope narrowing, the sticky delegation restriction and grant
    linkage, then finalisation. */
module Reissuer {
  import opened JsValues
  import opened Model
  import opened Finalizer

  /** The derivation policy a reissued ticket obeys with respect to its
      parent, given the options of the reissue. */
  predicate Descends(p: Ticket, c: Ticket, o: Options, isSubset: (Option<Scope>, Scope) -> bool)
  {
    // the scope never widens
    (c.scope == p.scope || (c.scope.Some? && isSubset(p.scope, c.scope.value))) &&
    // delegate === false is kept and forbids issuing to another application
    (p.delegate == Some(false) ==> c.delegate == Some(false) && !TruthyStr(o.issueTo)) &&
    c.delegate != Some(true) &&
    // delegation is a single hop and records the delegating application
    (TruthyStr(o.issueTo) ==> !TruthyStr(p.dlg) && c.app == o.issueTo && c.dlg == p.app) &&
    (!TruthyStr(o.issueTo) ==> c.app == p.app && c.dlg == IfTruthy(p.dlg)) &&
    // grant linkage is all or nothing
    c.grant == IfTruthy(p.grant)
  }

  /** Both scope checks of reissue pass. */
  predicate ScopesAccepted(p: Ticket, o: Options, scopes: ScopeModule)
  {
    (p.scope.Some? ==> scopes.validate(p.scope.value)) &&
    (o.scope.Some? ==> scopes.validate(o.scope.value) && scopes.isSubset(p.scope, o.scope.value))
  }

  /** The delegation checks of reissue pass: the restriction is not relaxed,
      and an issueTo neither re-delegates nor delegates a restricted ticket. */
  predicate DelegationAllowed(p: Ticket, o: Options)
  {
    !(o.delegate == Some(true) && p.delegate == Some(false)) &&
    !(TruthyStr(o.issueTo) && (TruthyStr(p.dlg) || p.delegate == Some(false)))
  }

  /** `grant` and the parent's `grant` agree: both absent, or the same id. */
  predicate GrantLinked(p: Ticket, grant: Option<Grant>)
  {
    (grant.None? && !TruthyStr(p.grant)) ||
    (grant.Some? && TruthyStr(p.grant) && p.grant == grant.value.id)
  }

  /** The checks of reissue, in order; None when all pass. */
  function ReissueArgumentError(parent: Option<Ticket>, grant: Option<Grant>, password: string,
                                options: Option<Options>, scopes: ScopeModule): Option<ErrorKind>
  {
    if parent.None? || password == "" || options.None? then Some(Internal)
    else
      var p, o := parent.value, options.value;
      if p.scope.Some? && !scopes.validate(p.scope.value) then Some(ScopeInvalid)
      else if o.scope.Some? && !scopes.validate(o.scope.value) then Some(ScopeInvalid)
      else if o.scope.Some? && !scopes.isSubset(p.scope, o.scope.value) then Some(Forbidden)
      else if o.delegate == Some(true) && p.delegate == Some(false) then Some(Forbidden)
      else if TruthyStr(o.issueTo) && TruthyStr(p.dlg) then Some(BadRequest)
      else if TruthyStr(o.issueTo) && p.delegate == Some(false) then Some(Forbidden)
      else if grant.Some? && !GrantComplete(grant.value) then Some(Internal)
      else if (grant.Some? || TruthyStr(p.grant)) && !GrantLinked(p, grant) then Some(Internal)
      else None
  }

  /** The options generate sees: a shallow copy carrying the parent's ext
      when the caller gave none. */
  function EffectiveOptions(p: Ticket, o: Options): (e: Options)
    ensures e.(ext := o.ext) == o
    ensures TruthyJson(o.ext) ==> e == o
    ensures !TruthyJson(o.ext) && TruthyJson(p.ext) ==> e.ext == p.ext
    ensures !TruthyJson(p.ext) ==> e == o
  {
    if !TruthyJson(o.ext) && TruthyJson(p.ext) then o.(ext := p.ext) else o
  }

  /** The ticket reissue builds, with the options it hands to generate. */
  function ReissueDraft(parent: Option<Ticket>, grant: Option<Grant>, password: string, options: Option<Options>,
                        scopes: ScopeModule, now: int): (r: Result<(Ticket, Options)>)
    // what each kind of failure means
    ensures parent.None? || password == "" || options.None? ==> r == Err(Internal)
    ensures r.Err? ==> r.error != Crypto
    ensures r == Err(ScopeInvalid) ==>
              (parent.value.scope.Some? && !scopes.validate(parent.value.scope.value)) ||
              (options.value.scope.Some? && !scopes.validate(options.value.scope.value))
    ensures r == Err(Forbidden) ==>
              var p, o := parent.value, options.value;
              (o.scope.Some? && !scopes.isSubset(p.scope, o.scope.value)) ||
              (o.delegate == Some(true) && p.delegate == Some(false)) ||
              (TruthyStr(o.issueTo) && p.delegate == Some(false))
    ensures r == Err(BadRequest) ==> TruthyStr(options.value.issueTo) && TruthyStr(parent.value.dlg)
    ensures r == Err(Internal) ==>
              parent.None? || password == "" || options.None? ||
              (grant.Some? && !GrantComplete(grant.value)) || !GrantLinked(parent.value, grant)
    // a draft is built exactly when every check passes
    ensures r.Ok? <==> parent.Some? && password != "" && options.Some? &&
                       ScopesAccepted(parent.value, options.value, scopes) &&
                       DelegationAllowed(parent.value, options.value) &&
                       (grant.Some? ==> GrantComplete(grant.value)) &&
                       GrantLinked(parent.value, grant)
    // when each check fires
    ensures (parent.Some? && password != "" && options.Some? &&
             ((parent.value.scope.Some? && !scopes.validate(parent.value.scope.value)) ||
              (options.value.scope.Some? && !scopes.validate(options.value.scope.value)))) ==> r == Err(ScopeInvalid)
    ensures (parent.Some? && password != "" && options.Some? &&
             options.value.scope.Some? && scopes.validate(options.value.scope.value) &&
             (parent.value.scope.Some? ==> scopes.validate(parent.value.scope.value)) &&
             !scopes.isSubset(parent.value.scope, options.value.scope.value)) ==> r == Err(Forbidden)
    ensures (parent.Some? && password != "" && options.Some? && ScopesAccepted(parent.value, options.value, scopes) &&
             options.value.delegate == Some(true) && parent.value.delegate == Some(false)) ==> r == Err(Forbidden)
    ensures (parent.Some? && password != "" && options.Some? && ScopesAccepted(parent.value, options.value, scopes) &&
             !(options.value.delegate == Some(true) && parent.value.delegate == Some(false)) &&
             TruthyStr(options.value.issueTo) && TruthyStr(parent.value.dlg)) ==> r == Err(BadRequest)
    ensures (parent.Some? && password != "" && options.Some? && ScopesAccepted(parent.value, options.value, scopes) &&
             options.value.delegate != Some(true) && TruthyStr(options.value.issueTo) &&
             !TruthyStr(parent.value.dlg) && parent.value.delegate == Some(false)) ==> r == Err(Forbidden)
    ensures (parent.Some? && password != "" && options.Some? && ScopesAccepted(parent.value, options.value, scopes) &&
             DelegationAllowed(parent.value, options.value) &&
             ((grant.Some? && !GrantComplete(grant.value)) || !GrantLinked(parent.value, grant))) ==> r == Err(Internal)
    // what a success guarantees
    ensures r.Ok? ==> parent.Some? && password != "" && options.Some? &&
                      ScopesAccepted(parent.value, options.value, scopes) &&
                      (grant.Some? ==> GrantComplete(grant.value)) &&
                      GrantLinked(parent.value, grant)
    ensures r.Ok? ==> Descends(parent.value, r.value.0, options.value, scopes.isSubset)
    ensures r.Ok? ==> r.value.0.scope == (if options.value.scope.Some? then options.value.scope else parent.value.scope)
    ensures r.Ok? ==> r.value.0.exp.Some? && r.value.0.exp.value <= now + TicketLifetime(options.value.ttl)
    ensures r.Ok? ==> r.value.0.exp.value == now + TicketLifetime(options.value.ttl) ||
                      (grant.Some? && r.value.0.exp == grant.value.exp)
    ensures r.Ok? && grant.Some? ==>
              r.value.0.exp.value <= grant.value.exp.value &&
              r.value.0.grant == grant.value.id && r.value.0.user == grant.value.user &&
              r.value.0.grantExp == grant.value.exp
    ensures r.Ok? && grant.None? ==> r.value.0.grant.None? && r.value.0.user.None? && r.value.0.grantExp.None?
    ensures r.Ok? ==> (r.value.0.delegate == Some(false) <==>
                       options.value.delegate == Some(false) || parent.value.delegate == Some(false))
    ensures r.Ok? ==> r.value.0.key.None? && r.value.0.algorithm.None? && r.value.0.ext.None? && r.value.0.id.None?
    ensures r.Ok? ==> r.value.1 == EffectiveOptions(parent.value, options.value)
  {
    match ReissueArgumentError(parent, grant, password, options, scopes)
    case Some(e) => Err(e)
    case None =>
      var p, o := parent.value, options.value;
      var issued := TruthyStr(o.issueTo);
      Ok((Ticket(
            exp := Some(Expiry(now, o.ttl, grant)),
            app := if issued then o.issueTo else p.app,
            scope := if o.scope.Some? then o.scope else p.scope,
            grant := if grant.Some? then grant.value.id else None,
            user := if grant.Some? then grant.value.user else None,
            grantExp := if grant.Some? then grant.value.exp else None,
            delegate := if o.delegate == Some(false) || p.delegate == Some(false) then Some(false) else None,
            dlg := if issued then p.app else IfTruthy(p.dlg),
            key := None, algorithm := None, ext := None, id := None),
          EffectiveOptions(p, o)))
  }

  /** reissue: the checked draft, finalised with the effective options. */
  function Reissue(parent: Option<Ticket>, grant: Option<Grant>, password: string, options: Option<Options>,
                   scopes: ScopeModule, iron: Iron, now: int, randomString: int -> Option<string>): (r: Result<Ticket>)
    ensures r.Ok? ==> parent.Some? && options.Some? &&
                      Descends(parent.value, r.value, options.value, scopes.isSubset)
    ensures r.Ok? ==> r.value.id.Some? && r.value.key.Some?
    ensures r.Ok? && grant.Some? ==> r.value.exp.Some? && GrantComplete(grant.value) &&
                                     r.value.exp.value <= grant.value.exp.value &&
                                     r.value.grantExp == grant.value.exp
    ensures r.Ok? && TruthyJson(options.value.ext) ==> r.value.ext == Field(options.value.ext.value, "public")
    ensures r.Ok? && !TruthyJson(options.value.ext) && TruthyJson(parent.value.ext) ==>
              r.value.ext == Field(parent.value.ext.value, "public")
    ensures r.Ok? && !TruthyJson(options.value.ext) && !TruthyJson(parent.value.ext) ==> r.value.ext.None?
    ensures r == Err(Crypto) ==> ReissueDraft(parent, grant, password, options, scopes, now).Ok?
    // the claims are the draft's, the key is the random string
    ensures r.Ok? ==> ReissueDraft(parent, grant, password, options, scopes, now).Ok? &&
                      SameClaims(r.value, ReissueDraft(parent, grant, password, options, scopes, now).value.0) &&
                      r.value.key == randomString(KeyBytes(options.value))
    ensures r.Ok? ==> r.value.algorithm == Some(Algorithm(options.value)) &&
                      var (draft, effective) := ReissueDraft(parent, grant, password, options, scopes, now).value;
                      r.value.id == iron.seal(TicketBody(Prepare(draft, effective, r.value.key.value)), password)
    // a failed check is reissue's failure; once the checks pass, reissue
    // succeeds exactly when the random source and the seal do
    ensures ReissueDraft(parent, grant, password, options, scopes, now).Err? ==>
              r == Err(ReissueDraft(parent, grant, password, options, scopes, now).error)
    ensures ReissueDraft(parent, grant, password, options, scopes, now).Ok? && r.Err? ==> r.error == Crypto
    ensures ReissueDraft(parent, grant, password, options, scopes, now).Ok? ==>
              var (draft, effective) := ReissueDraft(parent, grant, password, options, scopes, now).value;
              var key := randomString(KeyBytes(options.value));
              (r.Ok? <==> key.Some? && iron.seal(TicketBody(Prepare(draft, effective, key.value)), password).Some?)
  {
    match ReissueDraft(parent, grant, password, options, scopes, now)
    case Err(e) => Err(e)
    case Ok((draft, effective)) => Generate(draft, password, effective, randomString, iron)
  }

  /** When the caller gives no ext, the reissued ticket's sealed ext carries
      the parent's public and private parts, while the caller's options are
      not the ones generate reads. */
  lemma ReissueInheritsExt(parent: Ticket, grant: Option<Grant>, password: string, options: Options,
                           scopes: ScopeModule, iron: Iron, now: int, randomString: int -> Option<string>, t: Ticket)
    requires Inverts(iron)
    requires !TruthyJson(options.ext) && TruthyJson(parent.ext)
    requires Reissue(Some(parent), grant, password, Some(options), scopes, iron, now, randomString) == Ok(t)
    ensures t.id.Some? && Parse(t.id.value, password, Some(options), iron).Ok?
    ensures var full := Parse(t.id.value, password, Some(options), iron).value.ext;
            full.Some? &&
            Field(full.value, "public") == Field(parent.ext.value, "public") &&
            Field(full.value, "private") == Field(parent.ext.value, "private")
    ensures EffectiveOptions(parent, options) != options
  {
    var (draft, effective) := ReissueDraft(Some(parent), grant, password, Some(options), scopes, now).value;
    ParseInvertsGenerate(draft, password, effective, randomString, iron, t);
  }
}
