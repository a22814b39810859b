/** RSVP issuance (`rsvp`, `delegateRsvp` and the shared `_rsvp`): a
    short-lived envelope, sealed and handed back verbatim. */
module RsvpIssuer {
  import opened JsValues
  import opened Model

  /** `options.ttl || internals.defaults.rsvpTTL` */
  function RsvpLifetime(ttl: Option<int>): int {
    if TruthyNum(ttl) then ttl.value else RsvpTtl
  }

  /** The checks of `_rsvp`, in order; None when all pass. */
  function RsvpArgumentError(app: Option<App>, grant: Option<Grant>, password: string,
                             options: Option<Options>): Option<ErrorKind>
  {
    if app.None? || !TruthyStr(app.value.id) then Some(Internal)
    else if grant.Some? && !TruthyStr(grant.value.id) then Some(Internal)
    else if password == "" then Some(Internal)
    else if options.None? then Some(Internal)
    else None
  }

  /** The envelope after `_rsvp` merged `app` and `exp` into it and set `grant`. */
  function Stamp(envelope: Envelope, appId: Option<string>, grant: Option<Grant>, ttl: int, now: int): Envelope
  {
    envelope.(app := appId, exp := Some(now + ttl),
              grant := if grant.Some? then grant.value.id else envelope.grant)
  }

  /** `_rsvp`: the RSVP string, or the reason there is none. */
  function SealRsvp(app: Option<App>, grant: Option<Grant>, envelope: Envelope, password: string,
                    options: Option<Options>, now: int, iron: Iron): (r: Result<string>)
    ensures app.None? || !TruthyStr(app.value.id) ==> r == Err(Internal)
    ensures grant.Some? && !TruthyStr(grant.value.id) ==> r == Err(Internal)
    ensures password == "" || options.None? ==> r == Err(Internal)
    ensures r.Err? ==> r.error == Internal || r.error == Crypto
    ensures r == Err(Crypto) ==> RsvpArgumentError(app, grant, password, options).None?
    ensures r == Err(Internal) ==> RsvpArgumentError(app, grant, password, options).Some?
    // once the checks pass, an RSVP is returned exactly when the seal succeeds
    ensures RsvpArgumentError(app, grant, password, options).None? ==>
              (r.Ok? <==> iron.seal(RsvpBody(Stamp(envelope, app.value.id, grant,
                                                   RsvpLifetime(options.value.ttl), now)), password).Some?)
    ensures r.Ok? ==> RsvpArgumentError(app, grant, password, options).None? &&
                      iron.seal(RsvpBody(Stamp(envelope, app.value.id, grant,
                                               RsvpLifetime(options.value.ttl), now)), password) == Some(r.value)
  {
    match RsvpArgumentError(app, grant, password, options)
    case Some(e) => Err(e)
    case None =>
      var e := Stamp(envelope, app.value.id, grant, RsvpLifetime(options.value.ttl), now);
      match iron.seal(RsvpBody(e), password)
      case None => Err(Crypto)
      case Some(sealed) => Ok(sealed)
  }

  /** The envelope `rsvp` starts from. */
  const EmptyEnvelope: Envelope := Envelope(None, None, None, None, None)

  /** `rsvp`: a grant is required. */
  function RsvpFor(app: Option<App>, grant: Option<Grant>, password: string,
                   options: Option<Options>, now: int, iron: Iron): (r: Result<string>)
    ensures grant.None? ==> r == Err(Internal)
    ensures r.Err? ==> r.error == Internal || r.error == Crypto
    ensures r == Err(Internal) <==> grant.None? || RsvpArgumentError(app, grant, password, options).Some?
    ensures grant.Some? && RsvpArgumentError(app, grant, password, options).None? ==>
              (r.Ok? <==> iron.seal(RsvpBody(Envelope(app.value.id, Some(now + RsvpLifetime(options.value.ttl)),
                                                      grant.value.id, None, None)), password).Some?)
    ensures r.Ok? ==> grant.Some? && RsvpArgumentError(app, grant, password, options).None? &&
                      iron.seal(RsvpBody(Envelope(app.value.id, Some(now + RsvpLifetime(options.value.ttl)),
                                                  grant.value.id, None, None)), password) == Some(r.value)
  {
    if grant.None? then Err(Internal)
    else SealRsvp(app, grant, EmptyEnvelope, password, options, now, iron)
  }

  /** The envelope `delegateRsvp` starts from: the delegating application, and
      the scope only when both a grant and a scope are given. */
  function DelegateEnvelope(dlg: App, grant: Option<Grant>, scope: Option<Scope>): Envelope
  {
    Envelope(None, None, None, dlg.id, if grant.Some? && scope.Some? then scope else None)
  }

  /** `delegateRsvp`: `dlg.id` is required; the scope is not checked against
      the grant's scope. */
  function DelegateRsvpFor(app: Option<App>, dlg: Option<App>, grant: Option<Grant>, scope: Option<Scope>,
                           password: string, options: Option<Options>, now: int, iron: Iron): (r: Result<string>)
    ensures dlg.None? || !TruthyStr(dlg.value.id) ==> r == Err(Internal)
    ensures r.Err? ==> r.error == Internal || r.error == Crypto
    ensures r == Err(Internal) <==>
              dlg.None? || !TruthyStr(dlg.value.id) || RsvpArgumentError(app, grant, password, options).Some?
    ensures dlg.Some? && TruthyStr(dlg.value.id) && RsvpArgumentError(app, grant, password, options).None? ==>
              (r.Ok? <==> iron.seal(RsvpBody(Envelope(app.value.id, Some(now + RsvpLifetime(options.value.ttl)),
                                                      if grant.Some? then grant.value.id else None,
                                                      dlg.value.id,
                                                      if grant.Some? && scope.Some? then scope else None)),
                                    password).Some?)
    ensures r.Ok? ==> dlg.Some? && TruthyStr(dlg.value.id) &&
                      RsvpArgumentError(app, grant, password, options).None? &&
                      iron.seal(RsvpBody(Envelope(app.value.id, Some(now + RsvpLifetime(options.value.ttl)),
                                                  if grant.Some? then grant.value.id else None,
                                                  dlg.value.id,
                                                  if grant.Some? && scope.Some? then scope else None)),
                                password) == Some(r.value)
  {
    if dlg.None? || !TruthyStr(dlg.value.id) then Err(Internal)
    else SealRsvp(app, grant, DelegateEnvelope(dlg.value, grant, scope), password, options, now, iron)
  }

  /** Opening an RSVP gives back its envelope: the app, an expiry one RSVP
      lifetime (60 000 ms unless a ttl is given) from now, and the grant. */
  lemma RsvpOpens(app: Option<App>, grant: Option<Grant>, password: string,
                  options: Option<Options>, now: int, iron: Iron, rsvp: string)
    requires Inverts(iron)
    requires RsvpFor(app, grant, password, options, now, iron) == Ok(rsvp)
    ensures iron.unseal(rsvp, password) ==
            Some(RsvpBody(Envelope(app.value.id, Some(now + RsvpLifetime(options.value.ttl)), grant.value.id, None, None)))
    ensures !TruthyNum(options.value.ttl) ==> iron.unseal(rsvp, password).value.envelope.exp == Some(now + 60000)
  {
  }

  /** Opening a delegated RSVP gives back its envelope, with the delegating
      application and, when a grant was given, the scope as passed. */
  lemma DelegateRsvpOpens(app: Option<App>, dlg: Option<App>, grant: Option<Grant>, scope: Option<Scope>,
                          password: string, options: Option<Options>, now: int, iron: Iron, rsvp: string)
    requires Inverts(iron)
    requires DelegateRsvpFor(app, dlg, grant, scope, password, options, now, iron) == Ok(rsvp)
    ensures iron.unseal(rsvp, password).Some? && iron.unseal(rsvp, password).value.RsvpBody?
    ensures var e := iron.unseal(rsvp, password).value.envelope;
            e.app == app.value.id && e.exp == Some(now + RsvpLifetime(options.value.ttl)) &&
            e.dlg == dlg.value.id &&
            e.grant == (if grant.Some? then grant.value.id else None) &&
            e.scope == (if grant.Some? then scope else None)
  {
  }

  /** delegateRsvp does not look at the grant's scope: any scope, inside it
      or not, gives the same outcome. */
  lemma DelegateRsvpIgnoresGrantScope(app: Option<App>, dlg: Option<App>, grant: Grant, other: Option<Scope>,
                                      scope: Option<Scope>, password: string, options: Option<Options>,
                                      now: int, iron: Iron)
    ensures DelegateRsvpFor(app, dlg, Some(grant), scope, password, options, now, iron) ==
            DelegateRsvpFor(app, dlg, Some(grant.(scope := other)), scope, password, options, now, iron)
  {
  }

  /** The `options` argument as a value, or None for a missing one. */
  function Snapshot(options: OptionsObject?): Option<Options>
    reads options
  {
    if options == null then None else Some(options.Value())
  }

  /** `_rsvp` as the source runs it: once the checks pass it writes the
      defaulted ttl back into the caller's options, before sealing. */
  method RsvpCore(app: Option<App>, grant: Option<Grant>, envelope: Envelope, password: string,
                  options: OptionsObject?, now: int, iron: Iron) returns (r: Result<string>)
    modifies options
    ensures r == SealRsvp(app, grant, envelope, password, old(Snapshot(options)), now, iron)
    ensures options != null && RsvpArgumentError(app, grant, password, old(Snapshot(options))).None? ==>
              options.Value() == old(options.Value()).(ttl := Some(RsvpLifetime(old(options.ttl))))
    ensures options != null && RsvpArgumentError(app, grant, password, old(Snapshot(options))).Some? ==>
              options.Value() == old(options.Value())
  {
    if app.None? || !TruthyStr(app.value.id) {
      return Err(Internal);
    }
    if grant.Some? && !TruthyStr(grant.value.id) {
      return Err(Internal);
    }
    if password == "" {
      return Err(Internal);
    }
    if options == null {
      return Err(Internal);
    }
    options.ttl := Some(RsvpLifetime(options.ttl));
    var stamped := envelope.(app := app.value.id, exp := Some(now + options.ttl.value));
    if grant.Some? {
      stamped := stamped.(grant := grant.value.id);
    }
    var sealed := iron.seal(RsvpBody(stamped), password);
    if sealed.None? {
      return Err(Crypto);
    }
    r := Ok(sealed.value);
  }

  /** `rsvp` on the caller's options object. */
  method Rsvp(app: Option<App>, grant: Option<Grant>, password: string,
              options: OptionsObject?, now: int, iron: Iron) returns (r: Result<string>)
    modifies options
    ensures r == RsvpFor(app, grant, password, old(Snapshot(options)), now, iron)
    ensures options != null && grant.Some? && RsvpArgumentError(app, grant, password, old(Snapshot(options))).None? ==>
              options.Value() == old(options.Value()).(ttl := Some(RsvpLifetime(old(options.ttl))))
    ensures options != null && (grant.None? || RsvpArgumentError(app, grant, password, old(Snapshot(options))).Some?) ==>
              options.Value() == old(options.Value())
  {
    if grant.None? {
      return Err(Internal);
    }
    r := RsvpCore(app, grant, EmptyEnvelope, password, options, now, iron);
  }

  /** `delegateRsvp` on the caller's options object. */
  method DelegateRsvp(app: Option<App>, dlg: Option<App>, grant: Option<Grant>, scope: Option<Scope>,
                      password: string, options: OptionsObject?, now: int, iron: Iron) returns (r: Result<string>)
    modifies options
    ensures r == DelegateRsvpFor(app, dlg, grant, scope, password, old(Snapshot(options)), now, iron)
    ensures options != null && dlg.Some? && TruthyStr(dlg.value.id) &&
            RsvpArgumentError(app, grant, password, old(Snapshot(options))).None? ==>
              options.Value() == old(options.Value()).(ttl := Some(RsvpLifetime(old(options.ttl))))
    ensures options != null && (dlg.None? || !TruthyStr(dlg.value.id) ||
                                RsvpArgumentError(app, grant, password, old(Snapshot(options))).Some?) ==>
              options.Value() == old(options.Value())
  {
    if dlg.None? || !TruthyStr(dlg.value.id) {
      return Err(Internal);
    }
    var envelope := Envelope(None, None, None, dlg.value.id, None);
    if grant.Some? && scope.Some? {
      envelope := envelope.(scope := scope);
    }
    r := RsvpCore(app, grant, envelope, password, options, now, iron);
  }
}
