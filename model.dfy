/** The records the ticket logic builds and consumes, the error kinds it
    reports, its default constants, and the collaborators it calls but does
    not implement (the scope module and the Iron sealing engine). */
module Model {
  import opened JsValues

  /** A list of scope names. */
  type Scope = seq<string>

  /** The kind of a failure; messages and HTTP status codes are not modelled. */
  datatype ErrorKind =
    | Internal      // Boom.internal: a missing or malformed argument, a grant mismatch
    | Forbidden     // Boom.forbidden: a policy violation
    | BadRequest    // Boom.badRequest: a second delegation hop
    | ScopeInvalid  // the error returned by the scope module's validate
    | Crypto        // a failure of random-string generation, sealing or unsealing

  datatype Result<+T> = Ok(value: T) | Err(error: ErrorKind)

  // internals.defaults
  const TicketTtl: int := 60 * 60 * 1000
  const RsvpTtl: int := 1 * 60 * 1000
  const DefaultKeyBytes: int := 32
  const DefaultHmacAlgorithm: string := "sha256"

  datatype App = App(id: Option<string>, scope: Option<Scope>)

  datatype Grant = Grant(id: Option<string>, user: Option<string>, exp: Option<int>, scope: Option<Scope>)

  /** The per-call options object (the Iron overrides are not modelled). */
  datatype Options = Options(
    ttl: Option<int>,
    delegate: Option<bool>,
    ext: Option<Json>,
    dlg: Option<string>,
    scope: Option<Scope>,
    issueTo: Option<string>,
    keyBytes: Option<int>,
    hmacAlgorithm: Option<string>)

  /** A ticket object: a draft, a sealed draft, a ticket returned to a caller
      or one recovered by parse all have this shape. */
  datatype Ticket = Ticket(
    exp: Option<int>,
    app: Option<string>,
    scope: Option<Scope>,
    grant: Option<string>,
    user: Option<string>,
    grantExp: Option<int>,
    delegate: Option<bool>,
    dlg: Option<string>,
    key: Option<string>,
    algorithm: Option<string>,
    ext: Option<Json>,
    id: Option<string>)

  /** The RSVP envelope that is sealed into an RSVP string. */
  datatype Envelope = Envelope(
    app: Option<string>,
    exp: Option<int>,
    grant: Option<string>,
    dlg: Option<string>,
    scope: Option<Scope>)

  /** What gets sealed: a ticket or an RSVP envelope. */
  datatype Sealed = TicketBody(ticket: Ticket) | RsvpBody(envelope: Envelope)

  /** The scope module: `validate` holds when validate returns no error;
      `isSubset(superset, subset)`, where the superset may be undefined. */
  datatype ScopeModule = ScopeModule(
    validate: Scope -> bool,
    isSubset: (Option<Scope>, Scope) -> bool)

  /** The Iron engine: authenticated sealing under a password; None is an error. */
  datatype Iron = Iron(
    seal: (Sealed, string) -> Option<string>,
    unseal: (string, string) -> Option<Sealed>)

  /** The guarantee this model asks of Iron: unsealing a sealed value under the
      same password gives the value back. */
  ghost predicate Inverts(iron: Iron) {
    forall x: Sealed, password: string :: iron.seal(x, password).Some? ==>
      iron.unseal(iron.seal(x, password).value, password) == Some(x)
  }

  /** A hypothesis on the scope module: subset is transitive, also from an
      undefined superset. */
  ghost predicate SubsetTransitive(isSubset: (Option<Scope>, Scope) -> bool) {
    forall a: Option<Scope>, b: Scope, c: Scope :: isSubset(a, b) && isSubset(Some(b), c) ==> isSubset(a, c)
  }

  /** `!grant.id || !grant.user || !grant.exp` is false. */
  predicate GrantComplete(g: Grant) {
    TruthyStr(g.id) && TruthyStr(g.user) && TruthyNum(g.exp)
  }

  /** The claims of a ticket: every field but `key`, `algorithm`, `ext` and `id`. */
  predicate SameClaims(a: Ticket, b: Ticket) {
    a.exp == b.exp && a.app == b.app && a.scope == b.scope &&
    a.grant == b.grant && a.user == b.user && a.grantExp == b.grantExp &&
    a.delegate == b.delegate && a.dlg == b.dlg
  }

  /** `options.ttl || internals.defaults.ticketTTL` */
  function TicketLifetime(ttl: Option<int>): int {
    if TruthyNum(ttl) then ttl.value else TicketTtl
  }

  function Min(a: int, b: int): int {
    if a <= b then a else b
  }

  /** The expiry stamped on a new ticket by issue and by reissue: now plus
      the lifetime, lowered to the grant's expiry when a grant is given. */
  function Expiry(now: int, ttl: Option<int>, grant: Option<Grant>): (exp: int)
    requires grant.Some? ==> grant.value.exp.Some?
    ensures exp <= now + TicketLifetime(ttl)
    ensures grant.Some? ==> exp <= grant.value.exp.value
    ensures exp == now + TicketLifetime(ttl) || (grant.Some? && exp == grant.value.exp.value)
  {
    var exp := now + TicketLifetime(ttl);
    if grant.Some? then Min(exp, grant.value.exp.value) else exp
  }

  /** An options object that a callee may write to. */
  class OptionsObject {
    var ttl: Option<int>
    var delegate: Option<bool>
    var ext: Option<Json>
    var dlg: Option<string>
    var scope: Option<Scope>
    var issueTo: Option<string>
    var keyBytes: Option<int>
    var hmacAlgorithm: Option<string>

    constructor (o: Options)
      ensures Value() == o
    {
      ttl, delegate, ext, dlg := o.ttl, o.delegate, o.ext, o.dlg;
      scope, issueTo, keyBytes, hmacAlgorithm := o.scope, o.issueTo, o.keyBytes, o.hmacAlgorithm;
    }

    /** The object's current properties as a value. */
    function Value(): Options
      reads this
    {
      Options(ttl, delegate, ext, dlg, scope, issueTo, keyBytes, hmacAlgorithm)
    }
  }
}
