/** Ticket finalisation (`generate`) and recovery of a ticket from its id
    (`parse`). */
module Finalizer {
  import opened JsValues
  import opened Model

  /** `options.keyBytes || internals.defaults.keyBytes` */
  function KeyBytes(options: Options): int {
    if TruthyNum(options.keyBytes) then options.keyBytes.value else DefaultKeyBytes
  }

  /** `options.hmacAlgorithm || internals.defaults.hmacAlgorithm` */
  function Algorithm(options: Options): string {
    if TruthyStr(options.hmacAlgorithm) then options.hmacAlgorithm.value else DefaultHmacAlgorithm
  }

  /** The explicit copy of `options.ext`: a new object holding its `public`
      and `private` properties when they are defined, and nothing else. */
  function CopyExt(ext: Json): (r: Json)
    ensures r.JObj? && r.fields.Keys <= {"public", "private"}
    ensures Field(r, "public") == Field(ext, "public")
    ensures Field(r, "private") == Field(ext, "private")
  {
    var pub := Field(ext, "public");
    var priv := Field(ext, "private");
    JObj((if pub.Some? then map["public" := pub.value] else map[]) +
         (if priv.Some? then map["private" := priv.value] else map[]))
  }

  /** The ticket as it is sealed: the draft with `key`, `algorithm` and, when
      `options.ext` is truthy, the copied `ext`. */
  function Prepare(draft: Ticket, options: Options, key: string): (t: Ticket)
  {
    draft.(key := Some(key), algorithm := Some(Algorithm(options)),
           ext := if TruthyJson(options.ext) then Some(CopyExt(options.ext.value)) else draft.ext)
  }

  /** The ticket handed back: `id` is the sealed string and a truthy `ext` is
      replaced by its `public` property, or removed when that is undefined. */
  function Redact(sealed: Ticket, id: string): (t: Ticket)
  {
    sealed.(id := Some(id),
            ext := if TruthyJson(sealed.ext) then Field(sealed.ext.value, "public") else sealed.ext)
  }

  /** generate: draw a key, seal the prepared ticket, return it redacted. */
  function Generate(draft: Ticket, password: string, options: Options,
                    randomString: int -> Option<string>, iron: Iron): (r: Result<Ticket>)
    ensures r.Err? ==> r.error == Crypto
    ensures randomString(KeyBytes(options)).None? ==> r.Err?
    ensures r.Ok? ==> r.value.key == randomString(KeyBytes(options))
    ensures r.Ok? ==> r.value.algorithm == Some(Algorithm(options))
    ensures r.Ok? ==> r.value.id.Some? &&
                      iron.seal(TicketBody(Prepare(draft, options, r.value.key.value)), password) == r.value.id
    ensures randomString(KeyBytes(options)).Some? ==>
              (r.Ok? <==> iron.seal(TicketBody(Prepare(draft, options, randomString(KeyBytes(options)).value)), password).Some?)
    ensures r.Ok? && TruthyJson(options.ext) ==> r.value.ext == Field(options.ext.value, "public")
    ensures r.Ok? && !TruthyJson(options.ext) ==>
              r.value.ext == (if TruthyJson(draft.ext) then Field(draft.ext.value, "public") else draft.ext)
    ensures r.Ok? ==> SameClaims(r.value, draft)
  {
    match randomString(KeyBytes(options))
    case None => Err(Crypto)
    case Some(key) =>
      var sealed := Prepare(draft, options, key);
      match iron.seal(TicketBody(sealed), password)
      case None => Err(Crypto)
      case Some(id) => Ok(Redact(sealed, id))
  }

  /** The object parse gives back when the id holds an RSVP envelope. */
  function EnvelopeAsTicket(e: Envelope): (t: Ticket)
  {
    Ticket(e.exp, e.app, e.scope, e.grant, None, None, None, e.dlg, None, None, None, None)
  }

  /** parse: unseal the id and attach the id to what comes out. */
  function Parse(id: string, password: string, options: Option<Options>, iron: Iron): (r: Result<Ticket>)
    ensures password == "" || options.None? ==> r == Err(Internal)
    ensures r.Err? && password != "" && options.Some? ==> r.error == Crypto && iron.unseal(id, password).None?
    ensures r.Ok? ==> r.value.id == Some(id)
    ensures r.Ok? ==> iron.unseal(id, password).Some?
    ensures r.Ok? && iron.unseal(id, password).value.TicketBody? ==>
              r.value == iron.unseal(id, password).value.ticket.(id := Some(id))
    ensures r.Ok? && iron.unseal(id, password).value.RsvpBody? ==>
              r.value == EnvelopeAsTicket(iron.unseal(id, password).value.envelope).(id := Some(id))
  {
    if password == "" then Err(Internal)
    else if options.None? then Err(Internal)
    else
      match iron.unseal(id, password)
      case None => Err(Crypto)
      case Some(TicketBody(t)) => Ok(t.(id := Some(id)))
      case Some(RsvpBody(e)) => Ok(EnvelopeAsTicket(e).(id := Some(id)))
  }

  /** parse(generate(draft).id) is the sealed draft, key and full ext
      included, with the id attached; the ticket generate returns is that
      same record redacted. */
  lemma ParseInvertsGenerate(draft: Ticket, password: string, options: Options,
                             randomString: int -> Option<string>, iron: Iron, t: Ticket)
    requires Inverts(iron) && password != ""
    requires Generate(draft, password, options, randomString, iron) == Ok(t)
    ensures t.id.Some? && t.key.Some?
    ensures Parse(t.id.value, password, Some(options), iron) == Ok(Prepare(draft, options, t.key.value).(id := t.id))
    ensures t == Redact(Parse(t.id.value, password, Some(options), iron).value, t.id.value)
  {
  }

  /** ext privacy: with a truthy options.ext, the returned ticket shows only
      ext.public while parse recovers both public and private parts. */
  lemma ExtPrivacy(draft: Ticket, password: string, options: Options,
                   randomString: int -> Option<string>, iron: Iron, t: Ticket)
    requires Inverts(iron) && password != "" && TruthyJson(options.ext)
    requires Generate(draft, password, options, randomString, iron) == Ok(t)
    ensures t.ext == Field(options.ext.value, "public")
    ensures t.id.Some? && Parse(t.id.value, password, Some(options), iron).Ok?
    ensures var full := Parse(t.id.value, password, Some(options), iron).value.ext;
            full.Some? && full.value.JObj? && full.value.fields.Keys <= {"public", "private"} &&
            Field(full.value, "public") == Field(options.ext.value, "public") &&
            Field(full.value, "private") == Field(options.ext.value, "private")
  {
    ParseInvertsGenerate(draft, password, options, randomString, iron, t);
  }

  /** A ticket object that generate fills in and redacts in place. */
  class TicketObject {
    var exp: Option<int>
    var app: Option<string>
    var scope: Option<Scope>
    var grant: Option<string>
    var user: Option<string>
    var grantExp: Option<int>
    var delegate: Option<bool>
    var dlg: Option<string>
    var key: Option<string>
    var algorithm: Option<string>
    var ext: Option<Json>
    var id: Option<string>

    constructor (t: Ticket)
      ensures Value() == t
    {
      exp, app, scope, grant := t.exp, t.app, t.scope, t.grant;
      user, grantExp, delegate, dlg := t.user, t.grantExp, t.delegate, t.dlg;
      key, algorithm, ext, id := t.key, t.algorithm, t.ext, t.id;
    }

    /** The object's current properties as a value. */
    function Value(): Ticket
      reads this
    {
      Ticket(exp, app, scope, grant, user, grantExp, delegate, dlg, key, algorithm, ext, id)
    }
  }

  /** generate as the source runs it, on the caller's object: a failure of
      the random source leaves the object as it was; a sealing failure leaves
      `key`, `algorithm` and `ext` already written. */
  method GenerateInPlace(ticket: TicketObject, password: string, options: Options,
                         randomString: int -> Option<string>, iron: Iron) returns (r: Result<TicketObject>)
    modifies ticket
    ensures r.Ok? <==> Generate(old(ticket.Value()), password, options, randomString, iron).Ok?
    ensures r.Ok? ==> r.value == ticket &&
                      ticket.Value() == Generate(old(ticket.Value()), password, options, randomString, iron).value
    ensures r.Err? ==> r.error == Crypto
    ensures randomString(KeyBytes(options)).None? ==> ticket.Value() == old(ticket.Value())
    ensures randomString(KeyBytes(options)).Some? && r.Err? ==>
              ticket.Value() == Prepare(old(ticket.Value()), options, randomString(KeyBytes(options)).value)
  {
    var random := randomString(KeyBytes(options));
    if random.None? {
      return Err(Crypto);
    }
    ticket.key := random;
    ticket.algorithm := Some(Algorithm(options));
    if TruthyJson(options.ext) {
      var copy: map<string, Json> := map[];
      var pub := Field(options.ext.value, "public");
      if pub.Some? {
        copy := copy["public" := pub.value];
      }
      var priv := Field(options.ext.value, "private");
      if priv.Some? {
        copy := copy["private" := priv.value];
      }
      assert JObj(copy) == CopyExt(options.ext.value);
      ticket.ext := Some(JObj(copy));
    }
    var sealed := iron.seal(TicketBody(ticket.Value()), password);
    if sealed.None? {
      return Err(Crypto);
    }
    ticket.id := sealed;
    if TruthyJson(ticket.ext) {
      var pub := Field(ticket.ext.value, "public");
      if pub.Some? {
        ticket.ext := pub;
      } else {
        ticket.ext := None;
      }
    }
    r := Ok(ticket);
  }
}
