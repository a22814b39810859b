# Oz ticket core, modelled in Dafny

This project models the ticket logic of Oz, a protocol for delegating access
with sealed tickets (`lib/ticket.js`). Applications receive tickets that
expire, are bound to a scope and are opaque to the client. A ticket may act
for a user (through a grant) and may be delegated to another application.

The model covers:

- `issue`: argument checks, scope resolution, the grant-scope-within-app-scope
  check, the expiry cap and the draft ticket;
- `reissue`: scope narrowing, the sticky `delegate === false` restriction,
  one-hop delegation (`dlg`), grant linkage and `ext` inheritance through a
  shallow copy of the options;
- `rsvp`, `delegateRsvp` and `_rsvp`: the sealed short-lived envelope,
  including the defaulted `ttl` that `_rsvp` writes back into the caller's
  options object;
- `generate`: key and algorithm, the explicit copy of `ext.public` /
  `ext.private`, sealing, and redaction of `ext` down to its public part;
  modelled both as a function and as a method that mutates the caller's ticket
  object in place;
- `parse`: unsealing and attaching the id;
- the defaults: ticket TTL 3 600 000 ms, RSVP TTL 60 000 ms, 32 key bytes,
  `sha256`.

JavaScript objects are datatypes whose optional properties are `Option`
fields. JavaScript truthiness is written out (`TruthyStr`, `TruthyNum`,
`TruthyJson`):

- a `ttl` of 0 falls back to the default, as an absent one does;
- an empty scope array is truthy, so it is used and not skipped;
- an empty-string `issueTo` or `dlg` counts as absent.

`ext` payloads are a small JSON datatype, so `ext.public` and `ext.private`
are real property reads.

The collaborators are parameters:

- the scope module is a pair of uninterpreted functions (`validate`, `isSubset`);
- Iron is a pair of uninterpreted functions (`seal`, `unseal`). Either may fail;
  lemmas that need unsealing to undo sealing say so with the hypothesis
  `Inverts(iron)`;
- `Cryptiles.randomString` is a function parameter that may fail;
- `Hawk.utils.now()` is an integer parameter.

Module layout: `JsValues` (JS values and truthiness), `Model` (records, errors,
defaults, collaborators), `Finalizer` (`generate`, `parse`), `Issuer`
(`issue`), `Reissuer` (`reissue` and the derivation policy `Descends`),
`RsvpIssuer` (the RSVP functions), and `Lineage` (properties of whole chains of
reissues, each child recovered by `parse` before it is reissued).

In these places the code behaves differently from what its error kinds and
API suggest; the model follows the code:

- In `issue`, a grant scope outside the app scope fails with an Internal
  error, not Forbidden (`lib/ticket.js:89`).
- In `reissue`, a grant that does not match the parent's grant fails with an
  Internal error (`lib/ticket.js:211`).
- `_rsvp` writes the defaulted `ttl` into the caller's options object
  (`lib/ticket.js:354`), against the design intent that no operation mutates
  a caller's object. A later `issue` with the same options object
  therefore sees a ttl of 60 000 ms.
- `delegateRsvp` does not check its `scope` against the grant's scope
  (`DelegateRsvpIgnoresGrantScope` proves the outcome ignores `grant.scope`).
- The one-hop cap on delegation relies on every ticket having an app.
  `reissue` records a delegation by copying `parentTicket.app` into `dlg`
  (`lib/ticket.js:242`). A parent without an app would give a child with an
  empty `dlg`, and that child could be delegated again. Tickets made by
  `issue` always have an app (`lib/ticket.js:62`), so `AtMostOneHop` assumes
  the root has one.

## Model

| member | source | states |
|---|---|---|
| `Model.Expiry` | lib/ticket.js:94-97 | the new expiry is at most now + (ttl, or 3 600 000 when ttl is absent or 0), at most `grant.exp` when a grant is given, and equal to one of the two |
| `Finalizer.CopyExt` | lib/ticket.js:421-433 | the copied ext is a fresh object with no properties besides `public` and `private`, each equal to the caller's when defined |
| `Finalizer.Generate` | lib/ticket.js:405-458 | a random-source or seal failure is a Crypto error; on success `key` is the random string of `keyBytes` (default 32) bytes, `algorithm` is `hmacAlgorithm` or `sha256`, `id` is the seal of the prepared ticket, the claims are the draft's, and with a truthy `options.ext` the returned `ext` is exactly `ext.public`; otherwise an `ext` the draft already carries is likewise cut down to its `public` part |
| `Finalizer.GenerateInPlace` | lib/ticket.js:405-458 | on the caller's object: success leaves the object equal to `Generate`'s result; a random failure leaves it untouched; a seal failure leaves `key`, `algorithm` and `ext` already written |
| `Finalizer.Parse` | lib/ticket.js:469-491 | a missing password or options fails Internal; a failed unseal fails Crypto; otherwise the unsealed ticket, or for an RSVP envelope its `app`, `exp`, `scope`, `grant` and `dlg` as a ticket, is returned with `id` set to the given id |
| `Finalizer.ParseInvertsGenerate` | lib/ticket.js:437-454 | when unsealing undoes sealing, parse of generate's id gives the sealed draft (key and full ext included) with the id attached, and generate's ticket is the redaction of that record |
| `Finalizer.ExtPrivacy` | lib/ticket.js:421-454 | with a truthy `options.ext`, the returned ticket shows only `ext.public`, while parse recovers an ext holding exactly the caller's `public` and `private` parts |
| `Issuer.IssueDraft` | lib/ticket.js:58-117 | a draft is built exactly when every check passes; fails Internal without `app.id`, a complete grant, a password or options; fails ScopeInvalid exactly when the resolved scope is invalid; fails Internal when given app and grant scopes are not subset-related; on success the scope is the resolved one and valid, `exp` is capped by now + ttl and by `grant.exp`, the grant fields are copied, `delegate` is false exactly when `options.delegate === false`, `dlg` is a truthy `options.dlg`, and nothing else is set |
| `Issuer.Issue` | lib/ticket.js:58-120 | a failed check is issue's error; once the checks pass, issue succeeds exactly when the random source and the seal do, and otherwise fails Crypto; an issued ticket has the draft's claims, the fresh key, `algorithm` = `hmacAlgorithm` or `sha256`, and as `id` the seal of the prepared draft, `exp <= grant.exp` under a grant, and `ext` equal to `ext.public` (absent without ext); a Crypto error only after all checks pass |
| `Issuer.IssueScopePrecedence` | lib/ticket.js:78 | the scope is `options.scope`, else `grant.scope`, else `app.scope`, else the empty list |
| `Issuer.IssueValidatesFirst` | lib/ticket.js:62-90 | a request that fails a check fails the same way whatever the random source and Iron do, and never with a Crypto error |
| `Issuer.IssueRoundTrip` | lib/ticket.js:119 | parse of an issued ticket's id gives the issued draft with key, algorithm, full ext and id |
| `Reissuer.EffectiveOptions` | lib/ticket.js:228-233 | the options generate reads differ from the caller's only in `ext`, which is the parent's when the caller gave none and the parent has one; otherwise they are the caller's options unchanged |
| `Reissuer.ReissueDraft` | lib/ticket.js:152-252 | a draft is built exactly when every check passes; each check, in source order, gives its own error; each error kind has its cause: ScopeInvalid an invalid parent or options scope; Internal a missing argument or an incomplete or unlinked grant; Forbidden a widened scope, a relaxed restriction or delegation of a restricted ticket; BadRequest a second hop, checked before the restricted-delegation check; on success the policy `Descends` holds, the scope is `options.scope` or the parent's, `exp` is capped, grant linkage holds and the grant fields are copied, and `delegate` is false exactly when the parent or the options say false |
| `Reissuer.Reissue` | lib/ticket.js:152-255 | a failed check is reissue's error; once the checks pass, reissue succeeds exactly when the random source and the seal do, and otherwise fails Crypto; a reissued ticket has `ReissueDraft`'s claims, obeys `Descends` against its parent, carries the random key, `algorithm` = `hmacAlgorithm` or `sha256`, and as `id` the seal of the prepared draft, has `exp <= grant.exp`, and shows `ext.public` of the caller's ext, else of the parent's, else no ext |
| `Reissuer.ReissueInheritsExt` | lib/ticket.js:228-233 | without a caller ext, the reissued ticket seals the parent's public and private ext, through options that are a copy, not the caller's |
| `RsvpIssuer.SealRsvp` | lib/ticket.js:334-376 | fails Internal exactly when `app.id` is missing, a grant lacks an id, or the password or options are missing; otherwise it succeeds exactly when sealing does, and the RSVP is verbatim the seal of the envelope with `app`, `exp = now + (ttl or 60 000)` and the grant id |
| `RsvpIssuer.RsvpFor` | lib/ticket.js:277-286 | fails Internal exactly without a grant or when `_rsvp`'s checks fail; otherwise succeeds exactly when sealing does; an RSVP is the seal of `{app, exp, grant}` and nothing else |
| `RsvpIssuer.DelegateRsvpFor` | lib/ticket.js:317-332 | fails Internal exactly without `dlg.id` or when `_rsvp`'s checks fail; otherwise succeeds exactly when sealing does; an RSVP is the seal of `{app, exp, dlg}`, plus the grant id and the scope when both a grant and a scope are given |
| `RsvpIssuer.RsvpOpens` | lib/ticket.js:354-375 | unsealing an RSVP gives back its envelope; with no ttl its expiry is now + 60 000 |
| `RsvpIssuer.DelegateRsvpOpens` | lib/ticket.js:321-331 | unsealing a delegated RSVP gives the app, expiry, `dlg`, grant id and, only with a grant, the scope as passed |
| `RsvpIssuer.DelegateRsvpIgnoresGrantScope` | lib/ticket.js:327-329 | the outcome of delegateRsvp does not depend on the grant's scope: the delegated scope is not subset-checked |
| `RsvpIssuer.RsvpCore` | lib/ticket.js:334-376 | on the caller's options object: the result is `SealRsvp`'s; once the checks pass, `options.ttl` becomes the defaulted ttl, even if sealing then fails; otherwise the object is untouched |
| `RsvpIssuer.Rsvp` | lib/ticket.js:277-286 | the result is `RsvpFor`'s, and the caller's options get the defaulted ttl exactly when the checks pass |
| `RsvpIssuer.DelegateRsvp` | lib/ticket.js:317-332 | the result is `DelegateRsvpFor`'s, and the caller's options get the defaulted ttl exactly when the checks pass |
| `Lineage.RenewDescends` | lib/ticket.js:222-252 | the ticket recovered by parse after a reissue obeys `Descends` against its parent |
| `Lineage.RestrictionIsSticky` | lib/ticket.js:186-199 | from a parent with `delegate === false`, every descendant keeps `delegate === false` and the same app, and no request in the lineage delegates |
| `Lineage.AtMostOneHop` | lib/ticket.js:192-200 | from a ticket with an app, a lineage delegates at most once and never when the root already has `dlg`; after a delegation every descendant carries `dlg` |
| `Lineage.ScopeNeverWidens` | lib/ticket.js:175-184 | if the scope module's subset relation is transitive, every descendant's scope is the root's or a subset of it |
| `Lineage.GrantIsFixed` | lib/ticket.js:206-213 | every descendant carries the root's grant id, and none carries a grant the root lacked |

## Left out

- Iron's cryptography (`lib/ticket.js:367`, `:437`, `:481`) is a pair of uninterpreted functions. The `options.iron` overrides are not modelled. The password is a string, with `""` standing for a missing one; Iron's password objects are not modelled.
- `Cryptiles.randomString` is a function parameter that may fail. Its output is not modelled as random.
- `Hawk.utils.now()` is a parameter: one clock reading per call.
- The scope module (`./scope`) is not part of this model. `validate` and `isSubset` are uninterpreted, `isSubset` included when the parent's scope is undefined.
- `Hoek.nextTick` and the callbacks are left out: each operation returns a `Result`. `Boom` errors are reduced to their kind, with no messages or HTTP status codes.
- Every number is an unbounded integer: `ttl`, `exp`, `now`, `keyBytes`, `grant.exp` and the numbers inside `ext`. Fractions, `NaN` (which `options.ttl || default` treats as absent) and the loss of precision above 2^53 are not modelled. Ids, users and passwords are strings, so ids of other JavaScript types are not modelled.
- `_rsvp` merges `app`, `exp` and `grant` into the caller's envelope object; here the envelope is a value. `rsvp` and `delegateRsvp` always pass a fresh envelope, so only direct callers of `_rsvp` could see that mutation.
- Aliasing of `ext` payloads is not modelled: JSON values are immutable here. In the source, the returned ticket's `ext` is the same object as the caller's `options.ext.public`.
- `Issue` and `Reissue` finalise through the `Generate` function, not through `GenerateInPlace`. The draft object they pass is fresh, so the in-place updates are not visible to their callers.
- The shallow copy in `reissue` and the fresh object in `parse` are values here. The caller's options object cannot be changed by `Reissue` or `Parse`.
- `generate` with a missing options object throws a TypeError in the source. `Generate` takes an options value, so that case is not modelled.
- The commented example objects in `lib/ticket.js` are documentation only and are not modelled.
